/** The JSON-LD lists of the structured data: the breadcrumb trail and the
    FAQ page, built element by element from their inputs, and the FAQs of the
    home page. */
module StructuredData {

  datatype BreadcrumbItem = BreadcrumbItem(name: string, url: string)

  datatype FaqItem = FaqItem(question: string, answer: string)

  /** A `ListItem` of a `BreadcrumbList`. */
  datatype ListItem = ListItem(position: int, name: string, item: string)

  /** A `Question` with its `acceptedAnswer` of type `Answer`. */
  datatype Question = Question(name: string, acceptedAnswerText: string)

  /** `itemListElement`: one entry per breadcrumb, in order, numbered from 1. */
  function BreadcrumbElements(items: seq<BreadcrumbItem>): (r: seq<ListItem>)
    ensures |r| == |items|
  {
    seq(|items|, i requires 0 <= i < |items| => ListItem(i + 1, items[i].name, items[i].url))
  }

  /** `mainEntity`: one question per FAQ, in order. */
  function FaqEntities(faqs: seq<FaqItem>): (r: seq<Question>)
    ensures |r| == |faqs|
  {
    seq(|faqs|, i requires 0 <= i < |faqs| => Question(faqs[i].question, faqs[i].answer))
  }

  /** Reading the breadcrumbs back out of the list. */
  function BreadcrumbsOf(elements: seq<ListItem>): seq<BreadcrumbItem>
  {
    seq(|elements|, i requires 0 <= i < |elements| => BreadcrumbItem(elements[i].name, elements[i].item))
  }

  /** Reading the FAQs back out of the questions. */
  function FaqsOf(entities: seq<Question>): seq<FaqItem>
  {
    seq(|entities|, i requires 0 <= i < |entities| => FaqItem(entities[i].name, entities[i].acceptedAnswerText))
  }

  /** The breadcrumb list loses nothing and reorders nothing: the breadcrumbs
      can be read back from it, and the positions run 1, 2, ... in order. */
  lemma BreadcrumbsRoundTrip(items: seq<BreadcrumbItem>)
    ensures BreadcrumbsOf(BreadcrumbElements(items)) == items
    ensures forall i :: 0 <= i < |items| ==> BreadcrumbElements(items)[i].position == i + 1
  {
  }

  /** The FAQ page loses nothing and reorders nothing: question becomes
      `name`, answer becomes `acceptedAnswer.text`. */
  lemma FaqRoundTrip(faqs: seq<FaqItem>)
    ensures FaqsOf(FaqEntities(faqs)) == faqs
  {
  }

  /** One more breadcrumb adds one element at the end, numbered after the
      others; the earlier ones are unchanged. */
  lemma BreadcrumbAppend(items: seq<BreadcrumbItem>, last: BreadcrumbItem)
    ensures BreadcrumbElements(items + [last]) == BreadcrumbElements(items) + [ListItem(|items| + 1, last.name, last.url)]
  {
  }

  /** The FAQ list is built element by element: the list for two runs of
      FAQs is the two lists one after the other. */
  lemma FaqConcat(a: seq<FaqItem>, b: seq<FaqItem>)
    ensures FaqEntities(a + b) == FaqEntities(a) + FaqEntities(b)
  {
  }

  /** The FAQs of the home page. */
  const HomepageFaqs: seq<FaqItem> := [Faq1, Faq2, Faq3, Faq4, Faq5]

  const Faq1 := FaqItem(
    "What does an AI consultant do for enterprises?",
    "An enterprise AI consultant helps organizations identify high-value AI opportunities, develop implementation strategies, select the right technologies and vendors, navigate regulatory requirements, and move AI projects from pilot to production. At Salinas AI Consulting, we focus specifically on regulated industries where governance and compliance are critical.")

  const Faq2 := FaqItem(
    "How much does enterprise AI consulting cost?",
    "Enterprise AI consulting engagements typically range from focused assessments (1-2 weeks) to full implementation advisory (3-6 months). Pricing depends on scope, complexity, and industry requirements. Salinas AI Consulting offers a free initial consultation to assess your needs and provide a tailored proposal.")

  const Faq3 := FaqItem(
    "What industries does Salinas AI Consulting specialize in?",
    "Salinas AI Consulting specializes in regulated industries including healthcare, financial services, and government. These sectors require deep understanding of compliance frameworks (HIPAA, SOX, FedRAMP), data governance, and risk management when deploying AI systems.")

  const Faq4 := FaqItem(
    "What is the difference between AI strategy and AI implementation consulting?",
    "AI strategy consulting focuses on identifying where AI creates business value and creating a roadmap. AI implementation consulting takes that strategy and turns it into working systems \U{2014} selecting technologies, building governance frameworks, managing change, and ensuring production readiness. Salinas AI Consulting provides both, end-to-end.")

  const Faq5 := FaqItem(
    "How long does it take to implement AI in an enterprise?",
    "A typical enterprise AI implementation takes 3-12 months from strategy to production, depending on complexity, data readiness, and organizational maturity. Quick wins like process automation can be achieved in 4-8 weeks. Larger initiatives like predictive analytics platforms require 6-12 months for full deployment with proper governance.")

  /** A question ending in "?" with an answer longer than 50 characters. */
  predicate WellFormedFaq(f: FaqItem)
  {
    |f.question| > 0 && f.question[|f.question| - 1] == '?' && |f.answer| > 50
  }

  /** Five FAQs; every question ends in "?" and every answer is longer than
      50 characters. */
  lemma HomepageFaqsShape()
    ensures |HomepageFaqs| == 5
    ensures forall i :: 0 <= i < |HomepageFaqs| ==> WellFormedFaq(HomepageFaqs[i])
  {
    Faq1Shape();
    Faq2Shape();
    Faq3Shape();
    Faq4Shape();
    Faq5Shape();
  }

  lemma Faq1Shape()
    ensures WellFormedFaq(Faq1)
  {
  }

  lemma Faq2Shape()
    ensures WellFormedFaq(Faq2)
  {
  }

  lemma Faq3Shape()
    ensures WellFormedFaq(Faq3)
  {
  }

  lemma Faq4Shape()
    ensures WellFormedFaq(Faq4)
  {
  }

  lemma Faq5Shape()
    ensures WellFormedFaq(Faq5)
  {
  }
}
