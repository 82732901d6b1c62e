/** The `send-inquiry` serverless function: CORS with an origin allowlist,
    a per-client rate limit of 5 requests per 5 minutes, input validation
    with a fixed order of checks, and an HTML email in which every value the
    client sent is escaped. The email API and the environment are
    parameters: `apiKeySet` says whether the API key is configured and
    `sendOk` whether the API accepted the email. */
module SendInquiry {
  import opened Common
  import opened Strings
  import opened Json
  import opened Html
  import opened Patterns
  import opened RateLimit
  import opened Http

  const AllowedOrigins: seq<string> := ["https://salinas-ai-consulting.com", "https://www.salinas-ai-consulting.com"]

  const MaxRequests := 5
  const WindowMs := 300000
  const MaxBodyBytes := 20480
  const GenericError := "Unable to process your request. Please try again."

  /** The `Access-Control-Allow-Origin` value: the request's origin when it
      is allowlisted, the first allowlisted origin otherwise. */
  function AllowOrigin(origin: Option<string>): (r: string)
    ensures r in AllowedOrigins
    ensures origin.Some? && origin.value in AllowedOrigins ==> r == origin.value
    ensures origin.None? || origin.value !in AllowedOrigins ==> r == AllowedOrigins[0]
  {
    var o := if origin.Some? then origin.value else "";
    if o in AllowedOrigins then o else AllowedOrigins[0]
  }

  /** `getCorsHeaders(req)`. */
  function CorsHeaders(origin: Option<string>): (h: map<string, string>)
    ensures h.Keys == {"Access-Control-Allow-Origin", "Access-Control-Allow-Headers", "Access-Control-Allow-Methods", "Vary"}
    ensures h["Access-Control-Allow-Origin"] == AllowOrigin(origin) && h["Vary"] == "Origin"
  {
    map[
      "Access-Control-Allow-Origin" := AllowOrigin(origin),
      "Access-Control-Allow-Headers" := "authorization, x-client-info, apikey, content-type",
      "Access-Control-Allow-Methods" := "POST, OPTIONS",
      "Vary" := "Origin"]
  }

  /** The rate-limit key: the first forwarded address, else a non-empty
      `x-real-ip`, else "unknown". */
  function ClientKey(req: Request): (key: string)
    ensures key != []
    ensures ForwardedClient(req.forwardedFor) != [] ==> key == ForwardedClient(req.forwardedFor)
    ensures ForwardedClient(req.forwardedFor) == [] && req.realIp.Some? && req.realIp.value != [] ==> key == req.realIp.value
    ensures ForwardedClient(req.forwardedFor) == [] && (req.realIp.None? || req.realIp.value == []) ==> key == "unknown"
    ensures req.forwardedFor.None? && req.realIp.None? ==> key == "unknown"
  {
    var forwarded := ForwardedClient(req.forwardedFor);
    if forwarded != [] then forwarded
    else if req.realIp.Some? && req.realIp.value != [] then req.realIp.value
    else "unknown"
  }

  // ---------------------------------------------------------------------
  // validateInput

  datatype InquiryKind = Question | Consultation

  datatype InquiryData = InquiryData(kind: InquiryKind, name: string, email: string, message: string, context: Option<string>)

  /** The field when it holds a string (`typeof v === "string"`). */
  function StringField(v: Json, name: string): (r: Option<string>)
    ensures r.Some? <==> Field(v, name).Some? && Field(v, name).value.JString?
    ensures r.Some? ==> Field(v, name).value == JString(r.value)
  {
    match Field(v, name)
    case Some(JString(s)) => Some(s)
    case _ => None
  }

  /** The string in the field, or "" when there is none. */
  function Text(v: Json, name: string): string
  {
    if StringField(v, name).Some? then StringField(v, name).value else ""
  }

  function Kind(v: Json): (k: Option<InquiryKind>)
    ensures k == Some(Question) <==> FieldIs(v, "type", "question")
    ensures k == Some(Consultation) <==> FieldIs(v, "type", "consultation")
  {
    if FieldIs(v, "type", "question") then Some(Question)
    else if FieldIs(v, "type", "consultation") then Some(Consultation)
    else None
  }

  /** The name checks of `validateInput`: a string, not blank, at most 100
      characters before trimming. */
  function CheckName(data: Json): (r: Checked<string>)
    ensures r.Valid? ==> StringField(data, "name") == Some(r.data) && Trim(r.data) != [] && |r.data| <= 100
  {
    var name := StringField(data, "name");
    if name.None? || Trim(name.value) == [] then Invalid("Name is required")
    else if |name.value| > 100 then Invalid("Name must be less than 100 characters")
    else Valid(name.value)
  }

  /** The email checks: a string, then the pattern, then at most 255 characters. */
  function CheckEmail(data: Json): (r: Checked<string>)
    ensures r.Valid? ==> StringField(data, "email") == Some(r.data) && IsEmailShape(r.data) && |r.data| <= 255
  {
    var email := StringField(data, "email");
    if email.None? then Invalid("Email is required")
    else if !IsEmailShape(email.value) then Invalid("Invalid email address")
    else if |email.value| > 255 then Invalid("Email must be less than 255 characters")
    else Valid(email.value)
  }

  /** The message checks: a string, not blank, at most 2000 characters
      before trimming. */
  function CheckMessage(data: Json): (r: Checked<string>)
    ensures r.Valid? ==> StringField(data, "message") == Some(r.data) && Trim(r.data) != [] && |r.data| <= 2000
  {
    var message := StringField(data, "message");
    if message.None? || Trim(message.value) == [] then Invalid("Message is required")
    else if |message.value| > 2000 then Invalid("Message must be less than 2000 characters")
    else Valid(message.value)
  }

  /** The optional context: absent, or a string of at most 10000
      characters. `context ? String(context).slice(0, 10000) : undefined`
      then drops the empty string and never cuts. */
  function CheckContext(data: Json): (r: Checked<Option<string>>)
    ensures r.Valid? <==> Field(data, "context").None? || (StringField(data, "context").Some? && |StringField(data, "context").value| <= 10000)
    ensures r.Valid? ==> (r.data.Some? <==> StringField(data, "context").Some? && StringField(data, "context").value != [])
    ensures r.Valid? && r.data.Some? ==> r.data.value == StringField(data, "context").value && |r.data.value| <= 10000
  {
    var context := Field(data, "context");
    if context.Some? && !context.value.JString? then Invalid("Invalid context format")
    else if context.Some? && |context.value.s| > 10000 then Invalid("Context too long")
    else if context.Some? && context.value.s != [] then
      Valid(Some(context.value.s[..Min(|context.value.s|, 10000)]))
    else Valid(None)
  }

  /** `validateInput(data)`: the checks in order, the first failure decides. */
  function ValidateInput(data: Json): (r: Checked<InquiryData>)
    ensures r.Valid? ==> IsObjectLike(data) && Kind(data) == Some(r.data.kind)
  {
    if !IsObjectLike(data) then Invalid("Invalid request body")
    else if Kind(data).None? then Invalid("Invalid inquiry type")
    else match CheckName(data)
      case Invalid(e) => Invalid(e)
      case Valid(name) =>
    match CheckEmail(data)
      case Invalid(e) => Invalid(e)
      case Valid(email) =>
    match CheckMessage(data)
      case Invalid(e) => Invalid(e)
      case Valid(message) =>
    match CheckContext(data)
      case Invalid(e) => Invalid(e)
      case Valid(context) =>
    if IsInjection(name) || IsInjection(message) then Invalid(InvalidCharacters)
    else Valid(InquiryData(Kind(data).value, Trim(name), ToLowerAscii(Trim(email)), Trim(message), context))
  }

  /** What an accepted input satisfies, and how it is normalised: name and
      message trimmed, the address lower-cased (it holds no white space to
      trim), the context as the context stage returned it. */
  lemma ValidateInputAccepts(data: Json)
    requires ValidateInput(data).Valid?
    ensures var d := ValidateInput(data).data;
      && CheckName(data).Valid? && d.name == Trim(CheckName(data).data)
      && CheckEmail(data).Valid? && d.email == ToLowerAscii(CheckEmail(data).data)
      && CheckMessage(data).Valid? && d.message == Trim(CheckMessage(data).data)
      && CheckContext(data) == Valid(d.context)
      && !IsInjection(CheckName(data).data) && !IsInjection(CheckMessage(data).data)
  {
    var name, email, message, context := CheckName(data), CheckEmail(data), CheckMessage(data), CheckContext(data);
    assert name.Valid? && email.Valid? && message.Valid? && context.Valid?;
    assert !IsInjection(name.data) && !IsInjection(message.data);
    assert ValidateInput(data).data == InquiryData(Kind(data).value, Trim(name.data), ToLowerAscii(Trim(email.data)), Trim(message.data), context.data);
    EmailTrimmed(email.data);
  }

  const InvalidCharacters := "Invalid characters detected"

  /** The email pattern admits no white space, so trimming a matching
      address changes nothing. */
  lemma EmailTrimmed(email: string)
    requires IsEmailShape(email)
    ensures Trim(email) == email
  {
    TrimNoSpace(email);
  }

  function Min(a: int, b: int): int
  {
    if a <= b then a else b
  }

  /** One check of the validator: whether it fails, and its message. */
  datatype Check = Check(fails: bool, error: string)

  /** Reference for the order of the checks: every check as a condition on
      the whole input, in the order the validator makes them. */
  function InquiryChecks(data: Json): (r: seq<Check>)
    // twelve checks: the body and the type first, the injection screen last
    ensures |r| == 12
    ensures r[0].fails == !IsObjectLike(data) && r[1].fails == Kind(data).None?
    ensures r[11].error == InvalidCharacters
  {
    [ Check(!IsObjectLike(data), "Invalid request body"),
      Check(Kind(data).None?, "Invalid inquiry type") ]
    + NameChecks(data) + EmailChecks(data) + MessageChecks(data) + ContextChecks(data)
    + [ Check(IsInjection(Text(data, "name")) || IsInjection(Text(data, "message")), InvalidCharacters) ]
  }

  function NameChecks(data: Json): (r: seq<Check>)
    ensures |r| == 2
  {
    [ Check(StringField(data, "name").None? || Trim(Text(data, "name")) == [], "Name is required"),
      Check(|Text(data, "name")| > 100, "Name must be less than 100 characters") ]
  }

  function EmailChecks(data: Json): (r: seq<Check>)
    ensures |r| == 3
  {
    [ Check(StringField(data, "email").None?, "Email is required"),
      Check(!IsEmailShape(Text(data, "email")), "Invalid email address"),
      Check(|Text(data, "email")| > 255, "Email must be less than 255 characters") ]
  }

  function MessageChecks(data: Json): (r: seq<Check>)
    ensures |r| == 2
  {
    [ Check(StringField(data, "message").None? || Trim(Text(data, "message")) == [], "Message is required"),
      Check(|Text(data, "message")| > 2000, "Message must be less than 2000 characters") ]
  }

  function ContextChecks(data: Json): (r: seq<Check>)
    ensures |r| == 2
  {
    [ Check(Field(data, "context").Some? && StringField(data, "context").None?, "Invalid context format"),
      Check(|Text(data, "context")| > 10000, "Context too long") ]
  }

  /** The message of the first failing check, if any. */
  function FirstFailure(checks: seq<Check>): (r: Option<string>)
    ensures r.None? <==> forall i :: 0 <= i < |checks| ==> !checks[i].fails
    ensures r.Some? ==> exists i :: 0 <= i < |checks| && checks[i].fails && r.value == checks[i].error
  {
    if checks == [] then None
    else if checks[0].fails then Some(checks[0].error)
    else
      assert forall i :: 1 <= i < |checks| ==> checks[i] == checks[1..][i - 1];
      FirstFailure(checks[1..])
  }

  lemma {:induction false} FirstFailureAppend(a: seq<Check>, b: seq<Check>)
    ensures FirstFailure(a + b) == if FirstFailure(a).Some? then FirstFailure(a) else FirstFailure(b)
  {
    if a == [] {
      assert a + b == b;
    } else {
      assert (a + b)[1..] == a[1..] + b;
      FirstFailureAppend(a[1..], b);
    }
  }

  lemma FirstFailureOne(c: Check)
    ensures FirstFailure([c]) == if c.fails then Some(c.error) else None
  {
    assert [c][1..] == [];
  }

  lemma FirstFailureTwo(c0: Check, c1: Check)
    ensures FirstFailure([c0, c1]) == if c0.fails then Some(c0.error) else FirstFailure([c1])
  {
    assert [c0, c1][1..] == [c1];
  }

  lemma FirstFailureThree(c0: Check, c1: Check, c2: Check)
    ensures FirstFailure([c0, c1, c2]) == if c0.fails then Some(c0.error) else FirstFailure([c1, c2])
  {
    assert [c0, c1, c2][1..] == [c1, c2];
  }

  /** The result of a stage as `FirstFailure` reads its checks. */
  predicate Agrees<T>(r: Checked<T>, checks: seq<Check>)
  {
    (r.Invalid? <==> FirstFailure(checks).Some?) && (r.Invalid? ==> r.error == FirstFailure(checks).value)
  }

  lemma NameFollowsChecks(data: Json)
    ensures Agrees(CheckName(data), NameChecks(data))
  {
    var cs := NameChecks(data);
    FirstFailureTwo(cs[0], cs[1]);
    FirstFailureOne(cs[1]);
  }

  lemma EmailFollowsChecks(data: Json)
    ensures Agrees(CheckEmail(data), EmailChecks(data))
  {
    var cs := EmailChecks(data);
    FirstFailureThree(cs[0], cs[1], cs[2]);
    FirstFailureTwo(cs[1], cs[2]);
    FirstFailureOne(cs[2]);
  }

  lemma MessageFollowsChecks(data: Json)
    ensures Agrees(CheckMessage(data), MessageChecks(data))
  {
    var cs := MessageChecks(data);
    FirstFailureTwo(cs[0], cs[1]);
    FirstFailureOne(cs[1]);
  }

  lemma ContextFollowsChecks(data: Json)
    ensures Agrees(CheckContext(data), ContextChecks(data))
  {
    var cs := ContextChecks(data);
    FirstFailureTwo(cs[0], cs[1]);
    FirstFailureOne(cs[1]);
  }

  /** The validator reports the first failing check of `InquiryChecks`, in
      the order object, type, name, email pattern then length, message,
      context, injection screen; it accepts exactly when no check fails. */
  lemma ValidateInputFollowsChecks(data: Json)
    ensures Agrees(ValidateInput(data), InquiryChecks(data))
  {
    var head := [Check(!IsObjectLike(data), "Invalid request body"), Check(Kind(data).None?, "Invalid inquiry type")];
    var last := [Check(IsInjection(Text(data, "name")) || IsInjection(Text(data, "message")), InvalidCharacters)];
    var a1 := head + NameChecks(data);
    var a2 := a1 + EmailChecks(data);
    var a3 := a2 + MessageChecks(data);
    var a4 := a3 + ContextChecks(data);
    FirstFailureAppend(a4, last);
    FirstFailureAppend(a3, ContextChecks(data));
    FirstFailureAppend(a2, MessageChecks(data));
    FirstFailureAppend(a1, EmailChecks(data));
    FirstFailureAppend(head, NameChecks(data));
    FirstFailureTwo(head[0], head[1]);
    FirstFailureOne(head[1]);
    FirstFailureOne(last[0]);
    NameFollowsChecks(data);
    EmailFollowsChecks(data);
    MessageFollowsChecks(data);
    ContextFollowsChecks(data);
  }

  /** The context is not screened for injection: replacing one context of
      at most 10000 characters by another leaves the verdict as it is. */
  lemma ContextNotScreened(fields: map<string, Json>, c1: string, c2: string)
    requires |c1| <= 10000 && |c2| <= 10000
    ensures ValidateInput(JObject(fields["context" := JString(c1)])).Valid?
        <==> ValidateInput(JObject(fields["context" := JString(c2)])).Valid?
  {
    var d1 := JObject(fields["context" := JString(c1)]);
    var d2 := JObject(fields["context" := JString(c2)]);
    SameFieldsSameStages(d1, d2);
    assert CheckContext(d1).Valid? && CheckContext(d2).Valid?;
    ValidateInputStages(d1);
    ValidateInputStages(d2);
  }

  /** Two objects that agree on every field but "context" agree on every
      stage but the context stage. */
  lemma SameFieldsSameStages(d1: Json, d2: Json)
    requires d1.JObject? && d2.JObject?
    requires forall name :: name != "context" ==> Field(d1, name) == Field(d2, name)
    ensures Kind(d1) == Kind(d2)
    ensures CheckName(d1) == CheckName(d2) && CheckEmail(d1) == CheckEmail(d2) && CheckMessage(d1) == CheckMessage(d2)
  {
    SameKind(d1, d2);
    SameName(d1, d2);
    SameEmail(d1, d2);
    SameMessage(d1, d2);
  }

  lemma SameKind(d1: Json, d2: Json)
    requires Field(d1, "type") == Field(d2, "type")
    ensures Kind(d1) == Kind(d2)
  {
  }

  lemma SameName(d1: Json, d2: Json)
    requires Field(d1, "name") == Field(d2, "name")
    ensures CheckName(d1) == CheckName(d2)
  {
    assert StringField(d1, "name") == StringField(d2, "name");
  }

  lemma SameEmail(d1: Json, d2: Json)
    requires Field(d1, "email") == Field(d2, "email")
    ensures CheckEmail(d1) == CheckEmail(d2)
  {
    assert StringField(d1, "email") == StringField(d2, "email");
  }

  lemma SameMessage(d1: Json, d2: Json)
    requires Field(d1, "message") == Field(d2, "message")
    ensures CheckMessage(d1) == CheckMessage(d2)
  {
    assert StringField(d1, "message") == StringField(d2, "message");
  }

  /** Acceptance is the conjunction of the stages. */
  lemma ValidateInputStages(data: Json)
    ensures ValidateInput(data).Valid? <==>
      && IsObjectLike(data) && Kind(data).Some?
      && CheckName(data).Valid? && CheckEmail(data).Valid? && CheckMessage(data).Valid? && CheckContext(data).Valid?
      && !IsInjection(CheckName(data).data) && !IsInjection(CheckMessage(data).data)
  {
  }

  // ---------------------------------------------------------------------
  // The email

  /** A piece of the HTML body: fixed template text, or a value from the
      client that is rendered through `EscapeHtml`. */
  datatype Piece = Markup(text: string) | Escaped(raw: string)

  function RenderPiece(p: Piece): string
  {
    match p
    case Markup(t) => t
    case Escaped(raw) => EscapeHtml(raw)
  }

  function Render(ps: seq<Piece>): string
  {
    if ps == [] then [] else RenderPiece(ps[0]) + Render(ps[1..])
  }

  /** What the client's values contribute to the body holds no `<`, `>`,
      `"` or `'`: a run of escaped pieces renders to safe text. */
  lemma {:induction false} RenderEscapedSafe(ps: seq<Piece>)
    requires forall i :: 0 <= i < |ps| ==> ps[i].Escaped?
    ensures SafeText(Render(ps))
    decreases |ps|
  {
    if ps != [] {
      RenderEscapedSafe(ps[1..]);
      var h := RenderPiece(ps[0]);
      assert SafeText(h) by {
        EscapeHtmlSafe(ps[0].raw);
      }
      SafeTextAppend(h, Render(ps[1..]));
    }
  }

  predicate SafeText(s: string)
  {
    forall k :: 0 <= k < |s| ==> !IsDangerous(s[k])
  }

  lemma SafeTextAppend(a: string, b: string)
    requires SafeText(a) && SafeText(b)
    ensures SafeText(a + b)
  {
    assert forall k :: 0 <= k < |a + b| ==> (a + b)[k] == if k < |a| then a[k] else b[k - |a|];
  }

  /** The rendering of pieces in sequence is the renderings in sequence. */
  lemma {:induction false} RenderAppend(a: seq<Piece>, b: seq<Piece>)
    ensures Render(a + b) == Render(a) + Render(b)
    decreases |a|
  {
    if a == [] {
      assert a + b == b;
    } else {
      assert (a + b)[0] == a[0] && (a + b)[1..] == a[1..] + b;
      RenderAppend(a[1..], b);
    }
  }

  /** The body with every client value blanked out: the template alone. */
  function Skeleton(ps: seq<Piece>): (r: seq<Piece>)
    ensures |r| == |ps|
  {
    seq(|ps|, i requires 0 <= i < |ps| => if ps[i].Escaped? then Escaped("") else ps[i])
  }

  function Heading(kind: InquiryKind): string
  {
    if kind == Consultation then "New Consultation Request" else "New Question"
  }

  function TypeLabel(kind: InquiryKind): string
  {
    if kind == Consultation then "Consultation Request" else "General Question"
  }

  const ContextHeading := "<div><h3>Chat Context:</h3><div>\n"
  const BlockEnd := "\n</div></div>"
  const Footer := "<hr><p>This message was sent via the AI chatbot on your website.</p></div>"

  /** The heading, the sender block and the message block. */
  function MainPieces(d: InquiryData): (ps: seq<Piece>)
    ensures |ps| == 9
  {
    [ Markup("<div><h2>" + Heading(d.kind) + "</h2><div><p><strong>From:</strong> "),
      Escaped(d.name),
      Markup("</p><p><strong>Email:</strong> <a href=\"mailto:"),
      Escaped(d.email),
      Markup("\">"),
      Escaped(d.email),
      Markup("</a></p><p><strong>Type:</strong> " + TypeLabel(d.kind) + "</p></div><div><h3>Message:</h3><div>\n"),
      Escaped(d.message),
      Markup(BlockEnd) ]
  }

  /** The "Chat Context" block, present only for a context. */
  function ContextPieces(context: Option<string>): seq<Piece>
  {
    match context
    case Some(c) => [Markup(ContextHeading), Escaped(c), Markup(BlockEnd)]
    case None => []
  }

  /** The HTML body, without the inline styles. */
  function HtmlPieces(d: InquiryData): (r: seq<Piece>)
    // the holes for the name, the email (twice), the message and the context
    ensures |r| == if d.context.Some? then 13 else 10
    ensures r[1] == Escaped(d.name) && r[3] == Escaped(d.email) && r[5] == Escaped(d.email) && r[7] == Escaped(d.message)
    ensures d.context.Some? ==> r[10] == Escaped(d.context.value)
    ensures r[|r| - 1] == Markup(Footer)
  {
    MainPieces(d) + ContextPieces(d.context) + [Markup(Footer)]
  }

  datatype OutgoingEmail = OutgoingEmail(from: string, to: seq<string>, subject: string, html: string, replyTo: string)

  function SubjectPrefix(kind: InquiryKind): string
  {
    if kind == Consultation then "Consultation Request" else "Question"
  }

  function Subject(d: InquiryData): (r: string)
    ensures StartsWith(r, SubjectPrefix(d.kind) + " from ")
    ensures r[|SubjectPrefix(d.kind) + " from "|..] == EscapeHtml(d.name)
  {
    SubjectPrefix(d.kind) + " from " + EscapeHtml(d.name)
  }

  const Sender := "AI Advisor Chatbot <onboarding@resend.dev>"
  const Recipient := "salinasaiconsulting@outlook.com"

  /** The email handed to the email API: always from the same sender to the
      one recipient, with replies going to the client's validated address. */
  function Compose(d: InquiryData): (r: OutgoingEmail)
    ensures r.from == Sender && r.to == [Recipient] && r.replyTo == d.email
    ensures r.subject == Subject(d) && r.html == Render(HtmlPieces(d))
  {
    OutgoingEmail(
      Sender,
      [Recipient],
      Subject(d),
      Render(HtmlPieces(d)),
      d.email)
  }

  /** The values the client supplied, as validated. */
  function ClientValues(d: InquiryData): seq<string>
  {
    [d.name, d.email, d.message] + (if d.context.Some? then [d.context.value] else [])
  }

  /** Every escaped hole of the body holds one of the client's values, and
      every one of them has a hole. */
  lemma BodyHoles(d: InquiryData)
    ensures forall i :: 0 <= i < |HtmlPieces(d)| && HtmlPieces(d)[i].Escaped? ==> HtmlPieces(d)[i].raw in ClientValues(d)
    ensures forall v :: v in ClientValues(d) ==> Escaped(v) in HtmlPieces(d)
  {
    var main, ctx := MainPieces(d), ContextPieces(d.context);
    var ps := HtmlPieces(d);
    forall i | 0 <= i < |ps| && ps[i].Escaped? ensures ps[i].raw in ClientValues(d) {
      if i < 9 {
        assert ps[i] == main[i];
      } else if i < 9 + |ctx| {
        assert ps[i] == ctx[i - 9];
      }
    }
    assert ps[1] == Escaped(d.name) && ps[3] == Escaped(d.email) && ps[7] == Escaped(d.message);
    if d.context.Some? {
      assert ps[10] == Escaped(d.context.value);
    }
  }

  lemma SkeletonAppend(a: seq<Piece>, b: seq<Piece>)
    ensures Skeleton(a + b) == Skeleton(a) + Skeleton(b)
  {
  }

  /** The template does not depend on what the client wrote: two inquiries
      of the same kind, both with or both without context, differ only in
      the holes. */
  lemma TemplateFixed(d1: InquiryData, d2: InquiryData)
    requires d1.kind == d2.kind && d1.context.Some? == d2.context.Some?
    ensures Skeleton(HtmlPieces(d1)) == Skeleton(HtmlPieces(d2))
  {
    var m1, m2 := MainPieces(d1), MainPieces(d2);
    var c1, c2 := ContextPieces(d1.context), ContextPieces(d2.context);
    assert Skeleton(m1) == Skeleton(m2);
    assert Skeleton(c1) == Skeleton(c2);
    SkeletonAppend(m1 + c1, [Markup(Footer)]);
    SkeletonAppend(m1, c1);
    SkeletonAppend(m2 + c2, [Markup(Footer)]);
    SkeletonAppend(m2, c2);
  }

  /** The "Chat Context" block is in the body exactly when there is a context. */
  lemma ContextBlockIffContext(d: InquiryData)
    ensures Markup(ContextHeading) in HtmlPieces(d) <==> d.context.Some?
  {
    var ps := HtmlPieces(d);
    if d.context.None? {
      forall i | 0 <= i < |ps| ensures ps[i] != Markup(ContextHeading) {
        if ps[i].Markup? && i != 9 {
          assert |ps[i].text| == 0 || ps[i].text[0] != ContextHeading[0] || ps[i].text != ContextHeading;
        }
      }
    } else {
      assert ps[9] == Markup(ContextHeading);
    }
  }

  /** No escaped hole renders a `<`, `>`, `"` or `'`: a client value cannot
      open a tag or leave an attribute. */
  lemma EscapedPiecesSafe(ps: seq<Piece>)
    ensures forall i, k :: 0 <= i < |ps| && ps[i].Escaped? && 0 <= k < |RenderPiece(ps[i])| ==> !IsDangerous(RenderPiece(ps[i])[k])
  {
    forall i | 0 <= i < |ps| && ps[i].Escaped? {
      EscapeHtmlSafe(ps[i].raw);
    }
  }

  /** The subject is the kind's prefix, then " from ", then the escaped
      name, which holds none of `<`, `>`, `"`, `'`. */
  lemma SubjectEscapesName(d: InquiryData)
    ensures StartsWith(Subject(d), SubjectPrefix(d.kind) + " from ")
    ensures forall k :: |SubjectPrefix(d.kind) + " from "| <= k < |Subject(d)| ==> !IsDangerous(Subject(d)[k])
  {
    EscapeHtmlSafe(d.name);
    PrefixThenSafe(SubjectPrefix(d.kind) + " from ", EscapeHtml(d.name));
  }

  /** Text without a dangerous character, after a fixed prefix. */
  lemma PrefixThenSafe(p: string, e: string)
    requires forall k :: 0 <= k < |e| ==> !IsDangerous(e[k])
    ensures StartsWith(p + e, p)
    ensures forall k :: |p| <= k < |p + e| ==> !IsDangerous((p + e)[k])
  {
    assert (p + e)[..|p|] == p;
  }

  // ---------------------------------------------------------------------
  // The handler

  /** The response, and the validated inquiry if an email was handed to the
      email API: the email sent is `Compose(sent.value)`. */
  datatype Outcome = Outcome(response: Response, sent: Option<InquiryData>)

  /** The request passes every check up to the email API. */
  predicate ReadyToSend(req: Request, verdict: Verdict, apiKeySet: bool)
  {
    && req.verb == "POST" && verdict.Allowed? && apiKeySet
    && !(req.contentLength.Some? && req.contentLength.value > MaxBodyBytes)
    && req.body.Some? && ValidateInput(req.body.value).Valid?
  }

  /** The handler's decision, given the rate limiter's verdict for a POST. */
  function Decide(req: Request, verdict: Verdict, apiKeySet: bool, sendOk: bool): (o: Outcome)
    // every response carries the CORS headers
    ensures o.response.headers.Keys >= CorsHeaders(req.origin).Keys
    ensures o.response.headers["Access-Control-Allow-Origin"] == AllowOrigin(req.origin)
    ensures o.response.headers["Vary"] == "Origin"
    ensures o.response.status in {200, 400, 405, 413, 429, 500}
  {
    var cors := CorsHeaders(req.origin);
    var json := cors["Content-Type" := "application/json"];
    if req.verb == "OPTIONS" then Outcome(Response(200, cors, NoBody), None)
    else if req.verb != "POST" then Outcome(Response(405, json, ErrorJson("Method not allowed")), None)
    else if verdict.Denied? then
      var seconds := IntToString(verdict.retryAfter);
      Outcome(Response(429, json["Retry-After" := seconds],
        ErrorJson("Too many requests. Try again in " + seconds + " seconds.")), None)
    else if !apiKeySet then Outcome(Response(500, json, ErrorJson(GenericError)), None)
    else if req.contentLength.Some? && req.contentLength.value > MaxBodyBytes then
      Outcome(Response(413, json, ErrorJson("Request body too large")), None)
    else if req.body.None? then Outcome(Response(400, json, ErrorJson("Invalid JSON")), None)
    else match ValidateInput(req.body.value)
      case Invalid(e) => Outcome(Response(400, json, ErrorJson(e)), None)
      case Valid(d) =>
        if sendOk then Outcome(Response(200, json, SuccessJson), Some(d))
        else Outcome(Response(500, json, ErrorJson(GenericError)), Some(d))
  }

  /** The order of the checks, as statuses: preflight, method, rate limit,
      API key, body size, JSON, validation, email API. */
  lemma DecideOrder(req: Request, verdict: Verdict, apiKeySet: bool, sendOk: bool)
    ensures var r := Decide(req, verdict, apiKeySet, sendOk).response;
      && (req.verb == "OPTIONS" ==> r == Response(200, CorsHeaders(req.origin), NoBody))
      && (r.status == 405 <==> req.verb != "OPTIONS" && req.verb != "POST")
      && (r.status == 429 <==> req.verb == "POST" && verdict.Denied?)
      && (r.status == 413 <==>
            req.verb == "POST" && verdict.Allowed? && apiKeySet && req.contentLength.Some? && req.contentLength.value > MaxBodyBytes)
      && (r.status == 500 <==>
            req.verb == "POST" && verdict.Allowed? && (!apiKeySet || (ReadyToSend(req, verdict, apiKeySet) && !sendOk)))
      && (r.status == 400 <==>
            && req.verb == "POST" && verdict.Allowed? && apiKeySet
            && !(req.contentLength.Some? && req.contentLength.value > MaxBodyBytes)
            && (req.body.None? || ValidateInput(req.body.value).Invalid?))
  {
  }

  /** Once the method, the rate limit, the API key and the size have passed,
      a body that is not JSON gets "Invalid JSON", and one the validator
      rejects gets the validator's message; neither sends an email. */
  lemma DecideRejectsBadInput(req: Request, verdict: Verdict, apiKeySet: bool, sendOk: bool)
    requires req.verb == "POST" && verdict.Allowed? && apiKeySet
    requires !(req.contentLength.Some? && req.contentLength.value > MaxBodyBytes)
    ensures var o := Decide(req, verdict, apiKeySet, sendOk);
      var json := CorsHeaders(req.origin)["Content-Type" := "application/json"];
      && (req.body.None? ==> o.response == Response(400, json, ErrorJson("Invalid JSON")) && o.sent.None?)
      && (req.body.Some? && ValidateInput(req.body.value).Invalid? ==>
            o.response == Response(400, json, ErrorJson(ValidateInput(req.body.value).error)) && o.sent.None?)
  {
  }

  /** What the client is told: the wait on a 429, only the generic message
      on a 500, and on a 400 either "Invalid JSON" or the validator's error. */
  lemma DecideMessages(req: Request, verdict: Verdict, apiKeySet: bool, sendOk: bool)
    ensures var r := Decide(req, verdict, apiKeySet, sendOk).response;
      && (r.status == 429 ==>
            && r.headers["Retry-After"] == IntToString(verdict.retryAfter)
            && r.body == ErrorJson("Too many requests. Try again in " + IntToString(verdict.retryAfter) + " seconds."))
      && (r.status == 500 ==> r.body == ErrorJson(GenericError))
      && (r.status == 405 ==> r.body == ErrorJson("Method not allowed"))
      && (r.status == 413 ==> r.body == ErrorJson("Request body too large"))
      && (r.status == 400 ==>
            || (req.body.None? && r.body == ErrorJson("Invalid JSON"))
            || (req.body.Some? && ValidateInput(req.body.value) == Invalid(r.body.error)))
  {
  }

  /** An email is handed to the email API only after every other check has
      passed, and it is the one `Compose` makes from the validated inquiry;
      success is reported only when the email API accepted it. */
  lemma DecideSends(req: Request, verdict: Verdict, apiKeySet: bool, sendOk: bool)
    ensures var o := Decide(req, verdict, apiKeySet, sendOk);
      && (o.sent.Some? <==> ReadyToSend(req, verdict, apiKeySet))
      && (o.sent.Some? ==> o.sent.value == ValidateInput(req.body.value).data)
      && (o.response.body == SuccessJson <==> ReadyToSend(req, verdict, apiKeySet) && sendOk)
  {
    if ReadyToSend(req, verdict, apiKeySet) {
      var d := ValidateInput(req.body.value).data;
      assert Decide(req, verdict, apiKeySet, sendOk).sent == Some(d);
    }
  }

  /** The function instance: its own rate-limit table. */
  class InquiryFunction {
    const limiter: RateLimiter

    constructor ()
      ensures fresh(limiter) && limiter.store == map[]
    {
      limiter := new RateLimiter();
    }

    /** `handler(req)` at time `now`. Every POST takes a rate-limit slot
        before any other check, so a request rejected later still counts. */
    method Handle(req: Request, now: int, apiKeySet: bool, sendOk: bool) returns (o: Outcome)
      modifies limiter
      ensures req.verb != "POST" ==> limiter.store == old(limiter.store) && o == Decide(req, Allowed, apiKeySet, sendOk)
      ensures req.verb == "POST" ==>
        var step := Step(old(limiter.store), ClientKey(req), MaxRequests, WindowMs, now);
        limiter.store == step.store && o == Decide(req, step.verdict, apiKeySet, sendOk)
    {
      if req.verb != "POST" {
        return Decide(req, Allowed, apiKeySet, sendOk);
      }
      var verdict := limiter.Check(ClientKey(req), MaxRequests, WindowMs, now);
      o := Decide(req, verdict, apiKeySet, sendOk);
    }

    /** The body of the two-minute cleanup timer. */
    method Sweep(now: int)
      modifies limiter
      ensures limiter.store == Swept(old(limiter.store), now)
    {
      limiter.SweepExpired(now);
    }
  }
}
