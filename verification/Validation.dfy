/** The client-side zod schemas `chatMessageSchema` and `contactFormSchema`.
    Each string field is trimmed first; then every check of the field runs
    (zod does not stop at the first failing check, and the refinement still
    runs on a value that failed `min` or `max`), so a parse yields either the
    trimmed data or the list of all issues, field by field. */
module Validation {
  import opened Strings
  import opened Patterns

  const InvalidCharacters := "Invalid characters detected"

  datatype Parsed<+T> = Success(data: T) | Failure(issues: seq<string>)

  datatype ContactForm = ContactForm(name: string, email: string, message: string)

  /** The checks of a trimmed free-text field `t`, with the outcome of the
      injection screen `injected`: too short, too long, screened out. */
  function FieldIssues(t: string, max: nat, injected: bool, emptyMessage: string, longMessage: string): (issues: seq<string>)
    ensures issues == [] <==> 1 <= |t| <= max && !injected
    ensures |t| == 0 ==> issues[0] == emptyMessage
  {
    (if |t| < 1 then [emptyMessage] else [])
    + (if |t| > max then [longMessage] else [])
    + (if injected then [InvalidCharacters] else [])
  }

  /** The checks of a free-text field: `.trim().min(1).max(max).refine(no injection)`. */
  function TextIssues(value: string, max: nat, emptyMessage: string, longMessage: string): (issues: seq<string>)
    ensures issues == [] <==> 1 <= |Trim(value)| <= max && !IsInjection(Trim(value))
    ensures |Trim(value)| == 0 ==> issues[0] == emptyMessage
  {
    var t := Trim(value);
    FieldIssues(t, max, IsInjection(t), emptyMessage, longMessage)
  }

  /** The checks of the email field: `.trim().email().max(255)`; the
      library's email check is the parameter `isEmail`. */
  function EmailIssues(value: string, isEmail: string -> bool): (issues: seq<string>)
    ensures issues == [] <==> isEmail(Trim(value)) && |Trim(value)| <= 255
  {
    var t := Trim(value);
    (if !isEmail(t) then ["Please enter a valid email address"] else [])
    + (if |t| > 255 then ["Email must be less than 255 characters"] else [])
  }

  /** `chatMessageSchema.safeParse({content})`. */
  function ParseChatMessage(content: string): (r: Parsed<string>)
    ensures r.Success? <==> 1 <= |Trim(content)| <= 2000 && !IsInjection(Trim(content))
    ensures r.Success? ==> r.data == Trim(content)
  {
    var issues := TextIssues(content, 2000, "Message cannot be empty", "Message must be less than 2000 characters");
    if issues == [] then Success(Trim(content)) else Failure(issues)
  }

  /** `contactFormSchema.safeParse({name, email, message})`. */
  function ParseContactForm(name: string, email: string, message: string, isEmail: string -> bool): (r: Parsed<ContactForm>)
    ensures r.Success? <==>
      && 1 <= |Trim(name)| <= 100 && !IsInjection(Trim(name))
      && isEmail(Trim(email)) && |Trim(email)| <= 255
      && 1 <= |Trim(message)| <= 2000 && !IsInjection(Trim(message))
    ensures r.Success? ==> r.data == ContactForm(Trim(name), Trim(email), Trim(message))
  {
    var issues :=
      TextIssues(name, 100, "Name is required", "Name must be less than 100 characters")
      + EmailIssues(email, isEmail)
      + TextIssues(message, 2000, "Message is required", "Message must be less than 2000 characters");
    if issues == [] then Success(ContactForm(Trim(name), Trim(email), Trim(message)))
    else Failure(issues)
  }

  /** `n` copies of the letter 'a'. */
  function Letters(n: nat): (s: string)
    ensures |s| == n && forall k :: 0 <= k < n ==> s[k] == 'a'
  {
    seq(n, _ => 'a')
  }

  lemma LettersPlain(n: nat)
    ensures Trim(Letters(n)) == Letters(n) && !IsInjection(Letters(n))
  {
    TrimNoSpace(Letters(n));
    InjectionNeedsMarker(Letters(n));
  }

  /** The boundaries: a message of exactly 2000 characters is accepted,
      one of 2001 is rejected. */
  lemma ChatMessageBoundaries(n: nat)
    ensures ParseChatMessage(Letters(n)).Success? <==> 1 <= n <= 2000
  {
    LettersPlain(n);
  }

  /** A whitespace-only message is rejected as empty. */
  lemma ChatMessageBlank(spaces: string)
    requires AllSpace(spaces)
    ensures ParseChatMessage(spaces) == Failure(["Message cannot be empty"])
  {
    TrimEmptyIffAllSpace(spaces);
    InjectionNeedsMarker(Trim(spaces));
  }

  /** Length is measured after trimming: surrounding white space does not
      count against the 2000-character limit. */
  lemma ChatLengthAfterTrim(pad: string)
    requires AllSpace(pad)
    ensures ParseChatMessage(pad + Letters(2000) + pad) == Success(Letters(2000))
  {
    var s := pad + Letters(2000) + pad;
    TrimAround(pad, Letters(2000));
    LettersPlain(2000);
  }

  lemma TrimAround(pad: string, core: string)
    requires AllSpace(pad) && core != [] && !IsSpace(core[0]) && !IsSpace(core[|core| - 1])
    ensures Trim(pad + core + pad) == core
  {
    var s := pad + core + pad;
    TrimStartPad(pad, core + pad);
    assert s == pad + (core + pad);
    TrimEndPad(core, pad);
  }

  lemma {:induction false} TrimStartPad(pad: string, rest: string)
    requires AllSpace(pad) && rest != [] && !IsSpace(rest[0])
    ensures TrimStart(pad + rest) == rest
  {
    if pad != [] {
      assert (pad + rest)[1..] == pad[1..] + rest;
      TrimStartPad(pad[1..], rest);
    } else {
      assert pad + rest == rest;
    }
  }

  lemma {:induction false} TrimEndPad(core: string, pad: string)
    requires AllSpace(pad) && core != [] && !IsSpace(core[|core| - 1])
    ensures TrimEnd(core + pad) == core
  {
    if pad != [] {
      var p := pad[..|pad| - 1];
      assert (core + pad)[..|core + pad| - 1] == core + p;
      TrimEndPad(core, p);
    } else {
      assert core + pad == core;
    }
  }

  /** A trimmed, screened message within the limit raises no issue. */
  lemma MessageFieldPasses(message: string)
    requires NoSpace(message) && 1 <= |message| <= 2000 && !IsInjection(message)
    ensures TextIssues(message, 2000, "Message is required", "Message must be less than 2000 characters") == []
  {
    TrimNoSpace(message);
  }

  lemma EmailFieldPasses(email: string, isEmail: string -> bool)
    requires NoSpace(email) && isEmail(email) && |email| <= 255
    ensures EmailIssues(email, isEmail) == []
  {
    TrimNoSpace(email);
  }

  /** The name boundary: with a well-formed email and message, a name of
      100 characters is accepted and one of 101 is rejected. */
  lemma ContactNameBoundaries(n: nat, email: string, message: string, isEmail: string -> bool)
    requires NoSpace(email) && isEmail(email) && |email| <= 255
    requires NoSpace(message) && 1 <= |message| <= 2000 && !IsInjection(message)
    ensures ParseContactForm(Letters(n), email, message, isEmail).Success? <==> 1 <= n <= 100
  {
    EmailFieldPasses(email, isEmail);
    MessageFieldPasses(message);
    OtherFieldsPass(n, email, message, isEmail);
  }

  lemma OtherFieldsPass(n: nat, email: string, message: string, isEmail: string -> bool)
    requires EmailIssues(email, isEmail) == []
    requires TextIssues(message, 2000, "Message is required", "Message must be less than 2000 characters") == []
    ensures ParseContactForm(Letters(n), email, message, isEmail).Success? <==> 1 <= n <= 100
  {
    LettersPlain(n);
  }
}
