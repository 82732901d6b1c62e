/** The chat widget: sending a message, reading the streamed answer line by
    line out of a growing text buffer, and the contact form. The network is
    a parameter: a `ChatResponse` says whether the stream could be opened,
    which text chunks it delivered, and whether reading then failed; `parse`
    stands for `JSON.parse` followed by the lookup of
    `choices[0].delta.content`. */
module Chatbot {
  import opened Common
  import opened Strings
  import opened Patterns

  datatype Role = User | Assistant

  datatype Message = Message(role: Role, content: string)

  const Greeting := "Hi! I'm Larry's AI assistant. I can answer questions about AI advisory services or help you schedule a free consultation. How can I help you today?"
  const Thanks := "Thanks for reaching out! Your message has been sent to Larry. He'll get back to you shortly."

  /** `JSON.parse(payload)` or the lookup `parsed.choices?.[0]?.delta?.content`
      threw (the lookup throws on `null`), or the lookup gave `content`
      (`None` when it is `undefined`). */
  datatype ParseOutcome = Unparsable | Parsed(content: Option<string>)

  // ---------------------------------------------------------------------
  // One line of the event stream

  /** A trailing carriage return is dropped. */
  function StripCR(line: string): (r: string)
    ensures !EndsWith(line, "\r") ==> r == line
    ensures EndsWith(line, "\r") ==> r + "\r" == line
  {
    if EndsWith(line, "\r") then line[..|line| - 1] else line
  }

  /** What a line (without its "\n") does to the reader. */
  datatype LineKind = Skip | Done | Delta(text: string) | Retry

  /** What the trimmed payload of a `data: ` line asks for: `[DONE]` stops,
      a payload that does not parse asks for a retry, a non-empty delta is
      appended as it is, and anything else is skipped. */
  function PayloadKind(payload: string, parse: string -> ParseOutcome): (k: LineKind)
    ensures payload == "[DONE]" <==> k == Done
    ensures k == Retry <==> payload != "[DONE]" && parse(payload) == Unparsable
    ensures k.Delta? <==> payload != "[DONE]" && parse(payload).Parsed? && parse(payload).content.Some? && parse(payload).content.value != []
    ensures k.Delta? ==> k.text == parse(payload).content.value
  {
    if payload == "[DONE]" then Done
    else match parse(payload)
      case Unparsable => Retry
      case Parsed(content) => if content.Some? && content.value != [] then Delta(content.value) else Skip
  }

  /** Comments, blank lines and lines that are not `data: ` lines are
      skipped; otherwise the payload after `data: ` is trimmed and decides. */
  function Classify(line: string, parse: string -> ParseOutcome): (k: LineKind)
    ensures k != Skip ==> StartsWith(line, "data: ") && Trim(line) != []
  {
    if StartsWith(line, ":") || Trim(line) == [] then Skip
    else if !StartsWith(line, "data: ") then Skip
    else PayloadKind(Trim(line[6..]), parse)
  }

  /** Every `data: ` line is classified by its trimmed payload alone. */
  lemma DataLine(payload: string, parse: string -> ParseOutcome)
    ensures Classify("data: " + payload, parse) == PayloadKind(Trim(payload), parse)
  {
    var line := "data: " + payload;
    assert StartsWith(line, "data: ") && line[6..] == payload by {
      assert line[..6] == "data: ";
    }
    assert !StartsWith(line, ":") by {
      assert line[0] == 'd';
    }
    assert Trim(line) != [] by {
      assert !IsSpace(line[0]);
      TrimEmptyIffAllSpace(line);
    }
  }

  /** The classification of lines `streamChat` applies. */
  function Classifier(parse: string -> ParseOutcome): string -> LineKind
  {
    line => Classify(line, parse)
  }

  // ---------------------------------------------------------------------
  // The inner loop: every complete line of the buffer

  datatype Exit = Exhausted | SawDone | Retried

  datatype Drained = Drained(buffer: string, content: string, exit: Exit)

  /** The inner loop of the reader, run on `buffer` with the answer so far
      `content`: take the text up to the first "\n" as a line, and act on it. */
  function Drain(buffer: string, content: string, classify: string -> LineKind): (r: Drained)
    // the answer only grows, by appending
    ensures |r.content| >= |content| && r.content[..|content|] == content
    // when the loop runs out of lines, no "\n" is left
    ensures r.exit == Exhausted ==> '\n' !in r.buffer
    decreases |buffer|
  {
    var i := IndexOf(buffer, '\n');
    if i == -1 then Drained(buffer, content, Exhausted)
    else
      var line := StripCR(buffer[..i]);
      var rest := buffer[i + 1..];
      var kind := classify(line);
      if kind.Skip? then Drain(rest, content, classify)
      else if kind.Done? then Drained(rest, content, SawDone)
      else if kind.Delta? then
        var r := Drain(rest, content + kind.text, classify);
        assert r.content[..|content|] == (content + kind.text)[..|content|];
        r
      else Drained(line + "\n" + rest, content, Retried)
  }

  /** One turn of the inner loop: it stops when the buffer holds no
      complete line, and otherwise acts on the first one. */
  lemma DrainStep(buffer: string, content: string, classify: string -> LineKind)
    ensures '\n' !in buffer ==> Drain(buffer, content, classify) == Drained(buffer, content, Exhausted)
    ensures '\n' in buffer ==>
      var i := IndexOf(buffer, '\n');
      var line := StripCR(buffer[..i]);
      var rest := buffer[i + 1..];
      var kind := classify(line);
      var d := Drain(buffer, content, classify);
      && (kind.Skip? ==> d == Drain(rest, content, classify))
      && (kind.Done? ==> d == Drained(rest, content, SawDone))
      && (kind.Delta? ==> d == Drain(rest, content + kind.text, classify))
      && (kind.Retry? ==> d == Drained(line + "\n" + rest, content, Retried))
  {
  }

  /** The inner loop only removes whole lines from the front of the buffer:
      what it leaves is a tail of what it was given, except on a retry, where
      the failed line of some tail is put back in front of that tail's rest. */
  lemma {:induction false} DrainLeavesTail(buffer: string, content: string, classify: string -> LineKind)
    ensures LeftFrom(Drain(buffer, content, classify), buffer)
    decreases |buffer|, 1
  {
    var i := IndexOf(buffer, '\n');
    if i == -1 {
      assert buffer[0..] == buffer;
    } else {
      var kind := classify(StripCR(buffer[..i]));
      if kind.Skip? || kind.Delta? {
        DrainOnwardLeavesTail(buffer, content, classify);
      } else if kind.Retry? {
        assert IsTail(buffer, buffer) by {
          assert buffer[0..] == buffer;
        }
        assert PutBack(Drain(buffer, content, classify).buffer, buffer);
      } else {
        var rest := buffer[i + 1..];
        assert buffer[|buffer| - |rest|..] == rest;
      }
    }
  }

  /** The case of a skipped or appended first line: the loop goes on with
      the rest of the buffer. */
  lemma {:induction false} DrainOnwardLeavesTail(buffer: string, content: string, classify: string -> LineKind)
    requires '\n' in buffer
    requires var kind := classify(StripCR(buffer[..IndexOf(buffer, '\n')])); kind.Skip? || kind.Delta?
    ensures LeftFrom(Drain(buffer, content, classify), buffer)
    decreases |buffer|, 0
  {
    var i := IndexOf(buffer, '\n');
    var rest := buffer[i + 1..];
    var kind := classify(StripCR(buffer[..i]));
    var content' := if kind.Delta? then content + kind.text else content;
    assert Drain(buffer, content, classify) == Drain(rest, content', classify);
    assert IsTail(rest, buffer) by {
      assert buffer[|buffer| - |rest|..] == rest;
    }
    DrainLeavesTail(rest, content', classify);
    LeftFromTail(Drain(rest, content', classify), rest, buffer);
  }

  /** What the inner loop may leave of `buffer`: a tail of it, or, on a
      retry, some tail with its first line put back. */
  ghost predicate LeftFrom(r: Drained, buffer: string)
  {
    && (r.exit != Retried ==> IsTail(r.buffer, buffer))
    && (r.exit == Retried ==> exists t :: IsTail(t, buffer) && PutBack(r.buffer, t))
  }

  /** What the inner loop leaves from a tail of the buffer it also leaves
      from the buffer itself. */
  lemma LeftFromTail(r: Drained, rest: string, buffer: string)
    requires IsTail(rest, buffer) && LeftFrom(r, rest)
    ensures LeftFrom(r, buffer)
  {
    if r.exit != Retried {
      TailOfTail(r.buffer, rest, buffer);
    } else {
      var t :| IsTail(t, rest) && PutBack(r.buffer, t);
      TailOfTail(t, rest, buffer);
    }
  }

  /** `b` is `t` with its first line taken off and put back, without a
      trailing "\r". */
  predicate PutBack(b: string, t: string)
  {
    var i := IndexOf(t, '\n');
    i != -1 && b == StripCR(t[..i]) + "\n" + t[i + 1..]
  }

  /** `t` is what remains of `s` after some prefix is removed. */
  predicate IsTail(t: string, s: string)
  {
    |t| <= |s| && s[|s| - |t|..] == t
  }

  lemma TailOfTail(t: string, u: string, s: string)
    requires IsTail(t, u) && IsTail(u, s)
    ensures IsTail(t, s)
  {
    assert s[|s| - |u|..][|u| - |t|..] == s[|s| - |t|..];
  }

  /** The outer loop: each chunk is appended to the buffer, then the inner
      loop runs; the outer loop goes on whatever way the inner one ended. */
  datatype StreamState = StreamState(buffer: string, content: string)

  function Consume(chunks: seq<string>, buffer: string, content: string, classify: string -> LineKind): (r: StreamState)
    ensures |r.content| >= |content| && r.content[..|content|] == content
    decreases |chunks|
  {
    if chunks == [] then StreamState(buffer, content)
    else
      var d := Drain(buffer + chunks[0], content, classify);
      var r := Consume(chunks[1..], d.buffer, d.content, classify);
      assert r.content[..|content|] == d.content[..|content|];
      r
  }

  /** Taking a line off the buffer and putting it back restores the buffer
      exactly, unless the line ended in "\r": that one is put back without it. */
  lemma {:induction false} RetryPutsLineBack(line: string, rest: string, content: string, classify: string -> LineKind)
    requires '\n' !in line && classify(StripCR(line)) == Retry
    ensures var r := Drain(line + "\n" + rest, content, classify);
      && r == Drained(StripCR(line) + "\n" + rest, content, Retried)
      && (!EndsWith(line, "\r") ==> r.buffer == line + "\n" + rest)
  {
    var buffer := line + "\n" + rest;
    TakeLine(line, rest);
  }

  /** The first line of `line + "\n" + rest` is `line`. */
  lemma TakeLine(line: string, rest: string)
    requires '\n' !in line
    ensures IndexOf(line + "\n" + rest, '\n') == |line|
    ensures (line + "\n" + rest)[..|line|] == line && (line + "\n" + rest)[|line| + 1..] == rest
  {
    var buffer := line + "\n" + rest;
    assert buffer[|line|] == '\n';
    assert buffer[..|line|] == line;
  }

  /** A line that fails to parse blocks the stream: it is complete, so it
      fails again every time the inner loop starts, and no later delta is
      ever appended. */
  lemma {:induction false} RetryStalls(line: string, rest: string, content: string, chunks: seq<string>, classify: string -> LineKind)
    requires '\n' !in line && !EndsWith(line, "\r") && classify(line) == Retry
    ensures Consume(chunks, line + "\n" + rest, content, classify).content == content
    decreases |chunks|
  {
    if chunks != [] {
      var buffer := line + "\n" + rest + chunks[0];
      assert buffer == line + "\n" + (rest + chunks[0]);
      RetryPutsLineBack(line, rest + chunks[0], content, classify);
      RetryStalls(line, rest + chunks[0], content, chunks[1..], classify);
    }
  }

  /** One step of the inner loop on a buffer whose first line is `line`. */
  lemma DrainHead(line: string, rest: string, content: string, classify: string -> LineKind)
    requires '\n' !in line && !EndsWith(line, "\r")
    ensures var kind := classify(line);
      var d := Drain(line + "\n" + rest, content, classify);
      && (kind.Skip? ==> d == Drain(rest, content, classify))
      && (kind.Done? ==> d == Drained(rest, content, SawDone))
      && (kind.Delta? ==> d == Drain(rest, content + kind.text, classify))
      && (kind.Retry? ==> d == Drained(line + "\n" + rest, content, Retried))
  {
    TakeLine(line, rest);
  }

  /** `[DONE]` ends only the inner loop: a delta line that follows it in the
      same chunk is read when the next chunk arrives. */
  lemma AfterDoneStillRead(done: string, line: string, content: string, next: string, classify: string -> LineKind)
    requires '\n' !in done && !EndsWith(done, "\r") && classify(done) == Done
    requires '\n' !in line && !EndsWith(line, "\r") && classify(line).Delta?
    ensures var text := classify(line).text;
      var r := Consume([done + "\n" + line + "\n", next], "", content, classify);
      |r.content| >= |content + text| && r.content[..|content + text|] == content + text
  {
    var text := classify(line).text;
    var chunks := [done + "\n" + line + "\n", next];
    assert "" + chunks[0] == done + "\n" + (line + "\n");
    DrainHead(done, line + "\n", content, classify);
    assert chunks[1..] == [next] && [next][1..] == [];
    assert Consume(chunks, "", content, classify) == Consume([next], line + "\n", content, classify);
    DrainHead(line, next, content, classify);
    assert (line + "\n") + next == line + "\n" + next;
  }

  // ---------------------------------------------------------------------
  // The form

  datatype InquiryPayload = InquiryPayload(kind: string, name: string, email: string, message: string, context: string)

  datatype FormResult = MissingFields | InvalidEmail | Send(payload: InquiryPayload)

  /** One message of the transcript: "User: " or "Assistant: ", then the text. */
  function TranscriptLine(m: Message): (r: string)
    // the prefix names the role, and the text follows it unchanged
    ensures StartsWith(r, "User: ") <==> m.role == User
    ensures |r| > |m.content| && r[|r| - |m.content|..] == m.content
  {
    var prefix := if m.role == User then "User: " else "Assistant: ";
    assert (prefix + m.content)[..|prefix|] == prefix;
    assert m.role != User ==> (prefix + m.content)[0] != "User: "[0];
    prefix + m.content
  }

  function Join(lines: seq<string>, separator: string): (r: string)
    ensures lines == [] ==> r == []
  {
    if lines == [] then []
    else if |lines| == 1 then lines[0]
    else lines[0] + separator + Join(lines[1..], separator)
  }

  /** The chat context sent with the form: one transcript line per message,
      joined with "\n". */
  function ChatContext(messages: seq<Message>): (r: string)
    ensures messages == [] ==> r == []
    ensures |messages| == 1 ==> r == TranscriptLine(messages[0])
  {
    Join(seq(|messages|, i requires 0 <= i < |messages| => TranscriptLine(messages[i])), "\n")
  }

  lemma {:induction false} JoinSnoc(lines: seq<string>, last: string, separator: string)
    requires lines != []
    ensures Join(lines + [last], separator) == Join(lines, separator) + separator + last
    decreases |lines|
  {
    if |lines| == 1 {
      assert (lines + [last])[1..] == [last];
    } else {
      assert (lines + [last])[1..] == lines[1..] + [last];
      JoinSnoc(lines[1..], last, separator);
    }
  }

  /** Each new message adds one transcript line to the context, after a "\n". */
  lemma ChatContextSnoc(messages: seq<Message>, m: Message)
    requires messages != []
    ensures ChatContext(messages + [m]) == ChatContext(messages) + "\n" + TranscriptLine(m)
  {
    var lines := seq(|messages|, i requires 0 <= i < |messages| => TranscriptLine(messages[i]));
    var more := seq(|messages + [m]|, i requires 0 <= i < |messages + [m]| => TranscriptLine((messages + [m])[i]));
    assert more == lines + [TranscriptLine(m)];
    JoinSnoc(lines, TranscriptLine(m), "\n");
  }

  /** `handleFormSubmit`'s checks and payload: every field must be non-blank,
      the untrimmed email must match the pattern, and the fields are sent
      trimmed, with the transcript as context. */
  function FormDecision(name: string, email: string, message: string, messages: seq<Message>): (r: FormResult)
    ensures r.Send? ==> r.payload.kind == "consultation" && r.payload.context == ChatContext(messages)
  {
    if Trim(name) == [] || Trim(email) == [] || Trim(message) == [] then MissingFields
    else if !IsEmailShape(email) then InvalidEmail
    else Send(InquiryPayload("consultation", Trim(name), Trim(email), Trim(message), ChatContext(messages)))
  }

  /** The form is sent exactly when every field is non-blank and the email
      matches the pattern; a blank field is reported before a bad email. */
  lemma FormSendsIff(name: string, email: string, message: string, messages: seq<Message>)
    ensures var r := FormDecision(name, email, message, messages);
      && (r.Send? <==> Trim(name) != [] && Trim(email) != [] && Trim(message) != [] && IsEmailShape(email))
      && (r == MissingFields <==> Trim(name) == [] || Trim(email) == [] || Trim(message) == [])
  {
  }

  /** A matching email has no white space, so it is sent exactly as typed;
      the name and message are sent trimmed. */
  lemma FormSendsAsTyped(name: string, email: string, message: string, messages: seq<Message>)
    requires FormDecision(name, email, message, messages).Send?
    ensures var p := FormDecision(name, email, message, messages).payload;
      p.name == Trim(name) && p.email == email && p.message == Trim(message)
  {
    assert IsEmailShape(email);
    EmailKeptAsTyped(email);
  }

  lemma EmailKeptAsTyped(email: string)
    requires IsEmailShape(email)
    ensures Trim(email) == email
  {
    TrimNoSpace(email);
  }

  // ---------------------------------------------------------------------
  // The widget

  /** How the chat request went: it failed before a stream was open
      (`fetch` threw, the response was not ok, or it had no body), or the
      stream delivered `chunks` and then ended, or failed if `readFails`. */
  datatype ChatResponse = FailedBeforeStream | Streamed(chunks: seq<string>, readFails: bool)

  class ChatWidget {
    var messages: seq<Message>
    var input: string
    var isLoading: bool
    var formName: string
    var formEmail: string
    var formMessage: string
    var showForm: bool
    /** The reply added after a successful inquiry. */
    const thanks: string

    constructor ()
      ensures messages == [Message(Assistant, Greeting)] && input == [] && !isLoading
      ensures formName == [] && formEmail == [] && formMessage == [] && !showForm
      ensures thanks == Thanks
    {
      thanks := Thanks;
      messages := [Message(Assistant, Greeting)];
      input := [];
      isLoading := false;
      formName, formEmail, formMessage := [], [], [];
      showForm := false;
    }

    /** `streamChat(userMessage)`: add the user's message, open the stream,
        add an empty answer and fill it in line by line. On failure the last
        message is removed: before the stream is open, that is the user's
        own message; after, the partial answer. */
    method StreamChat(userMessage: string, response: ChatResponse, parse: string -> ParseOutcome)
      modifies this`messages, this`isLoading
      ensures !isLoading
      ensures response.FailedBeforeStream? ==> messages == old(messages)
      ensures response.Streamed? && response.readFails ==> messages == old(messages) + [Message(User, userMessage)]
      ensures response.Streamed? && !response.readFails ==>
        messages == old(messages) + [Message(User, userMessage), Message(Assistant, Consume(response.chunks, "", "", Classifier(parse)).content)]
    {
      messages := messages + [Message(User, userMessage)];
      isLoading := true;
      if response.FailedBeforeStream? {
        messages := messages[..|messages| - 1];
        isLoading := false;
        return;
      }
      var chunks := response.chunks;
      var base := messages;
      var buffer := "";
      var content := "";
      messages := messages + [Message(Assistant, content)];
      var k := 0;
      while k < |chunks|
        invariant 0 <= k <= |chunks|
        invariant Consume(chunks[k..], buffer, content, Classifier(parse)) == Consume(chunks, "", "", Classifier(parse))
        invariant messages == base + [Message(Assistant, content)]
      {
        assert chunks[k..][1..] == chunks[k + 1..];
        buffer, content := ReadLines(buffer + chunks[k], content, Classifier(parse), base);
        k := k + 1;
      }
      if response.readFails {
        messages := messages[..|messages| - 1];
      }
      isLoading := false;
    }

    /** The inner loop of `streamChat`: act on every complete line of
        `buffer`, writing the answer so far into the last message. */
    method ReadLines(buffer0: string, content0: string, classify: string -> LineKind, ghost base: seq<Message>)
      returns (buffer: string, content: string)
      requires messages == base + [Message(Assistant, content0)]
      modifies this`messages
      ensures buffer == Drain(buffer0, content0, classify).buffer && content == Drain(buffer0, content0, classify).content
      ensures messages == base + [Message(Assistant, content)]
    {
      buffer, content := buffer0, content0;
      ghost var target := Drain(buffer, content, classify);
      var stopped := false;
      var newlineIndex := IndexOf(buffer, '\n');
      while !stopped && newlineIndex != -1
        invariant newlineIndex == IndexOf(buffer, '\n')
        invariant !stopped ==> Drain(buffer, content, classify) == target
        invariant stopped ==> buffer == target.buffer && content == target.content
        invariant messages == base + [Message(Assistant, content)]
        decreases |buffer|, !stopped
      {
        DrainStep(buffer, content, classify);
        var line := StripCR(buffer[..newlineIndex]);
        buffer := buffer[newlineIndex + 1..];
        var kind := classify(line);
        if kind.Done? {
          stopped := true;
        } else if kind.Retry? {
          buffer := line + "\n" + buffer;
          stopped := true;
        } else if kind.Delta? {
          content := content + kind.text;
          assert messages[..|messages| - 1] == base;
          messages := messages[..|messages| - 1] + [Message(Assistant, content)];
        }
        newlineIndex := IndexOf(buffer, '\n');
      }
      if !stopped {
        DrainStep(buffer, content, classify);
      }
    }

    /** `handleSubmit`: nothing happens for blank input or while an answer
        is loading; otherwise the input is cleared and its trimmed text sent. */
    method Submit(response: ChatResponse, parse: string -> ParseOutcome)
      modifies this`messages, this`isLoading, this`input
      ensures Trim(old(input)) == [] || old(isLoading) ==>
        messages == old(messages) && input == old(input) && isLoading == old(isLoading)
      ensures Trim(old(input)) != [] && !old(isLoading) ==> input == [] && !isLoading
      ensures Trim(old(input)) != [] && !old(isLoading) && response.FailedBeforeStream? ==> messages == old(messages)
      ensures Trim(old(input)) != [] && !old(isLoading) && response.Streamed? && response.readFails ==>
        messages == old(messages) + [Message(User, Trim(old(input)))]
      ensures Trim(old(input)) != [] && !old(isLoading) && response.Streamed? && !response.readFails ==>
        messages == old(messages) + [Message(User, Trim(old(input))), Message(Assistant, Consume(response.chunks, "", "", Classifier(parse)).content)]
    {
      var trimmed := Trim(input);
      if trimmed == [] || isLoading {
        return;
      }
      input := [];
      StreamChat(trimmed, response, parse);
    }

    /** `handleFormSubmit`, with `sentOk` for whether the inquiry function
        accepted the request. Only a successful send changes the widget. */
    method SubmitForm(sentOk: bool) returns (r: FormResult)
      modifies this`formName, this`formEmail, this`formMessage, this`showForm, this`messages
      ensures r == FormDecision(old(formName), old(formEmail), old(formMessage), old(messages))
      ensures r.Send? && sentOk ==>
        && formName == [] && formEmail == [] && formMessage == [] && !showForm
        && messages == old(messages) + [Message(Assistant, thanks)]
      ensures !(r.Send? && sentOk) ==>
        && formName == old(formName) && formEmail == old(formEmail) && formMessage == old(formMessage)
        && showForm == old(showForm) && messages == old(messages)
    {
      r := FormDecision(formName, formEmail, formMessage, messages);
      if r.Send? && sentOk {
        InquirySent();
      }
    }

    /** What a successful send does: the form is cleared and closed, and the
        thank-you reply is added to the conversation. */
    method InquirySent()
      modifies this`formName, this`formEmail, this`formMessage, this`showForm, this`messages
      ensures formName == [] && formEmail == [] && formMessage == [] && !showForm
      ensures messages == old(messages) + [Message(Assistant, thanks)]
    {
      formName, formEmail, formMessage := [], [], [];
      showForm := false;
      messages := messages + [Message(Assistant, thanks)];
    }
  }
}
