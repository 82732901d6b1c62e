/** The `chat` serverless function: a rate limit of 30 requests per minute
    per client, validation of the conversation, and relay to the language
    model gateway with the system prompt in front. The gateway call is a
    parameter (`upstream`), and so is the text of the system prompt. */
module ChatRelay {
  import opened Common
  import opened Strings
  import opened Json
  import opened RateLimit
  import opened Http

  const MaxRequests := 30
  const WindowMs := 60000
  const MaxMessages := 50
  const MaxContentLength := 4000
  const GenericError := "An error occurred. Please try again."

  const CorsHeaders: map<string, string> := map[
    "Access-Control-Allow-Origin" := "*",
    "Access-Control-Allow-Headers" := "authorization, x-client-info, apikey, content-type, x-supabase-client-platform, x-supabase-client-platform-version, x-supabase-client-runtime, x-supabase-client-runtime-version"]

  /** The rate-limit key: the first forwarded address, or "unknown". */
  function ClientKey(forwardedFor: Option<string>): (key: string)
    ensures key != [] && ',' !in key
    ensures ForwardedClient(forwardedFor) != [] ==> key == ForwardedClient(forwardedFor)
    ensures ForwardedClient(forwardedFor) == [] ==> key == "unknown"
    ensures forwardedFor.None? ==> key == "unknown"
  {
    var forwarded := ForwardedClient(forwardedFor);
    if forwarded != [] then forwarded else "unknown"
  }

  datatype Role = User | Assistant | System

  datatype ChatMessage = ChatMessage(role: Role, content: string)

  /** The role of an element, when it is exactly "user" or "assistant". */
  function RoleOf(v: Json): (r: Option<Role>)
    ensures r.Some? ==> r.value != System
    ensures r == Some(User) <==> FieldIs(v, "role", "user")
    ensures r == Some(Assistant) <==> FieldIs(v, "role", "assistant")
  {
    if FieldIs(v, "role", "user") then Some(User)
    else if FieldIs(v, "role", "assistant") then Some(Assistant)
    else None
  }

  /** The checks on one element of the conversation, in order: an object,
      a known role, string content, at most 4000 characters. Nothing is
      trimmed, there is no minimum length and no injection screen. Only
      `role` and `content` are kept. */
  function CheckElement(v: Json): (r: Checked<ChatMessage>)
    ensures r.Valid? <==>
      && IsObjectLike(v) && RoleOf(v).Some?
      && Field(v, "content").Some? && Field(v, "content").value.JString?
      && |Field(v, "content").value.s| <= MaxContentLength
    ensures r.Valid? ==> r.data == ChatMessage(RoleOf(v).value, Field(v, "content").value.s)
    ensures !IsObjectLike(v) ==> r == Invalid("Invalid message format")
    ensures IsObjectLike(v) && RoleOf(v).None? ==> r == Invalid("Invalid message role")
    ensures IsObjectLike(v) && RoleOf(v).Some? && !(Field(v, "content").Some? && Field(v, "content").value.JString?) ==>
      r == Invalid("Message content must be a string")
    ensures var c := Field(v, "content");
      IsObjectLike(v) && RoleOf(v).Some? && c.Some? && c.value.JString? && |c.value.s| > MaxContentLength ==>
        r == Invalid("Message content too long")
  {
    if !IsObjectLike(v) then Invalid("Invalid message format")
    else if RoleOf(v).None? then Invalid("Invalid message role")
    else match Field(v, "content")
      case Some(JString(c)) =>
        if |c| > MaxContentLength then Invalid("Message content too long")
        else Valid(ChatMessage(RoleOf(v).value, c))
      case _ => Invalid("Message content must be a string")
  }

  /** The elements checked one after the other: the first failure decides,
      otherwise every element is kept, in order. */
  function CheckElements(items: seq<Json>): (r: Checked<seq<ChatMessage>>)
    ensures r.Valid? <==> forall i :: 0 <= i < |items| ==> CheckElement(items[i]).Valid?
    ensures r.Valid? ==> |r.data| == |items| && forall i :: 0 <= i < |items| ==> CheckElement(items[i]) == Valid(r.data[i])
    ensures r.Invalid? ==> exists i :: FirstInvalid(items, i) && r.error == CheckElement(items[i]).error
  {
    if items == [] then Valid([])
    else match CheckElement(items[0])
      case Invalid(e) =>
        assert FirstInvalid(items, 0);
        Invalid(e)
      case Valid(m) =>
        match CheckElements(items[1..])
        case Invalid(e) =>
          var i :| FirstInvalid(items[1..], i) && e == CheckElement(items[1..][i]).error;
          assert FirstInvalid(items, i + 1);
          Invalid(e)
        case Valid(ms) =>
          assert forall i :: 1 <= i < |items| ==> items[i] == items[1..][i - 1];
          Valid([m] + ms)
  }

  /** Element `i` is the first one that fails its checks. */
  predicate FirstInvalid(items: seq<Json>, i: int)
  {
    0 <= i < |items| && CheckElement(items[i]).Invalid? && forall j :: 0 <= j < i ==> CheckElement(items[j]).Valid?
  }

  /** `validateMessages(messages)`, with `None` for `undefined`: an array
      of 1 to 50 elements that all pass; the array-level checks come first,
      in order, each with its own message. */
  function CheckMessages(messages: Option<Json>): (r: Checked<seq<ChatMessage>>)
    ensures r.Valid? <==>
      && messages.Some? && messages.value.JArray? && 1 <= |messages.value.items| <= MaxMessages
      && forall i :: 0 <= i < |messages.value.items| ==> CheckElement(messages.value.items[i]).Valid?
    ensures messages.None? || !messages.value.JArray? ==> r == Invalid("Messages must be an array")
    ensures messages.Some? && messages.value.JArray? && |messages.value.items| == 0 ==>
      r == Invalid("At least one message is required")
    ensures messages.Some? && messages.value.JArray? && |messages.value.items| > MaxMessages ==>
      r == Invalid("Too many messages in conversation")
    ensures messages.Some? && messages.value.JArray? && 1 <= |messages.value.items| <= MaxMessages ==>
      r == CheckElements(messages.value.items)
  {
    if messages.None? || !messages.value.JArray? then Invalid("Messages must be an array")
    else if |messages.value.items| == 0 then Invalid("At least one message is required")
    else if |messages.value.items| > MaxMessages then Invalid("Too many messages in conversation")
    else CheckElements(messages.value.items)
  }

  /** The validation loop of the source: check each element in turn, copy
      its role and content, and return at the first failure. */
  method ValidateMessages(messages: Option<Json>) returns (r: Checked<seq<ChatMessage>>)
    ensures r == CheckMessages(messages)
  {
    if messages.None? || !messages.value.JArray? {
      return Invalid("Messages must be an array");
    }
    var items := messages.value.items;
    if |items| == 0 {
      return Invalid("At least one message is required");
    }
    if |items| > MaxMessages {
      return Invalid("Too many messages in conversation");
    }
    var validated: seq<ChatMessage> := [];
    var i := 0;
    while i < |items|
      invariant 0 <= i <= |items| && |validated| == i
      invariant forall j :: 0 <= j < i ==> CheckElement(items[j]) == Valid(validated[j])
    {
      var checked := CheckElement(items[i]);
      if checked.Invalid? {
        FirstInvalidUnique(items, i);
        return Invalid(checked.error);
      }
      validated := validated + [checked.data];
      i := i + 1;
    }
    ValidElementsDetermined(items, validated);
    return Valid(validated);
  }

  /** At most one element is the first to fail, so it determines the error. */
  lemma FirstInvalidUnique(items: seq<Json>, i: int)
    requires FirstInvalid(items, i)
    ensures CheckElements(items) == Invalid(CheckElement(items[i]).error)
  {
    var r := CheckElements(items);
    var k :| FirstInvalid(items, k) && r.error == CheckElement(items[k]).error;
  }

  /** When every element passes, the kept messages are determined. */
  lemma ValidElementsDetermined(items: seq<Json>, validated: seq<ChatMessage>)
    requires |validated| == |items|
    requires forall j :: 0 <= j < |items| ==> CheckElement(items[j]) == Valid(validated[j])
    ensures CheckElements(items) == Valid(validated)
  {
    var r := CheckElements(items);
    assert r.Valid?;
    forall j | 0 <= j < |items| ensures r.data[j] == validated[j] {
      assert CheckElement(items[j]) == Valid(r.data[j]);
    }
    assert r.data == validated;
  }

  /** The messages sent to the gateway: the system prompt, then the
      validated conversation in order. */
  function Forwarded(systemPrompt: string, messages: seq<ChatMessage>): (r: seq<ChatMessage>)
    ensures |r| == |messages| + 1 && r[0] == ChatMessage(System, systemPrompt) && r[1..] == messages
  {
    [ChatMessage(System, systemPrompt)] + messages
  }

  /** The client cannot add a system message: only the first forwarded
      message has the system role. */
  lemma OnlyFirstIsSystem(systemPrompt: string, messages: Option<Json>)
    requires CheckMessages(messages).Valid?
    ensures var f := Forwarded(systemPrompt, CheckMessages(messages).data);
      f[0].role == System && forall i :: 1 <= i < |f| ==> f[i].role != System
  {
    var items := messages.value.items;
    var ms := CheckMessages(messages).data;
    var f := Forwarded(systemPrompt, ms);
    forall i | 1 <= i < |f| ensures f[i].role != System {
      assert f[i] == ms[i - 1];
      assert CheckElement(items[i - 1]) == Valid(ms[i - 1]);
    }
  }

  // ---------------------------------------------------------------------
  // The handler

  /** The gateway's answer: the call threw, or it answered with a status. */
  datatype Upstream = Unreachable | Answered(status: int)

  predicate Ok(status: int)
  {
    200 <= status <= 299
  }

  /** The response, and the conversation forwarded to the gateway if it was. */
  datatype ChatOutcome = ChatOutcome(response: Response, forwarded: Option<seq<ChatMessage>>)

  /** The request passes every check before the gateway call. */
  predicate ReadyToForward(req: Request, verdict: Verdict, apiKeySet: bool)
  {
    && req.verb != "OPTIONS" && verdict.Allowed? && req.body.Some? && !req.body.value.JNull?
    && CheckMessages(Field(req.body.value, "messages")).Valid? && apiKeySet
  }

  /** The `serve` callback's decision, given the limiter's verdict. */
  function ChatDecide(req: Request, verdict: Verdict, apiKeySet: bool, upstream: Upstream, systemPrompt: string): (o: ChatOutcome)
    ensures o.response.headers.Keys >= CorsHeaders.Keys && o.response.headers["Access-Control-Allow-Origin"] == "*"
  {
    var json := CorsHeaders["Content-Type" := "application/json"];
    if req.verb == "OPTIONS" then ChatOutcome(Response(200, CorsHeaders, NoBody), None)
    else if verdict.Denied? then
      ChatOutcome(Response(429, json,
        ErrorJson("Rate limit exceeded. Please try again in " + IntToString(verdict.retryAfter) + " seconds.")), None)
    else if req.body.None? then ChatOutcome(Response(400, json, ErrorJson("Invalid JSON")), None)
    // destructuring `null` throws
    else if req.body.value.JNull? then ChatOutcome(Response(500, json, ErrorJson(GenericError)), None)
    else match CheckMessages(Field(req.body.value, "messages"))
      case Invalid(e) => ChatOutcome(Response(400, json, ErrorJson(e)), None)
      case Valid(messages) =>
        if !apiKeySet then ChatOutcome(Response(500, json, ErrorJson(GenericError)), None)
        else
          var sent := Some(Forwarded(systemPrompt, messages));
          match upstream
          case Unreachable => ChatOutcome(Response(500, json, ErrorJson(GenericError)), sent)
          case Answered(status) =>
            if Ok(status) then
              ChatOutcome(Response(200, CorsHeaders["Content-Type" := "text/event-stream"], Relayed), sent)
            else if status == 429 then
              ChatOutcome(Response(429, json, ErrorJson("Service is busy. Please try again in a moment.")), sent)
            else if status == 402 then
              ChatOutcome(Response(402, json, ErrorJson("Service temporarily unavailable.")), sent)
            else ChatOutcome(Response(500, json, ErrorJson("Unable to process your request")), sent)
  }

  /** The order of the checks: rate limit, JSON, validation, then the API
      key; a gateway call is made only after all of them pass. */
  lemma ChatOrder(req: Request, verdict: Verdict, apiKeySet: bool, upstream: Upstream, systemPrompt: string)
    requires req.verb != "OPTIONS"
    ensures var o := ChatDecide(req, verdict, apiKeySet, upstream, systemPrompt);
      && (verdict.Denied? ==> o.response.status == 429 && o.forwarded.None?)
      && (verdict.Allowed? && req.body.None? ==> o.response == Response(400, CorsHeaders["Content-Type" := "application/json"], ErrorJson("Invalid JSON")))
      // destructuring a `null` body throws: the generic 500
      && (verdict.Allowed? && req.body == Some(JNull) ==>
            o.response == Response(500, CorsHeaders["Content-Type" := "application/json"], ErrorJson(GenericError)) && o.forwarded.None?)
      && (verdict.Allowed? && req.body.Some? && !req.body.value.JNull? && CheckMessages(Field(req.body.value, "messages")).Invalid? ==>
            o.response.status == 400 && o.response.body == ErrorJson(CheckMessages(Field(req.body.value, "messages")).error))
      // a missing API key throws after validation: the generic 500
      && (verdict.Allowed? && req.body.Some? && !req.body.value.JNull? && CheckMessages(Field(req.body.value, "messages")).Valid? && !apiKeySet ==>
            o.response == Response(500, CorsHeaders["Content-Type" := "application/json"], ErrorJson(GenericError)))
      && (o.forwarded.Some? <==> ReadyToForward(req, verdict, apiKeySet))
      && (o.forwarded.Some? ==> o.forwarded.value == Forwarded(systemPrompt, CheckMessages(Field(req.body.value, "messages")).data))
  {
    if verdict.Allowed? && req.body.Some? && !req.body.value.JNull? {
      var checked := CheckMessages(Field(req.body.value, "messages"));
      if checked.Valid? && apiKeySet {
        assert ChatDecide(req, verdict, apiKeySet, upstream, systemPrompt).forwarded == Some(Forwarded(systemPrompt, checked.data));
      }
    }
  }

  /** The gateway's status, as the client sees it: a success is relayed as
      an event stream, 429 and 402 pass through, anything else is a 500. */
  lemma UpstreamMapping(req: Request, verdict: Verdict, apiKeySet: bool, upstream: Upstream, systemPrompt: string)
    requires ReadyToForward(req, verdict, apiKeySet)
    ensures var r := ChatDecide(req, verdict, apiKeySet, upstream, systemPrompt).response;
      && (upstream.Answered? && Ok(upstream.status) ==> r.status == 200 && r.body == Relayed && r.headers["Content-Type"] == "text/event-stream")
      && (upstream.Answered? && upstream.status == 429 ==>
            r.status == 429 && r.body == ErrorJson("Service is busy. Please try again in a moment."))
      && (upstream.Answered? && upstream.status == 402 ==>
            r.status == 402 && r.body == ErrorJson("Service temporarily unavailable."))
      // a failed fetch throws: the generic 500
      && (upstream.Unreachable? ==> r.status == 500 && r.body == ErrorJson(GenericError))
      && (upstream.Answered? && !Ok(upstream.status) && upstream.status != 429 && upstream.status != 402 ==>
            r.status == 500 && r.body == ErrorJson("Unable to process your request"))
      && (r.status != 200 ==> r.headers["Content-Type"] == "application/json")
  {
  }

  /** The function instance: its own rate-limit table. */
  class ChatFunction {
    const limiter: RateLimiter

    constructor ()
      ensures fresh(limiter) && limiter.store == map[]
    {
      limiter := new RateLimiter();
    }

    /** The `serve` callback at time `now`. There is no method check: every
        request but a preflight takes a rate-limit slot. */
    method Handle(req: Request, now: int, apiKeySet: bool, upstream: Upstream, systemPrompt: string) returns (o: ChatOutcome)
      modifies limiter
      ensures req.verb == "OPTIONS" ==> limiter.store == old(limiter.store) && o == ChatDecide(req, Allowed, apiKeySet, upstream, systemPrompt)
      ensures req.verb != "OPTIONS" ==>
        var step := Step(old(limiter.store), ClientKey(req.forwardedFor), MaxRequests, WindowMs, now);
        limiter.store == step.store && o == ChatDecide(req, step.verdict, apiKeySet, upstream, systemPrompt)
    {
      if req.verb == "OPTIONS" {
        return ChatDecide(req, Allowed, apiKeySet, upstream, systemPrompt);
      }
      var verdict := limiter.Check(ClientKey(req.forwardedFor), MaxRequests, WindowMs, now);
      o := ChatDecide(req, verdict, apiKeySet, upstream, systemPrompt);
    }
  }
}
