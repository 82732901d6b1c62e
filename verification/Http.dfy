/** What the two serverless functions read from a request and what they
    send back. The runtime's header lookup, `req.json()` and `parseInt`
    are done before the model: a request carries their results. */
module Http {
  import opened Common
  import opened Strings
  import opened Json

  /** `verb` is the request method. */
  datatype Request = Request(
    verb: string,
    origin: Option<string>,
    forwardedFor: Option<string>,
    realIp: Option<string>,
    /** `parseInt` of a non-empty `content-length` header; `None` when the
        header is missing, empty, or not a number. */
    contentLength: Option<int>,
    /** `req.json()`; `None` when the body is not valid JSON. */
    body: Option<Json>)

  datatype Body = NoBody | ErrorJson(error: string) | SuccessJson | Relayed

  datatype Response = Response(status: int, headers: map<string, string>, body: Body)

  /** `s.split(",")[0]`: the text before the first comma. */
  function FirstHop(s: string): (r: string)
    ensures ',' !in r && StartsWith(s, r)
    ensures ',' !in s ==> r == s
    ensures ',' in s ==> s[|r|] == ','
  {
    var i := IndexOf(s, ',');
    if i == -1 then s else s[..i]
  }

  /** `req.headers.get("x-forwarded-for")?.split(",")[0]?.trim()`, with a
      missing header read as the empty string. */
  function ForwardedClient(forwardedFor: Option<string>): (r: string)
    ensures ',' !in r
    ensures r == [] || (!IsSpace(r[0]) && !IsSpace(r[|r| - 1]))
    // no header: no client
    ensures forwardedFor.None? ==> r == []
    // a header with one entry: that entry, trimmed
    ensures forwardedFor.Some? && ',' !in forwardedFor.value ==> r == Trim(forwardedFor.value)
  {
    if forwardedFor.None? then ""
    else
      TrimKeepsAbsent(FirstHop(forwardedFor.value), ',');
      Trim(FirstHop(forwardedFor.value))
  }

  /** The first entry of the header is the client, whatever proxies
      appended after it. */
  lemma ForwardedClientFirstHop(hop: string, rest: string)
    requires ',' !in hop
    ensures ForwardedClient(Some(hop + "," + rest)) == Trim(hop)
  {
    var s := hop + "," + rest;
    assert s[|hop|] == ',';
    assert ',' in s;
    var r := FirstHop(s);
    assert r == s[..|hop|] == hop;
  }
}
