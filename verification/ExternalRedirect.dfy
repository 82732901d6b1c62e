/** The `?to=<key>` redirect page: the key is looked up in a fixed table
    of external destinations, and anything else leads home. */
module ExternalRedirect {
  import opened Common

  const LinkedIn := "https://www.linkedin.com/in/larry-salinas-mba-56394934"

  /** The allowlist of external destinations. */
  const Destinations: map<string, string> := map["linkedin" := LinkedIn]

  const Home := "/"

  /** Where the page sends the browser for the query parameter `to` (absent
      when `None`): a key present in `destinations` with a non-empty address
      yields that address, and everything else, including an empty key,
      yields the home page. */
  function Target(destinations: map<string, string>, to: Option<string>): (r: string)
    ensures r == Home || (to.Some? && to.value in destinations && r == destinations[to.value])
    ensures to.Some? && to.value != [] && to.value in destinations && destinations[to.value] != [] ==>
      r == destinations[to.value]
    ensures to.None? || to.value == [] || to.value !in destinations || destinations[to.value] == [] ==> r == Home
  {
    if to.Some? && to.value != [] && to.value in destinations && destinations[to.value] != [] then
      destinations[to.value]
    else
      Home
  }

  /** The page sends the browser only to the home page or to an allowlisted
      address: never to a URL taken from the query. */
  lemma TargetAllowlisted(to: Option<string>)
    ensures var r := Target(Destinations, to);
      r == Home || r in Destinations.Values
  {
  }

  /** `to=linkedin` leads to the profile; a missing, unknown or empty key,
      a URL or a `javascript:` string leads home. */
  lemma TargetExamples(other: string)
    requires other != "linkedin"
    ensures Target(Destinations, Some("linkedin")) == LinkedIn
    ensures Target(Destinations, None) == Home
    ensures Target(Destinations, Some(other)) == Home
  {
  }
}
