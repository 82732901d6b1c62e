/** The page head: the canonical address of a page, derived from its path,
    and the robots directive. */
module SeoHead {
  import opened Common

  const SiteUrl := "https://salinas-ai-consulting.com"
  const SiteName := "Salinas AI Consulting"

  const NoIndexDirective := "noindex, nofollow"
  const IndexDirective := "index, follow, max-image-preview:large, max-snippet:-1, max-video-preview:-1"

  predicate AllSlashes(s: string)
  {
    forall k :: 0 <= k < |s| ==> s[k] == '/'
  }

  /** `path.replace(/\/+$/, "")`: the whole trailing run of "/" is removed. */
  function StripTrailingSlashes(path: string): (r: string)
    ensures |r| <= |path| && r == path[..|r|]
    ensures AllSlashes(path[|r|..])
    ensures r == [] || r[|r| - 1] != '/'
  {
    if |path| > 0 && path[|path| - 1] == '/' then StripTrailingSlashes(path[..|path| - 1]) else path
  }

  /** The normalised path: "/" stays "/", any other path loses its
      trailing slashes. */
  function NormalizePath(path: string): (r: string)
    ensures path == "/" ==> r == "/"
    ensures path != "/" ==> r == [] || r[|r| - 1] != '/'
  {
    if path == "/" then "/" else StripTrailingSlashes(path)
  }

  /** A path that does not end in "/" is left as it is. */
  lemma NormalizeKeeps(path: string)
    requires path == [] || path[|path| - 1] != '/'
    ensures NormalizePath(path) == path
  {
  }

  /** A path made only of slashes, other than "/" itself, becomes "". */
  lemma {:induction false} NormalizeAllSlashes(path: string)
    requires AllSlashes(path) && path != "/"
    ensures NormalizePath(path) == []
  {
    AllSlashesStrip(path);
  }

  lemma {:induction false} AllSlashesStrip(path: string)
    requires AllSlashes(path)
    ensures StripTrailingSlashes(path) == []
    decreases |path|
  {
    if path != [] {
      AllSlashesStrip(path[..|path| - 1]);
    }
  }

  /** Normalising twice is normalising once. */
  lemma NormalizeIdempotent(path: string)
    ensures NormalizePath(NormalizePath(path)) == NormalizePath(path)
  {
    var r := NormalizePath(path);
    if path != "/" {
      NormalizeKeeps(r);
    }
  }

  /** The normalised path is the path up to its trailing slashes: the same
      path with any number of extra "/" appended normalises the same way,
      unless that yields "/" itself. */
  lemma {:induction false} NormalizeIgnoresSlashes(path: string, slashes: string)
    requires AllSlashes(slashes) && path != "/" && path + slashes != "/"
    ensures NormalizePath(path + slashes) == NormalizePath(path)
    decreases |slashes|
  {
    if slashes != [] {
      var shorter := slashes[..|slashes| - 1];
      assert (path + slashes)[..|path + slashes| - 1] == path + shorter;
      if path + shorter == "/" {
        assert path == [] && slashes == "//";
        AllSlashesStrip(slashes);
        assert shorter == "/";
        AllSlashesStrip(shorter);
      } else {
        NormalizeIgnoresSlashes(path, shorter);
      }
    } else {
      assert path + slashes == path;
    }
  }

  /** The meta tags that depend on the page. */
  datatype Head = Head(
    title: string,
    description: string,
    canonical: string,
    robots: seq<string>,
    ogType: string,
    ogUrl: string,
    ogTitle: string,
    ogDescription: string,
    ogSiteName: string,
    ogImage: string,
    twitterUrl: string,
    twitterTitle: string,
    twitterDescription: string,
    twitterImage: string)

  /** The robots tags: the no-index one when asked for, the indexing one
      otherwise. */
  function RobotsTags(noIndex: bool): (r: seq<string>)
    ensures |r| == 1
    ensures r[0] == NoIndexDirective <==> noIndex
  {
    (if noIndex then [NoIndexDirective] else []) + (if !noIndex then [IndexDirective] else [])
  }

  /** The component with its defaults: `ogType` "website", `ogImage` the
      site's image, `noIndex` false. */
  function PageHead(title: string, description: string, path: string, ogType: Option<string>, ogImage: Option<string>, noIndex: Option<bool>): (h: Head)
    // the defaults apply exactly to the props left out
    ensures h.ogType == (if ogType.Some? then ogType.value else "website")
    ensures h.ogImage == (if ogImage.Some? then ogImage.value else SiteUrl + "/og-image.png")
    ensures noIndex.None? ==> h.robots == [IndexDirective]
    // the social tags repeat the page's own title and description
    ensures h.ogTitle == title && h.twitterTitle == title && h.title == title
    ensures h.ogDescription == description && h.twitterDescription == description && h.description == description
  {
    var canonical := SiteUrl + NormalizePath(path);
    var image := if ogImage.Some? then ogImage.value else SiteUrl + "/og-image.png";
    Head(title, description, canonical,
      RobotsTags(noIndex.Some? && noIndex.value),
      if ogType.Some? then ogType.value else "website",
      canonical, title, description, SiteName, image,
      canonical, title, description, image)
  }

  /** The canonical address is the site address followed by the normalised
      path, and both social tags point at it; one robots tag is emitted, the
      no-index one exactly when asked for. */
  lemma PageHeadCanonical(title: string, description: string, path: string, ogType: Option<string>, ogImage: Option<string>, noIndex: Option<bool>)
    ensures var h := PageHead(title, description, path, ogType, ogImage, noIndex);
      && h.canonical == SiteUrl + NormalizePath(path)
      && h.ogUrl == h.canonical && h.twitterUrl == h.canonical
      && |h.robots| == 1 && (h.robots[0] == NoIndexDirective <==> noIndex == Some(true))
      && h.ogImage == h.twitterImage
  {
  }

  /** Two paths that differ only in trailing slashes share one canonical
      address. */
  lemma SameCanonical(path: string, slashes: string, title: string, description: string)
    requires AllSlashes(slashes) && path != "/" && path + slashes != "/"
    ensures PageHead(title, description, path + slashes, None, None, None).canonical
         == PageHead(title, description, path, None, None, None).canonical
  {
    NormalizeIgnoresSlashes(path, slashes);
  }
}
