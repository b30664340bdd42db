/**
 * The server-side sitemap route: one entry per static page, located under the
 * site's base URL, the homepage ranked above the rest.
 */
module Sitemap {
  import opened Js

  /** A sitemap entry; the `lastmod` timestamp is left out. */
  datatype Entry = Entry(loc: string, changefreq: string, priority: real)

  const DefaultBaseUrl := "https://ebongng.site"
  const HomePriority: real := 1.0
  const PagePriority: real := 0.7
  const ChangeFrequency := "weekly"

  const StaticPages: seq<string> := ["", "/projects", "/about", "/contact", "/resume", "/blog"]

  /** `process.env.SITE_URL || 'https://ebongng.site'`. */
  function BaseUrl(siteUrl: Option<string>): (r: string)
    ensures r != ""
    ensures Truthy(siteUrl) ==> r == siteUrl.value
    ensures !Truthy(siteUrl) ==> r == DefaultBaseUrl
  {
    OrElse(siteUrl, DefaultBaseUrl)
  }

  /** The entries for `pages`, in order. */
  function Entries(base: string, pages: seq<string>): (r: seq<Entry>)
    ensures |r| == |pages|
    ensures forall i :: 0 <= i < |r| ==> r[i].loc == base + pages[i]
    ensures forall i :: 0 <= i < |r| ==> r[i].changefreq == ChangeFrequency
    ensures forall i :: 0 <= i < |r| ==> (r[i].priority == HomePriority <==> pages[i] == "")
    ensures forall i :: 0 <= i < |r| ==> r[i].priority in {HomePriority, PagePriority}
  {
    if pages == [] then []
    else
      [Entry(base + pages[0], ChangeFrequency, if pages[0] == "" then HomePriority else PagePriority)]
      + Entries(base, pages[1..])
  }

  /** The `GET` handler's entries for the given `SITE_URL`. */
  function Get(siteUrl: Option<string>): (r: seq<Entry>)
    ensures |r| == |StaticPages|
    ensures forall i :: 0 <= i < |r| ==> r[i].loc == BaseUrl(siteUrl) + StaticPages[i]
    ensures r[0].loc == if Truthy(siteUrl) then siteUrl.value else DefaultBaseUrl
  {
    Entries(BaseUrl(siteUrl), StaticPages)
  }

  /** The number of entries with priority `p`. */
  function CountPriority(es: seq<Entry>, p: real): nat {
    if es == [] then 0 else (if es[0].priority == p then 1 else 0) + CountPriority(es[1..], p)
  }

  /** The number of occurrences of `x` in `xs`. */
  function Count(xs: seq<string>, x: string): nat {
    if xs == [] then 0 else (if xs[0] == x then 1 else 0) + Count(xs[1..], x)
  }

  /** Each page's path can be read back from its entry's location. */
  lemma LocRecoversPath(base: string, pages: seq<string>)
    ensures var r := Entries(base, pages);
      forall i :: 0 <= i < |r| ==> |base| <= |r[i].loc| && r[i].loc[..|base|] == base && r[i].loc[|base|..] == pages[i]
  {
  }

  /** As many top-priority entries as there are homepage paths. */
  lemma {:induction false} TopPriorityCount(base: string, pages: seq<string>)
    ensures CountPriority(Entries(base, pages), HomePriority) == Count(pages, "")
    decreases |pages|
  {
    if pages != [] {
      TopPriorityCount(base, pages[1..]);
      var r := Entries(base, pages);
      assert r[1..] == Entries(base, pages[1..]);
    }
  }

  /** The served sitemap has six entries, exactly one of them at top priority: the homepage at the base URL. */
  lemma SingleHomepage(siteUrl: Option<string>)
    ensures |Get(siteUrl)| == |StaticPages|
    ensures CountPriority(Get(siteUrl), HomePriority) == 1
    ensures Get(siteUrl)[0] == Entry(BaseUrl(siteUrl), ChangeFrequency, HomePriority)
  {
    TopPriorityCount(BaseUrl(siteUrl), StaticPages);
    var ps := StaticPages;
    assert ps[1..][1..][1..][1..][1..][1..] == [];
    assert Count(ps, "") == 1;
  }
}
