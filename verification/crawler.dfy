/**
 * The link-harvesting utility of crawler.py: for each category it fetches the
 * listing page, finds the category's section by its fixed anchor id, keeps
 * the links to individual event pages and removes duplicates.
 */
module Crawler {
  import opened Wrappers
  import opened Seqs
  import opened Html

  /** Only links to individual event pages are kept. */
  const LinkPrefix := "https://cosmocaixa.org/es/p/"

  /** The category → listing page table, in dict order. */
  const CrawlerSources: seq<(string, string)> := [
    ("exposiciones", "https://cosmocaixa.org/es/exposiciones-ciencia-barcelona"),
    ("actividades", "https://cosmocaixa.org/es/actividades-cosmocaixa-ciencia"),
    ("planetario", "https://cosmocaixa.org/es/planetario"),
    ("conferencias", "https://cosmocaixa.org/es/conferencias")
  ]

  /**
   * The `if/elif` chain choosing the section's id. `None` is the case no
   * branch matches, where `specific_section` is never assigned.
   */
  function AnchorIdFor(category: string): (id: Option<string>)
    ensures id.Some? <==> category in {"exposiciones", "actividades", "planetario", "conferencias"}
  {
    if category == "exposiciones" then Some("portlet_listactivities_INSTANCE_u3YZVHkpD017")
    else if category == "actividades" then Some("portlet_listactivities_INSTANCE_Q4EA43110XIZ")
    else if category == "planetario" then Some("portlet_listactivities_INSTANCE_n4imOHR5Ia1i")
    else if category == "conferencias" then Some("portlet_listactivities_INSTANCE_WvGPDs7XuZX8")
    else None
  }

  /** What `client.get` gives back: a `RequestException`, or a body that is parsed whatever its status. */
  datatype Download = RequestFailed | Downloaded(page: Page)

  /**
   * What `extract_events` ends with: a list of links, `None` after a
   * `RequestException`, or the `UnboundLocalError` an unknown category raises
   * (it is not a `RequestException`, so it escapes the `try`).
   */
  datatype Harvest = Links(hrefs: seq<string>) | NoResponse | SectionUnbound

  /** An anchor the loop appends: it has an `href` and the `href` has the prefix. */
  predicate Qualifies(a: Anchor)
  {
    a.href.Some? && StartsWith(a.href.value, LinkPrefix)
  }

  /** Reference definition: the set of qualifying links among `anchors`. */
  ghost function QualifyingHrefs(anchors: seq<Anchor>): set<string>
  {
    set a | a in anchors && Qualifies(a) :: a.href.value
  }

  lemma QualifyingHrefsSnoc(anchors: seq<Anchor>, a: Anchor)
    ensures QualifyingHrefs(anchors + [a]) ==
      QualifyingHrefs(anchors) + (if Qualifies(a) then {a.href.value} else {})
  {
  }

  /** The links a located section yields (the empty set when there is no section). */
  ghost function SectionHrefs(page: Page, id: string): set<string>
  {
    if id in page then QualifyingHrefs(page[id].anchors) else {}
  }

  /** The `for link in ...find_all("a", href=True)` loop with its prefix test. */
  function PrefixedHrefs(anchors: seq<Anchor>): (hrefs: seq<string>)
    ensures forall h :: h in hrefs ==> StartsWith(h, LinkPrefix)
    ensures Elements(hrefs) == QualifyingHrefs(anchors)
    decreases |anchors|
  {
    if |anchors| == 0 then []
    else
      var prev := PrefixedHrefs(anchors[..|anchors| - 1]);
      var a := anchors[|anchors| - 1];
      assert anchors == anchors[..|anchors| - 1] + [a];
      QualifyingHrefsSnoc(anchors[..|anchors| - 1], a);
      if Qualifies(a) then ElementsAppend(prev, [a.href.value]); prev + [a.href.value] else prev
  }

  /**
   * `list(set(xs))`. Python leaves the order of the result unspecified; this
   * model keeps first occurrences, and its contract holds of every order.
   */
  function Unique<T(==)>(xs: seq<T>): (r: seq<T>)
    ensures NoDuplicates(r)
    ensures Elements(r) == Elements(xs)
    ensures |r| <= |xs|
    decreases |xs|
  {
    if |xs| == 0 then []
    else
      var prev := Unique(xs[..|xs| - 1]);
      var x := xs[|xs| - 1];
      assert xs == xs[..|xs| - 1] + [x];
      ElementsAppend(xs[..|xs| - 1], [x]);
      if x in prev then prev else ElementsAppend(prev, [x]); prev + [x]
  }

  /** The links of a located section, de-duplicated; no section gives no links. */
  function HarvestSection(section: Option<Element>): (hrefs: seq<string>)
    ensures NoDuplicates(hrefs)
    ensures forall h :: h in hrefs ==> StartsWith(h, LinkPrefix)
    ensures section.None? ==> hrefs == []
    ensures section.Some? ==> Elements(hrefs) == QualifyingHrefs(section.value.anchors)
  {
    var related := if section.Some? then PrefixedHrefs(section.value.anchors) else [];
    var r := Unique(related);
    assert forall h :: h in r ==> h in Elements(related);
    r
  }

  /**
   * `extract_events(client, url, type)`, with `client.get` as `fetch`.
   * The fetch comes first, so a transport failure wins over an unknown
   * category.
   */
  function ExtractEvents(fetch: string -> Download, url: string, category: string): (r: Harvest)
    ensures r.NoResponse? <==> fetch(url).RequestFailed?
    ensures r.SectionUnbound? <==> fetch(url).Downloaded? && AnchorIdFor(category).None?
    ensures r.Links? ==> NoDuplicates(r.hrefs)
    ensures r.Links? ==> forall h :: h in r.hrefs ==> StartsWith(h, LinkPrefix)
    ensures r.Links? ==>
      Elements(r.hrefs) == SectionHrefs(fetch(url).page, AnchorIdFor(category).value)
  {
    match fetch(url)
    case RequestFailed => NoResponse
    case Downloaded(page) =>
      match AnchorIdFor(category)
      case None => SectionUnbound
      case Some(id) => Links(HarvestSection(FindById(page, id)))
  }

  /**
   * The script's loop `urls[type] = extract_events(client, source, type)`;
   * `None` as a whole when some call raises, which ends the script.
   */
  function CrawlSources(fetch: string -> Download, sources: seq<(string, string)>)
    : (urls: Option<map<string, Option<seq<string>>>>)
    ensures urls.Some? ==> urls.value.Keys == Categories(sources)
    decreases |sources|
  {
    if |sources| == 0 then Some(map[])
    else
      var last := sources[|sources| - 1];
      CategoriesSnoc(sources[..|sources| - 1], last);
      assert sources == sources[..|sources| - 1] + [last];
      match CrawlSources(fetch, sources[..|sources| - 1])
      case None => None
      case Some(urls) =>
        match ExtractEvents(fetch, last.1, last.0)
        case SectionUnbound => None
        case NoResponse => Some(urls[last.0 := None])
        case Links(hrefs) => Some(urls[last.0 := Some(hrefs)])
  }

  /** Every category of `sources` is one the `if/elif` chain knows. */
  predicate AllKnown(sources: seq<(string, string)>)
  {
    forall i :: 0 <= i < |sources| ==> AnchorIdFor(sources[i].0).Some?
  }

  function Categories(sources: seq<(string, string)>): set<string>
  {
    set e | e in sources :: e.0
  }

  predicate DistinctCategories(sources: seq<(string, string)>)
  {
    forall i, j :: 0 <= i < j < |sources| ==> sources[i].0 != sources[j].0
  }

  /**
   * `urls` holds what `extract_events` gave each category of `sources`:
   * `None` after a failed fetch, otherwise the links harvested from the page.
   */
  predicate RecordsHarvests(
    fetch: string -> Download, sources: seq<(string, string)>, urls: map<string, Option<seq<string>>>)
  {
    forall i :: 0 <= i < |sources| ==>
      sources[i].0 in urls &&
      (urls[sources[i].0].None? <==> fetch(sources[i].1).RequestFailed?) &&
      (fetch(sources[i].1).Downloaded? ==>
        urls[sources[i].0].Some? && ExtractEvents(fetch, sources[i].1, sources[i].0) == Links(urls[sources[i].0].value))
  }

  /**
   * Over a table of known, distinct categories the loop never raises; it
   * records every category, with `None` exactly where the fetch failed and
   * the harvested links everywhere else.
   */
  lemma {:induction false} CrawlSourcesTotal(fetch: string -> Download, sources: seq<(string, string)>)
    requires AllKnown(sources) && DistinctCategories(sources)
    ensures CrawlSources(fetch, sources).Some?
    ensures CrawlSources(fetch, sources).value.Keys == Categories(sources)
    ensures RecordsHarvests(fetch, sources, CrawlSources(fetch, sources).value)
    decreases |sources|
  {
    if |sources| != 0 {
      var n := |sources|;
      var prefix, last := sources[..n - 1], sources[n - 1];
      CrawlSourcesTotal(fetch, prefix);
      var urls := CrawlSources(fetch, prefix).value;
      var value := if fetch(last.1).RequestFailed? then None else Some(ExtractEvents(fetch, last.1, last.0).hrefs);
      var after := urls[last.0 := value];
      assert CrawlSources(fetch, sources) == Some(after);
      forall i | 0 <= i < n
        ensures sources[i].0 in after
        ensures after[sources[i].0].None? <==> fetch(sources[i].1).RequestFailed?
        ensures fetch(sources[i].1).Downloaded? ==>
          after[sources[i].0].Some? && ExtractEvents(fetch, sources[i].1, sources[i].0) == Links(after[sources[i].0].value)
      {
        if i < n - 1 {
          assert prefix[i] == sources[i] && sources[i].0 != last.0;
        }
      }
    }
  }

  lemma CategoriesSnoc(sources: seq<(string, string)>, last: (string, string))
    ensures Categories(sources + [last]) == Categories(sources) + {last.0}
  {
    assert forall e :: e in sources + [last] <==> e in sources || e == last;
  }

  /** The crawler's table: four known, distinct categories. */
  lemma CrawlerSourcesWellFormed()
    ensures AllKnown(CrawlerSources) && DistinctCategories(CrawlerSources)
    ensures Categories(CrawlerSources) == {"exposiciones", "actividades", "planetario", "conferencias"}
  {
    CrawlerSourcesKnown();
    CrawlerSourcesDistinct();
    CrawlerCategories(CrawlerSources);
  }

  lemma CrawlerSourcesKnown()
    ensures AllKnown(CrawlerSources)
  {
  }

  lemma CrawlerSourcesDistinct()
    ensures DistinctCategories(CrawlerSources)
  {
  }

  lemma CrawlerCategories(s: seq<(string, string)>)
    requires s == CrawlerSources
    ensures Categories(s) == {s[0].0, s[1].0, s[2].0, s[3].0}
  {
    assert s[0] in s && s[1] in s && s[2] in s && s[3] in s;
    forall e | e in s
      ensures e.0 in {s[0].0, s[1].0, s[2].0, s[3].0}
    {
      var i :| 0 <= i < 4 && s[i] == e;
    }
  }

  /** The crawler's own run: all four categories, none raising, each with its harvest. */
  lemma CrawlAllTotal(fetch: string -> Download)
    ensures CrawlSources(fetch, CrawlerSources).Some?
    ensures CrawlSources(fetch, CrawlerSources).value.Keys ==
      {"exposiciones", "actividades", "planetario", "conferencias"}
    ensures RecordsHarvests(fetch, CrawlerSources, CrawlSources(fetch, CrawlerSources).value)
  {
    CrawlerSourcesWellFormed();
    CrawlSourcesTotal(fetch, CrawlerSources);
  }
}
