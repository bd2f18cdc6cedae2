/**
 * What the program needs from a parsed HTML page. Parsing itself is done by
 * BeautifulSoup and is not modelled: a page is summarised by its elements
 * indexed by `id` attribute (the first element carrying that id, which is
 * what both `soup.find(id=...)` and `soup.select_one('#...')` return).
 */
module Html {
  import opened Wrappers

  /** An `<a>` tag; `href` is `None` when the tag has no `href` attribute. */
  datatype Anchor = Anchor(href: Option<string>)

  /**
   * An element: its serialisation (`str(tag)`) and its `<a>` descendants in
   * document order (what `find_all("a")` walks).
   */
  datatype Element = Element(markup: string, anchors: seq<Anchor>)

  type Page = map<string, Element>

  function FindById(page: Page, id: string): (found: Option<Element>)
    ensures found.Some? <==> id in page
    ensures found.Some? ==> found.value == page[id]
  {
    if id in page then Some(page[id]) else None
  }
}
