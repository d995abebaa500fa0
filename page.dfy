/** The rendered pages the scraper reads, as abstract data. The browser that
    renders them and the HTML parser that answers selector queries are not
    part of this model: a page is given by the answers the parser would give
    to the queries the scraper makes. */
module Page {

  datatype Option<+T> = None | Some(value: T) {
    function GetOr(default: T): T {
      match this
      case Some(v) => v
      case None => default
    }
  }

  /** An `<a>` element of the search page; `href` is absent when the element
      has no `href` attribute. */
  datatype Anchor = Anchor(href: Option<string>)

  /** Outcome of `select_one(selector)` followed by `get_text(strip=True)`:
      the query raised, nothing matched, or the first match has this stripped text. */
  datatype Probe = Raises | NoMatch | Match(text: string)

  /** Outcome of `select(selector)`: the query raised, or the stripped texts of
      all matching elements in document order. */
  datatype Selection = SelectRaises | Selected(texts: seq<string>)

  /** A `<meta property="og:...">` element; `content` is absent when the element
      has no `content` attribute. */
  datatype Meta = Meta(content: Option<string>)

  /** The first `<img>` element of a page; `src` is absent when it has no `src` attribute. */
  datatype Img = Img(src: Option<string>)

  /** A rendered post page. */
  datatype PostPage = PostPage(
    selectOne: string -> Probe,   // answers select_one for a CSS selector
    select: string -> Selection,  // answers select for a CSS selector
    ogTitle: Option<Meta>,        // first <meta property="og:title">
    ogImage: Option<Meta>,        // first <meta property="og:image">
    firstImg: Option<Img>,        // first <img>
    textElements: seq<string>     // stripped texts of every div, span and p, in document order
  )

  /** What rendering one post URL gives: the crawler reports failure, it
      returns the page, or an exception escapes with this message. */
  datatype PostFetch = RenderFailed | Rendered(page: PostPage) | Raised(message: string)

  /** What rendering the search page gives: the crawler reports failure with
      its error message, it returns the page's anchors, or an exception escapes. */
  datatype SearchFetch =
    | SearchFailed(errorMessage: string)
    | SearchRendered(anchors: seq<Anchor>)
    | SearchRaised(message: string)
}
