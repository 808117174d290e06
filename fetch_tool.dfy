/** The web page fetch tool: the guard chain of `execute` and the post-processing of the
    text and links that HTML parsing extracts. The HTTP request, the HTML parser and
    `urljoin` are parameters. */
module FetchTool {
  import opened Text
  import opened Web

  /** `max_content_length` */
  const MaxContentLength: nat := 8000
  /** Length of the summary before its "..." */
  const SummaryLength: nat := 200
  /** How many links a result keeps */
  const MaxLinks: nat := 10

  /** An `<a>` element that has an `href` attribute: its value and the element's `get_text()`. */
  datatype Anchor = Anchor(href: string, text: string)

  /** What the parser yields once `<script>` and `<style>` are removed: the `get_text()` of the
      first `<title>`, the `get_text(separator=" ", strip=True)` of the first of `<main>`,
      `<article>`, `<div class="content">` and of `<body>` (each `None` when there is no such
      element), and the anchors with an `href` in document order. */
  datatype Page = Page(title: Option<string>, main: Option<string>, body: Option<string>, anchors: seq<Anchor>)

  datatype Link = Link(text: string, url: string)

  /** The four fields `execute` reads from `_parse_webpage_content`. */
  datatype ParsedPage = ParsedPage(title: string, content: string, summary: string, links: seq<Link>)

  /** The result of `_fetch_webpage`; `error` is `None` on success and a message otherwise. */
  datatype FetchResponse = FetchResponse(html: string, statusCode: int, contentType: string, error: Option<string>)

  /** The dict `execute` returns: a reply it builds, or the fetch result handed back unchanged. */
  datatype FetchReply =
    | Reply(url: string, title: string, content: string, summary: string, links: seq<Link>,
            statusCode: int, contentType: string, error: Option<string>)
    | Passthrough(response: FetchResponse)

  /** The text the content is taken from: the main area, else the body, else nothing. */
  function ExtractedText(p: Page): string
  {
    if p.main.Some? then p.main.value else if p.body.Some? then p.body.value else ""
  }

  /** Content longer than 8000 characters is cut to 8000 and marked with "...". */
  function Truncate(c: string): (r: string)
    ensures |r| <= MaxContentLength + 3
    ensures |c| <= MaxContentLength ==> r == c
    ensures |c| > MaxContentLength ==> |r| == MaxContentLength + 3 && r[..MaxContentLength] == c[..MaxContentLength]
  {
    if |c| > MaxContentLength then c[..MaxContentLength] + "..." else c
  }

  /** The summary: the content itself up to 200 characters, else its first 200 and "...". */
  function Summary(c: string): (r: string)
    ensures |r| <= SummaryLength + 3
    ensures |c| <= SummaryLength ==> r == c
    ensures |c| > SummaryLength ==> |r| == SummaryLength + 3 && r[..SummaryLength] == c[..SummaryLength]
  {
    if |c| > SummaryLength then c[..SummaryLength] + "..." else c
  }

  /** The link an anchor contributes: none unless both its href and its stripped text are non-empty. */
  function LinkOf(a: Anchor, baseUrl: string, join: (string, string) -> string): seq<Link>
  {
    var text := Strip(a.text);
    if a.href != [] && text != [] then [Link(text, join(baseUrl, a.href))] else []
  }

  /** All links of the anchors, in document order, before the cap. */
  function LinksOf(anchors: seq<Anchor>, baseUrl: string, join: (string, string) -> string): seq<Link>
  {
    if anchors == [] then []
    else LinksOf(anchors[..|anchors| - 1], baseUrl, join) + LinkOf(anchors[|anchors| - 1], baseUrl, join)
  }

  /** Links of consecutive runs of anchors come out consecutively, so document order is kept. */
  lemma {:induction false} LinksOfAppend(a: seq<Anchor>, b: seq<Anchor>, baseUrl: string, join: (string, string) -> string)
    ensures LinksOf(a + b, baseUrl, join) == LinksOf(a, baseUrl, join) + LinksOf(b, baseUrl, join)
    decreases |b|
  {
    if b == [] {
      assert a + b == a;
    } else {
      var b' := b[..|b| - 1];
      assert a + b == (a + b') + [b[|b| - 1]];
      assert (a + b)[..|a + b| - 1] == a + b';
      LinksOfAppend(a, b', baseUrl, join);
    }
  }

  /** At most one link per anchor; every link has non-empty text without surrounding
      whitespace and the joined url of some anchor with a non-empty href. */
  lemma {:induction false} LinksOfClean(anchors: seq<Anchor>, baseUrl: string, join: (string, string) -> string)
    ensures |LinksOf(anchors, baseUrl, join)| <= |anchors|
    ensures forall l :: l in LinksOf(anchors, baseUrl, join) ==>
              l.text != [] && Strip(l.text) == l.text &&
              exists a :: a in anchors && a.href != [] && l.url == join(baseUrl, a.href)
  {
    if anchors != [] {
      var init := anchors[..|anchors| - 1];
      var last := anchors[|anchors| - 1];
      LinksOfClean(init, baseUrl, join);
      StripIdempotent(last.text);
      assert last in anchors;
      forall a | a in init ensures a in anchors { }
    }
  }

  /** `_parse_webpage_content` as a function of the parser's outcome; a parser exception gives
      the "Parse Error" fields (the error message itself is dropped by `execute`). */
  function PageFields(page: Option<Page>, baseUrl: string, join: (string, string) -> string): ParsedPage
  {
    match page
    case None => ParsedPage("Parse Error", "", "", [])
    case Some(p) =>
      var content := Truncate(Normalize(ExtractedText(p)));
      var links := LinksOf(p.anchors, baseUrl, join);
      ParsedPage(
        if p.title.Some? then Strip(p.title.value) else "",
        content,
        Summary(content),
        links[..Min(MaxLinks, |links|)])
  }

  /** The parsed fields are bounded: content at most 8003 characters, summary at most 203,
      at most 10 links; and short content keeps exactly the words of the extracted text. */
  lemma PageFieldsBounds(page: Option<Page>, baseUrl: string, join: (string, string) -> string)
    ensures |PageFields(page, baseUrl, join).content| <= MaxContentLength + 3
    ensures |PageFields(page, baseUrl, join).summary| <= SummaryLength + 3
    ensures |PageFields(page, baseUrl, join).links| <= MaxLinks
    ensures page.Some? && |Normalize(ExtractedText(page.value))| <= MaxContentLength ==>
              Words(PageFields(page, baseUrl, join).content) == Words(ExtractedText(page.value))
  {
    if page.Some? {
      NormalizeIdempotent(ExtractedText(page.value));
    }
  }

  lemma LinksOfSnoc(anchors: seq<Anchor>, i: nat, baseUrl: string, join: (string, string) -> string)
    requires i < |anchors|
    ensures LinksOf(anchors[..i + 1], baseUrl, join) == LinksOf(anchors[..i], baseUrl, join) + LinkOf(anchors[i], baseUrl, join)
  {
    assert anchors[..i + 1][..i] == anchors[..i];
  }

  /** The link loop of the parsing step: anchors are visited in order and kept ones appended. */
  method CollectLinks(anchors: seq<Anchor>, baseUrl: string, join: (string, string) -> string)
    returns (links: seq<Link>)
    ensures links == LinksOf(anchors, baseUrl, join)
  {
    links := [];
    var i := 0;
    while i < |anchors|
      invariant 0 <= i <= |anchors|
      invariant links == LinksOf(anchors[..i], baseUrl, join)
    {
      var a := anchors[i];
      var text := Strip(a.text);
      LinksOfSnoc(anchors, i, baseUrl, join);
      if a.href != [] && text != [] {
        links := links + [Link(text, join(baseUrl, a.href))];
      }
      i := i + 1;
    }
    assert anchors[..i] == anchors;
  }

  /** The parsing step: title, normalised and truncated content, summary, and the collected
      links cut to their first 10. */
  method ParseWebpageContent(html: string, baseUrl: string, soup: string -> Option<Page>,
                             join: (string, string) -> string) returns (r: ParsedPage)
    ensures r == PageFields(soup(html), baseUrl, join)
  {
    var page := soup(html);
    if page.None? {
      return ParsedPage("Parse Error", "", "", []);
    }
    var p := page.value;
    var title := "";
    if p.title.Some? {
      title := Strip(p.title.value);
    }
    var content := Normalize(ExtractedText(p));
    if |content| > MaxContentLength {
      content := content[..MaxContentLength] + "...";
    }
    var summary := if |content| > SummaryLength then content[..SummaryLength] + "..." else content;
    var links := CollectLinks(p.anchors, baseUrl, join);
    links := links[..Min(MaxLinks, |links|)];
    r := ParsedPage(title, content, summary, links);
  }

  /** `_is_valid_url`: both a scheme and a network location, and `urlparse` did not raise. */
  predicate IsValidUrl(parseUrl: UrlParser, url: string) {
    match parseUrl(url)
    case None => false
    case Some(parts) => parts.scheme != [] && parts.netloc != []
  }

  /** The fetch result's `error` counts only when it is a non-empty string. */
  predicate HasError(resp: FetchResponse) {
    resp.error.Some? && resp.error.value != []
  }

  /** `execute(parameters)` for the `url` parameter (`None` when absent). */
  method Execute(url: Option<string>, parseUrl: UrlParser, fetch: string -> FetchResponse,
                 soup: string -> Option<Page>, join: (string, string) -> string) returns (r: FetchReply)
    ensures (url.None? || url.value == []) ==>
              r == Reply("", "No URL provided", "", "", [], 0, "", Some("No URL provided"))
    ensures url.Some? && url.value != [] && !IsValidUrl(parseUrl, url.value) ==>
              r == Reply(url.value, "Invalid URL", "", "", [], 0, "", Some("Invalid URL format"))
    ensures url.Some? && url.value != [] && IsValidUrl(parseUrl, url.value) && HasError(fetch(url.value)) ==>
              r == Passthrough(fetch(url.value))
    ensures url.Some? && url.value != [] && IsValidUrl(parseUrl, url.value) && !HasError(fetch(url.value)) ==>
              var resp := fetch(url.value);
              var parsed := PageFields(soup(resp.html), url.value, join);
              r == Reply(url.value, parsed.title, parsed.content, parsed.summary, parsed.links,
                         resp.statusCode, resp.contentType, None)
  {
    if url.None? || url.value == [] {
      return Reply("", "No URL provided", "", "", [], 0, "", Some("No URL provided"));
    }
    var u := url.value;
    if !IsValidUrl(parseUrl, u) {
      return Reply(u, "Invalid URL", "", "", [], 0, "", Some("Invalid URL format"));
    }
    var resp := fetch(u);
    if HasError(resp) {
      return Passthrough(resp);
    }
    var parsed := ParseWebpageContent(resp.html, u, soup, join);
    r := Reply(u, parsed.title, parsed.content, parsed.summary, parsed.links,
               resp.statusCode, resp.contentType, None);
  }
}
