/**
 * The SoftBank news scraper: picking article links out of the news
 * page's anchors, and saving each article as a PDF named after its page
 * title. Fetching, HTML parsing and PDF conversion are inputs.
 */
module SoftBank {
  import opened Wrappers
  import opened Text

  const EntryPrefix := "/sbnews/entry/"
  const SiteRoot := "https://www.softbank.jp"

  predicate IsEntry(href: string) {
    StartsWith(href, EntryPrefix)
  }

  /** The full URLs of the entry hrefs, in page order, repeats included. */
  function EntryUrls(hrefs: seq<string>): seq<string> {
    if hrefs == [] then []
    else
      var href := hrefs[|hrefs| - 1];
      EntryUrls(hrefs[..|hrefs| - 1]) + (if IsEntry(href) then [SiteRoot + href] else [])
  }

  predicate NoDuplicates(xs: seq<string>) {
    forall i, j | 0 <= i < j < |xs| :: xs[i] != xs[j]
  }

  lemma {:induction false} EntryUrlsMembers(hrefs: seq<string>)
    ensures forall u :: u in EntryUrls(hrefs) <==> exists h | h in hrefs :: IsEntry(h) && u == SiteRoot + h
  {
    if hrefs != [] {
      var init := hrefs[..|hrefs| - 1];
      EntryUrlsMembers(init);
      assert hrefs == init + [hrefs[|hrefs| - 1]];
    }
  }

  /**
   * `get_article_links`: the site root put before every anchor href
   * that starts with the entry prefix, each URL once. The order of the
   * de-duplicated list is unspecified; any order meets this contract.
   */
  method GetArticleLinks(hrefs: seq<string>) returns (links: seq<string>)
    ensures NoDuplicates(links)
    ensures forall u :: u in links <==> exists h | h in hrefs :: IsEntry(h) && u == SiteRoot + h
    ensures |links| <= |hrefs|
  {
    var found: seq<string> := [];
    for i := 0 to |hrefs|
      invariant found == EntryUrls(hrefs[..i])
    {
      assert hrefs[..i + 1][..i] == hrefs[..i];
      var href := hrefs[i];
      if StartsWith(href, EntryPrefix) {
        var fullUrl := SiteRoot + href;
        found := found + [fullUrl];
      }
    }
    assert hrefs[..|hrefs|] == hrefs;
    EntryUrlsMembers(hrefs);
    EntryUrlsLength(hrefs);
    links := Dedup(found);
  }

  lemma {:induction false} EntryUrlsLength(hrefs: seq<string>)
    ensures |EntryUrls(hrefs)| <= |hrefs|
  {
    if hrefs != [] {
      EntryUrlsLength(hrefs[..|hrefs| - 1]);
    }
  }

  /** `list(set(xs))`: every element once. */
  method Dedup(xs: seq<string>) returns (r: seq<string>)
    ensures NoDuplicates(r)
    ensures forall u :: u in r <==> u in xs
    ensures |r| <= |xs|
  {
    r := [];
    for i := 0 to |xs|
      invariant NoDuplicates(r)
      invariant forall u :: u in r <==> u in xs[..i]
      invariant |r| <= i
    {
      assert xs[..i + 1] == xs[..i] + [xs[i]];
      if xs[i] !in r {
        r := r + [xs[i]];
      }
    }
    assert xs[..|xs|] == xs;
  }

  // ---------------------------------------------------------------------
  // download_article_as_pdf
  // ---------------------------------------------------------------------

  /** The page title stripped, with spaces and slashes turned into underscores. */
  function SanitiseTitle(title: string): (r: string)
    ensures ' ' !in r && '/' !in r
    ensures |r| == |Trim(title)|
    ensures forall i | 0 <= i < |r| && (Trim(title)[i] == ' ' || Trim(title)[i] == '/') :: r[i] == '_'
    ensures forall i | 0 <= i < |r| && Trim(title)[i] != ' ' && Trim(title)[i] != '/' :: r[i] == Trim(title)[i]
  {
    ReplaceChar(ReplaceChar(Trim(title), ' ', '_'), '/', '_')
  }

  function HtmlPath(title: string): string {
    "/tmp/" + title + ".html"
  }

  function PdfPath(title: string): string {
    title + ".pdf"
  }

  /** For a sanitised title the PDF lands in the working directory, the HTML copy directly under `/tmp`. */
  lemma PathsOfTitle(t: string)
    requires '/' !in t
    ensures '/' !in PdfPath(t) && PdfPath(t)[..|t|] == t
    ensures HtmlPath(t)[..5] == "/tmp/" && '/' !in HtmlPath(t)[5..]
  {
    assert HtmlPath(t)[5..] == t + ".html";
  }

  /** What fetching an article gives: its `<title>` text if it has one, and whether saving it works. */
  datatype Article = Article(title: Option<string>, saves: bool)

  /** The PDF written for the article, or a failure (a missing title or a failed write or conversion). */
  function Download(article: Article): (r: Option<string>)
    ensures r.Some? <==> article.title.Some? && article.saves
    ensures r.Some? ==> r.value == PdfPath(SanitiseTitle(article.title.value))
  {
    if article.title.None? || !article.saves then None
    else Some(PdfPath(SanitiseTitle(article.title.value)))
  }

  /** The PDFs saved for `links`, in order. */
  function Saved(links: seq<string>, fetch: string -> Article): seq<string> {
    if links == [] then []
    else
      var d := Download(fetch(links[|links| - 1]));
      Saved(links[..|links| - 1], fetch) + (if d.Some? then [d.value] else [])
  }

  /** The links whose download failed, in order. */
  function Failed(links: seq<string>, fetch: string -> Article): seq<string> {
    if links == [] then []
    else
      var link := links[|links| - 1];
      Failed(links[..|links| - 1], fetch) + (if Download(fetch(link)).None? then [link] else [])
  }

  /**
   * The script's loop: each link is downloaded in turn; a failure is
   * reported and the loop goes on with the next link.
   */
  method DownloadAll(links: seq<string>, fetch: string -> Article) returns (saved: seq<string>, failed: seq<string>)
    ensures saved == Saved(links, fetch) && failed == Failed(links, fetch)
  {
    saved, failed := [], [];
    for i := 0 to |links|
      invariant saved == Saved(links[..i], fetch) && failed == Failed(links[..i], fetch)
    {
      assert links[..i + 1][..i] == links[..i];
      var link := links[i];
      var outcome := Download(fetch(link));
      if outcome.Some? {
        saved := saved + [outcome.value];
      } else {
        failed := failed + [link];
      }
    }
    assert links[..|links|] == links;
  }

  /** Every link is tried: each one either fails or has its PDF saved. */
  lemma {:induction false} EveryLinkTried(links: seq<string>, fetch: string -> Article)
    ensures |Saved(links, fetch)| + |Failed(links, fetch)| == |links|
  {
    if links != [] {
      EveryLinkTried(links[..|links| - 1], fetch);
    }
  }

  /**
   * A failure does not keep any other link from being saved: every link
   * that downloads has its PDF among the saved ones, and exactly the
   * links that fail are reported.
   */
  lemma {:induction false} FailureDoesNotStop(links: seq<string>, fetch: string -> Article)
    ensures forall l | l in links && Download(fetch(l)).Some? :: Download(fetch(l)).value in Saved(links, fetch)
    ensures forall l :: l in Failed(links, fetch) <==> l in links && Download(fetch(l)).None?
  {
    if links != [] {
      var init := links[..|links| - 1];
      var last := links[|links| - 1];
      FailureDoesNotStop(init, fetch);
      assert links == init + [last];
      var d := Download(fetch(last));
      assert Saved(links, fetch) == Saved(init, fetch) + (if d.Some? then [d.value] else []);
      assert Failed(links, fetch) == Failed(init, fetch) + (if d.None? then [last] else []);
    }
  }
}
