/**
 * src/full_content_crawler.py after HTML parsing: the length cap on extracted content, the
 * title cleanup and length gate of `fetch_article`, link de-duplication, and the marking and
 * mix of `get_content_for_processing`.
 */
module FullContentCrawler {
  import opened Wrappers
  import opened Numbers
  import opened Text
  import opened Lists
  import opened Mixing

  const MaxContentLength := 5000
  const MinContentLength := 100
  const MaxTitleLength := 200
  const MaxTotal := 15

  /** The length cap at the end of `extract_article_content`. */
  function TruncateContent(content: string): (r: string)
    ensures |content| <= MaxContentLength ==> r == content
    ensures |content| > MaxContentLength ==> r == content[..MaxContentLength] + "..."
    ensures |r| <= MaxContentLength + 3
    ensures |r| > MinContentLength <==> |content| > MinContentLength
  {
    if |content| > MaxContentLength then PyPrefix(content, MaxContentLength) + "..." else content
  }

  // ---------------------------------------------------------------------------
  // Title cleanup

  predicate IsSeparator(c: char) {
    c == '|' || c == '·' || c == '-'
  }

  /** The index of the first separator character, if any. */
  function FirstSeparator(s: string): (r: Option<nat>)
    ensures r.None? <==> forall k :: 0 <= k < |s| ==> !IsSeparator(s[k])
    ensures r.Some? ==> r.value < |s| && IsSeparator(s[r.value]) && forall k :: 0 <= k < r.value ==> !IsSeparator(s[k])
  {
    if s == [] then None
    else if IsSeparator(s[0]) then Some(0)
    else
      match FirstSeparator(s[1..])
      case None => None
      case Some(i) => Some(i + 1)
  }

  /** `re.sub(r' - .*$', '', t)` on a title of one line: everything from the first " - " on goes. */
  function DropSiteSuffix(t: string): (r: string)
    ensures r <= t
  {
    match FindFirst(t, " - ")
    case None => t
    case Some(i) => t[..i]
  }

  /** `re.sub(r'\s*[|·-].*$', '', t)` on a title of one line: cut at the first separator and the spaces before it. */
  function DropSeparatorTail(t: string): (r: string)
    ensures r <= t
    ensures forall k :: 0 <= k < |r| ==> !IsSeparator(r[k])
  {
    match FirstSeparator(t)
    case None => t
    case Some(q) =>
      var r := TrimRight(t[..q]);
      assert r <= t[..q];
      r
  }

  /** The title `fetch_article` stores: stripped, cleaned of site suffixes, at most 200 characters. */
  function CleanTitle(titleMatch: Option<string>): (r: string)
    ensures |r| <= MaxTitleLength
    ensures forall k :: 0 <= k < |r| ==> !IsSeparator(r[k])
    ensures titleMatch.Some? ==> r <= Strip(titleMatch.value)
  {
    var t := if titleMatch.Some? then Strip(titleMatch.value) else Untitled;
    var suffixless := DropSiteSuffix(t);
    var cleaned := DropSeparatorTail(suffixless);
    var r := PyPrefix(cleaned, MaxTitleLength);
    assert r <= cleaned <= suffixless <= t;
    assert forall k :: 0 <= k < |r| ==> r[k] == cleaned[k];
    r
  }

  const Untitled := "无标题"

  /** A page without a `<title>` is stored under the placeholder title, which no cleanup touches. */
  lemma UntitledTitle()
    ensures CleanTitle(None) == Untitled
  {
    var t := Untitled;
    assert |t| == 3 && t[0] != ' ';
    assert t[..3][0] != " - "[0];
    assert !StartsWith(t, " - ");
    assert |t[1..]| < 3 && |t[2..]| < 3 && |t[3..]| < 3;
    assert FindFirst(t[3..], " - ").None?;
    assert FindFirst(t[2..], " - ").None?;
    assert FindFirst(t[1..], " - ").None?;
    assert DropSiteSuffix(t) == t;
    assert FirstSeparator(t).None?;
  }

  // ---------------------------------------------------------------------------
  // fetch_article

  /** A configured source. */
  datatype SourceInfo = SourceInfo(name: string, lang: string)

  /** An article page as fetched: status, the text `extract_article_content` recovered before its cap, and the `<title>` text. */
  datatype Page = Page(status: int, extracted: string, titleMatch: Option<string>)

  /** `fetch_article`; `None` for the page is a request that raised or timed out. */
  function FetchArticle(url: string, source: SourceInfo, page: Option<Page>): (r: Option<Article>)
    ensures r.Some? <==> page.Some? && page.value.status == 200 && |page.value.extracted| > MinContentLength
    ensures r.Some? ==> r.value.content == TruncateContent(page.value.extracted) && |r.value.content| > MinContentLength
    ensures r.Some? ==> r.value.title == CleanTitle(page.value.titleMatch) && r.value.language == source.lang && r.value.url == url
  {
    match page
    case None => None
    case Some(p) =>
      var content := TruncateContent(p.extracted);
      if p.status == 200 && content != "" && |content| > MinContentLength then
        Some(Article(CleanTitle(p.titleMatch), content, source.name, url, source.lang, None, None))
      else None
  }

  // ---------------------------------------------------------------------------
  // extract_article_links

  /** `list(set(links))`, keeping each link's first position. */
  function UniqueLinks(links: seq<string>): (r: seq<string>)
    ensures Distinct(r)
    ensures forall x :: x in r <==> x in links
  {
    if links == [] then []
    else
      var prev := UniqueLinks(links[..|links| - 1]);
      assert forall x :: x in links <==> x in links[..|links| - 1] || x == Last(links) by {
        assert links == links[..|links| - 1] + [Last(links)];
      }
      if Last(links) in prev then prev else prev + [Last(links)]
  }

  // ---------------------------------------------------------------------------
  // get_content_for_processing

  /** The flags `get_content_for_processing` sets: translation exactly for English. */
  function MarkByLanguage(a: Article): (r: Article)
    ensures r == Marked(a, a.language == "en", a.language)
  {
    a.(needsTranslation := Some(a.language == "en"), originalLanguage := Some(a.language))
  }

  predicate MarkedByLanguage(a: Article) {
    a.needsTranslation == Some(a.language == "en") && a.originalLanguage == Some(a.language)
  }

  /** Every article with its flags set by language. */
  function MarkedArticles(articles: seq<Article>): (r: seq<Article>)
    ensures |r| == |articles|
    ensures forall k :: 0 <= k < |r| ==> r[k] == MarkByLanguage(articles[k]) && MarkedByLanguage(r[k])
  {
    seq(|articles|, k requires 0 <= k < |articles| => MarkByLanguage(articles[k]))
  }

  /** English articles, then Chinese ones, within 15 and the 70% foreign target; other languages are dropped. */
  function ProcessingMix(articles: seq<Article>): seq<Article> {
    var marked := MarkedArticles(articles);
    QuotaMix(WithLanguage(marked, "en"), WithLanguage(marked, "zh"), MinNat(MaxTotal, |articles|))
  }

  /** How many English articles lead the mix. */
  function EnglishShare(articles: seq<Article>): nat {
    MinNat(ForeignTarget(MinNat(MaxTotal, |articles|)), |WithLanguage(MarkedArticles(articles), "en")|)
  }

  /** `get_content_for_processing` on the articles loaded or crawled. */
  method GetContentForProcessing(articles: seq<Article>) returns (result: seq<Article>)
    ensures result == ProcessingMix(articles)
  {
    var marked := [];
    var i := 0;
    while i < |articles|
      invariant 0 <= i <= |articles|
      invariant |marked| == i
      invariant forall k :: 0 <= k < i ==> marked[k] == MarkByLanguage(articles[k])
    {
      marked := marked + [MarkByLanguage(articles[i])];
      i := i + 1;
    }
    assert marked == MarkedArticles(articles);
    var foreignArticles := WithLanguage(marked, "en");
    var chineseArticles := WithLanguage(marked, "zh");
    var totalNeeded := MinNat(MaxTotal, |articles|);
    var foreignTarget := ForeignTarget(totalNeeded);
    var chineseTarget := totalNeeded - foreignTarget;
    var selectedForeign := PyPrefix(foreignArticles, MinNat(foreignTarget, |foreignArticles|));
    var selectedChinese := PyPrefix(chineseArticles, MinNat(chineseTarget, |chineseArticles|));
    assert selectedForeign == PyPrefix(foreignArticles, foreignTarget);
    assert selectedChinese == PyPrefix(chineseArticles, chineseTarget);
    result := selectedForeign + selectedChinese;
  }

  /** At most 15 articles and no more than given, each flagged for translation exactly when it is English. */
  lemma ProcessingMixFlags(articles: seq<Article>)
    ensures |ProcessingMix(articles)| <= MaxTotal && |ProcessingMix(articles)| <= |articles|
    ensures forall k :: 0 <= k < |ProcessingMix(articles)| ==> MarkedByLanguage(ProcessingMix(articles)[k])
  {
    var marked := MarkedArticles(articles);
    var en, zh := WithLanguage(marked, "en"), WithLanguage(marked, "zh");
    var total := MinNat(MaxTotal, |articles|);
    var r := ProcessingMix(articles);
    var n := MinNat(ForeignTarget(total), |en|);
    forall k | 0 <= k < |r| ensures MarkedByLanguage(r[k]) {
      if k < n {
        assert r[k] == r[..n][k] == en[k];
        assert en[k] in marked;
      } else {
        assert r[k] == r[n..][k - n] == zh[k - n];
        assert zh[k - n] in marked;
      }
    }
  }

  /** The English articles come first and the Chinese ones after them. */
  lemma ProcessingMixOrder(articles: seq<Article>)
    ensures EnglishShare(articles) <= |ProcessingMix(articles)|
    ensures forall k :: 0 <= k < EnglishShare(articles) ==> ProcessingMix(articles)[k].language == "en"
    ensures forall k :: EnglishShare(articles) <= k < |ProcessingMix(articles)| ==> ProcessingMix(articles)[k].language == "zh"
  {
    var marked := MarkedArticles(articles);
    var en, zh := WithLanguage(marked, "en"), WithLanguage(marked, "zh");
    var r := ProcessingMix(articles);
    var n := EnglishShare(articles);
    forall k | 0 <= k < |r| ensures (k < n ==> r[k].language == "en") && (k >= n ==> r[k].language == "zh") {
      if k < n {
        assert r[k] == r[..n][k] == en[k];
      } else {
        assert r[k] == r[n..][k - n] == zh[k - n];
      }
    }
  }
}
