/**
 * The request budget, cross-call deduplication and mock translation of
 * src/gnews_integrated_crawler.py. The API's answer to a request is a parameter: `None` stands
 * for a non-200 status or an exception, both of which the source turns into an empty list.
 */
module GNews {
  import opened Wrappers
  import opened Text
  import opened Lists
  import opened Numbers

  const MaxDailyRequests := 60
  const PerCategory := 5
  const TranslateLength := 300

  /** An article as the API returns it; `None` is a missing key. */
  datatype RawArticle = RawArticle(
    title: Option<string>,
    description: Option<string>,
    content: Option<string>,
    sourceName: Option<string>,
    publishedAt: Option<string>,
    url: Option<string>)

  /** An article after processing. */
  datatype NewsItem = NewsItem(
    title: string,
    description: string,
    content: string,
    source: string,
    publishedAt: string,
    url: string,
    language: string,
    needsTranslation: bool,
    contentHash: string,
    translatedTitle: string,
    translatedContent: string)

  /** The text hashed for deduplication: title followed by description. */
  function HashedText(a: RawArticle): string {
    a.title.GetOr("") + a.description.GetOr("")
  }

  /** `translate_with_deepseek` (a mock): short or blank text is returned as is; long text is cut at 300 characters. */
  function TranslateWithDeepSeek(text: string): (r: string)
    ensures text == "" || |Strip(text)| < 10 ==> r == text
    ensures text != "" && |Strip(text)| >= 10 && |text| > TranslateLength ==> r == "[DeepSeek翻译] " + text[..TranslateLength] + "..."
    ensures text != "" && |Strip(text)| >= 10 && |text| <= TranslateLength ==> r == "[DeepSeek翻译] " + text
  {
    if text == "" || |Strip(text)| < 10 then text
    else if |text| > TranslateLength then "[DeepSeek翻译] " + PyPrefix(text, TranslateLength) + "..."
    else "[DeepSeek翻译] " + text
  }

  /** The processed form of a new article fetched in language `lang`; `now` is the clock as text. */
  function Convert(a: RawArticle, hash: string, lang: string, now: string): (r: NewsItem)
    ensures r.needsTranslation <==> lang != "zh"
    ensures !r.needsTranslation ==> r.translatedTitle == r.title && r.translatedContent == r.content
    ensures r.needsTranslation ==> r.translatedTitle == TranslateWithDeepSeek(r.title) && r.translatedContent == TranslateWithDeepSeek(r.content)
    ensures r.title == a.title.GetOr("无标题") && r.content == a.content.GetOr(a.description.GetOr(""))
    ensures r.contentHash == hash && r.language == lang
  {
    var title := a.title.GetOr("无标题");
    var content := a.content.GetOr(a.description.GetOr(""));
    var needs := lang != "zh";
    NewsItem(title, a.description.GetOr(""), content, a.sourceName.GetOr("未知来源"), a.publishedAt.GetOr(now),
             a.url.GetOr(""), lang, needs, hash,
             if needs then TranslateWithDeepSeek(title) else title,
             if needs then TranslateWithDeepSeek(content) else content)
  }

  /** The items of one batch, and the seen hashes after it. */
  datatype Batch = Batch(items: seq<NewsItem>, seen: set<string>)

  /** The dedup loop of `get_gnews_headlines` and `search_gnews` over the articles of one answer. */
  function ProcessBatch(md5: string -> string, seen: set<string>, raw: seq<RawArticle>, lang: string, now: string): (b: Batch)
    ensures seen <= b.seen
    ensures |b.items| <= |raw|
    ensures forall k :: 0 <= k < |b.items| ==> b.items[k].contentHash in b.seen && b.items[k].contentHash !in seen
    ensures forall k :: 0 <= k < |b.items| ==> exists j :: 0 <= j < |raw| && b.items[k] == Convert(raw[j], md5(HashedText(raw[j])), lang, now)
  {
    if raw == [] then Batch([], seen)
    else
      var prev := ProcessBatch(md5, seen, raw[..|raw| - 1], lang, now);
      var a := Last(raw);
      var hash := md5(HashedText(a));
      assert forall j :: 0 <= j < |raw| - 1 ==> raw[..|raw| - 1][j] == raw[j];
      if hash in prev.seen then prev
      else Batch(prev.items + [Convert(a, hash, lang, now)], prev.seen + {hash})
  }

  /** The hashes of a list of items, in order. */
  function Hashes(items: seq<NewsItem>): (r: seq<string>)
    ensures |r| == |items| && forall k :: 0 <= k < |items| ==> r[k] == items[k].contentHash
  {
    seq(|items|, k requires 0 <= k < |items| => items[k].contentHash)
  }

  /** The items of a batch carry pairwise distinct hashes, and the seen set grows by exactly those hashes. */
  lemma {:induction false} BatchFresh(md5: string -> string, seen: set<string>, raw: seq<RawArticle>, lang: string, now: string)
    ensures Distinct(Hashes(ProcessBatch(md5, seen, raw, lang, now).items))
    ensures ProcessBatch(md5, seen, raw, lang, now).seen == seen + Elements(Hashes(ProcessBatch(md5, seen, raw, lang, now).items))
  {
    if raw != [] {
      var init := raw[..|raw| - 1];
      BatchFresh(md5, seen, init, lang, now);
      var prev := ProcessBatch(md5, seen, init, lang, now);
      var hash := md5(HashedText(Last(raw)));
      if hash !in prev.seen {
        var x := Convert(Last(raw), hash, lang, now);
        HashesAppend(prev.items, x);
        assert hash !in Elements(Hashes(prev.items));
        DistinctAppend(Hashes(prev.items), hash);
        ElementsAppend(Hashes(prev.items), hash);
      }
    }
  }

  lemma HashesAppend(items: seq<NewsItem>, x: NewsItem)
    ensures Hashes(items + [x]) == Hashes(items) + [x.contentHash]
  {
  }

  /** Appending distinct entries that were unseen to a distinct list of seen entries keeps it distinct. */
  lemma FreshAppendDistinct(before: seq<string>, added: seq<string>, seen: set<string>, seen2: set<string>)
    requires Distinct(before) && Distinct(added)
    requires forall k :: 0 <= k < |before| ==> before[k] in seen
    requires forall k :: 0 <= k < |added| ==> added[k] !in seen && added[k] in seen2
    requires seen <= seen2
    ensures Distinct(before + added)
    ensures forall k :: 0 <= k < |before + added| ==> (before + added)[k] in seen2
  {
  }

  /** The hashes of concatenated lists are the concatenated hashes. */
  lemma HashesConcat(a: seq<NewsItem>, b: seq<NewsItem>, c: seq<NewsItem>)
    ensures Hashes(a + b + c) == Hashes(a) + Hashes(b) + Hashes(c)
  {
  }

  /** A prefix of a list gives a prefix of its hashes. */
  lemma HashesPrefix(a: seq<NewsItem>, n: int)
    ensures Hashes(PyPrefix(a, n)) <= Hashes(a)
  {
  }

  /** Prefixes of three successive batches carry only hashes that were new before the first and seen after the last. */
  lemma FreshPrefixes(x: seq<NewsItem>, y: seq<NewsItem>, z: seq<NewsItem>, a: seq<NewsItem>, b: seq<NewsItem>, c: seq<NewsItem>,
                      s0: set<string>, s1: set<string>, s2: set<string>, s3: set<string>)
    requires x <= a && y <= b && z <= c
    requires s0 <= s1 <= s2 <= s3
    requires forall k :: 0 <= k < |a| ==> a[k].contentHash !in s0 && a[k].contentHash in s1
    requires forall k :: 0 <= k < |b| ==> b[k].contentHash !in s1 && b[k].contentHash in s2
    requires forall k :: 0 <= k < |c| ==> c[k].contentHash !in s2 && c[k].contentHash in s3
    ensures forall k :: 0 <= k < |x + y + z| ==> (x + y + z)[k].contentHash !in s0 && (x + y + z)[k].contentHash in s3
  {
    forall k | 0 <= k < |x + y + z|
      ensures (x + y + z)[k].contentHash !in s0 && (x + y + z)[k].contentHash in s3
    {
      if k < |x| {
        assert (x + y + z)[k] == a[k];
      } else if k < |x| + |y| {
        assert (x + y + z)[k] == b[k - |x|];
      } else {
        assert (x + y + z)[k] == c[k - |x| - |y|];
      }
    }
  }

  /** The articles `call_gnews_api` hands on after `count` earlier requests: none once the daily limit is reached. */
  function Answered(count: nat, answer: Option<seq<RawArticle>>): seq<RawArticle> {
    if count < MaxDailyRequests then answer.GetOr([]) else []
  }

  /** The result of `get_diverse_news`: the three categories, their concatenation and the counts. */
  datatype DiverseNews = DiverseNews(
    foreignTech: seq<NewsItem>,
    foreignGeneral: seq<NewsItem>,
    chineseNews: seq<NewsItem>,
    articles: seq<NewsItem>,
    total: nat,
    apiRequests: nat)

  class GNewsIntegratedCrawler {
    const md5: string -> string
    var requestCount: nat
    var seenArticles: set<string>
    /** Every hash emitted so far, across calls. */
    ghost var emitted: seq<string>

    ghost predicate Valid()
      reads this
    {
      requestCount <= MaxDailyRequests
      && Distinct(emitted)
      && (forall k :: 0 <= k < |emitted| ==> emitted[k] in seenArticles)
    }

    constructor (md5: string -> string)
      ensures this.md5 == md5 && requestCount == 0 && seenArticles == {} && emitted == []
      ensures Valid()
    {
      this.md5 := md5;
      requestCount := 0;
      seenArticles := {};
      emitted := [];
    }

    /** `check_api_limit` */
    function CheckApiLimit(): (ok: bool)
      reads this
      ensures ok <==> requestCount < MaxDailyRequests
    {
      requestCount < MaxDailyRequests
    }

    /**
     * `call_gnews_api`: over the limit, no request and no articles; otherwise the counter is
     * incremented before the request, so a failed request (`None`) still counts.
     */
    method CallGNewsApi(answer: Option<seq<RawArticle>>) returns (articles: seq<RawArticle>)
      requires Valid()
      modifies this`requestCount
      ensures Valid()
      ensures old(requestCount) >= MaxDailyRequests ==> articles == [] && requestCount == old(requestCount)
      ensures old(requestCount) < MaxDailyRequests ==> articles == answer.GetOr([]) && requestCount == old(requestCount) + 1
    {
      if !CheckApiLimit() {
        return [];
      }
      requestCount := requestCount + 1;
      articles := answer.GetOr([]);
    }

    /** The dedup-and-convert loop shared by `get_gnews_headlines` and `search_gnews`. */
    method ProcessArticles(raw: seq<RawArticle>, lang: string, now: string) returns (items: seq<NewsItem>)
      requires Valid()
      modifies this`seenArticles, this`emitted
      ensures Valid()
      ensures var b := ProcessBatch(md5, old(seenArticles), raw, lang, now);
        items == b.items && seenArticles == b.seen && emitted == old(emitted) + Hashes(items)
    {
      items := [];
      ghost var seen0, emitted0 := seenArticles, emitted;
      var i := 0;
      while i < |raw|
        invariant 0 <= i <= |raw|
        invariant Batch(items, seenArticles) == ProcessBatch(md5, seen0, raw[..i], lang, now)
        invariant emitted == emitted0
      {
        assert raw[..i + 1][..i] == raw[..i];
        assert Last(raw[..i + 1]) == raw[i];
        var hash := md5(HashedText(raw[i]));
        if hash !in seenArticles {
          seenArticles := seenArticles + {hash};
          items := items + [Convert(raw[i], hash, lang, now)];
        }
        i := i + 1;
      }
      assert raw[..i] == raw;
      BatchFresh(md5, seen0, raw, lang, now);
      emitted := emitted + Hashes(items);
      FreshAppendDistinct(emitted0, Hashes(items), seen0, seenArticles);
    }

    /** `get_gnews_headlines` for one answer of the "top-headlines" endpoint. */
    method GetGNewsHeadlines(lang: string, answer: Option<seq<RawArticle>>, now: string) returns (items: seq<NewsItem>)
      requires Valid()
      modifies this`requestCount, this`seenArticles, this`emitted
      ensures Valid()
      ensures requestCount == old(requestCount) + (if old(requestCount) < MaxDailyRequests then 1 else 0)
      ensures var b := ProcessBatch(md5, old(seenArticles), Answered(old(requestCount), answer), lang, now);
        items == b.items && seenArticles == b.seen && emitted == old(emitted) + Hashes(items)
    {
      var raw := CallGNewsApi(answer);
      items := ProcessArticles(raw, lang, now);
    }

    /** `search_gnews` for one answer of the "search" endpoint. */
    method SearchGNews(lang: string, answer: Option<seq<RawArticle>>, now: string) returns (items: seq<NewsItem>)
      requires Valid()
      modifies this`requestCount, this`seenArticles, this`emitted
      ensures Valid()
      ensures requestCount == old(requestCount) + (if old(requestCount) < MaxDailyRequests then 1 else 0)
      ensures var b := ProcessBatch(md5, old(seenArticles), Answered(old(requestCount), answer), lang, now);
        items == b.items && seenArticles == b.seen && emitted == old(emitted) + Hashes(items)
    {
      var raw := CallGNewsApi(answer);
      items := ProcessArticles(raw, lang, now);
    }

    /**
     * `get_diverse_news`: English technology search, English and Chinese headlines, at most five
     * of each, concatenated in that order.
     */
    method GetDiverseNews(techAnswer: Option<seq<RawArticle>>, generalAnswer: Option<seq<RawArticle>>,
                          chineseAnswer: Option<seq<RawArticle>>, now: string) returns (news: DiverseNews)
      requires Valid()
      modifies this`requestCount, this`seenArticles, this`emitted
      ensures Valid()
      ensures |news.foreignTech| <= PerCategory && |news.foreignGeneral| <= PerCategory && |news.chineseNews| <= PerCategory
      ensures news.articles == news.foreignTech + news.foreignGeneral + news.chineseNews
      ensures news.total == |news.foreignTech| + |news.foreignGeneral| + |news.chineseNews|
      ensures news.apiRequests == requestCount == MinNat(old(requestCount) + 3, MaxDailyRequests)
      ensures forall k :: 0 <= k < |news.chineseNews| ==> !news.chineseNews[k].needsTranslation
      ensures var b1 := ProcessBatch(md5, old(seenArticles), Answered(old(requestCount), techAnswer), "en", now);
        var b2 := ProcessBatch(md5, b1.seen, Answered(old(requestCount) + 1, generalAnswer), "en", now);
        var b3 := ProcessBatch(md5, b2.seen, Answered(old(requestCount) + 2, chineseAnswer), "zh", now);
        && news.foreignTech == PyPrefix(b1.items, PerCategory)
        && news.foreignGeneral == PyPrefix(b2.items, PerCategory)
        && news.chineseNews == PyPrefix(b3.items, PerCategory)
        && seenArticles == b3.seen
      ensures Distinct(Hashes(news.articles))
      ensures forall k :: 0 <= k < |news.articles| ==>
        news.articles[k].contentHash !in old(seenArticles) && news.articles[k].contentHash in seenArticles
    {
      ghost var emitted0, seen0 := emitted, seenArticles;
      var tech := SearchGNews("en", techAnswer, now);
      ghost var seen1 := seenArticles;
      var general := GetGNewsHeadlines("en", generalAnswer, now);
      ghost var seen2 := seenArticles;
      var chinese := GetGNewsHeadlines("zh", chineseAnswer, now);
      var foreignTech := PyPrefix(tech, PerCategory);
      var foreignGeneral := PyPrefix(general, PerCategory);
      var chineseNews := PyPrefix(chinese, PerCategory);
      forall k | 0 <= k < |chineseNews| ensures !chineseNews[k].needsTranslation {
        assert chineseNews[k] == chinese[k];
      }
      var merged := foreignTech + foreignGeneral + chineseNews;
      FreshPrefixes(foreignTech, foreignGeneral, chineseNews, tech, general, chinese, seen0, seen1, seen2, seenArticles);
      HashesConcat(foreignTech, foreignGeneral, chineseNews);
      HashesPrefix(tech, PerCategory);
      HashesPrefix(general, PerCategory);
      HashesPrefix(chinese, PerCategory);
      assert emitted == emitted0 + Hashes(tech) + Hashes(general) + Hashes(chinese);
      DistinctPieces(emitted0, Hashes(tech), Hashes(general), Hashes(chinese),
                     Hashes(foreignTech), Hashes(foreignGeneral), Hashes(chineseNews));
      news := DiverseNews(foreignTech, foreignGeneral, chineseNews, merged, |merged|, requestCount);
    }
  }
}
