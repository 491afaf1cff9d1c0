/**
 * src/hybrid_crawler.py: the cache, then real crawl, then mock fallback chain with its
 * `use_mock_data` flag, and the marking and mix of `get_content_for_processing`. What the
 * real crawler's `load_recent_data` and `daily_crawl` return is a parameter, `None` when they raise.
 */
module HybridCrawler {
  import opened Wrappers
  import opened Numbers
  import opened Lists
  import opened Mixing

  const MaxTotal := 10

  /** Cached articles split by language: English ones are foreign, all others Chinese. */
  function SplitByLanguage(articles: seq<Article>): (r: Sources)
    ensures |r.foreign| + |r.chinese| == |articles|
    ensures forall k :: 0 <= k < |r.foreign| ==> r.foreign[k].language == "en"
    ensures forall k :: 0 <= k < |r.chinese| ==> r.chinese[k].language != "en"
  {
    if articles == [] then Sources([], [])
    else
      var prev := SplitByLanguage(articles[..|articles| - 1]);
      var a := Last(articles);
      if a.language == "en" then prev.(foreign := prev.foreign + [a]) else prev.(chinese := prev.chinese + [a])
  }

  function Size(s: Sources): nat {
    |s.foreign| + |s.chinese|
  }

  /** The articles of `get_content_for_processing` before the mix: foreign ones flagged, then Chinese ones. */
  function Flagged(data: Sources): seq<Article> {
    MarkAll(data.foreign, true, "en") + MarkAll(data.chinese, false, "zh")
  }

  /** The mix of `get_content_for_processing`: at most 10, 70% foreign first. */
  function ProcessingMix(data: Sources): seq<Article> {
    var all := Flagged(data);
    QuotaMix(WithFlag(all, true), WithFlag(all, false), MinNat(MaxTotal, |all|))
  }

  /** Filtering the flagged articles by flag recovers the two marked halves. */
  lemma FlaggedHalves(data: Sources)
    ensures WithFlag(Flagged(data), true) == MarkAll(data.foreign, true, "en")
    ensures WithFlag(Flagged(data), false) == MarkAll(data.chinese, false, "zh")
  {
    var f, c := MarkAll(data.foreign, true, "en"), MarkAll(data.chinese, false, "zh");
    WithFlagAppend(f, c, true);
    WithFlagAppend(f, c, false);
    WithFlagOfMarked(data.foreign, true, "en");
    WithFlagOfMarked(data.chinese, false, "zh");
  }

  /** So the mix is the marked 70/30 mix of the data, at most 10 articles and no more than it holds. */
  lemma ProcessingMixIsMarkedMix(data: Sources)
    ensures ProcessingMix(data) == MarkedMix(data.foreign, data.chinese, MinNat(MaxTotal, Size(data)))
    ensures |ProcessingMix(data)| <= MaxTotal && |ProcessingMix(data)| <= Size(data)
  {
    FlaggedHalves(data);
    MixOfMarked(data.foreign, data.chinese, MinNat(MaxTotal, Size(data)));
  }

  class HybridCrawler {
    const realCrawlerAvailable: bool
    const mockData: Sources
    var useMockData: bool
    var lastCrawlTime: Option<real>

    constructor (realCrawlerAvailable: bool, mockData: Sources)
      ensures this.realCrawlerAvailable == realCrawlerAvailable && this.mockData == mockData
      ensures !useMockData && lastCrawlTime.None?
    {
      this.realCrawlerAvailable := realCrawlerAvailable;
      this.mockData := mockData;
      useMockData := false;
      lastCrawlTime := None;
    }

    /**
     * `try_real_crawl`: a non-empty crawl is returned and clears the mock flag; an empty or
     * failed crawl sets it; without a real crawler nothing happens.
     */
    method TryRealCrawl(crawl: Option<Sources>, now: real) returns (r: Option<Sources>)
      modifies this`useMockData, this`lastCrawlTime
      ensures !realCrawlerAvailable ==> r.None? && useMockData == old(useMockData) && lastCrawlTime == old(lastCrawlTime)
      ensures realCrawlerAvailable && crawl.Some? && Size(crawl.value) > 0 ==>
        r == crawl && !useMockData && lastCrawlTime == Some(now)
      ensures realCrawlerAvailable && (crawl.None? || Size(crawl.value) == 0) ==>
        r.None? && useMockData && lastCrawlTime == old(lastCrawlTime)
    {
      if !realCrawlerAvailable {
        return None;
      }
      if crawl.None? {
        useMockData := true;
        return None;
      }
      var result := crawl.value;
      var totalArticles := |result.foreign| + |result.chinese|;
      if totalArticles > 0 {
        useMockData := false;
        lastCrawlTime := Some(now);
        return Some(result);
      }
      useMockData := true;
      return None;
    }

    /** The data `load_or_crawl` settles on. */
    function Chosen(useCached: bool, cached: Option<seq<Article>>, crawl: Option<Sources>): Sources {
      if useCached && realCrawlerAvailable && cached.Some? && cached.value != [] then SplitByLanguage(cached.value)
      else if realCrawlerAvailable && crawl.Some? && Size(crawl.value) > 0 then crawl.value
      else mockData
    }

    /**
     * `load_or_crawl`: non-empty cached articles when asked for and a real crawler exists, else
     * a non-empty real crawl, else the mock data; the flag records whether the mock was used.
     */
    method LoadOrCrawl(useCached: bool, cached: Option<seq<Article>>, crawl: Option<Sources>, now: real)
      returns (data: Sources)
      modifies this`useMockData, this`lastCrawlTime
      ensures useCached && realCrawlerAvailable && cached.Some? && cached.value != [] ==>
        data == SplitByLanguage(cached.value) && !useMockData && lastCrawlTime == old(lastCrawlTime)
      ensures !(useCached && realCrawlerAvailable && cached.Some? && cached.value != []) ==>
        if realCrawlerAvailable && crawl.Some? && Size(crawl.value) > 0
        then data == crawl.value && !useMockData && lastCrawlTime == Some(now)
        else data == mockData && useMockData && lastCrawlTime == old(lastCrawlTime)
      ensures useMockData <==> data == mockData && !(useCached && realCrawlerAvailable && cached.Some? && cached.value != [])
                                && !(realCrawlerAvailable && crawl.Some? && Size(crawl.value) > 0)
      ensures data == Chosen(useCached, cached, crawl)
    {
      if useCached && realCrawlerAvailable && cached.Some? {
        var articles := cached.value;
        if articles != [] {
          var result := SplitByLanguage(articles);
          if result.foreign != [] || result.chinese != [] {
            useMockData := false;
            return result;
          }
        }
      }
      var realResult := TryRealCrawl(crawl, now);
      if realResult.Some? {
        return realResult.value;
      }
      useMockData := true;
      data := mockData;
    }

    /** `get_content_for_processing` */
    method GetContentForProcessing(useCached: bool, cached: Option<seq<Article>>, crawl: Option<Sources>, now: real)
      returns (result: seq<Article>)
      modifies this`useMockData, this`lastCrawlTime
      ensures result == ProcessingMix(Chosen(useCached, cached, crawl))
      ensures |result| <= MaxTotal
      ensures var fromCache := useCached && realCrawlerAvailable && cached.Some? && cached.value != [];
        var crawled := !fromCache && realCrawlerAvailable && crawl.Some? && Size(crawl.value) > 0;
        && (useMockData <==> !fromCache && !crawled)
        && lastCrawlTime == (if crawled then Some(now) else old(lastCrawlTime))
    {
      var data := LoadOrCrawl(useCached, cached, crawl, now);
      var foreign := MarkLanguage(data.foreign, true, "en");
      var chinese := MarkLanguage(data.chinese, false, "zh");
      var allArticles := foreign + chinese;
      var foreignArticles := WithFlag(allArticles, true);
      var chineseArticles := WithFlag(allArticles, false);
      var totalNeeded := MinNat(MaxTotal, |allArticles|);
      var foreignTarget := ForeignTarget(totalNeeded);
      var chineseTarget := totalNeeded - foreignTarget;
      var selectedForeign := PyPrefix(foreignArticles, MinNat(foreignTarget, |foreignArticles|));
      var selectedChinese := PyPrefix(chineseArticles, MinNat(chineseTarget, |chineseArticles|));
      assert selectedForeign == PyPrefix(foreignArticles, foreignTarget);
      assert selectedChinese == PyPrefix(chineseArticles, chineseTarget);
      result := selectedForeign + selectedChinese;
      assert result == ProcessingMix(data);
      ProcessingMixIsMarkedMix(data);
    }
  }
}
