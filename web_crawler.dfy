/**
 * src/web_crawler.py: per-source truncation in `crawl_all_sources`, the cache choice of
 * `load_from_cache` and the fixed 21 + 9 mix of `get_content_for_recommendation`. What each
 * source's fetch returned is a parameter (the fetchers catch their own errors).
 */
module WebCrawler {
  import opened Wrappers
  import opened Numbers
  import opened Lists
  import opened Mixing

  const TotalNeeded := 30
  const CachePrefix := "crawled_"
  const CacheHours := 72.0
  const DefaultMaxItemsPerSource := 5

  /** The sources' items, each cut to its first `maxItems`, one after another. */
  function Truncated(fetched: seq<seq<Article>>, maxItems: int): (r: seq<Article>)
    ensures maxItems >= 0 ==> |r| <= |fetched| * maxItems
  {
    if fetched == [] then []
    else
      var n := |fetched| - 1;
      var last := PyPrefix(Last(fetched), maxItems);
      assert maxItems >= 0 ==> |last| <= maxItems;
      assert n * maxItems + maxItems == |fetched| * maxItems;
      Truncated(fetched[..n], maxItems) + last
  }

  /** A source's items appear in the result as its own prefix of at most `maxItems`. */
  lemma {:induction false} TruncatedSplits(fetched: seq<seq<Article>>, maxItems: int, k: nat)
    requires k < |fetched|
    ensures Truncated(fetched[..k + 1], maxItems) == Truncated(fetched[..k], maxItems) + PyPrefix(fetched[k], maxItems)
    ensures maxItems >= 0 ==> |PyPrefix(fetched[k], maxItems)| <= maxItems
  {
    assert fetched[..k + 1][..k] == fetched[..k];
  }

  /** One half of `crawl_all_sources`: extend with each source's truncated items. */
  method CrawlHalf(fetched: seq<seq<Article>>, maxItems: int) returns (items: seq<Article>, count: nat)
    ensures items == Truncated(fetched, maxItems) && count == |items|
  {
    items := [];
    count := 0;
    var i := 0;
    while i < |fetched|
      invariant 0 <= i <= |fetched|
      invariant items == Truncated(fetched[..i], maxItems) && count == |items|
    {
      assert fetched[..i + 1][..i] == fetched[..i];
      var sourceItems := PyPrefix(fetched[i], maxItems);
      items := items + sourceItems;
      count := count + |sourceItems|;
      i := i + 1;
    }
    assert fetched[..i] == fetched;
  }

  /** `crawl_all_sources` (saving to the cache left out); sources are listed category by category. */
  method CrawlAllSources(foreign: seq<seq<Article>>, chinese: seq<seq<Article>>, maxItems: int) returns (all: Sources)
    ensures all == Sources(Truncated(foreign, maxItems), Truncated(chinese, maxItems))
  {
    var foreignItems, foreignCount := CrawlHalf(foreign, maxItems);
    var chineseItems, chineseCount := CrawlHalf(chinese, maxItems);
    all := Sources(foreignItems, chineseItems);
  }

  /** `load_from_cache`: the items of the newest `crawled_*.json` from the last `hours`, if readable. */
  method LoadFromCache(files: seq<CacheFile>, now: real, hours: real) returns (data: Option<Sources>)
    ensures var i := Newest(files, CachePrefix, now - hours);
      data == if i.Some? then files[i.value].data else None
  {
    var latest := LatestCache(files, CachePrefix, now, hours);
    if latest.None? {
      return None;
    }
    data := files[latest.value].data;
  }

  /**
   * `get_content_for_recommendation`: the cache when asked for and usable, else the crawl;
   * then the first 21 foreign and the first 9 Chinese items.
   */
  method GetContentForRecommendation(useCached: bool, files: seq<CacheFile>, now: real, crawled: Sources)
    returns (items: seq<Article>)
    ensures var i := Newest(files, CachePrefix, now - CacheHours);
      var data := if useCached && i.Some? && files[i.value].data.Some? then files[i.value].data.value else crawled;
      items == MarkedMix(data.foreign, data.chinese, TotalNeeded)
  {
    var data: Option<Sources> := None;
    if useCached {
      data := LoadFromCache(files, now, CacheHours);
    }
    var d := if data.Some? then data.value else crawled;
    items := MixAndMark(d.foreign, d.chinese, TotalNeeded);
  }

  /** The fixed total splits into 21 foreign and 9 Chinese; at most 30 items come out, foreign first. */
  lemma RecommendationShape(data: Sources)
    ensures ForeignTarget(TotalNeeded) == 21 && TotalNeeded - ForeignTarget(TotalNeeded) == 9
    ensures var r := MarkedMix(data.foreign, data.chinese, TotalNeeded);
      |r| <= TotalNeeded
      && (forall k :: 0 <= k < |r| && k < MinNat(21, |data.foreign|) ==> r[k] == Marked(data.foreign[k], true, "en"))
      && (forall k :: MinNat(21, |data.foreign|) <= k < |r| ==> r[k] == Marked(data.chinese[k - MinNat(21, |data.foreign|)], false, "zh"))
  {
  }
}
