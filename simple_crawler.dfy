/**
 * src/simple_crawler.py: the mock fallback of `crawl_all_sources`, the cache choice of
 * `load_from_cache` and the quota mix of `get_content_for_recommendation`. Each fetch is a
 * parameter: `Some(items)` is what it returned, `None` that it raised.
 */
module SimpleCrawler {
  import opened Wrappers
  import opened Numbers
  import opened Lists
  import opened Mixing

  const MaxTotal := 20
  const CachePrefix := "simple_crawled_"
  const CacheHours := 72.0

  predicate AnyFailed(fetches: seq<Option<seq<Article>>>) {
    exists k :: 0 <= k < |fetches| && fetches[k].None?
  }

  /** The fetches in order, up to the first that raises. */
  datatype Gathered = Gathered(items: seq<Article>, failed: bool)

  function Gather(fetches: seq<Option<seq<Article>>>): (g: Gathered)
    ensures g.failed <==> AnyFailed(fetches)
  {
    if fetches == [] then Gathered([], false)
    else
      var init := fetches[..|fetches| - 1];
      assert forall k :: 0 <= k < |init| ==> init[k] == fetches[k];
      var prev := Gather(init);
      if prev.failed then prev
      else
        match Last(fetches)
        case None => Gathered(prev.items, true)
        case Some(items) => Gathered(prev.items + items, false)
  }

  /** Without a failure, everything every source returned, in order. */
  function Concat(fetches: seq<Option<seq<Article>>>): seq<Article> {
    if fetches == [] then [] else Concat(fetches[..|fetches| - 1]) + Last(fetches).GetOr([])
  }

  lemma {:induction false} GatherAll(fetches: seq<Option<seq<Article>>>)
    requires !AnyFailed(fetches)
    ensures Gather(fetches).items == Concat(fetches)
  {
    if fetches != [] {
      var init := fetches[..|fetches| - 1];
      assert !AnyFailed(init) by {
        assert forall k :: 0 <= k < |init| ==> init[k] == fetches[k];
      }
      assert Last(fetches) == fetches[|fetches| - 1];
      GatherAll(init);
    }
  }

  /** What `crawl_all_sources` returns, and whether it counts as a success. */
  datatype CrawlOutcome = CrawlOutcome(items: Sources, success: bool)

  function Crawl(foreign: seq<Option<seq<Article>>>, chinese: seq<Option<seq<Article>>>,
                 useMockIfFailed: bool, mock: Sources): (r: CrawlOutcome)
    ensures !AnyFailed(foreign) && !AnyFailed(chinese) ==>
      r == CrawlOutcome(Sources(Gather(foreign).items, Gather(chinese).items), true)
    ensures (AnyFailed(foreign) || AnyFailed(chinese)) && useMockIfFailed ==> r == CrawlOutcome(mock, true)
    ensures (AnyFailed(foreign) || AnyFailed(chinese)) && !useMockIfFailed ==>
      !r.success && r.items.foreign == Gather(foreign).items
  {
    var f := Gather(foreign);
    var partial := if f.failed then Sources(f.items, []) else Sources(f.items, Gather(chinese).items);
    var raised := f.failed || Gather(chinese).failed;
    if raised && useMockIfFailed then CrawlOutcome(mock, true) else CrawlOutcome(partial, !raised)
  }

  /** A crawl in which no fetch raises keeps everything every source returned, and no mock data. */
  lemma CrawlWithoutFailure(foreign: seq<Option<seq<Article>>>, chinese: seq<Option<seq<Article>>>,
                          useMockIfFailed: bool, mock: Sources)
    requires !AnyFailed(foreign) && !AnyFailed(chinese)
    ensures Crawl(foreign, chinese, useMockIfFailed, mock) == CrawlOutcome(Sources(Concat(foreign), Concat(chinese)), true)
  {
    GatherAll(foreign);
    GatherAll(chinese);
  }

  /** One loop of `crawl_all_sources` inside its `try`: extend until a fetch raises. */
  method GatherLoop(fetches: seq<Option<seq<Article>>>) returns (items: seq<Article>, failed: bool)
    ensures Gathered(items, failed) == Gather(fetches)
  {
    items := [];
    failed := false;
    var i := 0;
    while i < |fetches|
      invariant 0 <= i <= |fetches|
      invariant Gathered(items, false) == Gather(fetches[..i])
    {
      assert fetches[..i + 1][..i] == fetches[..i];
      assert Last(fetches[..i + 1]) == fetches[i];
      if fetches[i].None? {
        GatherStops(fetches, i + 1);
        return items, true;
      }
      items := items + fetches[i].value;
      i := i + 1;
    }
    assert fetches[..i] == fetches;
  }

  /** After a failure nothing further is gathered. */
  lemma {:induction false} GatherStops(fetches: seq<Option<seq<Article>>>, n: nat)
    requires n <= |fetches| && Gather(fetches[..n]).failed
    ensures Gather(fetches) == Gather(fetches[..n])
    decreases |fetches| - n
  {
    if n == |fetches| {
      assert fetches[..n] == fetches;
    } else {
      assert fetches[..n + 1][..n] == fetches[..n];
      GatherStops(fetches, n + 1);
    }
  }

  /** `crawl_all_sources` (saving to the cache left out). */
  method CrawlAllSources(foreign: seq<Option<seq<Article>>>, chinese: seq<Option<seq<Article>>>,
                         useMockIfFailed: bool, mock: Sources) returns (r: CrawlOutcome)
    ensures r == Crawl(foreign, chinese, useMockIfFailed, mock)
  {
    var success := false;
    var all := Sources([], []);
    var foreignItems, failed := GatherLoop(foreign);
    all := all.(foreign := foreignItems);
    if !failed {
      var chineseItems, failed2 := GatherLoop(chinese);
      all := all.(chinese := chineseItems);
      success := !failed2;
    }
    if !success && useMockIfFailed {
      all := mock;
      success := true;
    }
    r := CrawlOutcome(all, success);
  }

  /** `load_from_cache`: the items of the newest `simple_crawled_*.json` from the last `hours`, if readable. */
  method LoadFromCache(files: seq<CacheFile>, now: real, hours: real) returns (data: Option<Sources>)
    ensures var i := Newest(files, CachePrefix, now - hours);
      data == if i.Some? then files[i.value].data else None
  {
    var latest := LatestCache(files, CachePrefix, now, hours);
    if latest.None? {
      return None;
    }
    data := files[latest.value].data;
  }

  /**
   * `get_content_for_recommendation`: the cache when asked for and usable, else the crawl;
   * then at most 20 items, 70% foreign first.
   */
  method GetContentForRecommendation(useCached: bool, files: seq<CacheFile>, now: real, crawled: Sources)
    returns (items: seq<Article>)
    ensures var i := Newest(files, CachePrefix, now - CacheHours);
      var data := if useCached && i.Some? && files[i.value].data.Some? then files[i.value].data.value else crawled;
      items == MarkedMix(data.foreign, data.chinese, MinNat(MaxTotal, |data.foreign| + |data.chinese|))
  {
    var data: Option<Sources> := None;
    if useCached {
      data := LoadFromCache(files, now, CacheHours);
    }
    var d := if data.Some? then data.value else crawled;
    items := MixAndMark(d.foreign, d.chinese, MinNat(MaxTotal, |d.foreign| + |d.chinese|));
  }

  /** The mix never exceeds 20 items nor what the data holds, and puts flagged foreign items first. */
  lemma RecommendationShape(data: Sources)
    ensures var total := MinNat(MaxTotal, |data.foreign| + |data.chinese|);
      var r := MarkedMix(data.foreign, data.chinese, total);
      |r| <= MaxTotal && |r| <= |data.foreign| + |data.chinese|
      && (forall k :: 0 <= k < |r| && k < MinNat(ForeignTarget(total), |data.foreign|) ==> r[k].needsTranslation == Some(true))
      && (forall k :: MinNat(ForeignTarget(total), |data.foreign|) <= k < |r| ==> r[k].needsTranslation == Some(false))
  {
  }
}
