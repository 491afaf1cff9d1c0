/**
 * The content pipeline of src/content_processor.py: basic checks, the local part of the
 * style analysis, the rewrite cache, the patriotic enhancement, quality scoring, and the
 * four counters the processor keeps across calls.
 */
module Processor {
  import opened Wrappers
  import opened Numbers
  import opened Text

  /** The analysis dictionary; `None` is a missing key. `error` is the presence of the "error" key. */
  datatype Analysis = Analysis(
    error: bool,
    action: string,
    sentiment: Option<real>,
    sensationalism: Option<real>,
    clickbait: Option<real>,
    patrioticLevel: Option<real>,
    techRelevance: Option<real>,
    formality: Option<real>)

  /** A content item. `tags` is what `item.get("tags", [])` returns. */
  datatype ContentItem = ContentItem(
    title: Option<string>,
    content: Option<string>,
    source: Option<string>,
    tags: seq<string>,
    wasRewritten: bool,
    originalStyle: Option<Analysis>,
    qualityScore: Option<real>,
    needsTranslation: bool)

  /** Why `basic_checks` rejects an item, in the order it looks. */
  datatype CheckVerdict = Accepted | MissingContent | MissingSource | Blacklisted(keyword: string) | TooShort

  const MinContentLength := 20
  const ClickbaitPatterns := ["震惊", "惊呆", "吓尿", "重磅", "突发", "速看", "竟然", "原来", "真相", "秘密"]

  /** The patriotic patterns in dictionary order, each with its candidate replacements. */
  const PatrioticPatterns: seq<(string, seq<string>)> := [
    ("中国", ["伟大的中国", "繁荣昌盛的中国"]),
    ("发展", ["蓬勃发展", "高质量发展"]),
    ("成就", ["辉煌成就", "举世瞩目的成就"]),
    ("技术", ["自主创新技术", "领先技术"]),
    ("突破", ["重大突破", "历史性突破"])]

  /** The text the keyword checks search: "title content". */
  function CheckedText(item: ContentItem): string {
    item.title.GetOr("") + " " + item.content.GetOr("")
  }

  /** `basic_checks`, with the reason for a rejection. A missing key and an empty string are both falsy. */
  function BasicChecks(item: ContentItem, blacklist: seq<string>): (v: CheckVerdict)
    ensures var content := item.content.GetOr(""); var source := item.source.GetOr("");
      && (v == MissingContent <==> content == "")
      && (v == MissingSource <==> content != "" && source == "")
      && (v.Blacklisted? <==> content != "" && source != "" && AnyIn(CheckedText(item), blacklist))
      && (v == TooShort <==> content != "" && source != "" && !AnyIn(CheckedText(item), blacklist) && |content| < MinContentLength)
      && (v == Accepted <==> content != "" && source != "" && !AnyIn(CheckedText(item), blacklist) && |content| >= MinContentLength)
    ensures v.Blacklisted? ==> Some(v.keyword) == FirstContained(CheckedText(item), blacklist)
  {
    var content := item.content.GetOr("");
    if content == "" then MissingContent
    else if item.source.GetOr("") == "" then MissingSource
    else match FirstContained(CheckedText(item), blacklist)
      case Some(k) => Blacklisted(k)
      case None => if |content| < MinContentLength then TooShort else Accepted
  }

  /** The local clickbait score: 0.1 per listed pattern found in the title, capped at 1. */
  function ClickbaitScore(title: string): (r: real)
    ensures InUnit(r)
    ensures r == (CountContained(title, ClickbaitPatterns) as real) / 10.0
    ensures r == 0.0 <==> !AnyIn(title, ClickbaitPatterns)
  {
    Min(1.0, 0.1 * CountContained(title, ClickbaitPatterns) as real)
  }

  /** The recommended action of the local analysis. */
  function Decide(sentiment: real, clickbait: real, sensationalism: real): (a: string)
    ensures a == "filter" <==> sentiment < -0.3
    ensures a == "rewrite" <==> sentiment >= -0.3 && (clickbait > 0.5 || sensationalism > 0.6)
    ensures a == "keep" <==> sentiment >= -0.3 && clickbait <= 0.5 && sensationalism <= 0.6
  {
    if sentiment < -0.3 then "filter"
    else if clickbait > 0.5 || sensationalism > 0.6 then "rewrite"
    else "keep"
  }

  /**
   * The local part of `analyze_content`: an analysis with the "error" key passes through;
   * otherwise the local clickbait score replaces the external one and the action is decided.
   */
  function Analyze(external: Analysis, item: ContentItem): (r: Analysis)
    ensures external.error ==> r == external
    ensures !external.error ==> r.clickbait == Some(ClickbaitScore(item.title.GetOr("")))
    ensures !external.error ==>
      r.action == Decide(external.sentiment.GetOr(0.0), ClickbaitScore(item.title.GetOr("")), external.sensationalism.GetOr(0.0))
    ensures r.sentiment == external.sentiment && r.sensationalism == external.sensationalism
    ensures r.patrioticLevel == external.patrioticLevel && r.techRelevance == external.techRelevance
    ensures r.formality == external.formality && r.error == external.error
  {
    if external.error then external
    else
      var clickbait := ClickbaitScore(item.title.GetOr(""));
      external.(clickbait := Some(clickbait),
                action := Decide(external.sentiment.GetOr(0.0), clickbait, external.sensationalism.GetOr(0.0)))
  }

  /**
   * Without other grounds for a rewrite, the clickbait score alone asks for one exactly when
   * six or more of the listed patterns occur in the title.
   */
  lemma ClickbaitRewriteThreshold(external: Analysis, item: ContentItem)
    requires !external.error
    requires external.sentiment.GetOr(0.0) >= -0.3 && external.sensationalism.GetOr(0.0) <= 0.6
    ensures Analyze(external, item).action == "rewrite" <==> CountContained(item.title.GetOr(""), ClickbaitPatterns) >= 6
  {
  }

  /** `calculate_quality_score` before the rewrite bonus. */
  function BaseQuality(a: Analysis): real {
    a.patrioticLevel.GetOr(0.5) * 0.3 + a.techRelevance.GetOr(0.5) * 0.25 + a.formality.GetOr(0.5) * 0.2
    + Max(0.0, a.sentiment.GetOr(0.0)) * 0.15 + (1.0 - a.clickbait.GetOr(0.0)) * 0.1
  }

  predicate FeaturesInUnit(a: Analysis) {
    InUnit(a.patrioticLevel.GetOr(0.5)) && InUnit(a.techRelevance.GetOr(0.5)) && InUnit(a.formality.GetOr(0.5))
    && a.sentiment.GetOr(0.0) <= 1.0 && InUnit(a.clickbait.GetOr(0.0))
  }

  /** `calculate_quality_score`: a rewritten item earns 10%, capped at 1. */
  function QualityScore(a: Analysis, wasRewritten: bool): (r: real)
    ensures FeaturesInUnit(a) ==> InUnit(r)
    ensures !wasRewritten ==> r == BaseQuality(a)
    ensures wasRewritten ==> r <= 1.0
    ensures wasRewritten && 0.0 <= BaseQuality(a) <= 1.0 ==> BaseQuality(a) <= r
    ensures wasRewritten && BaseQuality(a) * 1.1 <= 1.0 ==> r == BaseQuality(a) * 1.1
  {
    if wasRewritten then Min(1.0, BaseQuality(a) * 1.1) else BaseQuality(a)
  }

  /** A rewrite never lowers the quality of an item with features in range. */
  lemma RewriteBonus(a: Analysis)
    requires FeaturesInUnit(a)
    ensures QualityScore(a, false) <= QualityScore(a, true)
  {
  }

  // ---------------------------------------------------------------------------
  // The rewrite cache

  const CacheHours := 24.0

  datatype CacheEntry = CacheEntry(content: string, timestamp: real)

  /** The cached rewrite of the content with this hash, if stored less than 24 hours before `now`. */
  function CacheHit(cache: map<string, CacheEntry>, key: string, now: real): (r: Option<string>)
    ensures r.Some? <==> key in cache && now - cache[key].timestamp < CacheHours
    ensures r.Some? ==> r.value == cache[key].content
  {
    if key in cache && now - cache[key].timestamp < CacheHours then Some(cache[key].content) else None
  }

  /** What `rewrite_content` returns, whether it called the external rewrite, and the cache after it. */
  datatype Rewrite = Rewrite(text: Option<string>, called: bool, cache: map<string, CacheEntry>)

  predicate NonEmpty(s: Option<string>) {
    s.Some? && s.value != ""
  }

  /**
   * `rewrite_content` for the content with hash `key`; `external` is what the external rewrite
   * would return (`None` for no answer). Only a non-empty result is stored, stamped `now`.
   */
  function RewriteStep(cache: map<string, CacheEntry>, key: string, now: real, external: Option<string>): (r: Rewrite)
    ensures r.called <==> CacheHit(cache, key, now).None?
    ensures !r.called ==> r.text == CacheHit(cache, key, now) && r.cache == cache
    ensures r.called ==> r.text == external
    ensures r.called && NonEmpty(external) ==> r.cache == cache[key := CacheEntry(external.value, now)]
    ensures !(r.called && NonEmpty(external)) ==> r.cache == cache
  {
    match CacheHit(cache, key, now)
    case Some(text) => Rewrite(Some(text), false, cache)
    case None =>
      if NonEmpty(external) then Rewrite(external, true, cache[key := CacheEntry(external.value, now)])
      else Rewrite(external, true, cache)
  }

  /** A stored rewrite is reused, with no external call, for 24 hours after it is stored. */
  lemma StoredRewriteReused(cache: map<string, CacheEntry>, key: string, now: real, external: Option<string>,
                            later: real, external2: Option<string>)
    requires CacheHit(cache, key, now).None? && NonEmpty(external)
    requires now <= later < now + CacheHours
    ensures var second := RewriteStep(RewriteStep(cache, key, now, external).cache, key, later, external2);
      !second.called && second.text == external
  {
  }

  /** Entries for other contents are never touched. */
  lemma RewriteKeepsOthers(cache: map<string, CacheEntry>, key: string, now: real, external: Option<string>, other: string)
    requires other != key
    ensures other in RewriteStep(cache, key, now, external).cache <==> other in cache
    ensures other in cache ==> RewriteStep(cache, key, now, external).cache[other] == cache[other]
  {
  }

  // ---------------------------------------------------------------------------
  // Enhancement

  /** One random choice per pattern, each among that pattern's replacements. */
  predicate ValidPicks(picks: seq<string>) {
    |picks| == |PatrioticPatterns| && forall i :: 0 <= i < |picks| ==> picks[i] in PatrioticPatterns[i].1
  }

  /** One step of the enhancement: the first occurrence of `pattern`, if any, becomes `replacement`. */
  function EnhanceStep(content: string, pattern: string, replacement: string): (r: string)
    ensures !Contains(content, pattern) ==> r == content
    ensures Contains(content, pattern) ==>
      var i := FindFirst(content, pattern).value;
      r == content[..i] + replacement + content[i + |pattern|..]
  {
    if Contains(content, pattern) then ReplaceFirst(content, pattern, replacement) else content
  }

  /** The content after the first `n` patterns are processed, in order. */
  function EnhancedUpTo(content: string, picks: seq<string>, n: nat): string
    requires ValidPicks(picks) && n <= |PatrioticPatterns|
  {
    if n == 0 then content
    else EnhanceStep(EnhancedUpTo(content, picks, n - 1), PatrioticPatterns[n - 1].0, picks[n - 1])
  }

  /** Content in which no pattern occurs comes out of the enhancement unchanged. */
  lemma {:induction false} NoPatternNoChange(content: string, picks: seq<string>, n: nat)
    requires ValidPicks(picks) && n <= |PatrioticPatterns|
    requires forall i :: 0 <= i < |PatrioticPatterns| ==> !Contains(content, PatrioticPatterns[i].0)
    ensures EnhancedUpTo(content, picks, n) == content
  {
    if n > 0 {
      NoPatternNoChange(content, picks, n - 1);
    }
  }

  /** The tags the enhanced content earns, in the order they are appended. */
  function EarnedTags(content: string): (r: seq<string>)
    ensures "科技" in r <==> Contains(content, "科技") || Contains(content, "技术")
    ensures "爱国" in r <==> Contains(content, "中国") || Contains(content, "国家")
    ensures "成就" in r <==> Contains(content, "突破") || Contains(content, "成就")
    ensures |r| <= 3
  {
    (if Contains(content, "科技") || Contains(content, "技术") then ["科技"] else [])
    + (if Contains(content, "中国") || Contains(content, "国家") then ["爱国"] else [])
    + (if Contains(content, "突破") || Contains(content, "成就") then ["成就"] else [])
  }

  /** `enhance_content`: the enhanced content, and the earned tags appended to the existing ones. */
  function Enhanced(item: ContentItem, picks: seq<string>): (r: ContentItem)
    requires ValidPicks(picks) && item.content.Some?
    ensures r.content == Some(EnhancedUpTo(item.content.value, picks, |PatrioticPatterns|))
    ensures item.tags <= r.tags && r.tags[|item.tags|..] == EarnedTags(r.content.value)
    ensures r.(content := item.content, tags := item.tags) == item
  {
    var content := EnhancedUpTo(item.content.value, picks, |PatrioticPatterns|);
    item.(content := Some(content), tags := item.tags + EarnedTags(content))
  }

  /** `enhance_content` with its loop over the patterns. */
  method EnhanceContent(item: ContentItem, picks: seq<string>) returns (r: ContentItem)
    requires ValidPicks(picks) && item.content.Some?
    ensures r == Enhanced(item, picks)
  {
    var content := item.content.value;
    var i := 0;
    while i < |PatrioticPatterns|
      invariant 0 <= i <= |PatrioticPatterns|
      invariant content == EnhancedUpTo(item.content.value, picks, i)
    {
      var (pattern, _) := PatrioticPatterns[i];
      if Contains(content, pattern) {
        content := ReplaceFirst(content, pattern, picks[i]);
      }
      i := i + 1;
    }
    r := item.(content := Some(content), tags := item.tags + EarnedTags(content));
  }

  // ---------------------------------------------------------------------------
  // Processing one item

  datatype Stats = Stats(processed: nat, rewritten: nat, filtered: nat, passed: nat)

  /** Every processed item was filtered or passed, and only passed items were rewritten. */
  predicate Balanced(s: Stats) {
    s.processed == s.filtered + s.passed && s.rewritten <= s.passed
  }

  /** The outcome of `process_content_item`: the item returned, whether it was rewritten, and the cache after it. */
  datatype Processed = Processed(result: Option<ContentItem>, rewrote: bool, cache: map<string, CacheEntry>)

  /** The item after a successful rewrite. */
  function Rewritten(item: ContentItem, text: string, analysis: Analysis): ContentItem {
    item.(content := Some(text), wasRewritten := true, originalStyle := Some(analysis))
  }

  /** The passing tail of `process_content_item`: enhancement, then the quality score. */
  function Finish(item: ContentItem, analysis: Analysis, picks: seq<string>): (r: ContentItem)
    requires ValidPicks(picks) && item.content.Some?
  {
    var e := Enhanced(item, picks);
    e.(qualityScore := Some(QualityScore(analysis, e.wasRewritten)))
  }

  /** Where an item stands before enhancement: dropped, or kept with its analysis and rewrite flag. */
  datatype Stage =
    | Dropped(cache: map<string, CacheEntry>)
    | Kept(item: ContentItem, analysis: Analysis, rewrote: bool, cache: map<string, CacheEntry>)

  /**
   * The checks, the analysis and the rewrite of `process_content_item`. `external` is the external
   * analysis of the content, `rewrite` what the external rewrite would return, `now` the clock in hours.
   */
  function Screen(item: ContentItem, blacklist: seq<string>, hash: string -> string, cache: map<string, CacheEntry>,
                  external: Analysis, rewrite: Option<string>, now: real): (st: Stage)
    ensures st.Kept? ==> st.item.content.Some?
    ensures st.Kept? && st.rewrote ==> st.item.wasRewritten
    ensures st.Kept? ==> st.analysis == Analyze(external, item)
    ensures BasicChecks(item, blacklist) != Accepted ==> st == Dropped(cache)
  {
    if BasicChecks(item, blacklist) != Accepted then Dropped(cache)
    else
      var analysis := Analyze(external, item);
      if analysis.action == "filter" then Dropped(cache)
      else if analysis.action == "rewrite" then
        var rw := RewriteStep(cache, hash(item.content.value), now, rewrite);
        if NonEmpty(rw.text) then Kept(Rewritten(item, rw.text.value, analysis), analysis, true, rw.cache)
        else if analysis.clickbait.GetOr(0.0) > 0.7 then Dropped(rw.cache)
        else Kept(item, analysis, false, rw.cache)
      else Kept(item, analysis, false, cache)
  }

  /** `process_content_item`: a kept item is enhanced and scored. `picks` are the random choices. */
  function Process(item: ContentItem, blacklist: seq<string>, hash: string -> string, cache: map<string, CacheEntry>,
                   external: Analysis, rewrite: Option<string>, now: real, picks: seq<string>): (p: Processed)
    requires ValidPicks(picks)
    ensures p.rewrote ==> p.result.Some?
    ensures BasicChecks(item, blacklist) != Accepted ==> p == Processed(None, false, cache)
  {
    Outcome(Screen(item, blacklist, hash, cache, external, rewrite, now), picks)
  }

  /** What a stage comes to: nothing for a dropped item, the enhanced and scored item for a kept one. */
  function Outcome(st: Stage, picks: seq<string>): (p: Processed)
    requires ValidPicks(picks) && (st.Kept? ==> st.item.content.Some?)
    ensures p.cache == st.cache && (p.result.Some? <==> st.Kept?)
    ensures p.rewrote <==> st.Kept? && st.rewrote
  {
    match st
    case Dropped(c) => Processed(None, false, c)
    case Kept(kept, analysis, rewrote, c) => Processed(Some(Finish(kept, analysis, picks)), rewrote, c)
  }

  /** The counters after one call. */
  function Tally(s: Stats, p: Processed): (r: Stats)
    ensures Balanced(s) && (p.rewrote ==> p.result.Some?) ==> Balanced(r)
    ensures r.processed == s.processed + 1
    ensures r.filtered == s.filtered + 1 <==> p.result.None?
    ensures r.passed == s.passed + 1 <==> p.result.Some?
    ensures r.filtered + r.passed == s.filtered + s.passed + 1
  {
    Stats(s.processed + 1,
          s.rewritten + (if p.rewrote then 1 else 0),
          s.filtered + (if p.result.None? then 1 else 0),
          s.passed + (if p.result.Some? then 1 else 0))
  }

  /** A failed rewrite drops the item exactly when its clickbait score exceeds 0.7. */
  lemma FailedRewrite(item: ContentItem, blacklist: seq<string>, hash: string -> string, cache: map<string, CacheEntry>,
                      external: Analysis, rewrite: Option<string>, now: real, picks: seq<string>)
    requires ValidPicks(picks)
    requires BasicChecks(item, blacklist) == Accepted
    requires Analyze(external, item).action == "rewrite"
    requires !NonEmpty(RewriteStep(cache, hash(item.content.value), now, rewrite).text)
    ensures var p := Process(item, blacklist, hash, cache, external, rewrite, now, picks);
      && (p.result.None? <==> Analyze(external, item).clickbait.GetOr(0.0) > 0.7)
      && !p.rewrote
      && (p.result.Some? ==>
            p.result.value.content == Some(EnhancedUpTo(item.content.value, picks, |PatrioticPatterns|)) &&
            p.result.value.wasRewritten == item.wasRewritten)
  {
  }

  /** A "filter" decision drops an item that passed the checks, and leaves the cache alone. */
  lemma FilterDrops(item: ContentItem, blacklist: seq<string>, hash: string -> string, cache: map<string, CacheEntry>,
                    external: Analysis, rewrite: Option<string>, now: real, picks: seq<string>)
    requires ValidPicks(picks)
    requires BasicChecks(item, blacklist) == Accepted
    requires Analyze(external, item).action == "filter"
    ensures Process(item, blacklist, hash, cache, external, rewrite, now, picks) == Processed(None, false, cache)
  {
  }

  /** A successful rewrite keeps the item, with the rewritten text enhanced, and stores the rewrite's cache. */
  lemma SucceededRewrite(item: ContentItem, blacklist: seq<string>, hash: string -> string, cache: map<string, CacheEntry>,
                         external: Analysis, rewrite: Option<string>, now: real, picks: seq<string>)
    requires ValidPicks(picks)
    requires BasicChecks(item, blacklist) == Accepted
    requires Analyze(external, item).action == "rewrite"
    requires NonEmpty(RewriteStep(cache, hash(item.content.value), now, rewrite).text)
    ensures var rw := RewriteStep(cache, hash(item.content.value), now, rewrite);
      var p := Process(item, blacklist, hash, cache, external, rewrite, now, picks);
      && p.rewrote && p.cache == rw.cache && p.result.Some?
      && p.result.value.content == Some(EnhancedUpTo(rw.text.value, picks, |PatrioticPatterns|))
      && p.result.value.wasRewritten
      && p.result.value.originalStyle == Some(Analyze(external, item))
  {
  }

  /** A kept item is not rewritten and keeps the external call out of the picture. */
  lemma KeptItemPasses(item: ContentItem, blacklist: seq<string>, hash: string -> string, cache: map<string, CacheEntry>,
                       external: Analysis, rewrite: Option<string>, now: real, picks: seq<string>)
    requires ValidPicks(picks)
    requires BasicChecks(item, blacklist) == Accepted
    requires Analyze(external, item).action != "filter" && Analyze(external, item).action != "rewrite"
    ensures var p := Process(item, blacklist, hash, cache, external, rewrite, now, picks);
      p.result.Some? && !p.rewrote && p.cache == cache
  {
  }

  /** A passed item carries a quality score, and one in [0, 1] when the analysis features are. */
  lemma PassedItemScored(item: ContentItem, blacklist: seq<string>, hash: string -> string, cache: map<string, CacheEntry>,
                         external: Analysis, rewrite: Option<string>, now: real, picks: seq<string>)
    requires ValidPicks(picks)
    requires FeaturesInUnit(Analyze(external, item))
    ensures var p := Process(item, blacklist, hash, cache, external, rewrite, now, picks);
      p.result.Some? ==> p.result.value.qualityScore.Some? && InUnit(p.result.value.qualityScore.value)
  {
    var st := Screen(item, blacklist, hash, cache, external, rewrite, now);
    if st.Kept? {
      var e := Enhanced(st.item, picks);
      assert Outcome(st, picks).result == Some(e.(qualityScore := Some(QualityScore(st.analysis, e.wasRewritten))));
    }
  }

  class ContentProcessor {
    const excludeKeywords: seq<string>
    const hash: string -> string
    var stats: Stats
    var cache: map<string, CacheEntry>

    ghost predicate Valid()
      reads this
    {
      Balanced(stats)
    }

    constructor (excludeKeywords: seq<string>, hash: string -> string)
      ensures this.excludeKeywords == excludeKeywords && this.hash == hash
      ensures stats == Stats(0, 0, 0, 0) && cache == map[]
      ensures Valid()
    {
      this.excludeKeywords := excludeKeywords;
      this.hash := hash;
      stats := Stats(0, 0, 0, 0);
      cache := map[];
    }

    /** `rewrite_content`: look the content up in the cache; on a miss ask the external rewrite and store a non-empty answer. */
    method RewriteContent(content: string, now: real, external: Option<string>) returns (text: Option<string>)
      modifies this`cache
      ensures text == RewriteStep(old(cache), hash(content), now, external).text
      ensures cache == RewriteStep(old(cache), hash(content), now, external).cache
    {
      var key := hash(content);
      if key in cache && now - cache[key].timestamp < CacheHours {
        return Some(cache[key].content);
      }
      text := external;
      if text.Some? && text.value != "" {
        cache := cache[key := CacheEntry(text.value, now)];
      }
    }

    /** The screening part of `process_content_item`, consulting and filling the rewrite cache. */
    method ScreenItem(item: ContentItem, external: Analysis, rewrite: Option<string>, now: real) returns (st: Stage)
      modifies this`cache
      ensures st == Screen(item, excludeKeywords, hash, old(cache), external, rewrite, now)
      ensures cache == st.cache
    {
      if BasicChecks(item, excludeKeywords) != Accepted {
        return Dropped(cache);
      }
      var analysis := Analyze(external, item);
      if analysis.action == "filter" {
        return Dropped(cache);
      }
      if analysis.action == "rewrite" {
        var text := RewriteContent(item.content.value, now, rewrite);
        if text.Some? && text.value != "" {
          return Kept(Rewritten(item, text.value, analysis), analysis, true, cache);
        } else if analysis.clickbait.GetOr(0.0) > 0.7 {
          return Dropped(cache);
        }
      }
      return Kept(item, analysis, false, cache);
    }

    /** `process_content_item`, updating the counters and the cache. */
    method ProcessContentItem(item: ContentItem, external: Analysis, rewrite: Option<string>, now: real, picks: seq<string>)
      returns (r: Option<ContentItem>)
      requires Valid() && ValidPicks(picks)
      modifies this`stats, this`cache
      ensures var p := Process(item, excludeKeywords, hash, old(cache), external, rewrite, now, picks);
        r == p.result && cache == p.cache && stats == Tally(old(stats), p)
      ensures Valid()
    {
      ghost var before := stats;
      stats := stats.(processed := stats.processed + 1);
      var st := ScreenItem(item, external, rewrite, now);
      r := Conclude(st, picks, before);
    }

    /** The rest of `process_content_item` once the item is screened: count it, enhance and score a kept one. */
    method Conclude(st: Stage, picks: seq<string>, ghost before: Stats) returns (r: Option<ContentItem>)
      requires ValidPicks(picks) && (st.Kept? ==> st.item.content.Some?)
      requires Balanced(before) && stats == before.(processed := before.processed + 1)
      modifies this`stats
      ensures r == Outcome(st, picks).result && stats == Tally(before, Outcome(st, picks))
      ensures Valid()
    {
      if st.Dropped? {
        stats := stats.(filtered := stats.filtered + 1);
        return None;
      }
      if st.rewrote {
        stats := stats.(rewritten := stats.rewritten + 1);
      }
      var current := EnhanceContent(st.item, picks);
      current := current.(qualityScore := Some(QualityScore(st.analysis, current.wasRewritten)));
      assert current == Finish(st.item, st.analysis, picks);
      stats := stats.(passed := stats.passed + 1);
      return Some(current);
    }
  }
}
