/**
 * Scoring and diversity-aware selection of briefing items (src/recommendation_engine.py).
 * The engine's user profile is loaded once and never changes; the feedback system keeps a
 * separate model, because `update_from_feedback` only logs what it receives.
 */
module Recommendation {
  import opened Wrappers
  import opened Numbers
  import opened Text
  import opened Lists
  import Sorting

  const MaxHistory := 100

  /** The keys of `original_style` the style score reads; `None` is a missing key. */
  datatype StyleFeatures = StyleFeatures(patrioticLevel: Option<real>, formality: Option<real>, sentimentScore: Option<real>)

  /**
   * A content item. Strings and lists hold what `item.get(key, default)` returns.
   * `style` is `None` when `original_style` is missing or empty; `published` says what
   * `publish_time` parses to and how old it is (the clock is outside the model).
   */
  datatype Item = Item(
    id: Option<string>,
    title: string,
    content: string,
    source: string,
    author: string,
    tags: seq<string>,
    style: Option<StyleFeatures>,
    qualityScore: Option<real>,
    kind: Option<string>,
    published: PublishTime,
    recommendationScore: Option<real>)

  /**
   * What `publish_time` is once parsed: missing or falsy, unparsable, or a datetime that is
   * `hours` old. A timestamp with an offset (including a trailing 'Z', which becomes '+00:00')
   * parses to an aware datetime, and subtracting it from the naive `datetime.now()` raises.
   */
  datatype PublishTime = Missing | Unparsable | Naive(hours: real) | Aware(hours: real)

  datatype Blacklists = Blacklists(authors: seq<string>, media: seq<string>, keywords: seq<string>)

  /** The parts of the user profile the engine reads. */
  datatype Profile = Profile(
    topicWeights: map<string, real>,
    stylePreferences: map<string, real>,
    sourceWeights: map<string, real>,
    schedule: map<string, seq<string>>,
    blacklists: Blacklists)

  /** The seven factors of `score_content`. */
  datatype Factors = Factors(topic: real, style: real, source: real, time: real, freshness: real, quality: real, penalty: real)

  datatype SourceClass = OfficialMedia | TechMedia | Academic | MainstreamMedia

  const OfficialKeywords := ["人民", "新华", "央视", "求是", "学习强国"]
  const TechKeywords := ["科技", "创新", "数码", "it", "人工智能"]
  const AcademicKeywords := ["大学", "学院", "研究", "科学", "学术"]

  /** The key of a source class in `source_weights`. */
  function ClassKey(c: SourceClass): string {
    match c
    case OfficialMedia => "official_media"
    case TechMedia => "tech_media"
    case Academic => "academic"
    case MainstreamMedia => "mainstream_media"
  }

  // ---------------------------------------------------------------------------
  // The factors

  function MaxWeight(weights: map<string, real>, tags: seq<string>): (r: real)
    ensures r >= 0.0
    ensures forall t :: t in tags ==> WeightOr(weights, t, 0.5) <= r
    ensures r == 0.0 || exists t :: t in tags && r == WeightOr(weights, t, 0.5)
  {
    if tags == [] then 0.0
    else
      var rest := MaxWeight(weights, tags[..|tags| - 1]);
      var here := WeightOr(weights, Last(tags), 0.5);
      assert tags == tags[..|tags| - 1] + [Last(tags)];
      Max(rest, here)
  }

  /**
   * `calculate_topic_score`: 0.5 for an item without tags, else the largest weight (0.5 for an
   * unknown topic) of any tag, starting from 0.
   */
  function TopicScore(weights: map<string, real>, tags: seq<string>): (r: real)
    ensures tags == [] ==> r == 0.5
    ensures tags != [] ==> forall t :: t in tags ==> WeightOr(weights, t, 0.5) <= r
    ensures tags != [] ==> r == 0.0 || exists t :: t in tags && r == WeightOr(weights, t, 0.5)
    ensures (forall k :: k in weights ==> InUnit(weights[k])) ==> InUnit(r)
  {
    if tags == [] then 0.5 else MaxWeight(weights, tags)
  }

  function Abs(x: real): (r: real)
    ensures r >= 0.0 && (r == x || r == -x)
  {
    if x >= 0.0 then x else -x
  }

  /** How well a feature value matches a preference: 1 - |value - preference|. */
  function Closeness(v: real, p: real): (r: real)
    ensures InUnit(v) && InUnit(p) ==> InUnit(r)
    ensures r == 1.0 <==> v == p
  {
    1.0 - Abs(v - p)
  }

  /**
   * `calculate_style_score`: without style features, 0.5; otherwise 0.4, 0.3 and 0.3 parts of
   * patriotic, formality and sentiment closeness, where a negative sentiment scores 0.2.
   */
  function StyleScore(prefs: map<string, real>, style: Option<StyleFeatures>): (r: real)
    ensures style.None? ==> r == 0.5
    ensures style.Some? && InUnit(style.value.patrioticLevel.GetOr(0.5)) && InUnit(style.value.formality.GetOr(0.5))
      && style.value.sentimentScore.GetOr(0.0) <= 1.0
      && InUnit(WeightOr(prefs, "patriotic_tone", 0.8)) && InUnit(WeightOr(prefs, "formality", 0.8))
      && InUnit(WeightOr(prefs, "emotional_level", 0.7))
      ==> InUnit(r)
  {
    match style
    case None => 0.5
    case Some(f) =>
      var patriotic := Closeness(f.patrioticLevel.GetOr(0.5), WeightOr(prefs, "patriotic_tone", 0.8));
      var formality := Closeness(f.formality.GetOr(0.5), WeightOr(prefs, "formality", 0.8));
      var emotional := f.sentimentScore.GetOr(0.0);
      var emotionalScore := if emotional >= 0.0 then Closeness(emotional, WeightOr(prefs, "emotional_level", 0.7)) else 0.2;
      patriotic * 0.4 + formality * 0.3 + emotionalScore * 0.3
  }

  /** Features equal to the preferences, with a non-negative sentiment, score a perfect 1. */
  lemma PerfectStyleMatch(prefs: map<string, real>, f: StyleFeatures)
    requires f.patrioticLevel.GetOr(0.5) == WeightOr(prefs, "patriotic_tone", 0.8)
    requires f.formality.GetOr(0.5) == WeightOr(prefs, "formality", 0.8)
    requires f.sentimentScore.GetOr(0.0) == WeightOr(prefs, "emotional_level", 0.7) >= 0.0
    ensures StyleScore(prefs, Some(f)) == 1.0
  {
  }

  /** A negative sentiment caps the style score at 0.76 whatever the other features. */
  lemma NegativeSentimentCaps(prefs: map<string, real>, f: StyleFeatures)
    requires f.sentimentScore.GetOr(0.0) < 0.0
    ensures StyleScore(prefs, Some(f)) <= 0.76
  {
  }

  /** `classify_source`: the first keyword group that occurs in the lower-cased source. */
  function ClassifySource(source: string): (c: SourceClass)
    ensures var s := Lower(source);
      && (c == OfficialMedia <==> AnyIn(s, OfficialKeywords))
      && (c == TechMedia <==> !AnyIn(s, OfficialKeywords) && AnyIn(s, TechKeywords))
      && (c == Academic <==> !AnyIn(s, OfficialKeywords) && !AnyIn(s, TechKeywords) && AnyIn(s, AcademicKeywords))
      && (c == MainstreamMedia <==> !AnyIn(s, OfficialKeywords) && !AnyIn(s, TechKeywords) && !AnyIn(s, AcademicKeywords))
  {
    var s := Lower(source);
    if AnyIn(s, OfficialKeywords) then OfficialMedia
    else if AnyIn(s, TechKeywords) then TechMedia
    else if AnyIn(s, AcademicKeywords) then Academic
    else MainstreamMedia
  }

  /** `calculate_source_score` */
  function SourceScore(weights: map<string, real>, source: string): (r: real)
    ensures source == "" ==> r == 0.5
    ensures source != "" ==> r == WeightOr(weights, ClassKey(ClassifySource(source)), 0.5)
  {
    if source == "" then 0.5 else WeightOr(weights, ClassKey(ClassifySource(source)), 0.5)
  }

  /** `calculate_time_score`: 0.9 when the item's type (default "general") is preferred at this time of day. */
  function TimeScore(schedule: map<string, seq<string>>, kind: Option<string>, timeOfDay: string): (r: real)
    ensures r == 0.9 <==> kind.GetOr("general") in (if timeOfDay in schedule then schedule[timeOfDay] else [])
    ensures r == 0.9 || r == 0.5
  {
    var preferred := if timeOfDay in schedule then schedule[timeOfDay] else [];
    if kind.GetOr("general") in preferred then 0.9 else 0.5
  }

  /**
   * `calculate_freshness_score`: 1.0 up to a day, 0.7 up to a week, 0.3 beyond, for a naive
   * publish time. Every other publish time, an aware one included, lands in the bare `except`
   * or the missing-value test and scores 0.5.
   */
  function FreshnessScore(t: PublishTime): (r: real)
    ensures !t.Naive? ==> r == 0.5
    ensures t.Naive? && t.hours <= 24.0 ==> r == 1.0
    ensures t.Naive? && 24.0 < t.hours <= 168.0 ==> r == 0.7
    ensures t.Naive? && t.hours > 168.0 ==> r == 0.3
  {
    match t
    case Naive(h) => if h <= 24.0 then 1.0 else if h <= 168.0 then 0.7 else 0.3
    case _ => 0.5
  }

  /** An older naive publish time is never fresher. */
  lemma FreshnessMonotone(a: real, b: real)
    requires a <= b
    ensures FreshnessScore(Naive(b)) <= FreshnessScore(Naive(a))
  {
  }

  /**
   * The same instant scores differently by its spelling: written with an offset or a 'Z' it
   * always scores 0.5, written without one it earns its age band.
   */
  lemma AwareTimestampIsNeutral(h: real)
    requires h <= 24.0
    ensures FreshnessScore(Aware(h)) == 0.5 && FreshnessScore(Naive(h)) == 1.0
  {
  }

  /**
   * `calculate_blacklist_penalty`: 0.5 for a blacklisted author, 0.3 for a blacklisted
   * medium, and 0.2 once if any blacklisted keyword occurs in "title content".
   */
  function BlacklistPenalty(b: Blacklists, item: Item): (r: real)
    ensures InUnit(r)
    ensures r == (if item.author in b.authors then 0.5 else 0.0)
               + (if item.source in b.media then 0.3 else 0.0)
               + (if AnyIn(item.title + " " + item.content, b.keywords) then 0.2 else 0.0)
  {
    var text := item.title + " " + item.content;
    (if item.author in b.authors then 0.5 else 0.0)
    + (if item.source in b.media then 0.3 else 0.0)
    + (if AnyIn(text, b.keywords) then 0.2 else 0.0)
  }

  function ItemFactors(p: Profile, item: Item, timeOfDay: string): Factors {
    Factors(
      TopicScore(p.topicWeights, item.tags),
      StyleScore(p.stylePreferences, item.style),
      SourceScore(p.sourceWeights, item.source),
      TimeScore(p.schedule, item.kind, timeOfDay),
      FreshnessScore(item.published),
      item.qualityScore.GetOr(0.5),
      BlacklistPenalty(p.blacklists, item))
  }

  /** The weighted sum of the factors; the penalty carries weight -0.1. */
  function WeightedSum(f: Factors): real {
    f.topic * 0.35 + f.style * 0.20 + f.source * 0.15 + f.time * 0.10
    + f.freshness * 0.05 + f.quality * 0.15 + f.penalty * -0.1
  }

  predicate FactorsInUnit(f: Factors) {
    InUnit(f.topic) && InUnit(f.style) && InUnit(f.source) && InUnit(f.time)
    && InUnit(f.freshness) && InUnit(f.quality) && InUnit(f.penalty)
  }

  /** The positive weights sum to 1, so with every factor in [0, 1] the base score is in [-0.1, 1]. */
  lemma WeightedSumBounds(f: Factors)
    requires FactorsInUnit(f)
    ensures -0.1 <= WeightedSum(f) <= 1.0
  {
  }

  /** A blacklist hit never raises the base score. */
  lemma PenaltyLowersScore(f: Factors, extra: real)
    requires extra >= 0.0
    ensures WeightedSum(f.(penalty := f.penalty + extra)) <= WeightedSum(f)
  {
  }

  /** The rescaling of a number read from the external judgement: >1 and <=10 is out of ten, >10 out of a hundred. */
  function RescaleJudgement(s: real): (r: real)
    ensures s <= 1.0 ==> r == s
    ensures 1.0 < s <= 10.0 ==> r == s / 10.0
    ensures s > 10.0 ==> r == s / 100.0
    ensures 0.0 <= s <= 100.0 ==> InUnit(r)
  {
    if s > 1.0 then (if s <= 10.0 then s / 10.0 else s / 100.0) else s
  }

  /** The combine step of `deepseek_adjustment`: without a parsed number, the base stands. */
  function CombineJudgement(base: real, parsed: Option<real>): (r: real)
    ensures parsed.None? ==> r == base
    ensures parsed.Some? ==> r == base * 0.7 + RescaleJudgement(parsed.value) * 0.3
    ensures parsed.Some? && InUnit(base) && 0.0 <= parsed.value <= 100.0 ==> InUnit(r)
  {
    match parsed
    case None => base
    case Some(s) => base * 0.7 + RescaleJudgement(s) * 0.3
  }

  /**
   * `score_content`. `judge` is the number the external model's answer yields for this item
   * and base score, if any (no answer, or no number in it, is `None`).
   */
  function ScoreContent(p: Profile, item: Item, timeOfDay: string, judge: (Item, real) -> Option<real>): (r: real)
    ensures InUnit(r)
    ensures var base := WeightedSum(ItemFactors(p, item, timeOfDay));
      judge(item, base).None? ==> r == Clamp01(base)
    ensures var base := WeightedSum(ItemFactors(p, item, timeOfDay));
      judge(item, base).Some? ==> r == Clamp01(base * 0.7 + RescaleJudgement(judge(item, base).value) * 0.3)
  {
    var base := WeightedSum(ItemFactors(p, item, timeOfDay));
    Clamp01(CombineJudgement(base, judge(item, base)))
  }

  /** Without a judgement, an item whose factors are in [0, 1] and whose base score is not negative scores exactly its base. */
  lemma ScoreWithoutJudgement(p: Profile, item: Item, timeOfDay: string, judge: (Item, real) -> Option<real>)
    requires judge(item, WeightedSum(ItemFactors(p, item, timeOfDay))).None?
    requires FactorsInUnit(ItemFactors(p, item, timeOfDay))
    ensures WeightedSum(ItemFactors(p, item, timeOfDay)) >= 0.0 ==>
      ScoreContent(p, item, timeOfDay, judge) == WeightedSum(ItemFactors(p, item, timeOfDay))
  {
    WeightedSumBounds(ItemFactors(p, item, timeOfDay));
  }

  // ---------------------------------------------------------------------------
  // Selection with diversity

  function TagSet(item: Item): set<string> {
    set t | t in item.tags
  }

  /** The state of the first pass: items taken, their topics, and (for the proofs) their input positions. */
  datatype Pass = Pass(selected: seq<Item>, topics: set<string>, picked: seq<nat>)

  /**
   * One first-pass step over the item at position `i`: once `count` items are taken nothing
   * changes; an item with no topic taken yet is taken and adds its topics; otherwise it is
   * taken only while fewer than 70% of `count` items are taken.
   */
  function PassStep(p: Pass, item: Item, i: nat, count: int): Pass {
    if |p.selected| >= count then p
    else if p.topics * TagSet(item) == {} then Pass(p.selected + [item], p.topics + TagSet(item), p.picked + [i])
    else if (|p.selected| as real) < (count as real) * 0.7 then Pass(p.selected + [item], p.topics, p.picked + [i])
    else p
  }

  /** The first pass over `items`, in order; the taken items keep their input order. */
  function FirstPass(items: seq<Item>, count: int): (p: Pass)
    ensures |p.selected| == |p.picked|
    ensures count >= 0 ==> |p.selected| <= count
    ensures count < 0 ==> p.selected == []
    ensures forall k :: 0 <= k < |p.picked| ==> p.picked[k] < |items| && items[p.picked[k]] == p.selected[k]
    ensures forall k, l :: 0 <= k < l < |p.picked| ==> p.picked[k] < p.picked[l]
  {
    if items == [] then Pass([], {}, [])
    else PassStep(FirstPass(items[..|items| - 1], count), Last(items), |items| - 1, count)
  }

  /** Every gathered topic is a tag of a taken item. */
  predicate TopicsFromTaken(p: Pass) {
    forall t :: t in p.topics ==> exists k :: 0 <= k < |p.selected| && t in p.selected[k].tags
  }

  /** A step gathers only topics of items it takes. */
  lemma PassStepTopics(b: Pass, item: Item, i: nat, count: int)
    requires TopicsFromTaken(b)
    ensures TopicsFromTaken(PassStep(b, item, i, count))
  {
    var a := PassStep(b, item, i, count);
    forall t | t in a.topics ensures exists k :: 0 <= k < |a.selected| && t in a.selected[k].tags {
      if t in b.topics {
        var k :| 0 <= k < |b.selected| && t in b.selected[k].tags;
        assert a.selected[k] == b.selected[k];
      } else {
        assert a.selected[|b.selected|] == item;
      }
    }
  }

  /** Every topic the first pass gathers is a tag of an item it took. */
  lemma {:induction false} FirstPassTopics(items: seq<Item>, count: int)
    ensures TopicsFromTaken(FirstPass(items, count))
  {
    if items != [] {
      FirstPassTopics(items[..|items| - 1], count);
      PassStepTopics(FirstPass(items[..|items| - 1], count), Last(items), |items| - 1, count);
    }
  }

  /** The backfill: walk `items` in order, adding each one not yet selected, until `count` are selected. */
  function Backfill(base: seq<Item>, items: seq<Item>, count: int): (r: seq<Item>)
    ensures base <= r
    ensures forall x :: x in r ==> x in base || x in items
    ensures |r| <= if |base| >= count then |base| else count
    ensures Distinct(base) ==> Distinct(r)
    ensures |r| < count ==> forall x :: x in items ==> x in r
  {
    if items == [] then base
    else
      var s := Backfill(base, items[..|items| - 1], count);
      assert forall x :: x in items ==> x in items[..|items| - 1] || x == Last(items);
      if |s| >= count then s
      else if Last(items) in s then s
      else s + [Last(items)]
  }

  /** `select_with_diversity` */
  function DiverseSelection(items: seq<Item>, count: int): seq<Item> {
    if |items| <= count then items
    else
      var first := FirstPass(items, count).selected;
      var all := if |first| < count then Backfill(first, items, count) else first;
      PyPrefix(all, count)
  }

  /** Everything selected comes from the input. */
  lemma SelectionFromInput(items: seq<Item>, count: int)
    ensures forall x :: x in DiverseSelection(items, count) ==> x in items
  {
    if |items| > count {
      var p := FirstPass(items, count);
      assert forall x :: x in p.selected ==> x in items by {
        forall x | x in p.selected ensures x in items {
          var k :| 0 <= k < |p.selected| && p.selected[k] == x;
          assert items[p.picked[k]] == x;
        }
      }
    }
  }

  /** The items taken by the first pass of a duplicate-free input are duplicate-free. */
  lemma FirstPassDistinct(items: seq<Item>, count: int)
    requires Distinct(items)
    ensures Distinct(FirstPass(items, count).selected)
  {
    var p := FirstPass(items, count);
    forall k, l | 0 <= k < l < |p.selected| ensures p.selected[k] != p.selected[l] {
      assert p.picked[k] < p.picked[l];
    }
  }

  /**
   * From a duplicate-free input longer than `count`, exactly `count` pairwise distinct items
   * are selected.
   */
  lemma SelectionSize(items: seq<Item>, count: int)
    requires Distinct(items)
    requires 0 <= count < |items|
    ensures |DiverseSelection(items, count)| == count
    ensures Distinct(DiverseSelection(items, count))
  {
    var first := FirstPass(items, count).selected;
    FirstPassDistinct(items, count);
    var all := if |first| < count then Backfill(first, items, count) else first;
    assert Distinct(all);
    if |all| < count {
      CoveredIsShorter(items, all);
      assert false;
    }
    var r := PyPrefix(all, count);
    assert r == all[..count];
    forall i, j | 0 <= i < j < |r| ensures r[i] != r[j] {
      assert r[i] == all[i] && r[j] == all[j];
    }
  }

  /** Once `count` items are taken, later items change nothing in the first pass. */
  lemma {:induction false} FirstPassSaturates(items: seq<Item>, i: nat, count: int)
    requires i <= |items|
    requires |FirstPass(items[..i], count).selected| >= count
    ensures FirstPass(items, count) == FirstPass(items[..i], count)
    decreases |items| - i
  {
    if i < |items| {
      assert items[..i + 1][..i] == items[..i];
      assert FirstPass(items[..i + 1], count) == FirstPass(items[..i], count);
      FirstPassSaturates(items, i + 1, count);
      assert items[..|items|] == items;
    } else {
      assert items[..i] == items;
    }
  }

  /** The first pass only ever appends: its result on a prefix is a prefix of its result on the whole. */
  lemma {:induction false} FirstPassGrows(items: seq<Item>, i: nat, count: int)
    requires i <= |items|
    ensures FirstPass(items[..i], count).selected <= FirstPass(items, count).selected
    decreases |items| - i
  {
    if i < |items| {
      assert items[..i + 1][..i] == items[..i];
      FirstPassGrows(items, i + 1, count);
    } else {
      assert items[..i] == items;
    }
  }

  /** The picks over a prefix lead the picks over the whole input; the later picks lie beyond the prefix. */
  lemma {:induction false} FirstPassPicksGrow(items: seq<Item>, i: nat, count: int)
    requires i <= |items|
    ensures var b := FirstPass(items[..i], count);
      var f := FirstPass(items, count);
      b.picked <= f.picked && forall k :: |b.picked| <= k < |f.picked| ==> f.picked[k] >= i
    decreases |items| - i
  {
    if i < |items| {
      assert items[..i + 1][..i] == items[..i];
      assert Last(items[..i + 1]) == items[i];
      FirstPassPicksGrow(items, i + 1, count);
    } else {
      assert items[..i] == items;
    }
  }

  /**
   * The diversity rule: the item at position `i` is taken by the first pass exactly when fewer
   * than `count` items were taken before it and either it shares no topic with the topics
   * gathered so far or fewer than 70% of `count` items were taken.
   */
  lemma FirstPassDiversity(items: seq<Item>, count: int, i: nat)
    requires i < |items|
    ensures var before := FirstPass(items[..i], count);
      i in FirstPass(items, count).picked <==>
        |before.selected| < count &&
        (before.topics * TagSet(items[i]) == {} || (|before.selected| as real) < (count as real) * 0.7)
  {
    var b := FirstPass(items[..i], count);
    var a := FirstPass(items[..i + 1], count);
    var f := FirstPass(items, count);
    assert items[..i + 1][..i] == items[..i];
    assert Last(items[..i + 1]) == items[i];
    assert a == PassStep(b, items[i], i, count);
    FirstPassPicksGrow(items, i + 1, count);
    var taken := |b.selected| < count &&
      (b.topics * TagSet(items[i]) == {} || (|b.selected| as real) < (count as real) * 0.7);
    if taken {
      assert a.picked == b.picked + [i];
      assert f.picked[|b.picked|] == i;
    } else {
      assert a.picked == b.picked;
      forall k | 0 <= k < |f.picked| ensures f.picked[k] != i {
        if k < |a.picked| {
          assert f.picked[k] == b.picked[k] < i;
        }
      }
    }
  }

  /** The first item of the ranking is always selected first. */
  lemma SelectionStartsWithFirst(items: seq<Item>, count: int)
    requires 0 < count < |items|
    ensures DiverseSelection(items, count) != [] && DiverseSelection(items, count)[0] == items[0]
  {
    FirstPassGrows(items, 1, count);
    assert items[..1][..0] == [];
    var first := FirstPass(items, count).selected;
    assert FirstPass(items[..1], count).selected == [items[0]];
    var all := if |first| < count then Backfill(first, items, count) else first;
    assert first <= all;
  }

  /** The first-pass picks, in input order, come before every backfill pick. */
  lemma FirstPassLeads(items: seq<Item>, count: int)
    requires count < |items|
    ensures FirstPass(items, count).selected <= DiverseSelection(items, count)
  {
    var first := FirstPass(items, count).selected;
    if count >= 0 {
      var all := if |first| < count then Backfill(first, items, count) else first;
      assert first <= all;
      assert |first| <= count;
    }
  }

  /** The first loop of `select_with_diversity`, breaking once `count` items are taken. */
  method FirstPassLoop(scored: seq<Item>, count: int) returns (selected: seq<Item>)
    ensures selected == FirstPass(scored, count).selected
  {
    selected := [];
    var topics: set<string> := {};
    ghost var picked: seq<nat> := [];
    var i := 0;
    while i < |scored|
      invariant 0 <= i <= |scored|
      invariant Pass(selected, topics, picked) == FirstPass(scored[..i], count)
    {
      if |selected| >= count {
        FirstPassSaturates(scored, i, count);
        return;
      }
      var item := scored[i];
      assert scored[..i + 1][..i] == scored[..i];
      assert Last(scored[..i + 1]) == item;
      var itemTopics := TagSet(item);
      if topics * itemTopics == {} {
        selected := selected + [item];
        topics := topics + itemTopics;
        picked := picked + [i];
      } else if (|selected| as real) < (count as real) * 0.7 {
        selected := selected + [item];
        picked := picked + [i];
      }
      i := i + 1;
    }
    assert scored[..i] == scored;
  }

  /** The backfill loop of `select_with_diversity`, breaking once `count` items are selected. */
  method BackfillLoop(first: seq<Item>, scored: seq<Item>, count: int) returns (selected: seq<Item>)
    requires |first| < count
    ensures selected == Backfill(first, scored, count)
  {
    selected := first;
    var j := 0;
    while j < |scored|
      invariant 0 <= j <= |scored|
      invariant selected == Backfill(first, scored[..j], count)
      invariant |selected| < count
    {
      assert scored[..j + 1][..j] == scored[..j];
      assert Last(scored[..j + 1]) == scored[j];
      if scored[j] !in selected {
        selected := selected + [scored[j]];
      }
      if |selected| >= count {
        BackfillSaturates(first, scored, j + 1, count);
        return;
      }
      j := j + 1;
    }
    assert scored[..j] == scored;
  }

  /** `select_with_diversity` */
  method SelectWithDiversity(scored: seq<Item>, count: int) returns (selected: seq<Item>)
    ensures selected == DiverseSelection(scored, count)
    ensures |scored| <= count ==> selected == scored
    ensures count >= 0 ==> |selected| <= count
    ensures forall x :: x in selected ==> x in scored
  {
    SelectionFromInput(scored, count);
    if |scored| <= count {
      return scored;
    }
    selected := FirstPassLoop(scored, count);
    if |selected| < count {
      selected := BackfillLoop(selected, scored, count);
    }
    selected := PyPrefix(selected, count);
  }

  /** Once `count` items are selected, the rest of the backfill adds nothing. */
  lemma {:induction false} BackfillSaturates(base: seq<Item>, items: seq<Item>, j: nat, count: int)
    requires j <= |items|
    requires |Backfill(base, items[..j], count)| >= count
    ensures Backfill(base, items, count) == Backfill(base, items[..j], count)
    decreases |items| - j
  {
    if j < |items| {
      assert items[..j + 1][..j] == items[..j];
      BackfillSaturates(base, items, j + 1, count);
      assert items[..|items|] == items;
    } else {
      assert items[..j] == items;
    }
  }

  // ---------------------------------------------------------------------------
  // Recommendation and its history

  /** The sort key: `x["recommendation_score"]`. */
  function ScoreKey(item: Item): real {
    item.recommendationScore.GetOr(0.0)
  }

  /** An item as `recommend_content` stores it, carrying its score. */
  function Scored(p: Profile, item: Item, timeOfDay: string, judge: (Item, real) -> Option<real>): Item {
    item.(recommendationScore := Some(ScoreContent(p, item, timeOfDay, judge)))
  }

  /** Reference definition: the input positions whose score is positive, increasing. */
  function PositivePositions(p: Profile, items: seq<Item>, timeOfDay: string, judge: (Item, real) -> Option<real>): (ps: seq<nat>)
    ensures forall k :: 0 <= k < |ps| ==> ps[k] < |items|
    ensures forall k, l :: 0 <= k < l < |ps| ==> ps[k] < ps[l]
    ensures forall j :: 0 <= j < |items| ==> (j in ps <==> ScoreContent(p, items[j], timeOfDay, judge) > 0.0)
  {
    PositionsWhere(items, item => ScoreContent(p, item, timeOfDay, judge) > 0.0)
  }

  /** The items whose score is positive, in input order, each carrying its score. */
  function PositivelyScored(p: Profile, items: seq<Item>, timeOfDay: string, judge: (Item, real) -> Option<real>): (r: seq<Item>)
    ensures |r| <= |items|
    ensures forall k :: 0 <= k < |r| ==> r[k].recommendationScore.Some? && 0.0 < r[k].recommendationScore.value <= 1.0
    ensures forall k :: 0 <= k < |r| ==>
      exists j :: 0 <= j < |items| && r[k] == items[j].(recommendationScore := Some(ScoreContent(p, items[j], timeOfDay, judge)))
  {
    if items == [] then []
    else
      var init := items[..|items| - 1];
      var rest := PositivelyScored(p, init, timeOfDay, judge);
      var item := Last(items);
      var score := ScoreContent(p, item, timeOfDay, judge);
      assert forall j :: 0 <= j < |init| ==> init[j] == items[j];
      if score > 0.0 then rest + [item.(recommendationScore := Some(score))] else rest
  }

  /**
   * The scored items are exactly the positively scored input items, in input order: the k-th
   * one is the item at the k-th positive position, carrying its score.
   */
  lemma {:induction false} PositivelyScoredIsFilter(p: Profile, items: seq<Item>, timeOfDay: string, judge: (Item, real) -> Option<real>)
    ensures var r := PositivelyScored(p, items, timeOfDay, judge);
      var ps := PositivePositions(p, items, timeOfDay, judge);
      |r| == |ps| && forall k :: 0 <= k < |r| ==> r[k] == Scored(p, items[ps[k]], timeOfDay, judge)
  {
    if items != [] {
      var n := |items| - 1;
      var init := items[..n];
      PositivelyScoredIsFilter(p, init, timeOfDay, judge);
      var rest, restPs := PositivelyScored(p, init, timeOfDay, judge), PositivePositions(p, init, timeOfDay, judge);
      var r, ps := PositivelyScored(p, items, timeOfDay, judge), PositivePositions(p, items, timeOfDay, judge);
      var positive := ScoreContent(p, items[n], timeOfDay, judge) > 0.0;
      assert Last(items) == items[n];
      assert r == if positive then rest + [Scored(p, items[n], timeOfDay, judge)] else rest;
      assert ps == if positive then restPs + [n] else restPs;
      forall k | 0 <= k < |restPs| ensures items[ps[k]] == init[restPs[k]] {
        assert ps[k] == restPs[k];
      }
    }
  }

  /** No positively scored item is dropped. */
  lemma PositiveItemKept(p: Profile, items: seq<Item>, timeOfDay: string, judge: (Item, real) -> Option<real>, j: nat)
    requires j < |items| && ScoreContent(p, items[j], timeOfDay, judge) > 0.0
    ensures Scored(p, items[j], timeOfDay, judge) in PositivelyScored(p, items, timeOfDay, judge)
  {
    PositivelyScoredIsFilter(p, items, timeOfDay, judge);
    var ps := PositivePositions(p, items, timeOfDay, judge);
    var k :| 0 <= k < |ps| && ps[k] == j;
    assert PositivelyScored(p, items, timeOfDay, judge)[k] == Scored(p, items[j], timeOfDay, judge);
  }

  datatype HistoryItem = HistoryItem(id: string, title: string, score: real, topics: seq<string>)
  datatype Recommendation = Recommendation(timestamp: string, timeOfDay: string, items: seq<HistoryItem>)

  /** The history record of one recommendation. */
  function RecordOf(items: seq<Item>, timeOfDay: string, now: string): (r: Recommendation)
    ensures |r.items| == |items|
    ensures forall k :: 0 <= k < |items| ==>
      r.items[k] == HistoryItem(items[k].id.GetOr("unknown"), items[k].title, ScoreKey(items[k]), items[k].tags)
  {
    Recommendation(now, timeOfDay,
      seq(|items|, k requires 0 <= k < |items| =>
        HistoryItem(items[k].id.GetOr("unknown"), items[k].title, ScoreKey(items[k]), items[k].tags)))
  }

  /** Appends a record and keeps the most recent 100. */
  function KeepRecent(history: seq<Recommendation>, rec: Recommendation): (r: seq<Recommendation>)
    ensures |r| == MinNat(MaxHistory, |history| + 1)
    ensures r == (history + [rec])[|history| + 1 - |r|..]
    ensures Last(r) == rec
  {
    var h := history + [rec];
    if |h| > MaxHistory then PySuffix(h, MaxHistory) else h
  }

  class RecommendationEngine {
    const profile: Profile
    var history: seq<Recommendation>

    ghost predicate Valid()
      reads this
    {
      |history| <= MaxHistory
    }

    constructor (profile: Profile)
      ensures Valid() && this.profile == profile && history == []
    {
      this.profile := profile;
      history := [];
    }

    /** `record_recommendation` */
    method RecordRecommendation(items: seq<Item>, timeOfDay: string, now: string)
      requires Valid()
      modifies this`history
      ensures Valid()
      ensures history == KeepRecent(old(history), RecordOf(items, timeOfDay, now))
    {
      history := history + [RecordOf(items, timeOfDay, now)];
      if |history| > MaxHistory {
        history := history[|history| - MaxHistory..];
      }
    }

    /**
     * `recommend_content`: score every item, keep the positive ones, rank them by score
     * (stable, highest first), select with diversity and record the selection.
     */
    method RecommendContent(items: seq<Item>, count: int, timeOfDay: string,
                            judge: (Item, real) -> Option<real>, now: string)
      returns (selected: seq<Item>)
      requires Valid()
      modifies this`history
      ensures Valid()
      ensures items == [] ==> selected == [] && history == old(history)
      ensures items != [] ==>
        var ranked := Sorting.SortDesc(PositivelyScored(profile, items, timeOfDay, judge), ScoreKey);
        selected == DiverseSelection(ranked, count) &&
        history == KeepRecent(old(history), RecordOf(selected, timeOfDay, now))
    {
      if items == [] {
        return [];
      }
      var scored: seq<Item> := [];
      var i := 0;
      while i < |items|
        invariant 0 <= i <= |items|
        invariant scored == PositivelyScored(profile, items[..i], timeOfDay, judge)
      {
        assert items[..i + 1][..i] == items[..i];
        assert Last(items[..i + 1]) == items[i];
        var score := ScoreContent(profile, items[i], timeOfDay, judge);
        if score > 0.0 {
          scored := scored + [items[i].(recommendationScore := Some(score))];
        }
        i := i + 1;
      }
      assert items[..i] == items;
      scored := Sorting.SortDesc(scored, ScoreKey);
      selected := SelectWithDiversity(scored, count);
      RecordRecommendation(selected, timeOfDay, now);
    }
  }

  /** Every recommended item was scored positively and comes from the input. */
  lemma RecommendedArePositive(p: Profile, items: seq<Item>, count: int, timeOfDay: string, judge: (Item, real) -> Option<real>)
    ensures var ranked := Sorting.SortDesc(PositivelyScored(p, items, timeOfDay, judge), ScoreKey);
      forall x :: x in DiverseSelection(ranked, count) ==>
        x.recommendationScore.Some? && 0.0 < x.recommendationScore.value <= 1.0 &&
        exists j :: 0 <= j < |items| && x == items[j].(recommendationScore := Some(ScoreContent(p, items[j], timeOfDay, judge)))
  {
    var positive := PositivelyScored(p, items, timeOfDay, judge);
    var ranked := Sorting.SortDesc(positive, ScoreKey);
    SelectionFromInput(ranked, count);
    forall x | x in DiverseSelection(ranked, count)
      ensures x.recommendationScore.Some? && 0.0 < x.recommendationScore.value <= 1.0
      ensures exists j :: 0 <= j < |items| && x == items[j].(recommendationScore := Some(ScoreContent(p, items[j], timeOfDay, judge)))
    {
      assert x in multiset(ranked);
      assert x in positive;
      var k :| 0 <= k < |positive| && positive[k] == x;
    }
  }
}
