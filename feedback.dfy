/**
 * The per-user preference model and its adaptation from reactions
 * (src/feedback_system.py). A `FeedbackSystem` owns the feedback log, the
 * reaction counters and the user model; `RecordFeedback` is the only way
 * they change. Reactions are the strings "like", "dislike" and "refresh";
 * any other string is logged and counted in `total` but moves no weight.
 */
module Feedback {
  import opened Wrappers
  import opened Numbers
  import opened Lists
  import Sorting

  const Like := "like"
  const Dislike := "dislike"
  const Refresh := "refresh"

  /** The key under which `consecutive_patterns` counts a reaction following another. */
  function TransitionKey(previous: string, current: string): string {
    previous + "_to_" + current
  }

  /** The three reactions the statistics and the satisfaction window count. */
  predicate Counted(reaction: string) {
    reaction == Like || reaction == Dislike || reaction == Refresh
  }

  /** Default neutral weight for a topic, style feature or source not seen before. */
  const NeutralWeight := 0.5
  /** `overall_comfort` before the first reaction. */
  const InitialComfort := 0.7
  /** Floor of a source weight after a dislike. */
  const SourceFloor := 0.1
  /** Width of the window that feeds `recent_satisfaction`. */
  const SatisfactionWindow := 20
  /** Times suggested when no liked time slot is known. */
  const DefaultTimes := ["08:00", "12:00", "20:00"]

  /** A style feature value: only numbers move a style preference. */
  datatype StyleValue = Number(x: real) | NonNumeric

  /** The optional `content_info` of a reaction: which keys are present, and their values. */
  datatype ContentInfo = ContentInfo(
    topics: Option<seq<string>>,
    styleFeatures: Option<seq<(string, StyleValue)>>,
    source: Option<string>)

  datatype Context = Context(timeOfDay: string, dayOfWeek: string)

  /** The key of a liked time slot, such as "Monday_morning". */
  function SlotKey(c: Context): string {
    c.dayOfWeek + "_" + c.timeOfDay
  }

  datatype FeedbackEntry = FeedbackEntry(
    id: string,
    messageId: string,
    contentId: string,
    reaction: string,
    timestamp: string,
    info: ContentInfo,
    context: Context)

  datatype Statistics = Statistics(total: nat, likes: nat, dislikes: nat, refreshes: nat, lastUpdated: string)

  /** `comfort_levels`: each key is absent until it is first written. */
  datatype Comfort = Comfort(recentSatisfaction: Option<real>, overallComfort: Option<real>)

  datatype Trend = InsufficientData | HighlySatisfied | MostlySatisfied | NeedsAdjustment

  /** What `get_user_model_summary` reports; an absent key is `None`. */
  datatype ModelSummary = ModelSummary(
    favoriteTopics: Option<map<string, real>>,
    dislikedTopics: Option<map<string, real>>,
    reactionDistribution: Option<map<string, nat>>,
    comfort: Comfort)

  // ---------------------------------------------------------------------------
  // Update rules for one value

  /** The new weight of a topic after one reaction. */
  function TopicWeightAfter(w: real, reaction: string): (r: real)
    ensures reaction == Like ==> r == Min(1.0, w + 0.1)
    ensures reaction == Dislike ==> r == Max(0.0, w - 0.15)
    ensures reaction == Refresh ==> r == Max(0.0, w - 0.05)
    ensures InUnit(w) ==> InUnit(r)
    ensures reaction == Like ==> r >= w || r == 1.0
    ensures reaction == Dislike && w <= 0.15 ==> r == 0.0
  {
    if reaction == Like then Min(1.0, w + 0.1)
    else if reaction == Dislike then Max(0.0, w - 0.15)
    else if reaction == Refresh then Max(0.0, w - 0.05)
    else w
  }

  /**
   * The new preference for a style feature whose observed value is `v`:
   * a like moves it 10% of the way towards `v`, a dislike 15% away from it.
   */
  function StylePrefAfter(p: real, v: real, reaction: string): (r: real)
    ensures InUnit(r)
    ensures reaction == Like ==> r == Clamp01(p + (v - p) * 0.1)
    ensures reaction == Dislike ==> r == Clamp01(p + (p - v) * 0.15)
    ensures reaction != Like && reaction != Dislike ==> r == Clamp01(p)
    ensures reaction == Like && InUnit(p) && p <= v <= 1.0 ==> p <= r <= v
    ensures reaction == Like && InUnit(p) && 0.0 <= v <= p ==> v <= r <= p
    ensures reaction == Dislike && InUnit(p) && v <= p ==> r >= p
    ensures reaction == Dislike && InUnit(p) && v >= p ==> r <= p
  {
    var moved :=
      if reaction == Like then p + (v - p) * 0.1
      else if reaction == Dislike then p + (p - v) * 0.15
      else p;
    Clamp01(moved)
  }

  /** The new weight of a source after one reaction; a dislike never goes below 0.1. */
  function SourceWeightAfter(w: real, reaction: string): (r: real)
    ensures reaction == Like ==> r == Min(1.0, w + 0.08)
    ensures reaction == Dislike ==> r == Max(SourceFloor, w - 0.12)
    ensures reaction != Like && reaction != Dislike ==> r == w
    ensures reaction == Dislike ==> r >= SourceFloor
    ensures SourceFloor <= w <= 1.0 ==> SourceFloor <= r <= 1.0
  {
    if reaction == Like then Min(1.0, w + 0.08)
    else if reaction == Dislike then Max(SourceFloor, w - 0.12)
    else w
  }

  /** The new `overall_comfort` after one reaction. */
  function ComfortAfter(c: real, reaction: string): (r: real)
    ensures reaction == Like ==> r == Min(1.0, c + 0.02)
    ensures reaction == Dislike ==> r == Max(0.0, c - 0.05)
    ensures reaction == Refresh ==> r == Max(0.0, c - 0.01)
    ensures InUnit(c) ==> InUnit(r)
  {
    if reaction == Like then Min(1.0, c + 0.02)
    else if reaction == Dislike then Max(0.0, c - 0.05)
    else if reaction == Refresh then Max(0.0, c - 0.01)
    else c
  }

  /** A reaction other than like, dislike and refresh moves neither a topic weight nor the comfort. */
  lemma OtherReactionKeeps(w: real, reaction: string)
    requires !Counted(reaction)
    ensures TopicWeightAfter(w, reaction) == w
    ensures ComfortAfter(w, reaction) == w
  {
  }

  /** `get_time_of_day` for the current hour. */
  function TimeOfDay(hour: int): (r: string)
    ensures r == "morning" <==> 5 <= hour < 12
    ensures r == "afternoon" <==> 12 <= hour < 17
    ensures r == "evening" <==> 17 <= hour < 22
    ensures r == "night" <==> hour < 5 || hour >= 22
  {
    if 5 <= hour < 12 then "morning"
    else if 12 <= hour < 17 then "afternoon"
    else if 17 <= hour < 22 then "evening"
    else "night"
  }

  // ---------------------------------------------------------------------------
  // Maps with defaults, counters, and the folds over a reaction's topics and styles

  /** `d.setdefault(k, 0); d[k] += 1` */
  function Bump(m: map<string, nat>, k: string): (r: map<string, nat>)
    ensures r.Keys == m.Keys + {k}
    ensures r[k] == (if k in m then m[k] else 0) + 1
    ensures forall j :: j in m && j != k ==> r[j] == m[j]
  {
    m[k := (if k in m then m[k] else 0) + 1]
  }

  /** The same counter update on an insertion-ordered dictionary: a new key goes last. */
  function BumpOrdered(s: seq<(string, nat)>, k: string): (r: seq<(string, nat)>)
    ensures |r| == |s| || |r| == |s| + 1
  {
    if s == [] then [(k, 1)]
    else if s[0].0 == k then [(k, s[0].1 + 1)] + s[1..]
    else [s[0]] + BumpOrdered(s[1..], k)
  }

  /**
   * `BumpOrdered` appends `(k, 1)` exactly when `k` is new; otherwise it adds one to the first
   * entry for `k` and leaves every other entry and the order of keys as they were.
   */
  lemma {:induction false} BumpOrderedSpec(s: seq<(string, nat)>, k: string)
    ensures var r := BumpOrdered(s, k);
      && (|r| == |s| + 1 <==> forall i :: 0 <= i < |s| ==> s[i].0 != k)
      && (|r| == |s| + 1 ==> r == s + [(k, 1)])
      && (forall i :: 0 <= i < |s| ==> r[i].0 == s[i].0)
      && (forall i :: 0 <= i < |s| && s[i].0 != k ==> r[i] == s[i])
      && (forall i :: 0 <= i < |s| && s[i].0 == k && (forall j :: 0 <= j < i ==> s[j].0 != k) ==> r[i].1 == s[i].1 + 1)
    decreases |s|
  {
    if s != [] && s[0].0 != k {
      BumpOrderedSpec(s[1..], k);
      assert forall i :: 1 <= i < |s| ==> s[i] == s[1..][i - 1];
    }
  }

  /** Topic weights after `update_topic_weight` for each topic of `topics`, in order. */
  function ApplyTopics(m: map<string, real>, topics: seq<string>, reaction: string): map<string, real>
  {
    if topics == [] then m
    else
      var before := ApplyTopics(m, topics[..|topics| - 1], reaction);
      var t := topics[|topics| - 1];
      before[t := TopicWeightAfter(WeightOr(before, t, NeutralWeight), reaction)]
  }

  /** Style preferences after `update_style_preferences`, feature by feature; non-numbers are skipped. */
  function ApplyStyles(m: map<string, real>, features: seq<(string, StyleValue)>, reaction: string): map<string, real>
  {
    if features == [] then m
    else
      var before := ApplyStyles(m, features[..|features| - 1], reaction);
      var (f, v) := features[|features| - 1];
      match v
      case Number(x) => before[f := StylePrefAfter(WeightOr(before, f, NeutralWeight), x, reaction)]
      case NonNumeric => before
  }

  predicate AllInUnit(m: map<string, real>) {
    forall k :: k in m ==> InUnit(m[k])
  }

  predicate AllSourceWeightsValid(m: map<string, real>) {
    forall k :: k in m ==> SourceFloor <= m[k] <= 1.0
  }

  lemma {:induction false} ApplyTopicsShape(m: map<string, real>, topics: seq<string>, reaction: string)
    ensures ApplyTopics(m, topics, reaction).Keys == m.Keys + set t | t in topics
    ensures AllInUnit(m) ==> AllInUnit(ApplyTopics(m, topics, reaction))
    ensures forall k :: k in m && k !in topics ==> ApplyTopics(m, topics, reaction)[k] == m[k]
    decreases |topics|
  {
    if topics != [] {
      var init := topics[..|topics| - 1];
      ApplyTopicsShape(m, init, reaction);
      assert topics == init + [topics[|topics| - 1]];
      assert (set t | t in topics) == (set t | t in init) + {topics[|topics| - 1]};
    }
  }

  /** Whether `f` is one of the listed style features. */
  predicate Listed(features: seq<(string, StyleValue)>, f: string) {
    exists j :: 0 <= j < |features| && features[j].0 == f
  }

  /** The style update touches only the listed features. */
  lemma {:induction false} ApplyStylesKeepsOthers(m: map<string, real>, features: seq<(string, StyleValue)>, reaction: string)
    ensures forall f :: f in ApplyStyles(m, features, reaction) ==> f in m || Listed(features, f)
    ensures forall f :: f in m && !Listed(features, f) ==> f in ApplyStyles(m, features, reaction) && ApplyStyles(m, features, reaction)[f] == m[f]
    decreases |features|
  {
    if features != [] {
      var init := features[..|features| - 1];
      ApplyStylesKeepsOthers(m, init, reaction);
      forall f | Listed(init, f) ensures Listed(features, f) {
        var j :| 0 <= j < |init| && init[j].0 == f;
        assert features[j] == init[j];
      }
    }
  }

  lemma {:induction false} ApplyStylesInUnit(m: map<string, real>, features: seq<(string, StyleValue)>, reaction: string)
    ensures AllInUnit(m) ==> AllInUnit(ApplyStyles(m, features, reaction))
    decreases |features|
  {
    if features != [] {
      ApplyStylesInUnit(m, features[..|features| - 1], reaction);
    }
  }

  /** `n` successive reactions of one kind on a single topic weight. */
  function RepeatTopic(w: real, reaction: string, n: nat): real {
    if n == 0 then w else TopicWeightAfter(RepeatTopic(w, reaction, n - 1), reaction)
  }

  /** Repeated likes never lower a topic weight, repeated dislikes never raise it. */
  lemma {:induction false} RepeatedReactionsMonotone(w: real, n: nat)
    requires InUnit(w)
    ensures w <= RepeatTopic(w, Like, n) <= 1.0
    ensures 0.0 <= RepeatTopic(w, Dislike, n) <= w
  {
    if n > 0 {
      RepeatedReactionsMonotone(w, n - 1);
    }
  }

  /** Seven dislikes (7 x 0.15 > 1) drive any weight in [0, 1] to exactly 0, and it stays there. */
  lemma {:induction false} DislikesReachZero(w: real, n: nat)
    requires InUnit(w) && n >= 7
    ensures RepeatTopic(w, Dislike, n) == 0.0
  {
    if n == 7 {
      var k := 0;
      while k < 7
        invariant 0 <= k <= 7
        invariant 0.0 <= RepeatTopic(w, Dislike, k) <= Max(0.0, w - 0.15 * k as real)
      {
        k := k + 1;
      }
    } else {
      DislikesReachZero(w, n - 1);
    }
  }

  // ---------------------------------------------------------------------------
  // Views of the log

  function Reactions(log: seq<FeedbackEntry>): (r: seq<string>)
    ensures |r| == |log| && forall i :: 0 <= i < |log| ==> r[i] == log[i].reaction
  {
    seq(|log|, i requires 0 <= i < |log| => log[i].reaction)
  }

  /** How many times `x` occurs in `s`. */
  function CountOf(s: seq<string>, x: string): (n: nat)
    ensures n <= |s|
  {
    if s == [] then 0
    else CountOf(s[..|s| - 1], x) + (if s[|s| - 1] == x then 1 else 0)
  }

  lemma {:induction false} CountOfAppend(s: seq<string>, e: string, x: string)
    ensures CountOf(s + [e], x) == CountOf(s, x) + (if e == x then 1 else 0)
  {
    assert (s + [e])[..|s|] == s;
  }

  lemma {:induction false} CountOfMember(s: seq<string>, i: nat)
    requires i < |s|
    ensures CountOf(s, s[i]) >= 1
    decreases |s|
  {
    if i < |s| - 1 {
      CountOfMember(s[..|s| - 1], i);
    }
  }

  lemma {:induction false} CountsBounded(s: seq<string>, a: string, b: string, c: string)
    requires a != b && b != c && a != c
    ensures CountOf(s, a) + CountOf(s, b) + CountOf(s, c) <= |s|
    decreases |s|
  {
    if s != [] {
      CountsBounded(s[..|s| - 1], a, b, c);
    }
  }

  /** The largest number of occurrences in `s` of any element of `cands`. */
  function MaxCountAmong(cands: seq<string>, s: seq<string>): (m: nat)
    ensures forall k :: 0 <= k < |cands| ==> CountOf(s, cands[k]) <= m
    ensures cands != [] ==> exists k :: 0 <= k < |cands| && CountOf(s, cands[k]) == m
    ensures m <= |s|
  {
    if cands == [] then 0
    else
      var rest := MaxCountAmong(cands[1..], s);
      var here := CountOf(s, cands[0]);
      assert forall k :: 1 <= k < |cands| ==> cands[k] == cands[1..][k - 1];
      if here >= rest then here else rest
  }

  /** `Counter(s).most_common(1)[0][1]`: the count of the most frequent element. */
  function MostCommonCount(s: seq<string>): (m: nat)
    requires s != []
    ensures 1 <= m <= |s|
    ensures forall x :: CountOf(s, x) <= m
    ensures exists k :: 0 <= k < |s| && CountOf(s, s[k]) == m
  {
    var m := MaxCountAmong(s, s);
    CountOfMember(s, 0);
    assert forall x :: CountOf(s, x) <= m by {
      forall x ensures CountOf(s, x) <= m {
        if x in s {
          var k :| 0 <= k < |s| && s[k] == x;
        } else {
          CountAbsent(s, x);
        }
      }
    }
    m
  }

  lemma {:induction false} CountAbsent(s: seq<string>, x: string)
    requires x !in s
    ensures CountOf(s, x) == 0
    decreases |s|
  {
    if s != [] {
      assert x !in s[..|s| - 1];
      CountAbsent(s[..|s| - 1], x);
    }
  }

  /** For a positive denominator, comparing a ratio is comparing the numerator with a scaled bound. */
  lemma RatioAbove(a: real, t: real, c: real)
    requires t > 0.0
    ensures a / t > c <==> a > c * t
  {
    var q := a / t;
    assert q * t == a;
    if q > c {
      assert q * t > c * t;
    }
    if a > c * t {
      assert q * t > c * t;
    }
  }

  /** How many entries of `rs` are a like, a dislike or a refresh. */
  function ReactionTotal(rs: seq<string>): nat {
    CountOf(rs, Like) + CountOf(rs, Dislike) + CountOf(rs, Refresh)
  }

  /**
   * `recent_satisfaction` over a window: ((likes + 0.3 refreshes - 1.5 dislikes) / n + 1) / 2
   * clamped to [0, 1], where n counts only likes, dislikes and refreshes; no value when n is 0.
   */
  function Satisfaction(window: seq<FeedbackEntry>): (r: Option<real>)
    ensures r.None? <==> ReactionTotal(Reactions(window)) == 0
    ensures r.Some? ==> InUnit(r.value)
  {
    var rs := Reactions(window);
    var likes, dislikes, refreshes := CountOf(rs, Like), CountOf(rs, Dislike), CountOf(rs, Refresh);
    if likes + dislikes + refreshes > 0 then Some(SatisfactionScore(likes, dislikes, refreshes)) else None
  }

  /** ((likes + 0.3 refreshes - 1.5 dislikes) / n + 1) / 2, clamped to [0, 1]. */
  function SatisfactionScore(likes: nat, dislikes: nat, refreshes: nat): (r: real)
    requires likes + dislikes + refreshes > 0
    ensures InUnit(r)
  {
    var total := likes + dislikes + refreshes;
    var satisfaction := (likes as real * 1.0 + refreshes as real * 0.3 - dislikes as real * 1.5) / total as real;
    Clamp01((satisfaction + 1.0) / 2.0)
  }

  /** Only likes score 1, only dislikes score 0. */
  lemma UniformScores(n: nat)
    requires n > 0
    ensures SatisfactionScore(n, 0, 0) == 1.0
    ensures SatisfactionScore(0, n, 0) == 0.0
  {
    var x := n as real;
    assert (x * 1.0 + 0 as real * 0.3 - 0 as real * 1.5) == 1.0 * x;
    assert (0 as real * 1.0 + 0 as real * 0.3 - x * 1.5) == -1.5 * x;
    Cancel(1.0, x);
    Cancel(-1.5, x);
  }

  lemma Cancel(c: real, x: real)
    requires x > 0.0
    ensures (c * x) / x == c
  {
  }

  lemma {:induction false} CountUniform(s: seq<string>, x: string, y: string)
    requires forall i :: 0 <= i < |s| ==> s[i] == x
    ensures CountOf(s, x) == |s|
    ensures y != x ==> CountOf(s, y) == 0
    decreases |s|
  {
    if s != [] {
      CountUniform(s[..|s| - 1], x, y);
    }
  }

  /** The new `recent_satisfaction`: the window's satisfaction when it counts any reaction, else the previous value. */
  function SatisfactionOr(window: seq<FeedbackEntry>, previous: Option<real>): (r: Option<real>)
    ensures ReactionTotal(Reactions(window)) == 0 ==> r == previous
    ensures ReactionTotal(Reactions(window)) > 0 ==> r == Satisfaction(window) && r.Some?
    ensures previous.Some? ==> r.Some?
    ensures (previous.Some? ==> InUnit(previous.value)) ==> (r.Some? ==> InUnit(r.value))
  {
    match Satisfaction(window)
    case Some(s) => Some(s)
    case None => previous
  }

  /** An empty window leaves the previous satisfaction as it was. */
  lemma SatisfactionOfNothing(previous: Option<real>)
    ensures SatisfactionOr([], previous) == previous
  {
    assert Reactions([]) == [];
  }

  /** A window of likes only is fully satisfying. */
  lemma AllLikesSatisfy(window: seq<FeedbackEntry>)
    requires window != []
    requires forall i :: 0 <= i < |window| ==> window[i].reaction == Like
    ensures Satisfaction(window) == Some(1.0)
  {
    var rs := Reactions(window);
    CountUniform(rs, Like, Dislike);
    CountUniform(rs, Like, Refresh);
    UniformScores(|rs|);
  }

  /** A window of dislikes only is not satisfying at all. */
  lemma AllDislikesDissatisfy(window: seq<FeedbackEntry>)
    requires window != []
    requires forall i :: 0 <= i < |window| ==> window[i].reaction == Dislike
    ensures Satisfaction(window) == Some(0.0)
  {
    var rs := Reactions(window);
    CountUniform(rs, Dislike, Like);
    CountUniform(rs, Dislike, Refresh);
    UniformScores(|rs|);
  }

  /** The pure refresh-rate rule of `generate_suggestions`. */
  predicate FrequentRefreshes(stats: Statistics) {
    stats.refreshes as real > stats.total as real * 0.3
  }

  const LowComfortTip := "系统检测到舒适度较低，请多使用'喜欢'功能标记满意内容"
  const HighComfortTip := "舒适度过高，系统将轻微增加内容多样性以避免信息茧房过厚"
  const RefreshTip := "您频繁使用'换一批'，系统将调整内容多样性"

  /** The count of a time slot, as a sort key. */
  function SlotCount(p: (string, nat)): real {
    p.1 as real
  }

  function Keys(ps: seq<(string, nat)>): (r: seq<string>)
    ensures |r| == |ps| && forall i :: 0 <= i < |ps| ==> r[i] == ps[i].0
  {
    seq(|ps|, i requires 0 <= i < |ps| => ps[i].0)
  }

  /** The keys of the first (up to) three slots in descending order of count, ties in insertion order. */
  function TopSlots(slots: seq<(string, nat)>): (r: seq<string>)
    ensures |r| == MinNat(3, |slots|)
    ensures forall i :: 0 <= i < |r| ==> exists j :: 0 <= j < |slots| && slots[j].0 == r[i]
  {
    var sorted := Sorting.SortDesc(slots, SlotCount);
    var top := sorted[..MinNat(3, |slots|)];
    assert forall i :: 0 <= i < |top| ==> top[i] in multiset(slots) by {
      forall i | 0 <= i < |top| ensures top[i] in multiset(slots) {
        assert top[i] == sorted[i];
        assert top[i] in multiset(sorted);
      }
    }
    Keys(top)
  }

  /** A slot whose key was not suggested was liked no more often than any suggested slot. */
  lemma TopSlotsAreBusiest(slots: seq<(string, nat)>, j: nat)
    requires j < |slots|
    requires slots[j].0 !in TopSlots(slots)
    ensures forall i :: 0 <= i < MinNat(3, |slots|) ==>
      TopSlots(slots)[i] == Sorting.SortDesc(slots, SlotCount)[i].0 &&
      Sorting.SortDesc(slots, SlotCount)[i].1 >= slots[j].1
  {
    var sorted := Sorting.SortDesc(slots, SlotCount);
    var n := MinNat(3, |slots|);
    var keys := TopSlots(slots);
    assert keys == Keys(sorted[..n]);
    assert slots[j] !in sorted[..n];
    Sorting.TopIsMaximal(slots, SlotCount, n, slots[j]);
  }

  lemma DivMonotone(c: real, m: real, n: real)
    requires n > 0.0 && c <= m
    ensures c / n <= m / n
  {
  }

  lemma UnitRatio(m: real, n: real)
    requires 1.0 <= m <= n
    ensures 0.0 < m / n <= 1.0
  {
    var r := m / n;
    assert r * n == m;
  }

  /** The share of the most frequent element of `s`: `most_common(1)[0][1] / len(s)`. */
  function ShareOfMostCommon(s: seq<string>): (r: real)
    requires s != []
    ensures 0.0 < r <= 1.0
    ensures forall x :: CountOf(s, x) as real / |s| as real <= r
    ensures exists k :: 0 <= k < |s| && CountOf(s, s[k]) as real / |s| as real == r
  {
    var m := MostCommonCount(s);
    var n := |s| as real;
    UnitRatio(m as real, n);
    forall x ensures CountOf(s, x) as real / n <= m as real / n {
      DivMonotone(CountOf(s, x) as real, m as real, n);
    }
    m as real / n
  }

  // ---------------------------------------------------------------------------
  // The user model

  /** `user_model["preference_weights"]`: topic, style-feature and source weights. */
  datatype Weights = Weights(topics: map<string, real>, styles: map<string, real>, sources: map<string, real>)

  predicate WeightsInRange(w: Weights) {
    AllInUnit(w.topics) && AllInUnit(w.styles) && AllSourceWeightsValid(w.sources)
  }

  /**
   * The weights after the topic, style and source updates of one reaction: each part moves
   * only when `content_info` carries its key, and every weight stays in its range.
   */
  function Reweigh(w: Weights, info: ContentInfo, reaction: string): (r: Weights)
    ensures WeightsInRange(w) ==> WeightsInRange(r)
    ensures info.topics.None? ==> r.topics == w.topics
    ensures info.topics.Some? ==> r.topics.Keys == w.topics.Keys + set t | t in info.topics.value
    ensures info.topics.Some? ==> forall t :: t in w.topics && t !in info.topics.value ==> r.topics[t] == w.topics[t]
    ensures info.styleFeatures.None? ==> r.styles == w.styles
    ensures info.styleFeatures.Some? ==> forall f :: f in r.styles ==> f in w.styles || Listed(info.styleFeatures.value, f)
    ensures info.styleFeatures.Some? ==>
      forall f :: f in w.styles && !Listed(info.styleFeatures.value, f) ==> f in r.styles && r.styles[f] == w.styles[f]
    ensures info.source.None? ==> r.sources == w.sources
    ensures info.source.Some? ==> r.sources.Keys == w.sources.Keys + {info.source.value}
    ensures info.source.Some? ==> forall k :: k in w.sources && k != info.source.value ==> r.sources[k] == w.sources[k]
  {
    var topics := if info.topics.Some? then ApplyTopics(w.topics, info.topics.value, reaction) else w.topics;
    var styles := if info.styleFeatures.Some? then ApplyStyles(w.styles, info.styleFeatures.value, reaction) else w.styles;
    var sources :=
      if info.source.Some?
      then w.sources[info.source.value := SourceWeightAfter(WeightOr(w.sources, info.source.value, NeutralWeight), reaction)]
      else w.sources;
    ApplyTopicsShape(w.topics, info.topics.GetOr([]), reaction);
    ApplyStylesInUnit(w.styles, info.styleFeatures.GetOr([]), reaction);
    ApplyStylesKeepsOthers(w.styles, info.styleFeatures.GetOr([]), reaction);
    Weights(topics, styles, sources)
  }

  /**
   * `user_model["behavior_patterns"]`: liked time slots in insertion order, reaction counts
   * (`reaction_patterns`, absent while empty) and the `consecutive` transitions and streaks
   * (`streaks` absent until the first repeated reaction).
   */
  datatype Patterns = Patterns(
    preferredTimes: seq<(string, nat)>,
    reactionPatterns: map<string, nat>,
    transitions: map<string, nat>,
    streaks: Option<map<string, nat>>)

  // ---------------------------------------------------------------------------
  // The feedback system

  class FeedbackSystem {
    const userId: string
    /** `feedback_data["feedbacks"]`, oldest first. */
    var log: seq<FeedbackEntry>
    /** `feedback_data["statistics"]`. */
    var stats: Statistics
    var weights: Weights
    var patterns: Patterns
    var comfort: Comfort

    /** The counters agree with the log, and every weight is in its range. */
    ghost predicate Valid()
      reads this
    {
      && |log| == stats.total
      && stats.likes == CountOf(Reactions(log), Like)
      && stats.dislikes == CountOf(Reactions(log), Dislike)
      && stats.refreshes == CountOf(Reactions(log), Refresh)
      && WeightsInRange(weights)
      && (comfort.overallComfort.Some? ==> InUnit(comfort.overallComfort.value))
      && (comfort.recentSatisfaction.Some? ==> InUnit(comfort.recentSatisfaction.value))
    }

    /** A user with no stored feedback or model: the state the loaders build when no file exists. */
    constructor (userId: string, now: string)
      ensures Valid()
      ensures this.userId == userId && log == [] && stats == Statistics(0, 0, 0, 0, now)
      ensures weights == Weights(map[], map[], map[])
      ensures patterns == Patterns([], map[], map[], None)
      ensures comfort == Comfort(None, None)
    {
      this.userId := userId;
      log := [];
      stats := Statistics(0, 0, 0, 0, now);
      weights := Weights(map[], map[], map[]);
      patterns := Patterns([], map[], map[], None);
      comfort := Comfort(None, None);
    }

    /** `get_recent_feedbacks(count)` */
    function RecentFeedbacks(count: int): (r: seq<FeedbackEntry>)
      reads this
      ensures count > 0 ==> |r| == MinNat(count, |log|) && r == log[|log| - |r|..]
    {
      PySuffix(log, count)
    }

    /** `calculate_satisfaction_trend`, graded by the all-time like ratio. */
    function SatisfactionTrend(): (t: Trend)
      reads this
      ensures t == InsufficientData <==> stats.total < 10
      ensures t == HighlySatisfied <==> stats.total >= 10 && stats.likes as real > 0.7 * stats.total as real
      ensures t == MostlySatisfied <==> stats.total >= 10 && 0.5 * stats.total as real < stats.likes as real <= 0.7 * stats.total as real
      ensures t == NeedsAdjustment <==> stats.total >= 10 && stats.likes as real <= 0.5 * stats.total as real
    {
      if stats.total < 10 then InsufficientData
      else
        var likeRatio := stats.likes as real / stats.total as real;
        RatioAbove(stats.likes as real, stats.total as real, 0.7);
        RatioAbove(stats.likes as real, stats.total as real, 0.5);
        if likeRatio > 0.7 then HighlySatisfied
        else if likeRatio > 0.5 then MostlySatisfied
        else NeedsAdjustment
    }

    /** `calculate_preference_stability`: share of the most common reaction among the last ten. */
    function PreferenceStability(): (r: real)
      reads this
      ensures |log| < 5 ==> r == 0.5
      ensures |log| >= 5 ==> 0.0 < r <= 1.0
      ensures |log| >= 5 ==> forall x :: CountOf(Reactions(RecentFeedbacks(10)), x) as real / MinNat(10, |log|) as real <= r
      ensures |log| >= 5 ==>
        exists k :: 0 <= k < MinNat(10, |log|) &&
          CountOf(Reactions(RecentFeedbacks(10)), RecentFeedbacks(10)[k].reaction) as real / MinNat(10, |log|) as real == r
    {
      var recent := RecentFeedbacks(10);
      if |recent| < 5 then 0.5
      else ShareOfMostCommon(Reactions(recent))
    }

    /** `find_optimal_times`: the three busiest liked slots, or the defaults when none is known. */
    function FindOptimalTimes(): (r: seq<string>)
      reads this
      ensures patterns.preferredTimes == [] ==> r == DefaultTimes
      ensures patterns.preferredTimes != [] ==> r == TopSlots(patterns.preferredTimes)
      ensures |r| <= 3
    {
      if patterns.preferredTimes == [] then DefaultTimes else TopSlots(patterns.preferredTimes)
    }

    /** `generate_suggestions` */
    function GenerateSuggestions(): (r: seq<string>)
      reads this
      ensures var c := comfort.overallComfort.GetOr(InitialComfort);
        && (LowComfortTip in r <==> c < 0.6)
        && (HighComfortTip in r <==> c > 0.9)
        && (RefreshTip in r <==> FrequentRefreshes(stats))
        && |r| <= 2
    ensures Distinct(r)
    ensures forall k :: 0 <= k < |r| ==> r[k] in [LowComfortTip, HighComfortTip, RefreshTip]
    ensures RefreshTip in r ==> r[|r| - 1] == RefreshTip
    {
      var c := comfort.overallComfort.GetOr(InitialComfort);
      (if c < 0.6 then [LowComfortTip] else [])
      + (if c > 0.9 then [HighComfortTip] else [])
      + (if FrequentRefreshes(stats) then [RefreshTip] else [])
    }

    /** `get_user_model_summary`: favourite topics (> 0.7), disliked topics (< 0.3), reaction counts. */
    function UserModelSummary(): (s: ModelSummary)
      reads this
      ensures s.comfort == comfort
      ensures var tw := weights.topics;
        && (s.favoriteTopics.Some? <==> exists t :: t in tw && tw[t] > 0.7)
        && (s.favoriteTopics.Some? ==> forall t :: t in s.favoriteTopics.value <==> t in tw && tw[t] > 0.7)
        && (s.favoriteTopics.Some? ==> forall t :: t in s.favoriteTopics.value ==> s.favoriteTopics.value[t] == tw[t])
        && (s.dislikedTopics.Some? <==> exists t :: t in tw && tw[t] < 0.3)
        && (s.dislikedTopics.Some? ==> forall t :: t in s.dislikedTopics.value <==> t in tw && tw[t] < 0.3)
        && (s.dislikedTopics.Some? ==> forall t :: t in s.dislikedTopics.value ==> s.dislikedTopics.value[t] == tw[t])
      ensures s.reactionDistribution.Some? <==> patterns.reactionPatterns != map[]
      ensures s.reactionDistribution.Some? ==> s.reactionDistribution.value == patterns.reactionPatterns
    {
      var tw := weights.topics;
      var favorite := map t | t in tw && tw[t] > 0.7 :: tw[t];
      var disliked := map t | t in tw && tw[t] < 0.3 :: tw[t];
      assert (favorite != map[]) <==> exists t :: t in tw && tw[t] > 0.7 by {
        if favorite != map[] {
          var t :| t in favorite;
        }
        forall t | t in tw && tw[t] > 0.7 ensures favorite != map[] {
          assert t in favorite;
        }
      }
      assert (disliked != map[]) <==> exists t :: t in tw && tw[t] < 0.3 by {
        if disliked != map[] {
          var t :| t in disliked;
        }
        forall t | t in tw && tw[t] < 0.3 ensures disliked != map[] {
          assert t in disliked;
        }
      }
      var rp := patterns.reactionPatterns;
      ModelSummary(
        if favorite != map[] then Some(favorite) else None,
        if disliked != map[] then Some(disliked) else None,
        if rp != map[] then Some(rp) else None,
        comfort)
    }

    // -------------------------------------------------------------------------
    // In-place updates

    /** `update_topic_weight`: only `topic`'s entry changes. */
    method UpdateTopicWeight(topic: string, reaction: string)
      modifies this`weights
      ensures weights == old(weights).(topics := old(weights.topics)[topic :=
        TopicWeightAfter(WeightOr(old(weights.topics), topic, NeutralWeight), reaction)])
    {
      var current := if topic in weights.topics then weights.topics[topic] else NeutralWeight;
      weights := weights.(topics := weights.topics[topic := TopicWeightAfter(current, reaction)]);
    }

    /** The loop over `content_info["topics"]` in `update_user_model`. */
    method UpdateTopics(topics: seq<string>, reaction: string)
      modifies this`weights
      ensures weights == old(weights).(topics := ApplyTopics(old(weights.topics), topics, reaction))
    {
      var i := 0;
      while i < |topics|
        invariant 0 <= i <= |topics|
        invariant weights == old(weights).(topics := ApplyTopics(old(weights.topics), topics[..i], reaction))
      {
        assert topics[..i + 1][..i] == topics[..i];
        UpdateTopicWeight(topics[i], reaction);
        i := i + 1;
      }
      assert topics[..i] == topics;
    }

    /** `update_style_preferences` */
    method UpdateStylePreferences(features: seq<(string, StyleValue)>, reaction: string)
      modifies this`weights
      ensures weights == old(weights).(styles := ApplyStyles(old(weights.styles), features, reaction))
    {
      var i := 0;
      while i < |features|
        invariant 0 <= i <= |features|
        invariant weights == old(weights).(styles := ApplyStyles(old(weights.styles), features[..i], reaction))
      {
        assert features[..i + 1][..i] == features[..i];
        var (feature, value) := features[i];
        match value {
          case Number(x) =>
            var prefs := weights.styles;
            var current := if feature in prefs then prefs[feature] else NeutralWeight;
            weights := weights.(styles := prefs[feature := StylePrefAfter(current, x, reaction)]);
          case NonNumeric =>
        }
        i := i + 1;
      }
      assert features[..i] == features;
    }

    /** `update_source_weight`: only `source`'s entry changes. */
    method UpdateSourceWeight(source: string, reaction: string)
      modifies this`weights
      ensures weights == old(weights).(sources := old(weights.sources)[source :=
        SourceWeightAfter(WeightOr(old(weights.sources), source, NeutralWeight), reaction)])
    {
      var current := if source in weights.sources then weights.sources[source] else NeutralWeight;
      weights := weights.(sources := weights.sources[source := SourceWeightAfter(current, reaction)]);
    }

    /** The topic, style and source part of `update_user_model` (lines 140-151). */
    method UpdatePreferenceWeights(info: ContentInfo, reaction: string)
      requires Valid()
      modifies this`weights
      ensures weights == Reweigh(old(weights), info, reaction)
      ensures Valid()
    {
      if info.topics.Some? {
        UpdateTopics(info.topics.value, reaction);
      }
      if info.styleFeatures.Some? {
        UpdateStylePreferences(info.styleFeatures.value, reaction);
      }
      if info.source.Some? {
        UpdateSourceWeight(info.source.value, reaction);
      }
    }

    /**
     * `update_consecutive_patterns`. It reports `ok == false` where the source raises
     * KeyError: a reaction that differs from the last logged one while no streak was ever recorded.
     */
    method UpdateConsecutivePatterns(entry: FeedbackEntry) returns (ok: bool)
      modifies this`patterns
      ensures patterns.preferredTimes == old(patterns.preferredTimes)
      ensures patterns.reactionPatterns == old(patterns.reactionPatterns)
      ensures log == [] ==> ok && patterns == old(patterns)
      ensures log != [] ==> patterns.transitions == Bump(old(patterns.transitions), TransitionKey(Last(log).reaction, entry.reaction))
      ensures log != [] && Last(log).reaction == entry.reaction ==>
        ok && patterns.streaks == Some(Bump(old(patterns.streaks).GetOr(map[]), entry.reaction))
      ensures log != [] && Last(log).reaction != entry.reaction ==>
        ok == old(patterns.streaks).Some? &&
        patterns.streaks == (if ok then Some(old(patterns.streaks).value[entry.reaction := 1]) else old(patterns.streaks))
    {
      var recent := RecentFeedbacks(5);
      SuffixKeepsLast(log, 5);
      ok := true;
      if recent != [] {
        var last := Last(recent).reaction;
        var transitions := Bump(patterns.transitions, TransitionKey(last, entry.reaction));
        var streaks := patterns.streaks;
        if entry.reaction == last {
          streaks := Some(Bump(streaks.GetOr(map[]), entry.reaction));
        } else if streaks.Some? {
          streaks := Some(streaks.value[entry.reaction := 1]);
        } else {
          ok := false;
        }
        patterns := patterns.(transitions := transitions, streaks := streaks);
      }
    }

    /** `update_behavior_patterns` with `day_of_week` in the slot key (see README, Findings). */
    method UpdateBehaviorPatterns(entry: FeedbackEntry) returns (ok: bool)
      requires Valid()
      modifies this`patterns
      ensures Valid()
      ensures patterns.preferredTimes == if entry.reaction == Like
        then BumpOrdered(old(patterns.preferredTimes), SlotKey(entry.context))
        else old(patterns.preferredTimes)
      ensures patterns.reactionPatterns == Bump(old(patterns.reactionPatterns), entry.reaction)
      ensures log != [] && Last(log).reaction == entry.reaction ==>
        ok && patterns.transitions == Bump(old(patterns.transitions), TransitionKey(entry.reaction, entry.reaction))
           && patterns.streaks == Some(Bump(old(patterns.streaks).GetOr(map[]), entry.reaction))
    {
      var timeKey := SlotKey(entry.context);
      if entry.reaction == Like {
        patterns := patterns.(preferredTimes := BumpOrdered(patterns.preferredTimes, timeKey));
      }
      patterns := patterns.(reactionPatterns := Bump(patterns.reactionPatterns, entry.reaction));
      ok := UpdateConsecutivePatterns(entry);
    }

    /** `update_comfort_levels` */
    method UpdateComfortLevels(entry: FeedbackEntry)
      requires Valid()
      modifies this`comfort
      ensures Valid()
      ensures comfort == Comfort(SatisfactionOr(RecentFeedbacks(SatisfactionWindow), old(comfort.recentSatisfaction)),
                                 Some(ComfortAfter(old(comfort.overallComfort).GetOr(InitialComfort), entry.reaction)))
    {
      var recent := RecentFeedbacks(SatisfactionWindow);
      var satisfaction := comfort.recentSatisfaction;
      SatisfactionOfNothing(satisfaction);
      if recent != [] {
        satisfaction := SatisfactionOr(recent, satisfaction);
      }
      assert satisfaction == SatisfactionOr(recent, old(comfort.recentSatisfaction));
      assert satisfaction.Some? ==> InUnit(satisfaction.value);
      var overall := comfort.overallComfort.GetOr(InitialComfort);
      var after := ComfortAfter(overall, entry.reaction);
      assert InUnit(after);
      comfort := Comfort(satisfaction, Some(after));
    }

    /** The log and statistics part of `record_feedback` (lines 77-104). */
    method AppendEntry(entry: FeedbackEntry, now: string)
      requires Valid()
      modifies this`log, this`stats
      ensures log == old(log) + [entry]
      ensures stats == Statistics(
        old(stats.total) + 1,
        old(stats.likes) + (if entry.reaction == Like then 1 else 0),
        old(stats.dislikes) + (if entry.reaction == Dislike then 1 else 0),
        old(stats.refreshes) + (if entry.reaction == Refresh then 1 else 0),
        now)
      ensures Valid()
    {
      assert Reactions(log + [entry]) == Reactions(log) + [entry.reaction];
      CountOfAppend(Reactions(log), entry.reaction, Like);
      CountOfAppend(Reactions(log), entry.reaction, Dislike);
      CountOfAppend(Reactions(log), entry.reaction, Refresh);
      log := log + [entry];
      var likes := stats.likes + (if entry.reaction == Like then 1 else 0);
      var dislikes := stats.dislikes + (if entry.reaction == Dislike then 1 else 0);
      var refreshes := stats.refreshes + (if entry.reaction == Refresh then 1 else 0);
      stats := Statistics(stats.total + 1, likes, dislikes, refreshes, now);
    }

    /**
     * `record_feedback` with the slot key built from `day_of_week`: logs one entry,
     * bumps the counters and applies every update of `update_user_model`. The window
     * of recent reactions already holds this entry, so the transition recorded is
     * always reaction -> reaction and the streak of this reaction always grows.
     */
    method RecordFeedback(messageId: string, contentId: string, reaction: string, info: ContentInfo,
                          id: string, now: string, hour: int, dayOfWeek: string)
      returns (entry: FeedbackEntry)
      requires Valid()
      modifies this
      ensures Valid()
      ensures entry == FeedbackEntry(id, messageId, contentId, reaction, now, info, Context(TimeOfDay(hour), dayOfWeek))
      ensures log == old(log) + [entry]
      ensures stats == Statistics(
        old(stats.total) + 1,
        old(stats.likes) + (if reaction == Like then 1 else 0),
        old(stats.dislikes) + (if reaction == Dislike then 1 else 0),
        old(stats.refreshes) + (if reaction == Refresh then 1 else 0),
        now)
      ensures weights == Reweigh(old(weights), info, reaction)
      ensures patterns.preferredTimes ==
        if reaction == Like then BumpOrdered(old(patterns.preferredTimes), SlotKey(entry.context)) else old(patterns.preferredTimes)
      ensures patterns.reactionPatterns == Bump(old(patterns.reactionPatterns), reaction)
      ensures patterns.transitions == Bump(old(patterns.transitions), TransitionKey(reaction, reaction))
      ensures patterns.streaks == Some(Bump(old(patterns.streaks).GetOr(map[]), reaction))
      ensures comfort.overallComfort == Some(ComfortAfter(old(comfort.overallComfort).GetOr(InitialComfort), reaction))
      ensures comfort.recentSatisfaction == SatisfactionOr(RecentFeedbacks(SatisfactionWindow), old(comfort.recentSatisfaction))
    {
      entry := FeedbackEntry(id, messageId, contentId, reaction, now, info, Context(TimeOfDay(hour), dayOfWeek));
      AppendEntry(entry, now);
      UpdatePreferenceWeights(info, reaction);
      UpdateAfterAppend(entry);
    }

    /** The pattern and comfort updates of `record_feedback`, once the entry is the newest in the log. */
    method UpdateAfterAppend(entry: FeedbackEntry)
      requires Valid() && log != [] && Last(log) == entry
      modifies this`patterns, this`comfort
      ensures Valid()
      ensures patterns.preferredTimes == if entry.reaction == Like
        then BumpOrdered(old(patterns.preferredTimes), SlotKey(entry.context))
        else old(patterns.preferredTimes)
      ensures patterns.reactionPatterns == Bump(old(patterns.reactionPatterns), entry.reaction)
      ensures patterns.transitions == Bump(old(patterns.transitions), TransitionKey(entry.reaction, entry.reaction))
      ensures patterns.streaks == Some(Bump(old(patterns.streaks).GetOr(map[]), entry.reaction))
      ensures comfort.overallComfort == Some(ComfortAfter(old(comfort.overallComfort).GetOr(InitialComfort), entry.reaction))
      ensures comfort.recentSatisfaction == SatisfactionOr(RecentFeedbacks(SatisfactionWindow), old(comfort.recentSatisfaction))
    {
      var ok := UpdateBehaviorPatterns(entry);
      UpdateComfortLevels(entry);
    }

    /**
     * `record_feedback` as written: line 225 names `day_of_day`, which is undefined, so the
     * call raises NameError after the weight updates, before the pattern and comfort
     * updates and before anything is saved. `raised` is always true.
     */
    method RecordFeedbackAsWritten(messageId: string, contentId: string, reaction: string, info: ContentInfo,
                                   id: string, now: string, hour: int, dayOfWeek: string)
      returns (raised: bool)
      requires Valid()
      modifies this
      ensures Valid()
      ensures raised
      ensures log == old(log) + [FeedbackEntry(id, messageId, contentId, reaction, now, info, Context(TimeOfDay(hour), dayOfWeek))]
      ensures stats.total == old(stats.total) + 1
      ensures weights == Reweigh(old(weights), info, reaction)
      ensures patterns == old(patterns) && comfort == old(comfort)
    {
      var entry := FeedbackEntry(id, messageId, contentId, reaction, now, info, Context(TimeOfDay(hour), dayOfWeek));
      AppendEntry(entry, now);
      UpdatePreferenceWeights(info, reaction);
      raised := true;
    }
  }

  /** The counters never exceed the total: other reaction strings are counted only in `total`. */
  lemma CountersWithinTotal(log: seq<FeedbackEntry>, stats: Statistics)
    requires |log| == stats.total
    requires stats.likes == CountOf(Reactions(log), Like)
    requires stats.dislikes == CountOf(Reactions(log), Dislike)
    requires stats.refreshes == CountOf(Reactions(log), Refresh)
    ensures stats.likes + stats.dislikes + stats.refreshes <= stats.total
  {
    CountsBounded(Reactions(log), Like, Dislike, Refresh);
  }

  /** The reaction of a window's last entry is counted in it. */
  lemma LastReactionCounted(w: seq<FeedbackEntry>)
    requires w != []
    ensures CountOf(Reactions(w), w[|w| - 1].reaction) > 0
  {
    var rs := Reactions(w);
    assert rs[|rs| - 1] == w[|w| - 1].reaction;
  }

  /**
   * The satisfaction window ends with the newest entry, so after a like, dislike or refresh
   * `recent_satisfaction` always has a value, whatever it held before.
   */
  lemma NewestReactionSets(log: seq<FeedbackEntry>, previous: Option<real>)
    requires log != [] && Counted(log[|log| - 1].reaction)
    ensures SatisfactionOr(PySuffix(log, SatisfactionWindow), previous).Some?
  {
    var w := PySuffix(log, SatisfactionWindow);
    assert w[|w| - 1] == log[|log| - 1];
    LastReactionCounted(w);
  }

  /**
   * With line 225 as written, a first "like" leaves `overall_comfort` unset; with
   * `day_of_week` it becomes 0.72.
   */
  method DayOfDayCounterexample() returns (asWritten: Option<real>, intended: Option<real>)
    ensures asWritten == None
    ensures intended == Some(0.72)
  {
    var info := ContentInfo(None, None, None);
    var a := new FeedbackSystem("u", "t0");
    var raised := a.RecordFeedbackAsWritten("m", "c", Like, info, "fb", "t1", 9, "Monday");
    asWritten := a.comfort.overallComfort;
    var b := new FeedbackSystem("u", "t0");
    var entry := b.RecordFeedback("m", "c", Like, info, "fb", "t1", 9, "Monday");
    intended := b.comfort.overallComfort;
  }
}
