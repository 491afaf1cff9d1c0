/**
 * What the crawlers share: articles with their translation flags, the 70/30
 * foreign/Chinese quota mix, language marking, and the choice of the newest
 * fresh cache file.
 */
module Mixing {
  import opened Wrappers
  import opened Text
  import opened Lists
  import opened Numbers

  /** A crawled article; the two flags are absent until a mixer sets them. */
  datatype Article = Article(
    title: string,
    content: string,
    source: string,
    url: string,
    language: string,
    needsTranslation: Option<bool>,
    originalLanguage: Option<string>)

  /** The two halves of a crawl, `{"foreign": …, "chinese": …}`. */
  datatype Sources = Sources(foreign: seq<Article>, chinese: seq<Article>)

  // ---------------------------------------------------------------------------
  // Language marking

  function Marked(a: Article, needs: bool, lang: string): (r: Article)
    ensures r.needsTranslation == Some(needs) && r.originalLanguage == Some(lang)
    ensures r.(needsTranslation := a.needsTranslation, originalLanguage := a.originalLanguage) == a
  {
    a.(needsTranslation := Some(needs), originalLanguage := Some(lang))
  }

  /** Every article flagged with `needs` and `lang`, everything else kept. */
  function MarkAll(s: seq<Article>, needs: bool, lang: string): (r: seq<Article>)
    ensures |r| == |s|
    ensures forall k :: 0 <= k < |s| ==> r[k] == Marked(s[k], needs, lang)
  {
    seq(|s|, k requires 0 <= k < |s| => Marked(s[k], needs, lang))
  }

  /** The marking loops of the mixers, which set both flags on each article. */
  method MarkLanguage(items: seq<Article>, needs: bool, lang: string) returns (r: seq<Article>)
    ensures r == MarkAll(items, needs, lang)
  {
    r := [];
    var i := 0;
    while i < |items|
      invariant 0 <= i <= |items|
      invariant |r| == i
      invariant forall k :: 0 <= k < i ==> r[k] == Marked(items[k], needs, lang)
    {
      r := r + [Marked(items[i], needs, lang)];
      i := i + 1;
    }
  }

  // ---------------------------------------------------------------------------
  // Quota mix

  /** `int(total * 0.7)` */
  function ForeignTarget(total: nat): (t: nat)
    ensures t <= total
    ensures 10 * t <= 7 * total < 10 * t + 10
  {
    (total * 7) / 10
  }

  /**
   * `foreign[:min(target, len(foreign))] + chinese[:min(total - target, len(chinese))]`: a
   * prefix of the foreign articles within the 70% target followed by a prefix of the Chinese
   * ones within the rest; a short side is not made up from the other.
   */
  function QuotaMix(foreign: seq<Article>, chinese: seq<Article>, total: nat): (r: seq<Article>)
    ensures |r| <= total
    ensures |r| == MinNat(ForeignTarget(total), |foreign|) + MinNat(total - ForeignTarget(total), |chinese|)
    ensures r[..MinNat(ForeignTarget(total), |foreign|)] == foreign[..MinNat(ForeignTarget(total), |foreign|)]
    ensures r[MinNat(ForeignTarget(total), |foreign|)..] == chinese[..MinNat(total - ForeignTarget(total), |chinese|)]
  {
    var ft := ForeignTarget(total);
    var picked := PyPrefix(foreign, ft);
    assert |picked| == MinNat(ft, |foreign|);
    assert (picked + PyPrefix(chinese, total - ft))[..|picked|] == picked;
    picked + PyPrefix(chinese, total - ft)
  }

  /** Enough articles on both sides fill the total exactly, 70% of it (rounded down) foreign. */
  lemma QuotaMixFull(foreign: seq<Article>, chinese: seq<Article>, total: nat)
    requires ForeignTarget(total) <= |foreign| && total - ForeignTarget(total) <= |chinese|
    ensures |QuotaMix(foreign, chinese, total)| == total
    ensures QuotaMix(foreign, chinese, total)[..ForeignTarget(total)] == foreign[..ForeignTarget(total)]
  {
  }

  /** A short foreign side leaves the result short: the Chinese share never grows to cover it. */
  lemma {:induction false} NoRebalancing(foreign: seq<Article>, chinese: seq<Article>, total: nat)
    requires |foreign| < ForeignTarget(total)
    ensures |QuotaMix(foreign, chinese, total)| < total
  {
    var r := QuotaMix(foreign, chinese, total);
    assert |r| == |foreign| + MinNat(total - ForeignTarget(total), |chinese|);
  }

  /**
   * The quota mix with the foreign part flagged for translation from "en" and the Chinese part
   * flagged as "zh" needing none.
   */
  function MarkedMix(foreign: seq<Article>, chinese: seq<Article>, total: nat): (r: seq<Article>)
    ensures |r| == MinNat(ForeignTarget(total), |foreign|) + MinNat(total - ForeignTarget(total), |chinese|) <= total
    ensures forall k :: 0 <= k < |r| && k < MinNat(ForeignTarget(total), |foreign|) ==> r[k] == Marked(foreign[k], true, "en")
    ensures forall k :: MinNat(ForeignTarget(total), |foreign|) <= k < |r| ==>
      r[k] == Marked(chinese[k - MinNat(ForeignTarget(total), |foreign|)], false, "zh")
  {
    var ft := ForeignTarget(total);
    var a := MinNat(ft, |foreign|);
    var f, c := MarkAll(PyPrefix(foreign, ft), true, "en"), MarkAll(PyPrefix(chinese, total - ft), false, "zh");
    assert |f| == a && |c| == MinNat(total - ft, |chinese|);
    f + c
  }

  /** Mixing halves that were marked beforehand gives the marked mix of the unmarked halves. */
  lemma {:induction false} MixOfMarked(foreign: seq<Article>, chinese: seq<Article>, total: nat)
    ensures QuotaMix(MarkAll(foreign, true, "en"), MarkAll(chinese, false, "zh"), total) == MarkedMix(foreign, chinese, total)
  {
    var f, c := MarkAll(foreign, true, "en"), MarkAll(chinese, false, "zh");
    var r, m := QuotaMix(f, c, total), MarkedMix(foreign, chinese, total);
    var a := MinNat(ForeignTarget(total), |foreign|);
    assert |r| == |m|;
    forall k | 0 <= k < |r| ensures r[k] == m[k] {
      if k < a {
        assert r[k] == r[..a][k] == f[k];
      } else {
        assert r[k] == r[a..][k - a] == c[k - a];
      }
    }
  }

  /** The selection and marking steps of `get_content_for_recommendation` for a given total. */
  method MixAndMark(foreign: seq<Article>, chinese: seq<Article>, total: nat) returns (r: seq<Article>)
    ensures r == MarkedMix(foreign, chinese, total)
  {
    var foreignTarget := ForeignTarget(total);
    var chineseTarget := total - foreignTarget;
    var selectedForeign := PyPrefix(foreign, MinNat(foreignTarget, |foreign|));
    var selectedChinese := PyPrefix(chinese, MinNat(chineseTarget, |chinese|));
    assert selectedForeign == PyPrefix(foreign, foreignTarget);
    assert selectedChinese == PyPrefix(chinese, chineseTarget);
    selectedForeign := MarkLanguage(selectedForeign, true, "en");
    selectedChinese := MarkLanguage(selectedChinese, false, "zh");
    r := selectedForeign + selectedChinese;
  }

  /** The articles whose language is `lang`, in order (`[a for a in s if a["language"] == lang]`). */
  function WithLanguage(s: seq<Article>, lang: string): (r: seq<Article>)
    ensures |r| <= |s|
    ensures forall k :: 0 <= k < |r| ==> r[k].language == lang && r[k] in s
  {
    if s == [] then []
    else
      var init := s[..|s| - 1];
      var prev := WithLanguage(init, lang);
      assert forall x :: x in init ==> x in s;
      if Last(s).language == lang then prev + [Last(s)] else prev
  }

  /** Every article of `s` in `lang` is kept. */
  lemma {:induction false} WithLanguageKeeps(s: seq<Article>, lang: string, a: Article)
    requires a in s && a.language == lang
    ensures a in WithLanguage(s, lang)
  {
    var init := s[..|s| - 1];
    if a != Last(s) {
      assert a in init by {
        var k :| 0 <= k < |s| && s[k] == a;
        assert k < |s| - 1;
        assert init[k] == a;
      }
      WithLanguageKeeps(init, lang, a);
    }
  }

  /** The articles whose translation flag is set to `needs`, in order. */
  function WithFlag(s: seq<Article>, needs: bool): (r: seq<Article>)
    ensures |r| <= |s|
    ensures forall k :: 0 <= k < |r| ==> r[k].needsTranslation == Some(needs)
  {
    if s == [] then []
    else
      var prev := WithFlag(s[..|s| - 1], needs);
      if Last(s).needsTranslation == Some(needs) then prev + [Last(s)] else prev
  }

  /** Filtering a list by the flag it was marked with returns the whole list; the other flag gives nothing. */
  lemma {:induction false} WithFlagOfMarked(s: seq<Article>, needs: bool, lang: string)
    ensures WithFlag(MarkAll(s, needs, lang), needs) == MarkAll(s, needs, lang)
    ensures WithFlag(MarkAll(s, needs, lang), !needs) == []
  {
    if s != [] {
      var init := s[..|s| - 1];
      WithFlagOfMarked(init, needs, lang);
      assert MarkAll(s, needs, lang)[..|s| - 1] == MarkAll(init, needs, lang);
      assert MarkAll(s, needs, lang) == MarkAll(init, needs, lang) + [Marked(Last(s), needs, lang)];
    }
  }

  lemma {:induction false} WithFlagAppend(a: seq<Article>, b: seq<Article>, needs: bool)
    ensures WithFlag(a + b, needs) == WithFlag(a, needs) + WithFlag(b, needs)
    decreases |b|
  {
    if b == [] {
      assert a + b == a;
    } else {
      var binit := b[..|b| - 1];
      assert (a + b)[..|a + b| - 1] == a + binit;
      assert Last(a + b) == Last(b);
      WithFlagAppend(a, binit, needs);
    }
  }

  // ---------------------------------------------------------------------------
  // Cache-file choice in `load_from_cache`

  /**
   * A cache file as `os.listdir` and `os.path.getmtime` see it, times in hours, with the
   * `"items"` it holds (`None` when it cannot be read as such).
   */
  datatype CacheFile = CacheFile(name: string, mtime: real, data: Option<Sources>)

  /** `filename.startswith(prefix) and filename.endswith('.json')` */
  predicate CacheName(name: string, prefix: string) {
    StartsWith(name, prefix) && EndsWith(name, ".json")
  }

  predicate Fresh(f: CacheFile, prefix: string, cutoff: real) {
    CacheName(f.name, prefix) && f.mtime >= cutoff
  }

  /**
   * The index of the newest matching file no older than `cutoff`, the first listed among
   * equally new ones, or `None` when no file qualifies.
   */
  function Newest(files: seq<CacheFile>, prefix: string, cutoff: real): (r: Option<nat>)
    ensures r.None? <==> forall j :: 0 <= j < |files| ==> !Fresh(files[j], prefix, cutoff)
    ensures r.Some? ==> r.value < |files| && Fresh(files[r.value], prefix, cutoff)
    ensures r.Some? ==> forall j :: 0 <= j < |files| && Fresh(files[j], prefix, cutoff) ==> files[j].mtime <= files[r.value].mtime
  {
    if files == [] then None
    else
      var init := files[..|files| - 1];
      assert forall j :: 0 <= j < |init| ==> init[j] == files[j];
      var prev := Newest(init, prefix, cutoff);
      if Fresh(Last(files), prefix, cutoff) && (prev.None? || Last(files).mtime > files[prev.value].mtime)
      then Some(|files| - 1)
      else prev
  }

  /** Among equally new files the first listed wins: every fresh file before the choice is strictly older. */
  lemma {:induction false} NewestIsFirst(files: seq<CacheFile>, prefix: string, cutoff: real)
    ensures var r := Newest(files, prefix, cutoff);
      r.Some? ==> forall j :: 0 <= j < r.value && Fresh(files[j], prefix, cutoff) ==> files[j].mtime < files[r.value].mtime
  {
    if files != [] {
      var init := files[..|files| - 1];
      NewestIsFirst(init, prefix, cutoff);
      var prev := Newest(init, prefix, cutoff);
      var r := Newest(files, prefix, cutoff);
      if r.Some? && r == prev {
        forall j | 0 <= j < r.value && Fresh(files[j], prefix, cutoff) ensures files[j].mtime < files[r.value].mtime {
          assert init[j] == files[j] && init[r.value] == files[r.value];
        }
      } else if r.Some? {
        forall j | 0 <= j < r.value && Fresh(files[j], prefix, cutoff) ensures files[j].mtime < files[r.value].mtime {
          assert init[j] == files[j];
        }
      }
    }
  }

  /** Looking at one more file either picks it or keeps the earlier choice. */
  lemma NewestExtends(files: seq<CacheFile>, prefix: string, cutoff: real, i: nat)
    requires i < |files|
    ensures var prev := Newest(files[..i], prefix, cutoff);
      Newest(files[..i + 1], prefix, cutoff) ==
        if Fresh(files[i], prefix, cutoff) && (prev.None? || files[i].mtime > files[prev.value].mtime)
        then Some(i) else prev
  {
    assert files[..i + 1][..i] == files[..i];
    assert Last(files[..i + 1]) == files[i];
  }

  /** The scan of `load_from_cache`, tracking the latest time and file seen so far. */
  method LatestCache(files: seq<CacheFile>, prefix: string, now: real, hours: real) returns (latest: Option<nat>)
    ensures latest == Newest(files, prefix, now - hours)
  {
    var cutoff := now - hours;
    latest := None;
    var latestTime: real := 0.0;
    var i := 0;
    while i < |files|
      invariant 0 <= i <= |files|
      invariant latest == Newest(files[..i], prefix, cutoff)
      invariant latest.Some? ==> latest.value < i && latestTime == files[latest.value].mtime
    {
      NewestExtends(files, prefix, cutoff, i);
      var f := files[i];
      if CacheName(f.name, prefix) && f.mtime >= cutoff {
        if latest.None? || f.mtime > latestTime {
          latestTime := f.mtime;
          latest := Some(i);
        }
      }
      assert latest == Newest(files[..i + 1], prefix, cutoff);
      i := i + 1;
    }
    assert files[..i] == files;
  }
}
