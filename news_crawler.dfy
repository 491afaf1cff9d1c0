/**
 * Deduplication, translation and summaries of src/news_crawler_system.py. An article is a
 * duplicate when its URL, the hash of its normalised content, or a similar title was seen before.
 */
module NewsCrawler {
  import opened Text
  import opened Lists

  datatype Article = Article(title: string, content: string, url: string, source: string, language: string)

  /** The three seen-sets the crawler keeps. */
  datatype Seen = Seen(urls: set<string>, hashes: set<string>, titles: set<string>)

  predicate Grows(a: Seen, b: Seen) {
    a.urls <= b.urls && a.hashes <= b.hashes && a.titles <= b.titles
  }

  // ---------------------------------------------------------------------------
  // Content normalisation

  /** `\w` (ASCII letters, digits and `_`) or a CJK unified ideograph (U+4E00 to U+9FFF). */
  predicate IsWordChar(c: char) {
    ('a' <= c <= 'z') || ('A' <= c <= 'Z') || ('0' <= c <= '9') || c == '_' || ('\U{4E00}' <= c <= '\U{9FFF}')
  }

  /** `re.sub(r'\s+', '', s)` */
  function DropSpaces(s: string): (r: string)
    ensures |r| <= |s|
    ensures forall i :: 0 <= i < |r| ==> !IsSpace(r[i])
    ensures forall i :: 0 <= i < |r| ==> r[i] in s
  {
    if s == [] then []
    else (if IsSpace(s[0]) then [] else [s[0]]) + DropSpaces(s[1..])
  }

  /** `re.sub(r'[^\w一-鿿]', '', s)` */
  function KeepWords(s: string): (r: string)
    ensures |r| <= |s|
    ensures forall i :: 0 <= i < |r| ==> IsWordChar(r[i])
    ensures forall i :: 0 <= i < |r| ==> r[i] in s
  {
    if s == [] then []
    else (if IsWordChar(s[0]) then [s[0]] else []) + KeepWords(s[1..])
  }

  /** The cleaned text `calculate_content_hash` hashes: lower-cased, without whitespace or punctuation. */
  function Normalize(s: string): (r: string)
    ensures forall i :: 0 <= i < |r| ==> IsWordChar(r[i]) && LowerChar(r[i]) == r[i]
  {
    var lowered := Lower(s);
    assert forall c :: c in lowered ==> LowerChar(c) == c;
    KeepWords(DropSpaces(lowered))
  }

  /** `calculate_content_hash`, with MD5 as the uninterpreted `md5`. */
  function ContentHash(md5: string -> string, content: string): string {
    md5(Normalize(content))
  }

  lemma {:induction false} DropSpacesAppend(a: string, b: string)
    ensures DropSpaces(a + b) == DropSpaces(a) + DropSpaces(b)
  {
    if a != [] {
      assert (a + b)[1..] == a[1..] + b;
      DropSpacesAppend(a[1..], b);
    } else {
      assert a + b == b;
    }
  }

  lemma {:induction false} KeepWordsAppend(a: string, b: string)
    ensures KeepWords(a + b) == KeepWords(a) + KeepWords(b)
  {
    if a != [] {
      assert (a + b)[1..] == a[1..] + b;
      KeepWordsAppend(a[1..], b);
    } else {
      assert a + b == b;
    }
  }

  lemma LowerAppend(a: string, b: string)
    ensures Lower(a + b) == Lower(a) + Lower(b)
  {
  }

  lemma NormalizeAppend(a: string, b: string)
    ensures Normalize(a + b) == Normalize(a) + Normalize(b)
  {
    LowerAppend(a, b);
    DropSpacesAppend(Lower(a), Lower(b));
    KeepWordsAppend(DropSpaces(Lower(a)), DropSpaces(Lower(b)));
  }

  /** A single whitespace or punctuation character normalises to nothing. */
  lemma NormalizeDropsChar(c: char)
    requires !IsWordChar(LowerChar(c))
    ensures Normalize([c]) == []
  {
    var lc := LowerChar(c);
    assert Lower([c]) == [lc];
    assert [lc][1..] == [];
    assert DropSpaces([lc]) == (if IsSpace(lc) then [] else [lc]);
    assert KeepWords([lc]) == [];
  }

  /** Inserting whitespace or punctuation anywhere leaves the hash unchanged. */
  lemma HashIgnoresPunctuation(md5: string -> string, s: string, i: nat, c: char)
    requires i <= |s|
    requires !IsWordChar(LowerChar(c))
    ensures ContentHash(md5, s[..i] + [c] + s[i..]) == ContentHash(md5, s)
  {
    var a, b := s[..i], s[i..];
    assert s == a + b;
    NormalizeDropsChar(c);
    NormalizeAppend(a + [c], b);
    NormalizeAppend(a, [c]);
    NormalizeAppend(a, b);
    assert Normalize(a + [c]) == Normalize(a);
  }

  /** A string in which upper-case letters are lowered hashes as the original. */
  lemma HashIgnoresCase(md5: string -> string, s: string)
    ensures ContentHash(md5, Lower(s)) == ContentHash(md5, s)
  {
    assert Lower(Lower(s)) == Lower(s);
  }

  lemma {:induction false} KeepWordsOfWords(s: string)
    requires forall i :: 0 <= i < |s| ==> IsWordChar(s[i])
    ensures KeepWords(s) == s
  {
    if s != [] {
      KeepWordsOfWords(s[1..]);
    }
  }

  lemma {:induction false} DropSpacesOfWords(s: string)
    requires forall i :: 0 <= i < |s| ==> IsWordChar(s[i])
    ensures DropSpaces(s) == s
  {
    if s != [] {
      assert !IsSpace(s[0]);
      DropSpacesOfWords(s[1..]);
    }
  }

  /** Normalising twice is normalising once. */
  lemma NormalizeIdempotent(s: string)
    ensures Normalize(Normalize(s)) == Normalize(s)
  {
    var n := Normalize(s);
    assert Lower(n) == n;
    DropSpacesOfWords(n);
    KeepWordsOfWords(n);
  }

  // ---------------------------------------------------------------------------
  // Duplicate detection

  /** The containment test on lower-cased titles, guarded against short titles. */
  predicate TitleClash(title: string, seen: string) {
    (Contains(seen, title) || Contains(title, seen)) && |title| > 10 && |seen| > 10
  }

  /** An enabled check calls `a` a duplicate of what `seen` holds. */
  predicate DuplicateOf(seen: Seen, md5: string -> string, a: Article) {
    || a.url in seen.urls
    || ContentHash(md5, a.content) in seen.hashes
    || exists t :: t in seen.titles && TitleClash(Lower(a.title), t)
  }

  /** The seen-sets after `a` is registered. */
  function Register(seen: Seen, md5: string -> string, a: Article): (r: Seen)
    ensures Grows(seen, r)
    ensures a.url in r.urls && ContentHash(md5, a.content) in r.hashes && Lower(a.title) in r.titles
  {
    Seen(seen.urls + {a.url}, seen.hashes + {ContentHash(md5, a.content)}, seen.titles + {Lower(a.title)})
  }

  datatype Check = Check(duplicate: bool, seen: Seen)

  /** `is_duplicate`: the verdict and the seen-sets after it. Only a non-duplicate registers anything. */
  function CheckArticle(enabled: bool, seen: Seen, md5: string -> string, a: Article): (r: Check)
    ensures !enabled ==> r == Check(false, seen)
    ensures enabled ==> (r.duplicate <==> DuplicateOf(seen, md5, a))
    ensures r.duplicate ==> r.seen == seen
    ensures enabled && !r.duplicate ==> r.seen == Register(seen, md5, a)
  {
    if !enabled then Check(false, seen)
    else if DuplicateOf(seen, md5, a) then Check(true, seen)
    else Check(false, Register(seen, md5, a))
  }

  /** An article whose content normalises as a registered one's is a duplicate, whatever its URL. */
  lemma SameContentIsDuplicate(seen: Seen, md5: string -> string, a: Article, b: Article)
    requires !DuplicateOf(seen, md5, a)
    requires Normalize(b.content) == Normalize(a.content)
    ensures CheckArticle(true, CheckArticle(true, seen, md5, a).seen, md5, b).duplicate
  {
  }

  /** Two articles with long titles, one contained in the other, are never both kept. */
  lemma SimilarTitleIsDuplicate(seen: Seen, md5: string -> string, a: Article, b: Article)
    requires !DuplicateOf(seen, md5, a)
    requires TitleClash(Lower(b.title), Lower(a.title))
    ensures CheckArticle(true, CheckArticle(true, seen, md5, a).seen, md5, b).duplicate
  {
  }

  /** The dedup loop of `crawl_source`: the articles kept, their input positions, and the seen-sets after. */
  datatype Deduped = Deduped(kept: seq<Article>, picked: seq<nat>, seen: Seen)

  function Dedup(enabled: bool, seen: Seen, md5: string -> string, articles: seq<Article>): (r: Deduped)
    ensures |r.kept| == |r.picked|
    ensures forall k :: 0 <= k < |r.picked| ==> r.picked[k] < |articles| && articles[r.picked[k]] == r.kept[k]
    ensures forall k, l :: 0 <= k < l < |r.picked| ==> r.picked[k] < r.picked[l]
    ensures Grows(seen, r.seen)
  {
    if articles == [] then Deduped([], [], seen)
    else
      var prev := Dedup(enabled, seen, md5, articles[..|articles| - 1]);
      var c := CheckArticle(enabled, prev.seen, md5, Last(articles));
      if c.duplicate then prev
      else Deduped(prev.kept + [Last(articles)], prev.picked + [|articles| - 1], c.seen)
  }

  /** With deduplication disabled, every article is kept and nothing is registered. */
  lemma {:induction false} DedupDisabled(seen: Seen, md5: string -> string, articles: seq<Article>)
    ensures Dedup(false, seen, md5, articles).kept == articles
    ensures Dedup(false, seen, md5, articles).seen == seen
  {
    if articles != [] {
      var init := articles[..|articles| - 1];
      DedupDisabled(seen, md5, init);
      var prev := Dedup(false, seen, md5, init);
      assert CheckArticle(false, prev.seen, md5, Last(articles)) == Check(false, seen);
      assert Dedup(false, seen, md5, articles) == Deduped(init + [Last(articles)], prev.picked + [|init|], seen);
      assert init + [Last(articles)] == articles;
    }
  }

  /** Every kept article is in the seen-sets. */
  predicate AllRegistered(d: Deduped, md5: string -> string) {
    forall k :: 0 <= k < |d.kept| ==> d.kept[k].url in d.seen.urls && ContentHash(md5, d.kept[k].content) in d.seen.hashes
  }

  /** No two kept articles share a URL or a content hash. */
  predicate PairwiseNew(d: Deduped, md5: string -> string) {
    forall k, l :: 0 <= k < l < |d.kept| ==>
      d.kept[k].url != d.kept[l].url && ContentHash(md5, d.kept[k].content) != ContentHash(md5, d.kept[l].content)
  }

  /**
   * With deduplication enabled, every kept article is registered in the seen-sets after the
   * loop, and the kept articles have pairwise distinct URLs and content hashes.
   */
  lemma {:induction false} DedupDistinct(seen: Seen, md5: string -> string, articles: seq<Article>)
    ensures AllRegistered(Dedup(true, seen, md5, articles), md5)
    ensures PairwiseNew(Dedup(true, seen, md5, articles), md5)
  {
    if articles != [] {
      var init := articles[..|articles| - 1];
      DedupDistinct(seen, md5, init);
      var prev := Dedup(true, seen, md5, init);
      var x := Last(articles);
      var c := CheckArticle(true, prev.seen, md5, x);
      if !c.duplicate {
        var r := Dedup(true, seen, md5, articles);
        assert r.kept == prev.kept + [x] && r.seen == c.seen;
        assert Grows(prev.seen, c.seen);
        assert x.url !in prev.seen.urls && ContentHash(md5, x.content) !in prev.seen.hashes;
        forall k, l | 0 <= k < l < |r.kept|
          ensures r.kept[k].url != r.kept[l].url && ContentHash(md5, r.kept[k].content) != ContentHash(md5, r.kept[l].content)
        {
          if l == |prev.kept| {
            assert r.kept[k] == prev.kept[k] && r.kept[l] == x;
          } else {
            assert r.kept[k] == prev.kept[k] && r.kept[l] == prev.kept[l];
          }
        }
      }
    }
  }

  /** An article not kept was a duplicate of what had been seen when its turn came. */
  lemma DroppedWasDuplicate(seen: Seen, md5: string -> string, articles: seq<Article>)
    requires articles != []
    ensures var prev := Dedup(true, seen, md5, articles[..|articles| - 1]);
      |Dedup(true, seen, md5, articles).kept| == |prev.kept| <==> DuplicateOf(prev.seen, md5, Last(articles))
  {
  }

  // ---------------------------------------------------------------------------
  // Translation and summaries

  /** `translate_content`: the identity when disabled or for Chinese; otherwise a tagged 100-char excerpt. */
  function TranslateContent(enabled: bool, content: string, language: string): (r: string)
    ensures !enabled || language == "zh" ==> r == content
    ensures enabled && language != "zh" ==> r == "[翻译自" + language + "] " + PyPrefix(content, 100) + "..."
  {
    if !enabled || language == "zh" then content
    else "[翻译自" + language + "] " + PyPrefix(content, 100) + "..."
  }

  /** `generate_summary`; both of its branches compute the same text. */
  function GenerateSummary(content: string, maxLength: int): (r: string)
    ensures |content| <= maxLength ==> r == content
    ensures 0 <= maxLength < |content| ==> r == content[..maxLength] + "..." && |r| == maxLength + 3
    ensures maxLength >= 0 ==> |r| <= maxLength + 3
  {
    if |content| > maxLength then PyPrefix(content, maxLength) + "..." else PyPrefix(content, maxLength)
  }

  class NewsCrawlerSystem {
    const dedupEnabled: bool
    const md5: string -> string
    var seen: Seen

    constructor (dedupEnabled: bool, md5: string -> string)
      ensures this.dedupEnabled == dedupEnabled && this.md5 == md5
      ensures seen == Seen({}, {}, {})
    {
      this.dedupEnabled := dedupEnabled;
      this.md5 := md5;
      seen := Seen({}, {}, {});
    }

    /** `is_duplicate`, with its loop over the seen titles. */
    method IsDuplicate(a: Article) returns (duplicate: bool)
      modifies this`seen
      ensures CheckArticle(dedupEnabled, old(seen), md5, a) == Check(duplicate, seen)
    {
      if !dedupEnabled {
        return false;
      }
      if a.url in seen.urls {
        return true;
      }
      var hash := ContentHash(md5, a.content);
      if hash in seen.hashes {
        return true;
      }
      var title := Lower(a.title);
      var rest := seen.titles;
      while rest != {}
        invariant rest <= seen.titles
        invariant forall t :: t in seen.titles && t !in rest ==> !TitleClash(title, t)
        decreases |rest|
      {
        var t :| t in rest;
        if (Contains(t, title) || Contains(title, t)) && |title| > 10 && |t| > 10 {
          return true;
        }
        rest := rest - {t};
      }
      seen := Seen(seen.urls + {a.url}, seen.hashes + {hash}, seen.titles + {title});
      return false;
    }

    /** The dedup loop of `crawl_source` over the fetched articles. */
    method CrawlSource(articles: seq<Article>) returns (unique: seq<Article>)
      modifies this`seen
      ensures var d := Dedup(dedupEnabled, old(seen), md5, articles);
        unique == d.kept && seen == d.seen
    {
      unique := [];
      ghost var picked: seq<nat> := [];
      var i := 0;
      while i < |articles|
        invariant 0 <= i <= |articles|
        invariant Deduped(unique, picked, seen) == Dedup(dedupEnabled, old(seen), md5, articles[..i])
      {
        assert articles[..i + 1][..i] == articles[..i];
        assert Last(articles[..i + 1]) == articles[i];
        var duplicate := IsDuplicate(articles[i]);
        if !duplicate {
          unique := unique + [articles[i]];
          picked := picked + [i];
        }
        i := i + 1;
      }
      assert articles[..i] == articles;
    }
  }
}
