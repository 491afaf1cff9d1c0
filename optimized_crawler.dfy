/**
 * Deduplication, translation and sentence-bounded summaries of src/optimized_news_crawler.py.
 */
module OptimizedCrawler {
  import opened Text
  import opened Lists

  const KeyContentLength := 500
  const TranslateLength := 300

  /** The text `is_duplicate` hashes: the title, a bar, and the first 500 characters of the content. */
  function DedupKey(title: string, content: string): string {
    title + "|" + PyPrefix(content, KeyContentLength)
  }

  /** Articles agreeing on the title and on the first 500 characters of content share a key, whatever follows. */
  lemma SharedPrefixSameKey(title: string, content: string, rest1: string, rest2: string)
    requires |content| >= KeyContentLength
    ensures DedupKey(title, content + rest1) == DedupKey(title, content + rest2)
  {
    assert (content + rest1)[..KeyContentLength] == content[..KeyContentLength];
    assert (content + rest2)[..KeyContentLength] == content[..KeyContentLength];
  }

  /** `translate_simple`: a tagged copy, cut to 300 characters plus "..." when longer. */
  function TranslateSimple(text: string): (r: string)
    ensures |text| <= TranslateLength ==> r == "[翻译] " + text
    ensures |text| > TranslateLength ==> r == "[翻译] " + text[..TranslateLength] + "..."
    ensures |r| <= |"[翻译] "| + TranslateLength + 3
  {
    if |text| > TranslateLength then "[翻译] " + PyPrefix(text, TranslateLength) + "..." else "[翻译] " + text
  }

  // ---------------------------------------------------------------------------
  // Sentence-bounded summary

  /** The characters of `[.!?。！？]`. */
  predicate IsTerminator(c: char) {
    c == '.' || c == '!' || c == '?' || c == '。' || c == '！' || c == '？'
  }

  predicate StartsWithTerminator(s: string) {
    s != [] && IsTerminator(s[0])
  }

  /** `re.split(r'[.!?。！？]+', s)`: the pieces between maximal runs of terminators. */
  function SplitSentences(s: string): (r: seq<string>)
    ensures |r| >= 1
    ensures forall k, i :: 0 <= k < |r| && 0 <= i < |r[k]| ==> !IsTerminator(r[k][i])
    ensures forall k :: 0 <= k < |r| ==> |r[k]| <= |s|
  {
    if s == [] then [""]
    else
      var rest := SplitSentences(s[1..]);
      if IsTerminator(s[0]) then
        (if StartsWithTerminator(s[1..]) then rest else [""] + rest)
      else
        var head := [s[0]] + rest[0];
        assert forall i :: 0 < i < |head| ==> head[i] == rest[0][i - 1];
        [head] + rest[1..]
  }

  /**
   * The accumulation loop of `generate_detailed_summary` from `summary`: each next sentence is
   * appended with "。" while the lengths together stay below `maxLength`; the first that does not fit ends it.
   */
  function Accumulate(summary: string, sentences: seq<string>, maxLength: int): (r: string)
    ensures summary <= r
    ensures r == summary || |r| <= maxLength
    ensures r != summary ==> r[|r| - 1] == '。'
    decreases |sentences|
  {
    if sentences == [] then summary
    else if |summary| + |sentences[0]| < maxLength then Accumulate(summary + sentences[0] + "。", sentences[1..], maxLength)
    else summary
  }

  /** `generate_detailed_summary` */
  function DetailedSummary(content: string, maxLength: int): string {
    if |content| <= maxLength then content
    else
      var summary := Accumulate("", SplitSentences(content), maxLength);
      if summary != "" then Strip(summary) + "..." else PyPrefix(content, maxLength) + "..."
  }

  /** Short content is returned unchanged; longer content is cut to at most `maxLength` characters plus "...". */
  lemma DetailedSummaryBounds(content: string, maxLength: int)
    ensures |content| <= maxLength ==> DetailedSummary(content, maxLength) == content
    ensures |content| > maxLength ==>
      var r := DetailedSummary(content, maxLength);
      |r| >= 3 && r[|r| - 3..] == "..."
    ensures |content| > maxLength >= 0 ==> |DetailedSummary(content, maxLength)| <= maxLength + 3
  {
  }

  /** `generate_detailed_summary`, with the loop over the sentences and its early exit. */
  method GenerateDetailedSummary(content: string, maxLength: int) returns (r: string)
    ensures r == DetailedSummary(content, maxLength)
  {
    if |content| <= maxLength {
      return content;
    }
    var sentences := SplitSentences(content);
    var summary := "";
    var i := 0;
    while i < |sentences|
      invariant 0 <= i <= |sentences|
      invariant Accumulate(summary, sentences[i..], maxLength) == Accumulate("", sentences, maxLength)
    {
      if |summary| + |sentences[i]| < maxLength {
        assert sentences[i..][1..] == sentences[i + 1..];
        summary := summary + sentences[i] + "。";
      } else {
        break;
      }
      i := i + 1;
    }
    if summary != "" {
      r := Strip(summary) + "...";
    } else {
      r := PyPrefix(content, maxLength) + "...";
    }
  }

  // ---------------------------------------------------------------------------
  // Deduplication

  class OptimizedNewsCrawler {
    const md5: string -> string
    var seenHashes: set<string>

    constructor (md5: string -> string)
      ensures this.md5 == md5 && seenHashes == {}
    {
      this.md5 := md5;
      seenHashes := {};
    }

    /** `is_duplicate`: a key seen before is a duplicate; a new key is registered. */
    method IsDuplicate(title: string, content: string) returns (duplicate: bool)
      modifies this`seenHashes
      ensures duplicate <==> md5(DedupKey(title, content)) in old(seenHashes)
      ensures seenHashes == old(seenHashes) + {md5(DedupKey(title, content))}
    {
      var hash := md5(title + "|" + PyPrefix(content, KeyContentLength));
      if hash in seenHashes {
        return true;
      }
      seenHashes := seenHashes + {hash};
      return false;
    }
  }
}
