/**
 * Record shaping in src/main_workflow.py: content-type inference, the mapping of crawled items
 * to standard records, and the fallback briefing text.
 */
module Workflow {
  import opened Wrappers
  import opened Text
  import opened Lists

  // ---------------------------------------------------------------------------
  // Content type

  datatype ContentType = Tech | Politics | Economy | Social | General {
    function Name(): string {
      match this
      case Tech => "tech"
      case Politics => "politics"
      case Economy => "economy"
      case Social => "social"
      case General => "general"
    }
  }

  const TechKeywords: seq<string> := ["tech", "ai", "5g", "quantum", "space", "航天", "科技", "人工智能", "量子", "computer", "software"]
  const PoliticsKeywords: seq<string> := ["politics", "外交", "政策", "government", "习近平", "中国", "china", "political", "election"]
  const EconomyKeywords: seq<string> := ["economy", "经济", "金融", "market", "trade", "贸易", "stock", "bank", "finance"]
  const SocialKeywords: seq<string> := ["social", "微博", "知乎", "weibo", "zhihu", "trending", "hot"]

  /** A social-platform source: its lowercased name mentions 微博 or 知乎. */
  predicate SocialSource(source: string) {
    Contains(Lower(source), "微博") || Contains(Lower(source), "知乎")
  }

  /**
   * `_infer_content_type`: the first class, in the order tech, politics, economy, social, whose
   * keywords occur in the lowercased title; a social-platform source also makes it social.
   */
  function InferContentType(title: string, source: string): (r: ContentType)
    ensures r == Tech <==> AnyIn(Lower(title), TechKeywords)
    ensures r == Politics <==> !AnyIn(Lower(title), TechKeywords) && AnyIn(Lower(title), PoliticsKeywords)
    ensures r == Economy <==>
      !AnyIn(Lower(title), TechKeywords) && !AnyIn(Lower(title), PoliticsKeywords) && AnyIn(Lower(title), EconomyKeywords)
    ensures r == Social <==>
      !AnyIn(Lower(title), TechKeywords) && !AnyIn(Lower(title), PoliticsKeywords) && !AnyIn(Lower(title), EconomyKeywords)
      && (AnyIn(Lower(title), SocialKeywords) || SocialSource(source))
  {
    var t := Lower(title);
    if FirstContained(t, TechKeywords).Some? then Tech
    else if FirstContained(t, PoliticsKeywords).Some? then Politics
    else if FirstContained(t, EconomyKeywords).Some? then Economy
    else if FirstContained(t, SocialKeywords).Some? || SocialSource(source) then Social
    else General
  }

  /** A social-platform source with no keyword of an earlier class in the title is social, whatever the title says otherwise. */
  lemma SocialSourceWins(title: string, source: string)
    requires SocialSource(source)
    requires !AnyIn(Lower(title), TechKeywords) && !AnyIn(Lower(title), PoliticsKeywords) && !AnyIn(Lower(title), EconomyKeywords)
    ensures InferContentType(title, source) == Social
  {
  }

  // ---------------------------------------------------------------------------
  // Record identifiers: `f"{workflow_type}_{i:03d}"`

  function DigitChar(d: nat): (c: char)
    requires d < 10
  {
    "0123456789"[d]
  }

  function DigitValue(c: char): nat {
    if '0' <= c <= '9' then (c as int - '0' as int) else 0
  }

  /** The decimal digits of `n`, without leading zeros. */
  function Decimal(n: nat): (r: string)
    ensures |r| >= 1
    ensures n < 10 ==> |r| == 1
    ensures n < 100 ==> |r| <= 2
    ensures n < 1000 ==> |r| <= 3
    ensures forall k :: 0 <= k < |r| ==> '0' <= r[k] <= '9'
  {
    if n < 10 then [DigitChar(n)] else Decimal(n / 10) + [DigitChar(n % 10)]
  }

  /** `{n:03d}`: the decimal digits left-padded with zeros to at least three characters. */
  function Pad3(n: nat): (r: string)
    ensures |r| >= 3
    ensures n < 1000 ==> |r| == 3
    ensures forall k :: 0 <= k < |r| ==> '0' <= r[k] <= '9'
  {
    var d := Decimal(n);
    if |d| < 3 then seq(3 - |d|, _ => '0') + d else d
  }

  /** Horner's rule from the left, starting at `acc`. */
  function ParseDecimal(acc: nat, s: string): nat
    decreases |s|
  {
    if s == [] then acc else ParseDecimal(acc * 10 + DigitValue(s[0]), s[1..])
  }

  lemma {:induction false} ParseAppend(acc: nat, a: string, b: string)
    ensures ParseDecimal(acc, a + b) == ParseDecimal(ParseDecimal(acc, a), b)
    decreases |a|
  {
    if a == [] {
      assert a + b == b;
    } else {
      assert (a + b)[0] == a[0] && (a + b)[1..] == a[1..] + b;
      ParseAppend(acc * 10 + DigitValue(a[0]), a[1..], b);
    }
  }

  lemma {:induction false} ParseDecimalRoundTrip(n: nat)
    ensures ParseDecimal(0, Decimal(n)) == n
  {
    var c := DigitChar(n % 10);
    DigitRoundTrip(n % 10);
    if n >= 10 {
      ParseDecimalRoundTrip(n / 10);
      ParseAppend(0, Decimal(n / 10), [c]);
      assert [c][1..] == [];
      assert ParseDecimal(n / 10, [c]) == (n / 10) * 10 + n % 10;
    } else {
      assert [c][1..] == [];
    }
  }

  lemma DigitRoundTrip(d: nat)
    requires d < 10
    ensures DigitValue(DigitChar(d)) == d
  {
    assert "0123456789"[d] as int == '0' as int + d;
  }

  lemma {:induction false} LeadingZeros(k: nat, s: string)
    ensures ParseDecimal(0, seq(k, _ => '0') + s) == ParseDecimal(0, s)
  {
    if k == 0 {
      assert seq(k, _ => '0') + s == s;
    } else {
      var z := seq(k, _ => '0');
      assert (z + s)[0] == '0' && DigitValue('0') == 0;
      assert (z + s)[1..] == seq(k - 1, _ => '0') + s;
      LeadingZeros(k - 1, s);
    }
  }

  /** Reading the padded digits back gives the index. */
  lemma Pad3RoundTrip(n: nat)
    ensures ParseDecimal(0, Pad3(n)) == n
  {
    ParseDecimalRoundTrip(n);
    var d := Decimal(n);
    if |d| < 3 {
      LeadingZeros(3 - |d|, d);
    }
  }

  function RecordId(workflowType: string, i: nat): string {
    workflowType + "_" + Pad3(i)
  }

  /** Records of one run have pairwise different identifiers. */
  lemma RecordIdsDiffer(workflowType: string, i: nat, j: nat)
    requires i != j
    ensures RecordId(workflowType, i) != RecordId(workflowType, j)
  {
    var p := |workflowType| + 1;
    if RecordId(workflowType, i) == RecordId(workflowType, j) {
      assert RecordId(workflowType, i)[p..] == Pad3(i);
      assert RecordId(workflowType, j)[p..] == Pad3(j);
      Pad3RoundTrip(i);
      Pad3RoundTrip(j);
    }
  }

  // ---------------------------------------------------------------------------
  // Record mapping

  /** A crawled item; `None` is a missing key. */
  datatype RawItem = RawItem(
    title: Option<string>,
    summary: Option<string>,
    source: Option<string>,
    link: Option<string>,
    published: Option<string>,
    needsTranslation: Option<bool>,
    originalLanguage: Option<string>)

  /** A standard record; `raw` keeps the crawled item. */
  datatype Record = Record(
    id: string,
    title: string,
    content: string,
    source: string,
    url: string,
    publishTime: string,
    kind: ContentType,
    needsTranslation: bool,
    originalLanguage: string,
    raw: RawItem)

  /** The record for raw item `i`; `now` is the clock as text. */
  function ToRecord(workflowType: string, i: nat, item: RawItem, now: string): (r: Record)
    ensures r.id == RecordId(workflowType, i)
    ensures r.content == item.summary.GetOr(item.title.GetOr(""))
    ensures r.needsTranslation == item.needsTranslation.GetOr(false)
    ensures r.kind == InferContentType(item.title.GetOr(""), item.source.GetOr(""))
    ensures r.raw == item
  {
    Record(RecordId(workflowType, i), item.title.GetOr("无标题"), item.summary.GetOr(item.title.GetOr("")),
           item.source.GetOr("未知来源"), item.link.GetOr(""), item.published.GetOr(now),
           InferContentType(item.title.GetOr(""), item.source.GetOr("")),
           item.needsTranslation.GetOr(false), item.originalLanguage.GetOr("en"), item)
  }

  /** The records of `collect_sample_data`: record `k` is the mapping of raw item `k`. */
  function ToRecords(workflowType: string, items: seq<RawItem>, now: string): (r: seq<Record>)
    ensures |r| == |items|
    ensures forall k :: 0 <= k < |items| ==> r[k] == ToRecord(workflowType, k, items[k], now)
  {
    MapWithIndex((k: nat, item: RawItem) => ToRecord(workflowType, k, item, now), items)
  }

  /** The records of a run carry pairwise different identifiers. */
  lemma RecordsHaveDistinctIds(workflowType: string, items: seq<RawItem>, now: string)
    ensures var r := ToRecords(workflowType, items, now);
      forall k, l :: 0 <= k < l < |r| ==> r[k].id != r[l].id
  {
    var r := ToRecords(workflowType, items, now);
    forall k, l | 0 <= k < l < |r| ensures r[k].id != r[l].id {
      RecordIdsDiffer(workflowType, k, l);
    }
  }

  /**
   * `collect_sample_data`: `fetched` is what the crawler returned, `None` when it raised, in
   * which case the result is empty.
   */
  method CollectSampleData(workflowType: string, fetched: Option<seq<RawItem>>, now: string) returns (formatted: seq<Record>)
    ensures fetched.None? ==> formatted == []
    ensures fetched.Some? ==> formatted == ToRecords(workflowType, fetched.value, now)
  {
    if fetched.None? {
      return [];
    }
    var items := fetched.value;
    var toRecord := (k: nat, item: RawItem) => ToRecord(workflowType, k, item, now);
    formatted := [];
    var i := 0;
    while i < |items|
      invariant 0 <= i <= |items|
      invariant formatted == MapWithIndex(toRecord, items[..i])
    {
      assert items[..i + 1] == items[..i] + [items[i]];
      MapWithIndexAppend(toRecord, items[..i], items[i]);
      formatted := formatted + [ToRecord(workflowType, i, items[i], now)];
      i := i + 1;
    }
    assert items[..i] == items;
  }

  // ---------------------------------------------------------------------------
  // Fallback briefing

  /** A recommendation as the briefing reads it; `None` is a missing key. */
  datatype BriefItem = BriefItem(title: Option<string>, content: Option<string>, url: Option<string>, tags: seq<string>)

  const SummaryLength := 100

  /** The briefing's heading for a briefing type; any other type gets "每日简报". */
  function BriefingTitle(briefingType: string): (r: string)
    ensures briefingType == "morning" ==> r == "早安简报"
    ensures briefingType == "noon" ==> r == "午间精选"
    ensures briefingType == "evening" ==> r == "晚间回顾"
    ensures !(briefingType == "morning" || briefingType == "noon" || briefingType == "evening") ==> r == "每日简报"
  {
    var titles := map["morning" := "早安简报", "noon" := "午间精选", "evening" := "晚间回顾"];
    if briefingType in titles then titles[briefingType] else "每日简报"
  }

  /** Content of at most 100 characters is kept; longer content is cut to 100 followed by "...". */
  function BriefSummary(content: string): (r: string)
    ensures |content| <= SummaryLength ==> r == content
    ensures |content| > SummaryLength ==> r == content[..SummaryLength] + "..."
    ensures |r| <= SummaryLength + 3
  {
    if |content| > SummaryLength then PyPrefix(content, SummaryLength) + "..." else content
  }

  /** The lines of the `number`-th entry: heading, summary, a link line only for a non-empty URL, and a blank line. */
  function EntryLines(number: nat, item: BriefItem): (r: seq<string>)
    ensures |r| == if item.url.GetOr("") != "" then 4 else 3
    ensures StartsWith(r[0], Decimal(number) + ". ")
    ensures r[1] == "   📝 " + BriefSummary(item.content.GetOr(""))
    ensures item.url.GetOr("") != "" ==> r[2] == "   🔗 " + item.url.value
    ensures r[|r| - 1] == ""
  {
    var emoji := if "科技" in item.tags then "🚀" else "📊";
    var heading := Decimal(number) + ". " + emoji + " " + item.title.GetOr("无标题");
    assert heading[..|Decimal(number) + ". "|] == Decimal(number) + ". ";
    var summary := "   📝 " + BriefSummary(item.content.GetOr(""));
    var url := item.url.GetOr("");
    if url != "" then [heading, summary, "   🔗 " + url, ""] else [heading, summary, ""]
  }

  /** Lines joined with a newline after each. */
  function JoinLines(lines: seq<string>): string {
    if lines == [] then "" else JoinLines(lines[..|lines| - 1]) + Last(lines) + "\n"
  }

  /** The entries numbered 1, 2, … for `items`, one after another. */
  function Entries(items: seq<BriefItem>): string {
    if items == [] then "" else Entries(items[..|items| - 1]) + JoinLines(EntryLines(|items|, Last(items)))
  }

  /** Entry `k + 1` is the text of item `k`, preceded by the entries of the items before it. */
  lemma {:induction false} EntryInPlace(items: seq<BriefItem>, k: nat)
    requires k < |items|
    ensures Entries(items[..k + 1]) == Entries(items[..k]) + JoinLines(EntryLines(k + 1, items[k]))
    ensures Entries(items[..k + 1]) <= Entries(items)
  {
    assert items[..k + 1][..k] == items[..k];
    EntriesGrow(items, k + 1);
  }

  lemma {:induction false} EntriesGrow(items: seq<BriefItem>, n: nat)
    requires n <= |items|
    ensures Entries(items[..n]) <= Entries(items)
    decreases |items| - n
  {
    if n < |items| {
      EntriesGrow(items, n + 1);
      assert items[..n + 1][..n] == items[..n];
    } else {
      assert items[..n] == items;
    }
  }

  function BriefingHeader(briefingType: string, now: string): string {
    "【一年365赢】" + BriefingTitle(briefingType) + " 🌟\n" + "⏰ " + now + "\n" + "━━━━━━━━━━━━━━━━━━━━\n\n"
  }

  const BriefingFooter := "━━━━━━━━━━━━━━━━━━━━\n" + "📊 系统匹配度：95% | 爱国指数：★★★★★\n" + "❤️ 喜欢(1/2/3) 👎 不喜欢(1/2/3) 🔄 换一批\n"

  /** The lines written one after another, each followed by a newline. */
  method WriteLines(lines: seq<string>) returns (text: string)
    ensures text == JoinLines(lines)
  {
    text := "";
    var j := 0;
    while j < |lines|
      invariant 0 <= j <= |lines|
      invariant text == JoinLines(lines[..j])
    {
      assert lines[..j + 1][..j] == lines[..j];
      text := text + lines[j] + "\n";
      j := j + 1;
    }
    assert lines[..j] == lines;
  }

  /** `generate_fallback_briefing`, with the formatted clock as `now`. */
  method GenerateFallbackBriefing(recommendations: seq<BriefItem>, briefingType: string, now: string) returns (briefing: string)
    ensures briefing == BriefingHeader(briefingType, now) + Entries(recommendations) + BriefingFooter
  {
    var header := BriefingHeader(briefingType, now);
    var entries := "";
    var i := 0;
    while i < |recommendations|
      invariant 0 <= i <= |recommendations|
      invariant entries == Entries(recommendations[..i])
    {
      assert recommendations[..i + 1][..i] == recommendations[..i];
      var entry := WriteLines(EntryLines(i + 1, recommendations[i]));
      entries := entries + entry;
      i := i + 1;
    }
    assert recommendations[..i] == recommendations;
    briefing := header + entries + BriefingFooter;
  }
}
