/**
 * String helpers with Python's meaning: `in` on strings, `lower()`, `strip()`,
 * `startswith`/`endswith` and `str.replace(old, new, 1)`. Strings are sequences of
 * characters; case and whitespace follow the ASCII subset (see README).
 */
module Text {
  import opened Wrappers

  /** `s.startswith(p)` */
  predicate StartsWith(s: string, p: string) {
    |p| <= |s| && s[..|p|] == p
  }

  /** `s.endswith(p)` */
  predicate EndsWith(s: string, p: string) {
    |p| <= |s| && s[|s| - |p|..] == p
  }

  /** `needle in hay` */
  predicate Contains(hay: string, needle: string)
    decreases |hay|
  {
    StartsWith(hay, needle) || (|hay| > 0 && Contains(hay[1..], needle))
  }

  /** The index of the first occurrence of `needle` in `hay`, if any (`hay.find(needle)`). */
  function FindFirst(hay: string, needle: string): (r: Option<nat>)
    decreases |hay|
    ensures r.Some? <==> Contains(hay, needle)
    ensures r.Some? ==> r.value + |needle| <= |hay| && hay[r.value..r.value + |needle|] == needle
    ensures r.Some? ==> forall j :: 0 <= j < r.value ==> !StartsWith(hay[j..], needle)
  {
    if StartsWith(hay, needle) then Some(0)
    else if |hay| == 0 then None
    else
      match FindFirst(hay[1..], needle)
      case None => None
      case Some(i) =>
        assert forall j :: 1 <= j < i + 1 ==> hay[j..] == hay[1..][j - 1..];
        Some(i + 1)
  }

  lemma ContainsAt(hay: string, needle: string, i: nat)
    requires i + |needle| <= |hay| && hay[i..i + |needle|] == needle
    ensures Contains(hay, needle)
    decreases i
  {
    if i > 0 {
      assert hay[1..][i - 1..i - 1 + |needle|] == needle;
      ContainsAt(hay[1..], needle, i - 1);
    }
  }

  lemma ContainsInLeft(a: string, b: string, needle: string)
    requires Contains(a, needle)
    ensures Contains(a + b, needle)
  {
    var i := FindFirst(a, needle).value;
    assert (a + b)[i..i + |needle|] == a[i..i + |needle|];
    ContainsAt(a + b, needle, i);
  }

  lemma ContainsInRight(a: string, b: string, needle: string)
    requires Contains(b, needle)
    ensures Contains(a + b, needle)
  {
    var i := FindFirst(b, needle).value;
    assert (a + b)[|a| + i..|a| + i + |needle|] == b[i..i + |needle|];
    ContainsAt(a + b, needle, |a| + i);
  }

  /** ASCII case folding of one character. */
  function LowerChar(c: char): char {
    if 'A' <= c <= 'Z' then (c as int + 32) as char else c
  }

  /** `s.lower()` */
  function Lower(s: string): (r: string)
    ensures |r| == |s| && forall i :: 0 <= i < |s| ==> r[i] == LowerChar(s[i])
  {
    seq(|s|, i requires 0 <= i < |s| => LowerChar(s[i]))
  }

  /** The characters Python's `\s` and `str.strip()` treat as whitespace (ASCII subset). */
  predicate IsSpace(c: char) {
    c == ' ' || (9 <= c as int <= 13)
  }

  function TrimLeft(s: string): (r: string)
    ensures |r| <= |s| && r == s[|s| - |r|..]
    ensures r != [] ==> !IsSpace(r[0])
    ensures forall i :: 0 <= i < |s| - |r| ==> IsSpace(s[i])
  {
    if s != [] && IsSpace(s[0]) then TrimLeft(s[1..]) else s
  }

  function TrimRight(s: string): (r: string)
    ensures |r| <= |s| && r == s[..|r|]
    ensures r != [] ==> !IsSpace(r[|r| - 1])
    ensures forall i :: |r| <= i < |s| ==> IsSpace(s[i])
  {
    if s != [] && IsSpace(s[|s| - 1]) then TrimRight(s[..|s| - 1]) else s
  }

  /** `s.strip()` */
  function Strip(s: string): (r: string)
    ensures |r| <= |s|
    ensures r != [] ==> !IsSpace(r[0]) && !IsSpace(r[|r| - 1])
  {
    TrimRight(TrimLeft(s))
  }

  /** `s.replace(old, new, 1)`: only the first occurrence is replaced. */
  function ReplaceFirst(s: string, pat: string, rep: string): (r: string)
    ensures !Contains(s, pat) ==> r == s
    ensures Contains(s, pat) ==>
      var i := FindFirst(s, pat).value;
      r == s[..i] + rep + s[i + |pat|..]
  {
    match FindFirst(s, pat)
    case None => s
    case Some(i) => s[..i] + rep + s[i + |pat|..]
  }

  /** Some keyword of `keys` occurs in `hay`: `any(k in hay for k in keys)`. */
  predicate AnyIn(hay: string, keys: seq<string>) {
    exists k :: k in keys && Contains(hay, k)
  }

  /** The first keyword of `keys`, in list order, that occurs in `hay`. */
  function FirstContained(hay: string, keys: seq<string>): (r: Option<string>)
    ensures r.None? <==> !AnyIn(hay, keys)
    ensures r.Some? ==> r.value in keys && Contains(hay, r.value)
    ensures r.Some? ==> exists i :: 0 <= i < |keys| && keys[i] == r.value && forall j :: 0 <= j < i ==> !Contains(hay, keys[j])
  {
    if keys == [] then None
    else if Contains(hay, keys[0]) then
      assert keys[0] in keys;
      Some(keys[0])
    else
      var r := FirstContained(hay, keys[1..]);
      assert forall k :: k in keys ==> k == keys[0] || k in keys[1..];
      if r.Some? then
        var i :| 0 <= i < |keys[1..]| && keys[1..][i] == r.value && forall j :: 0 <= j < i ==> !Contains(hay, keys[1..][j]);
        assert keys[i + 1] == r.value;
        assert forall j :: 0 <= j < i + 1 ==> !Contains(hay, keys[j]) by {
          forall j | 0 <= j < i + 1 ensures !Contains(hay, keys[j]) {
            if j > 0 { assert keys[j] == keys[1..][j - 1]; }
          }
        }
        r
      else r
  }

  /** How many entries of `keys` occur in `hay` (a keyword listed twice counts twice). */
  function CountContained(hay: string, keys: seq<string>): (r: nat)
    ensures r <= |keys|
    ensures r == 0 <==> !AnyIn(hay, keys)
  {
    if keys == [] then 0
    else
      assert forall k :: k in keys ==> k == keys[0] || k in keys[1..];
      (if Contains(hay, keys[0]) then 1 else 0) + CountContained(hay, keys[1..])
  }
}
