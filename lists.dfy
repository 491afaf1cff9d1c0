/** List helpers with Python's meaning: `s[-1]`, `s[-n:]`, and duplicate-free lists. */
module Lists {
  import opened Numbers

  /** `s[-1]` */
  function Last<T>(s: seq<T>): T
    requires s != []
  {
    s[|s| - 1]
  }

  /** Python's `s[-count:] if s else []`, for any integer `count`. */
  function PySuffix<T>(s: seq<T>, count: int): (r: seq<T>)
    ensures count > 0 ==> |r| == MinNat(count, |s|) && r == s[|s| - |r|..]
    ensures count == 0 ==> r == s
  {
    if count > 0 then (if count <= |s| then s[|s| - count..] else s)
    else if count == 0 then s
    else if -count <= |s| then s[-count..]
    else []
  }

  /** Python's `s[:n]` for any integer `n`: a negative `n` drops that many elements from the end. */
  function PyPrefix<T>(s: seq<T>, n: int): (r: seq<T>)
    ensures n >= 0 ==> |r| == MinNat(n, |s|)
    ensures n < 0 ==> |r| == if -n <= |s| then |s| + n else 0
    ensures r == s[..|r|]
  {
    if n >= 0 then (if n <= |s| then s[..n] else s)
    else if -n <= |s| then s[..|s| + n]
    else []
  }

  /** `[f(i, x) for i, x in enumerate(s)]` */
  function MapWithIndex<A, B>(f: (nat, A) -> B, s: seq<A>): (r: seq<B>)
    ensures |r| == |s|
    ensures forall k :: 0 <= k < |s| ==> r[k] == f(k, s[k])
  {
    seq(|s|, k requires 0 <= k < |s| => f(k, s[k]))
  }

  /** Mapping one more element appends its image, taken at its index. */
  lemma MapWithIndexAppend<A, B>(f: (nat, A) -> B, s: seq<A>, x: A)
    ensures MapWithIndex(f, s + [x]) == MapWithIndex(f, s) + [f(|s|, x)]
  {
    assert forall k :: 0 <= k < |s| ==> (s + [x])[k] == s[k];
  }

  /** A positive-count suffix of a non-empty list is non-empty and ends where the list ends. */
  lemma SuffixKeepsLast<T>(s: seq<T>, count: int)
    requires count > 0
    ensures PySuffix(s, count) == [] <==> s == []
    ensures s != [] ==> Last(PySuffix(s, count)) == Last(s)
  {
  }

  /** The positions of `s` whose element satisfies `keep`, increasing. */
  function PositionsWhere<T>(s: seq<T>, keep: T -> bool): (ps: seq<nat>)
    ensures forall k :: 0 <= k < |ps| ==> ps[k] < |s|
    ensures forall k, l :: 0 <= k < l < |ps| ==> ps[k] < ps[l]
    ensures forall j :: 0 <= j < |s| ==> (j in ps <==> keep(s[j]))
  {
    if s == [] then []
    else
      var n := |s| - 1;
      var rest := PositionsWhere(s[..n], keep);
      assert forall j :: 0 <= j < n ==> s[..n][j] == s[j];
      if keep(s[n]) then rest + [n] else rest
  }

  /** No element occurs twice. */
  predicate Distinct<T(==)>(s: seq<T>) {
    forall i, j :: 0 <= i < j < |s| ==> s[i] != s[j]
  }

  function Elements<T(==)>(s: seq<T>): set<T> {
    set x | x in s
  }

  lemma ElementsAppend<T>(s: seq<T>, x: T)
    ensures Elements(s + [x]) == Elements(s) + {x}
  {
    assert forall y :: y in s + [x] <==> y in s || y == x;
  }

  lemma DistinctAppend<T>(s: seq<T>, x: T)
    requires Distinct(s) && x !in s
    ensures Distinct(s + [x])
  {
  }

  /** A list has at least as many positions as distinct elements, and exactly as many when it has no duplicates. */
  lemma {:induction false} ElementsCard<T>(s: seq<T>)
    ensures |Elements(s)| <= |s|
    ensures Distinct(s) ==> |Elements(s)| == |s|
    decreases |s|
  {
    if s != [] {
      var init := s[..|s| - 1];
      ElementsCard(init);
      assert Elements(s) == Elements(init) + {Last(s)} by {
        assert s == init + [Last(s)];
      }
      if Distinct(s) {
        assert Last(s) !in Elements(init);
      }
    }
  }

  /** If every element of a duplicate-free `a` occurs in `b`, then `b` is at least as long as `a`. */
  lemma CoveredIsShorter<T>(a: seq<T>, b: seq<T>)
    requires Distinct(a)
    requires forall x :: x in a ==> x in b
    ensures |a| <= |b|
  {
    ElementsCard(a);
    ElementsCard(b);
    var A, B := Elements(a), Elements(b);
    assert B == A + (B - A);
    assert A * (B - A) == {};
  }

  /** Where the element at `i` of `x + y + z` sits in `before + a + b + c`, for prefixes `x`, `y`, `z` of `a`, `b`, `c`. */
  function PieceIndex(n0: nat, na: nat, nb: nat, nx: nat, ny: nat, i: nat): nat {
    if i < nx then n0 + i
    else if i < nx + ny then n0 + na + (i - nx)
    else n0 + na + nb + (i - nx - ny)
  }

  /** Prefixes of the pieces of a duplicate-free list, put together, are duplicate-free. */
  lemma DistinctPieces<T>(before: seq<T>, a: seq<T>, b: seq<T>, c: seq<T>, x: seq<T>, y: seq<T>, z: seq<T>)
    requires Distinct(before + a + b + c)
    requires x <= a && y <= b && z <= c
    ensures Distinct(x + y + z)
  {
    var s, t := before + a + b + c, x + y + z;
    forall i | 0 <= i < |t|
      ensures PieceIndex(|before|, |a|, |b|, |x|, |y|, i) < |s|
      ensures t[i] == s[PieceIndex(|before|, |a|, |b|, |x|, |y|, i)]
    {
      if i < |x| {
        assert t[i] == x[i] == a[i];
      } else if i < |x| + |y| {
        assert t[i] == y[i - |x|] == b[i - |x|];
      } else {
        assert t[i] == z[i - |x| - |y|] == c[i - |x| - |y|];
      }
    }
    forall i, j | 0 <= i < j < |t| ensures t[i] != t[j] {
      assert PieceIndex(|before|, |a|, |b|, |x|, |y|, i) < PieceIndex(|before|, |a|, |b|, |x|, |y|, j);
    }
  }
}
