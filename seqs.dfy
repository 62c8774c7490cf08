/** Sequence helpers shared by the pipeline: concatenation, slicing, first-appearance order. */
module Seqs {
  import opened Wrappers

  /** Concatenation of a list of lists: what repeated `list.extend` builds. */
  function Flatten<T>(ss: seq<seq<T>>): seq<T> {
    if |ss| == 0 then [] else ss[0] + Flatten(ss[1..])
  }

  lemma {:induction false} FlattenAppend<T>(a: seq<seq<T>>, b: seq<seq<T>>)
    ensures Flatten(a + b) == Flatten(a) + Flatten(b)
  {
    if |a| == 0 {
      assert a + b == b;
    } else {
      assert (a + b)[1..] == a[1..] + b;
      FlattenAppend(a[1..], b);
    }
  }

  lemma FlattenSnoc<T>(a: seq<seq<T>>, x: seq<T>)
    ensures Flatten(a + [x]) == Flatten(a) + x
  {
    FlattenAppend(a, [x]);
    assert Flatten([x]) == x + Flatten([x][1..]);
  }

  /** `[f(x) for x in xs]` */
  function Map<A, B>(f: A -> B, xs: seq<A>): (ys: seq<B>)
    ensures |ys| == |xs|
  {
    seq(|xs|, i requires 0 <= i < |xs| => f(xs[i]))
  }

  lemma MapSnoc<A, B>(f: A -> B, xs: seq<A>, i: nat)
    requires i < |xs|
    ensures Map(f, xs[..i + 1]) == Map(f, xs[..i]) + [f(xs[i])]
  {
  }

  lemma MapAround<A, B>(f: A -> B, xs: seq<A>, i: nat)
    requires i < |xs|
    ensures Map(f, xs) == Map(f, xs[..i]) + [f(xs[i])] + Map(f, xs[i + 1..])
  {
  }

  /** An empty list among the lists adds nothing: the others are concatenated as before. */
  lemma {:induction false} FlattenSkip<T>(ss: seq<seq<T>>, i: nat)
    requires i < |ss| && ss[i] == []
    ensures Flatten(ss) == Flatten(ss[..i]) + Flatten(ss[i + 1..])
  {
    var a, c := ss[..i], ss[i + 1..];
    assert ss == (a + [ss[i]]) + c;
    FlattenAppend(a + [ss[i]], c);
    FlattenSnoc(a, ss[i]);
  }

  /**
    Python's `[s[i:i + n] for i in range(0, len(s), n)]`: consecutive slices
    of at most `n` elements, the k-th starting at index k * n.
   */
  function Slices<T>(s: seq<T>, n: nat): seq<seq<T>>
    requires n > 0
    decreases |s|
  {
    if |s| == 0 then []
    else if |s| <= n then [s]
    else [s[..n]] + Slices(s[n..], n)
  }

  /** Quotient facts for the slice count ceil(len / n) = (len + n - 1) / n. */
  lemma CeilDivStep(len: nat, n: nat)
    requires n > 0
    ensures len == 0 ==> (len + n - 1) / n == 0
    ensures 0 < len <= n ==> (len + n - 1) / n == 1
    ensures len > n ==> (len + n - 1) / n == (len - n + n - 1) / n + 1
  {
    var a := len + n - 1;
    if len > n {
      var b := len - 1;
      assert a == b + n;
      var q, r := b / n, b % n;
      assert b == q * n + r && 0 <= r < n;
      assert a == (q + 1) * n + r;
      DivUnique(a, n, q + 1, r);
    } else if len > 0 {
      DivUnique(a, n, 1, len - 1);
    } else {
      DivUnique(a, n, 0, n - 1);
    }
  }

  lemma DivUnique(a: int, n: int, q: int, r: int)
    requires n > 0 && 0 <= r < n && a == q * n + r
    ensures a / n == q
  {
    var q', r' := a / n, a % n;
    var k := q' - q;
    assert k * n == r - r' by {
      assert q' * n + r' == q * n + r;
      assert k * n == q' * n - q * n;
    }
  }

  /** The slices split `s` exactly: no element lost, duplicated or reordered. */
  lemma {:induction false} SlicesCover<T>(s: seq<T>, n: nat)
    requires n > 0
    ensures Flatten(Slices(s, n)) == s
    ensures |Slices(s, n)| == (|s| + n - 1) / n
    ensures forall k :: 0 <= k < |Slices(s, n)| ==> 0 < |Slices(s, n)[k]| <= n
    ensures forall k :: 0 <= k < |Slices(s, n)| - 1 ==> |Slices(s, n)[k]| == n
    decreases |s|
  {
    var r := Slices(s, n);
    CeilDivStep(|s|, n);
    if |s| == 0 {
    } else if |s| <= n {
      assert Flatten(r) == s + Flatten(r[1..]);
    } else {
      var rest := Slices(s[n..], n);
      SlicesCover(s[n..], n);
      assert r[1..] == rest;
      assert Flatten(r) == s[..n] + Flatten(rest);
      assert s[..n] + s[n..] == s;
    }
  }

  predicate Distinct<T(==)>(s: seq<T>) {
    forall i, j :: 0 <= i < j < |s| ==> s[i] != s[j]
  }

  /**
    The distinct elements of `s` in order of first appearance: the key order
    of a Python dict filled by a loop over `s`.
   */
  function Dedup<T(==)>(s: seq<T>): (r: seq<T>)
    ensures Distinct(r)
    ensures forall i :: 0 <= i < |r| ==> r[i] in s
    ensures forall i :: 0 <= i < |s| ==> s[i] in r
    ensures |r| <= |s|
  {
    if |s| == 0 then []
    else
      var d := Dedup(s[..|s| - 1]);
      assert forall i :: 0 <= i < |s| - 1 ==> s[i] == s[..|s| - 1][i];
      if s[|s| - 1] in d then d else d + [s[|s| - 1]]
  }

  /** One more element is added at the end when it is new. */
  lemma DedupSnoc<T>(s: seq<T>, x: T)
    ensures Dedup(s + [x]) == if x in Dedup(s) then Dedup(s) else Dedup(s) + [x]
  {
    assert (s + [x])[..|s|] == s;
  }

  /** Index of the first occurrence of `x` in `s`. */
  function FirstIndex<T(==)>(s: seq<T>, x: T): (i: nat)
    requires x in s
    ensures i < |s| && s[i] == x && x !in s[..i]
  {
    if s[0] == x then 0 else 1 + FirstIndex(s[1..], x)
  }

  lemma FirstIndexPrefix<T>(s: seq<T>, k: nat, x: T)
    requires k <= |s| && x in s[..k]
    ensures FirstIndex(s, x) == FirstIndex(s[..k], x)
  {
    var j := FirstIndex(s[..k], x);
    assert s[..k][..j] == s[..j];
  }

  /** Dedup lists the elements by increasing first appearance in `s`. */
  lemma {:induction false} DedupOrder<T>(s: seq<T>, i: nat, j: nat)
    requires i < j < |Dedup(s)|
    ensures FirstIndex(s, Dedup(s)[i]) < FirstIndex(s, Dedup(s)[j])
    decreases |s|
  {
    var p := s[..|s| - 1];
    var d := Dedup(p);
    var x := s[|s| - 1];
    assert p == s[..|p|];
    if j < |d| {
      DedupOrder(p, i, j);
      FirstIndexPrefix(s, |p|, d[i]);
      FirstIndexPrefix(s, |p|, d[j]);
    } else {
      // the last element is x, which first appears at the end of s
      assert Dedup(s)[j] == x && x !in p;
      FirstIndexPrefix(s, |p|, d[i]);
    }
  }

  // ---------------------------------------------------------------------------
  // Filter-map: keep what a partial conversion produces, in order
  // ---------------------------------------------------------------------------

  /** `[f(x) for x in xs]` keeping only the results that are not None. */
  function FilterMap<A, B>(f: A -> Option<B>, xs: seq<A>): (ys: seq<B>)
    ensures |ys| <= |xs|
  {
    if xs == [] then []
    else if f(xs[0]).Some? then [f(xs[0]).value] + FilterMap(f, xs[1..])
    else FilterMap(f, xs[1..])
  }

  lemma {:induction false} FilterMapAppend<A, B>(f: A -> Option<B>, a: seq<A>, b: seq<A>)
    ensures FilterMap(f, a + b) == FilterMap(f, a) + FilterMap(f, b)
  {
    if a == [] {
      assert a + b == b;
    } else {
      assert (a + b)[0] == a[0];
      assert (a + b)[1..] == a[1..] + b;
      FilterMapAppend(f, a[1..], b);
    }
  }

  /** One more input adds its result, if any, at the end. */
  lemma FilterMapSnoc<A, B>(f: A -> Option<B>, a: seq<A>, x: A)
    ensures FilterMap(f, a + [x]) == FilterMap(f, a) + (if f(x).Some? then [f(x).value] else [])
  {
    FilterMapAppend(f, a, [x]);
    assert [x][1..] == [];
  }

  /** The filter-map of the window `xs[from..k]`, built from the back as a loop over the window builds it. */
  function FilterMapRange<A, B>(f: A -> Option<B>, xs: seq<A>, from: nat, k: nat): seq<B>
    requires from <= k <= |xs|
    decreases k
  {
    if k == from then []
    else if f(xs[k - 1]).Some? then FilterMapRange(f, xs, from, k - 1) + [f(xs[k - 1]).value]
    else FilterMapRange(f, xs, from, k - 1)
  }

  lemma {:induction false} FilterMapRangeSlice<A, B>(f: A -> Option<B>, xs: seq<A>, from: nat, k: nat)
    requires from <= k <= |xs|
    ensures FilterMapRange(f, xs, from, k) == FilterMap(f, xs[from..k])
    decreases k
  {
    if k > from {
      FilterMapRangeSlice(f, xs, from, k - 1);
      assert xs[from..k] == xs[from..k - 1] + [xs[k - 1]];
      FilterMapSnoc(f, xs[from..k - 1], xs[k - 1]);
    }
  }

  /** Every output is the result of some input. */
  lemma {:induction false} FilterMapFrom<A, B>(f: A -> Option<B>, xs: seq<A>, i: nat)
    requires i < |FilterMap(f, xs)|
    ensures exists j :: 0 <= j < |xs| && f(xs[j]) == Some(FilterMap(f, xs)[i])
  {
    var rest := FilterMap(f, xs[1..]);
    if f(xs[0]).Some? && i == 0 {
      assert f(xs[0]) == Some(FilterMap(f, xs)[0]);
    } else {
      var i' := if f(xs[0]).Some? then i - 1 else i;
      assert FilterMap(f, xs)[i] == rest[i'];
      FilterMapFrom(f, xs[1..], i');
      var j :| 0 <= j < |xs[1..]| && f(xs[1..][j]) == Some(rest[i']);
      assert xs[1..][j] == xs[j + 1];
    }
  }

  /** Every input with a result contributes it: the output is as long as the count of such inputs. */
  lemma {:induction false} FilterMapAll<A, B>(f: A -> Option<B>, xs: seq<A>)
    requires forall j :: 0 <= j < |xs| ==> f(xs[j]).Some?
    ensures |FilterMap(f, xs)| == |xs|
    ensures forall j :: 0 <= j < |xs| ==> FilterMap(f, xs)[j] == f(xs[j]).value
  {
    if xs != [] {
      assert forall j :: 0 <= j < |xs[1..]| ==> xs[1..][j] == xs[j + 1];
      FilterMapAll(f, xs[1..]);
    }
  }
}
