/** Array helpers the services use: de-duplication, slice and filtering counts. */
module Seqs {
  /** A new element appended to a list without repeats keeps it without repeats. */
  lemma DistinctAppend<T>(s: seq<T>, x: T)
    requires Distinct(s) && x !in s
    ensures Distinct(s + [x])
  {
    var r := s + [x];
    forall i, j | 0 <= i < j < |r| ensures r[i] != r[j] {
      if j == |s| { assert r[i] == s[i]; }
    }
  }

  /** Updating a key twice keeps only the second value. */
  lemma Overwrite<K, V>(m: map<K, V>, k: K, a: V, b: V)
    ensures m[k := a][k := b] == m[k := b]
  {
  }

  predicate Distinct<T(==)>(s: seq<T>)
  {
    forall i, j :: 0 <= i < j < |s| ==> s[i] != s[j]
  }

  /**
   * `s.filter((x, i) => s.indexOf(x) === i)`: an element is kept exactly when
   * it does not occur earlier.
   */
  function Dedupe<T(==, !new)>(s: seq<T>): (r: seq<T>)
    ensures Distinct(r)
    ensures forall x :: x in r <==> x in s
    ensures |r| <= |s|
    decreases |s|
  {
    if |s| == 0 then []
    else
      var r := Dedupe(s[..|s| - 1]);
      var x := s[|s| - 1];
      assert forall y :: y in s <==> y in s[..|s| - 1] || y == x by { assert s == s[..|s| - 1] + [x]; }
      if x in s[..|s| - 1] then r else r + [x]
  }

  /** The kept elements appear in the order of their first occurrences in `s`. */
  lemma {:induction false} DedupeFirstOrder<T(!new)>(s: seq<T>)
    ensures forall i, j :: 0 <= i < j < |Dedupe(s)| ==> FirstIndex(s, Dedupe(s)[i]) < FirstIndex(s, Dedupe(s)[j])
    decreases |s|
  {
    if |s| > 0 {
      var p := s[..|s| - 1];
      var x := s[|s| - 1];
      assert s == p + [x];
      DedupeFirstOrder(p);
      DedupeSnoc(p, x);
      FirstIndexAppend(p, x);
      if x !in p {
        FirstIndexUnique(s, x, |p|);
      }
    }
  }

  /** `s.indexOf(x)` for an element of `s`: the position of its first occurrence. */
  function FirstIndex<T(==)>(s: seq<T>, x: T): (i: nat)
    requires x in s
    ensures i < |s| && s[i] == x && x !in s[..i]
    decreases |s|
  {
    if s[0] == x then 0
    else
      var i := FirstIndex(s[1..], x);
      assert s[..i + 1] == [s[0]] + s[1..][..i];
      i + 1
  }

  /** A position holding `x` with no earlier `x` is the first index of `x`. */
  lemma FirstIndexUnique<T>(s: seq<T>, x: T, k: nat)
    requires k < |s| && s[k] == x && x !in s[..k]
    ensures FirstIndex(s, x) == k
  {
    var i := FirstIndex(s, x);
    forall j | 0 <= j < k ensures s[j] != x { assert s[..k][j] == s[j]; }
    forall j | 0 <= j < i ensures s[j] != x { assert s[..i][j] == s[j]; }
  }

  /** Appending an element does not move the first occurrence of an earlier one. */
  lemma FirstIndexAppend<T>(p: seq<T>, x: T)
    ensures forall y :: y in p ==> FirstIndex(p + [x], y) == FirstIndex(p, y)
  {
    forall y | y in p ensures FirstIndex(p + [x], y) == FirstIndex(p, y) {
      var k := FirstIndex(p, y);
      assert (p + [x])[..k] == p[..k];
      FirstIndexUnique(p + [x], y, k);
    }
  }

  /** An element that no earlier element repeats leads the de-duplicated sequence. */
  lemma {:induction false} DedupeHead<T(!new)>(s: seq<T>)
    requires |s| > 0
    ensures |Dedupe(s)| > 0 && Dedupe(s)[0] == s[0]
    decreases |s|
  {
    if |s| > 1 {
      DedupeHead(s[..|s| - 1]);
    }
  }

  /** De-duplicating a sequence without repeats changes nothing. */
  lemma {:induction false} DedupeDistinct<T(!new)>(s: seq<T>)
    requires Distinct(s)
    ensures Dedupe(s) == s
    decreases |s|
  {
    if |s| > 0 {
      var p := s[..|s| - 1];
      assert Distinct(p);
      DedupeDistinct(p);
      assert s[|s| - 1] !in p;
      assert s == p + [s[|s| - 1]];
    }
  }

  /** A prefix of a sequence without repeats has none either. */
  lemma DistinctPrefix<T>(s: seq<T>, m: nat)
    requires Distinct(s) && m <= |s|
    ensures Distinct(s[..m])
  {
    var q := s[..m];
    forall i, j | 0 <= i < j < |q| ensures q[i] != q[j] {
      assert q[i] == s[i] && q[j] == s[j];
    }
  }

  /** One step of Dedupe: a new last element is appended, a repeated one dropped. */
  lemma DedupeSnoc<T(!new)>(p: seq<T>, x: T)
    ensures Dedupe(p + [x]) == if x in p then Dedupe(p) else Dedupe(p) + [x]
  {
    assert (p + [x])[..|p + [x]| - 1] == p;
  }

  /**
   * A head that the (repeat-free) rest also holds at `k` keeps its place in
   * front, and its later copy is dropped.
   */
  lemma {:induction false} DedupeRepeatedHead<T(!new)>(p: T, rest: seq<T>, k: nat)
    requires Distinct(rest) && k < |rest| && rest[k] == p
    ensures Dedupe([p] + rest) == [p] + rest[..k] + rest[k + 1..]
    decreases |rest|
  {
    var n := |rest|;
    if k == n - 1 {
      DedupeRepeatedLast(p, rest);
    } else {
      var q := rest[..n - 1];
      var x := rest[n - 1];
      assert rest == q + [x];
      DistinctPrefix(rest, n - 1);
      LastFresh(rest);
      assert rest[k] != rest[n - 1];
      assert q[k] == p;
      DedupeRepeatedHead(p, q, k);
      DedupeRepeatedStep(p, q, x, k);
    }
  }

  lemma LastFresh<T>(s: seq<T>)
    requires Distinct(s) && |s| > 0
    ensures s[|s| - 1] !in s[..|s| - 1]
  {
    var q := s[..|s| - 1];
    forall i | 0 <= i < |q| ensures q[i] != s[|s| - 1] {
      assert q[i] == s[i];
    }
  }

  lemma DedupeRepeatedStep<T(!new)>(p: T, q: seq<T>, x: T, k: nat)
    requires k < |q| && x !in q && x != p
    requires Dedupe([p] + q) == [p] + q[..k] + q[k + 1..]
    ensures Dedupe([p] + (q + [x])) == [p] + (q + [x])[..k] + (q + [x])[k + 1..]
  {
    assert [p] + (q + [x]) == ([p] + q) + [x];
    assert x !in [p] + q;
    DedupeSnoc([p] + q, x);
    SpliceSnoc(p, q, x, k);
  }

  lemma SpliceSnoc<T>(p: T, q: seq<T>, x: T, k: nat)
    requires k < |q|
    ensures [p] + q[..k] + q[k + 1..] + [x] == [p] + (q + [x])[..k] + (q + [x])[k + 1..]
  {
    assert (q + [x])[..k] == q[..k];
    assert (q + [x])[k + 1..] == q[k + 1..] + [x];
  }

  lemma DedupeRepeatedLast<T(!new)>(p: T, rest: seq<T>)
    requires Distinct(rest) && |rest| > 0 && rest[|rest| - 1] == p
    ensures Dedupe([p] + rest) == [p] + rest[..|rest| - 1]
  {
    var q := rest[..|rest| - 1];
    assert [p] + rest == ([p] + q) + [p];
    DedupeSnoc([p] + q, p);
    DistinctPrefix(rest, |rest| - 1);
    LastFresh(rest);
    DistinctCons(p, q);
    DedupeDistinct([p] + q);
  }

  lemma DistinctCons<T>(p: T, q: seq<T>)
    requires Distinct(q) && p !in q
    ensures Distinct([p] + q)
  {
    var t := [p] + q;
    forall i, j | 0 <= i < j < |t| ensures t[i] != t[j] {
      assert t[j] == q[j - 1];
      if i > 0 { assert t[i] == q[i - 1]; }
    }
  }

  /** `s.slice(0, end)`: a negative end counts back from the end of the array. */
  function SliceTo<T>(s: seq<T>, end: int): (r: seq<T>)
    ensures |r| <= |s| && r == s[..|r|]
    ensures 0 <= end ==> |r| == if end < |s| then end else |s|
    ensures end < 0 ==> |r| == if |s| + end > 0 then |s| + end else 0
  {
    if end < 0 then (if |s| + end <= 0 then [] else s[..|s| + end])
    else if end >= |s| then s
    else s[..end]
  }

  /** How many times `x` occurs in `s`. */
  function Count<T(==)>(s: seq<T>, x: T): nat
    decreases |s|
  {
    if |s| == 0 then 0 else (if s[0] == x then 1 else 0) + Count(s[1..], x)
  }

  /** Counting over a sequence that starts with `a`. */
  lemma CountCons<T>(a: T, t: seq<T>)
    ensures forall x :: Count([a] + t, x) == (if a == x then 1 else 0) + Count(t, x)
  {
    assert ([a] + t)[1..] == t;
  }

  /** `r` can be obtained from `s` by deleting elements, keeping the order of the rest. */
  ghost predicate IsSubsequence<T>(r: seq<T>, s: seq<T>)
    decreases |s|
  {
    if |r| == 0 then true
    else if |s| == 0 then false
    else (r[0] == s[0] && IsSubsequence(r[1..], s[1..])) || IsSubsequence(r, s[1..])
  }

  /** `s.filter(p)`: every copy of a passing element, in order, and nothing else. */
  function Keep<T(!new)>(s: seq<T>, p: T -> bool): (r: seq<T>)
    ensures |r| <= |s|
    ensures forall x :: x in r <==> x in s && p(x)
    ensures forall x :: Count(r, x) == if p(x) then Count(s, x) else 0
    ensures IsSubsequence(r, s)
    decreases |s|
  {
    if |s| == 0 then []
    else
      var rest := Keep(s[1..], p);
      assert forall x :: x in s <==> x == s[0] || x in s[1..];
      CountCons(s[0], s[1..]);
      assert [s[0]] + s[1..] == s;
      if p(s[0]) then CountCons(s[0], rest); [s[0]] + rest else rest
  }
}
