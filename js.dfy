/**
 * JavaScript values as the services see them after JSON or YAML parsing:
 * objects keep their keys in insertion order (object spread, Object.assign
 * and Object.entries all depend on that order), and truthiness follows the
 * language's rules (false, 0, "" and null are falsy; an absent property is
 * None).
 */
module Js {
  import opened Wrappers
  import opened Strs

  datatype Value =
    | Null
    | Bool(b: bool)
    | Num(n: int)
    | Str(s: string)
    | Arr(items: seq<Value>)
    | Obj(fields: seq<(string, Value)>)

  type Fields = seq<(string, Value)>

  predicate Truthy(v: Value)
  {
    match v
    case Null => false
    case Bool(b) => b
    case Num(n) => n != 0
    case Str(s) => s != ""
    case _ => true
  }

  /** Truthiness of a property that may be absent (undefined). */
  predicate Present(o: Option<Value>)
  {
    o.Some? && Truthy(o.value)
  }

  function Keys(f: Fields): (r: seq<string>)
    ensures |r| == |f| && forall i :: 0 <= i < |f| ==> r[i] == f[i].0
  {
    seq(|f|, i requires 0 <= i < |f| => f[i].0)
  }

  predicate HasKey(f: Fields, k: string)
  {
    exists i :: 0 <= i < |f| && f[i].0 == k
  }

  /** Property read `obj[k]`; a later duplicate key wins, as in JSON.parse. */
  function Get(f: Fields, k: string): (r: Option<Value>)
    ensures r.Some? <==> HasKey(f, k)
    ensures r.Some? ==> (k, r.value) in f
    decreases |f|
  {
    if |f| == 0 then None
    else if f[|f| - 1].0 == k then Some(f[|f| - 1].1)
    else
      var r := Get(f[..|f| - 1], k);
      assert r.Some? ==> (k, r.value) in f by { assert f == f[..|f| - 1] + [f[|f| - 1]]; }
      assert HasKey(f, k) ==> HasKey(f[..|f| - 1], k) by {
        if HasKey(f, k) { var i :| 0 <= i < |f| && f[i].0 == k; assert i < |f| - 1; assert f[..|f| - 1][i].0 == k; }
      }
      r
  }

  /** Replaces the value of the last entry for `k`. */
  function Replace(f: Fields, k: string, v: Value): (r: Fields)
    requires HasKey(f, k)
    ensures Keys(r) == Keys(f)
    decreases |f|
  {
    if f[|f| - 1].0 == k then f[..|f| - 1] + [(k, v)]
    else
      assert HasKey(f[..|f| - 1], k) by {
        var i :| 0 <= i < |f| && f[i].0 == k; assert i < |f| - 1; assert f[..|f| - 1][i].0 == k;
      }
      Replace(f[..|f| - 1], k, v) + [f[|f| - 1]]
  }

  /** Assignment `obj[k] = v`: an existing key keeps its place, a new key goes last. */
  function Put(f: Fields, k: string, v: Value): (r: Fields)
  {
    if HasKey(f, k) then Replace(f, k, v) else f + [(k, v)]
  }

  /** Object.assign(target, source) and `{...target, ...source}`. */
  function Assign(a: Fields, b: Fields): Fields
    decreases |b|
  {
    if |b| == 0 then a else Assign(Put(a, b[0].0, b[0].1), b[1..])
  }

  lemma GetSnoc(p: Fields, e: (string, Value), j: string)
    ensures Get(p + [e], j) == if e.0 == j then Some(e.1) else Get(p, j)
  {
    assert (p + [e])[..|p|] == p;
  }

  lemma {:induction false} GetReplace(f: Fields, k: string, v: Value, j: string)
    requires HasKey(f, k)
    ensures Get(Replace(f, k, v), j) == if j == k then Some(v) else Get(f, j)
    decreases |f|
  {
    var n := |f| - 1;
    assert f == f[..n] + [f[n]];
    GetSnoc(f[..n], f[n], j);
    if f[n].0 != k {
      assert HasKey(f[..n], k) by {
        var i :| 0 <= i < |f| && f[i].0 == k; assert i < n; assert f[..n][i].0 == k;
      }
      GetReplace(f[..n], k, v, j);
      GetSnoc(Replace(f[..n], k, v), f[n], j);
    } else {
      GetSnoc(f[..n], (k, v), j);
    }
  }

  /** Reading a property right after assigning it gives the assigned value; other properties are untouched. */
  lemma GetPut(f: Fields, k: string, v: Value, j: string)
    ensures Get(Put(f, k, v), j) == if j == k then Some(v) else Get(f, j)
  {
    if HasKey(f, k) {
      GetReplace(f, k, v, j);
    } else {
      var r := f + [(k, v)];
      assert r[..|r| - 1] == f;
    }
  }

  lemma KeysPut(f: Fields, k: string, v: Value)
    ensures Keys(Put(f, k, v)) == if HasKey(f, k) then Keys(f) else Keys(f) + [k]
  {
  }

  /** After `Object.assign(a, b)` a property reads as in `b` when `b` has it, otherwise as in `a`. */
  lemma {:induction false} GetAssign(a: Fields, b: Fields, j: string)
    ensures Get(Assign(a, b), j) == if HasKey(b, j) then Get(b, j) else Get(a, j)
    decreases |b|
  {
    if |b| > 0 {
      GetAssign(Put(a, b[0].0, b[0].1), b[1..], j);
      GetPut(a, b[0].0, b[0].1, j);
      GetFront(b, j);
    }
  }

  /** Reading from a list whose first entry is split off. */
  lemma {:induction false} GetFront(b: Fields, j: string)
    requires |b| > 0
    ensures HasKey(b, j) <==> (b[0].0 == j || HasKey(b[1..], j))
    ensures Get(b, j) == if HasKey(b[1..], j) then Get(b[1..], j) else if b[0].0 == j then Some(b[0].1) else None
    decreases |b|
  {
    if HasKey(b, j) {
      var i :| 0 <= i < |b| && b[i].0 == j;
      if i > 0 { assert b[1..][i - 1].0 == j; }
    }
    if HasKey(b[1..], j) {
      var i :| 0 <= i < |b[1..]| && b[1..][i].0 == j;
      assert b[i + 1].0 == j;
    }
    if |b| > 1 {
      var n := |b| - 1;
      assert b[1..][..n - 1] == b[..n][1..];
      GetFront(b[..n], j);
      if b[n].0 != j {
        assert HasKey(b[1..], j) <==> HasKey(b[..n][1..], j) by {
          if HasKey(b[1..], j) {
            var i :| 0 <= i < |b[1..]| && b[1..][i].0 == j;
            assert i < n - 1;
            assert b[..n][1..][i].0 == j;
          }
          if HasKey(b[..n][1..], j) {
            var i :| 0 <= i < |b[..n][1..]| && b[..n][1..][i].0 == j;
            assert b[1..][i].0 == j;
          }
        }
      }
    }
  }

  /** Every key of either object is a key of the merged object. */
  lemma {:induction false} HasKeyAssign(a: Fields, b: Fields, j: string)
    ensures HasKey(Assign(a, b), j) <==> HasKey(a, j) || HasKey(b, j)
  {
    GetAssign(a, b, j);
  }

  /** String(v): the text a value turns into inside a template or a replacement. */
  function ToText(v: Value): string
    decreases v, 1
  {
    match v
    case Null => "null"
    case Bool(b) => if b then "true" else "false"
    case Num(n) => IntToString(n)
    case Str(s) => s
    case Arr(items) => ItemsText(items, v)
    case Obj(_) => "[object Object]"
  }

  /** Array.prototype.toString: the items joined with commas, null becoming "". */
  function ItemsText(items: seq<Value>, ghost parent: Value): string
    requires forall x :: x in items ==> x < parent
    decreases parent, 0, |items|
  {
    if |items| == 0 then ""
    else
      assert items[0] in items;
      var head := if items[0].Null? then "" else ToText(items[0]);
      assert forall x :: x in items[1..] ==> x in items;
      if |items| == 1 then head else head + "," + ItemsText(items[1..], parent)
  }
}
