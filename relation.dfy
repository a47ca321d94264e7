/**
 * Tables of the relational store, modelled as sequences of rows.
 *
 * A SQL `WHERE` condition is a predicate on rows; `SELECT ... WHERE c` keeps the rows
 * satisfying `c` in table order (Filter), `rowCount` is Count, `rows[0]` is Find,
 * `DELETE ... WHERE c` keeps the rows satisfying `Not(c)`, and `UPDATE ... WHERE c`
 * rewrites the rows satisfying `c` (Update).
 */
module Relation {

  datatype Option<+T> = None | Some(value: T)

  /** Some row of `s` satisfies `p`. */
  ghost predicate Any<T>(s: seq<T>, p: T -> bool) {
    exists i :: 0 <= i < |s| && p(s[i])
  }

  function Not<T>(p: T -> bool): T -> bool {
    x => !p(x)
  }

  /** The condition `key(row) = k`, e.g. `WHERE id = $1`. */
  function KeyIs<T>(key: T -> string, k: string): T -> bool {
    x => key(x) == k
  }

  /** Number of rows satisfying `p` (the `rowCount` of a `SELECT` or `DELETE`). */
  function Count<T>(s: seq<T>, p: T -> bool): (n: nat)
    ensures n <= |s|
    ensures n == 0 <==> !Any(s, p)
  {
    if s == [] then 0
    else
      assert forall i :: 1 <= i < |s| ==> s[1..][i - 1] == s[i];
      (if p(s[0]) then 1 else 0) + Count(s[1..], p)
  }

  /** The rows satisfying `p`, in table order. */
  function Filter<T>(s: seq<T>, p: T -> bool): (r: seq<T>)
    ensures |r| == Count(s, p)
    ensures forall i :: 0 <= i < |r| ==> p(r[i])
  {
    if s == [] then []
    else (if p(s[0]) then [s[0]] else []) + Filter(s[1..], p)
  }

  /** The rows a filter keeps are exactly the rows of `s` satisfying `p`. */
  lemma {:induction false} FilterMembers<T>(s: seq<T>, p: T -> bool, x: T)
    ensures x in Filter(s, p) <==> x in s && p(x)
  {
    if s != [] {
      FilterMembers(s[1..], p, x);
      assert x in s <==> x == s[0] || x in s[1..];
    }
  }

  /** The first row satisfying `p`, if any (`rows[0]` of a `SELECT`). */
  function Find<T>(s: seq<T>, p: T -> bool): (r: Option<T>)
    ensures r.Some? <==> Any(s, p)
    ensures r.Some? ==> r.value in s && p(r.value)
  {
    if s == [] then None
    else if p(s[0]) then Some(s[0])
    else
      assert forall i :: 1 <= i < |s| ==> s[1..][i - 1] == s[i];
      Find(s[1..], p)
  }

  /** `UPDATE ... WHERE p`: every row satisfying `p` is rewritten by `f`, the others are kept. */
  function Update<T>(s: seq<T>, p: T -> bool, f: T -> T): (r: seq<T>)
    ensures |r| == |s|
    ensures forall i :: 0 <= i < |s| ==> r[i] == if p(s[i]) then f(s[i]) else s[i]
  {
    seq(|s|, i requires 0 <= i < |s| => if p(s[i]) then f(s[i]) else s[i])
  }

  /** No two rows share a key (a primary key or a unique column). */
  ghost predicate UniqueBy<T>(s: seq<T>, key: T -> string) {
    forall i, j :: 0 <= i < j < |s| ==> key(s[i]) != key(s[j])
  }

  lemma {:induction false} CountAppend<T>(s: seq<T>, x: T, p: T -> bool)
    ensures Count(s + [x], p) == Count(s, p) + (if p(x) then 1 else 0)
  {
    if s != [] {
      assert (s + [x])[1..] == s[1..] + [x];
      CountAppend(s[1..], x, p);
    }
  }

  lemma {:induction false} FilterAppend<T>(s: seq<T>, x: T, p: T -> bool)
    ensures Filter(s + [x], p) == Filter(s, p) + (if p(x) then [x] else [])
  {
    var last := if p(x) then [x] else [];
    if s == [] {
      assert [x][1..] == [];
      assert Filter([x], p) == last + Filter([], p);
    } else {
      var head := if p(s[0]) then [s[0]] else [];
      assert (s + [x])[0] == s[0];
      assert (s + [x])[1..] == s[1..] + [x];
      FilterAppend(s[1..], x, p);
      assert Filter(s + [x], p) == head + (Filter(s[1..], p) + last);
      assert Filter(s, p) == head + Filter(s[1..], p);
    }
  }

  /** Every row is either counted by `p` or by `Not(p)`. */
  lemma {:induction false} CountComplement<T>(s: seq<T>, p: T -> bool)
    ensures Count(s, p) + Count(s, Not(p)) == |s|
  {
    if s != [] {
      CountComplement(s[1..], p);
    }
  }

  /** A filter that keeps every row satisfying `q` does not change how many rows satisfy `q`. */
  lemma {:induction false} CountFilterKeeping<T>(s: seq<T>, p: T -> bool, q: T -> bool)
    requires forall i :: 0 <= i < |s| && q(s[i]) ==> p(s[i])
    ensures Count(Filter(s, p), q) == Count(s, q)
  {
    if s != [] {
      var tail := s[1..];
      var ft := Filter(tail, p);
      assert forall i :: 0 <= i < |tail| ==> tail[i] == s[i + 1];
      CountFilterKeeping(tail, p, q);
      assert Count(s, q) == (if q(s[0]) then 1 else 0) + Count(tail, q);
      if p(s[0]) {
        assert Filter(s, p) == [s[0]] + ft;
        assert ([s[0]] + ft)[1..] == ft;
        assert Count([s[0]] + ft, q) == (if q(s[0]) then 1 else 0) + Count(ft, q);
      } else {
        assert !q(s[0]);
        assert Filter(s, p) == ft;
      }
    }
  }

  /** A filter that every row passes changes nothing. */
  lemma {:induction false} FilterAll<T>(s: seq<T>, p: T -> bool)
    requires forall i :: 0 <= i < |s| ==> p(s[i])
    ensures Filter(s, p) == s
  {
    if s != [] {
      FilterAll(s[1..], p);
    }
  }

  lemma {:induction false} FindAppend<T>(s: seq<T>, x: T, p: T -> bool)
    ensures Find(s + [x], p) == if Any(s, p) then Find(s, p) else if p(x) then Some(x) else None
  {
    if s != [] {
      assert (s + [x])[1..] == s[1..] + [x];
      FindAppend(s[1..], x, p);
    }
  }

  /** Under a unique key, the row found by its key is the one row holding it. */
  lemma {:induction false} FindUnique<T>(s: seq<T>, key: T -> string, i: nat)
    requires UniqueBy(s, key) && i < |s|
    ensures Find(s, KeyIs(key, key(s[i]))) == Some(s[i])
  {
    if i > 0 {
      assert s[1..][i - 1] == s[i];
      FindUnique(s[1..], key, i - 1);
    }
  }

  lemma AppendUnique<T>(s: seq<T>, x: T, key: T -> string)
    requires UniqueBy(s, key) && !Any(s, KeyIs(key, key(x)))
    ensures UniqueBy(s + [x], key)
  {
    forall i, j | 0 <= i < j < |s + [x]|
      ensures key((s + [x])[i]) != key((s + [x])[j])
    {
      if j == |s| {
        assert KeyIs(key, key(x))(s[i]) == (key(s[i]) == key(x));
      }
    }
  }

  lemma {:induction false} FilterUnique<T>(s: seq<T>, p: T -> bool, key: T -> string)
    requires UniqueBy(s, key)
    ensures UniqueBy(Filter(s, p), key)
  {
    if s != [] {
      FilterUnique(s[1..], p, key);
      var tail := Filter(s[1..], p);
      if p(s[0]) {
        forall y | y in tail ensures key(y) != key(s[0]) {
          FilterMembers(s[1..], p, y);
          var j :| 0 <= j < |s[1..]| && s[1..][j] == y;
          assert s[j + 1] == y;
        }
        var r := [s[0]] + tail;
        forall i, j | 0 <= i < j < |r| ensures key(r[i]) != key(r[j]) {
          assert r[j] == tail[j - 1] && r[j] in tail;
          if i > 0 { assert r[i] == tail[i - 1]; }
        }
      }
    }
  }

  lemma TailUnique<T>(s: seq<T>, key: T -> string)
    requires UniqueBy(s, key) && s != []
    ensures UniqueBy(s[1..], key)
  {
    forall i, j | 0 <= i < j < |s[1..]| ensures key(s[1..][i]) != key(s[1..][j]) {
      assert s[1..][i] == s[i + 1] && s[1..][j] == s[j + 1];
    }
  }

  lemma ConsUnique<T>(x: T, s: seq<T>, key: T -> string)
    requires UniqueBy(s, key)
    requires forall i :: 0 <= i < |s| ==> key(s[i]) != key(x)
    ensures UniqueBy([x] + s, key)
  {
    var r := [x] + s;
    forall i, j | 0 <= i < j < |r| ensures key(r[i]) != key(r[j]) {
      assert r[j] == s[j - 1];
      if i > 0 { assert r[i] == s[i - 1]; }
    }
  }

  lemma UpdateUnique<T>(s: seq<T>, p: T -> bool, f: T -> T, key: T -> string)
    requires UniqueBy(s, key)
    requires forall i :: 0 <= i < |s| && p(s[i]) ==> key(f(s[i])) == key(s[i])
    ensures UniqueBy(Update(s, p, f), key)
  {
  }
}
