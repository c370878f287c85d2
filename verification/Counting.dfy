/** Counting and summing over the threads of a step system. */
module Counting {

  /** The threads whose program point satisfies `p`. */
  ghost function Where<T>(m: map<nat, T>, p: T -> bool): set<nat> {
    set t | t in m && p(m[t])
  }

  ghost function Count<T>(m: map<nat, T>, p: T -> bool): nat {
    |Where(m, p)|
  }

  function Bit(b: bool): (n: int) {
    if b then 1 else 0
  }

  lemma CountUpdate<T>(m: map<nat, T>, t: nat, v: T, p: T -> bool)
    ensures Count(m[t := v], p) + (if t in m && p(m[t]) then 1 else 0) == Count(m, p) + (if p(v) then 1 else 0)
  {
    WhereUpdate(m, t, v, p);
    WithoutSize(Where(m, p), t);
    WithoutSize(Where(m[t := v], p), t);
  }

  lemma WhereUpdate<T>(m: map<nat, T>, t: nat, v: T, p: T -> bool)
    ensures Where(m, p) - {t} == Where(m[t := v], p) - {t}
    ensures t in Where(m[t := v], p) <==> p(v)
    ensures t in Where(m, p) <==> t in m && p(m[t])
  {
    forall u | u != t
      ensures u in Where(m, p) <==> u in Where(m[t := v], p)
    {
    }
  }

  lemma WithoutSize(s: set<nat>, t: nat)
    ensures |s| == |s - {t}| + if t in s then 1 else 0
  {
    if t in s {
      assert s == (s - {t}) + {t};
    } else {
      assert s == s - {t};
    }
  }

  lemma CountPositive<T>(m: map<nat, T>, t: nat, p: T -> bool)
    requires t in m && p(m[t])
    ensures Count(m, p) >= 1
  {
    assert t in Where(m, p);
  }

  lemma CountTwo<T>(m: map<nat, T>, t: nat, u: nat, p: T -> bool)
    requires t != u && t in m && u in m && p(m[t]) && p(m[u])
    ensures Count(m, p) >= 2
  {
    var rest := Where(m, p) - {t};
    assert u in rest;
    assert |rest| == |Where(m, p)| - 1;
  }

  lemma CountWitness<T>(m: map<nat, T>, p: T -> bool) returns (t: nat)
    requires Count(m, p) >= 1
    ensures t in m && p(m[t])
  {
    t :| t in Where(m, p);
  }

  lemma CountMonotone<T>(m: map<nat, T>, p: T -> bool, q: T -> bool)
    requires forall t :: t in m && p(m[t]) ==> q(m[t])
    ensures Count(m, p) <= Count(m, q)
  {
    SubsetSize(Where(m, p), Where(m, q));
  }

  lemma SubsetSize<T>(a: set<T>, b: set<T>)
    requires a <= b
    ensures |a| <= |b| && (|a| == |b| ==> a == b)
  {
    assert b == a + (b - a);
    if |a| == |b| {
      assert b - a == {};
    }
  }

  ghost function Sum<T>(m: map<nat, T>, f: T -> nat): nat
    decreases |m|
  {
    if m == map[] then 0
    else
      var t :| t in m;
      f(m[t]) + Sum(m - {t}, f)
  }

  lemma {:induction false} SumRemove<T>(m: map<nat, T>, t: nat, f: T -> nat)
    requires t in m
    ensures Sum(m, f) == f(m[t]) + Sum(m - {t}, f)
    decreases |m|
  {
    var u :| u in m && Sum(m, f) == f(m[u]) + Sum(m - {u}, f);
    if u != t {
      SumRemove(m - {u}, t, f);
      SumRemove(m - {t}, u, f);
      assert m - {u} - {t} == m - {t} - {u};
    }
  }

  lemma SumUpdate<T>(m: map<nat, T>, t: nat, v: T, f: T -> nat)
    requires t in m
    ensures Sum(m[t := v], f) + f(m[t]) == Sum(m, f) + f(v)
  {
    SumRemove(m, t, f);
    SumRemove(m[t := v], t, f);
    assert m[t := v] - {t} == m - {t};
  }
}
