/** Wrappers, orders and finite sums shared by the models of the runtime's components. */
module Foundations {

  datatype Option<+T> = None | Some(value: T)

  datatype Result<+T, +E> = Ok(value: T) | Err(error: E)

  newtype byte = x: int | 0 <= x < 256

  function Max(a: int, b: int): int { if a >= b then a else b }

  function Min(a: int, b: int): int { if a <= b then a else b }

  /** `dict.get(key, default)`. */
  function Get<K, V>(m: map<K, V>, k: K, default: V): V {
    if k in m then m[k] else default
  }

  // ---------------------------------------------------------------- orders

  ghost predicate TotalOrder<T(!new)>(le: (T, T) -> bool) {
    && (forall a, b :: le(a, b) || le(b, a))
    && (forall a, b :: le(a, b) && le(b, a) ==> a == b)
    && (forall a, b, c :: le(a, b) && le(b, c) ==> le(a, c))
  }

  ghost predicate IsLeast<T>(s: set<T>, le: (T, T) -> bool, m: T) {
    m in s && forall x :: x in s ==> le(m, x)
  }

  /** `min(s)`, or the first row of `ORDER BY ... LIMIT 1`. */
  method Least<T(!new, ==)>(s: set<T>, le: (T, T) -> bool) returns (m: T)
    requires s != {} && TotalOrder(le)
    ensures IsLeast(s, le, m)
  {
    m :| m in s;
    var rest := s - {m};
    while rest != {}
      invariant m in s && rest <= s
      invariant forall x :: x in s - rest ==> le(m, x)
    {
      var x :| x in rest;
      if le(x, m) { m := x; }
      rest := rest - {x};
    }
  }

  lemma LeastExists<T(!new)>(s: set<T>, le: (T, T) -> bool) returns (m: T)
    requires s != {} && TotalOrder(le)
    ensures IsLeast(s, le, m)
  {
    var first :| first in s;
    m := first;
    if s != {first} {
      var other := LeastExists(s - {first}, le);
      assert forall x :: x in s ==> x == first || x in s - {first};
      if le(other, first) { m := other; }
    }
  }

  /** `sorted(s)` of a set of keys. */
  ghost function Sorted<T(!new)>(s: set<T>, le: (T, T) -> bool): seq<T>
    requires TotalOrder(le)
  {
    if s == {} then [] else
      assert exists m :: IsLeast(s, le, m) by { var _ := LeastExists(s, le); }
      var m :| IsLeast(s, le, m);
      [m] + Sorted(s - {m}, le)
  }

  /** It is strictly increasing and lists exactly the keys of `s`. */
  lemma {:induction false} SortedIsSorted<T(!new)>(s: set<T>, le: (T, T) -> bool)
    requires TotalOrder(le)
    ensures forall x :: x in Sorted(s, le) <==> x in s
    ensures forall i, j :: 0 <= i < j < |Sorted(s, le)| ==>
      le(Sorted(s, le)[i], Sorted(s, le)[j]) && Sorted(s, le)[i] != Sorted(s, le)[j]
  {
    if s != {} {
      var m := LeastExists(s, le);
      SortedHead(s, le, m);
      SortedIsSorted(s - {m}, le);
    }
  }

  lemma SortedHead<T(!new)>(s: set<T>, le: (T, T) -> bool, m: T)
    requires TotalOrder(le) && IsLeast(s, le, m)
    ensures Sorted(s, le) == [m] + Sorted(s - {m}, le)
  {
  }

  method Sort<T(!new, ==)>(s: set<T>, le: (T, T) -> bool) returns (order: seq<T>)
    requires TotalOrder(le)
    ensures order == Sorted(s, le)
  {
    order := [];
    var rest := s;
    while rest != {}
      invariant order + Sorted(rest, le) == Sorted(s, le)
    {
      var m := Least(rest, le);
      SortedHead(rest, le, m);
      assert order + ([m] + Sorted(rest - {m}, le)) == (order + [m]) + Sorted(rest - {m}, le);
      order := order + [m];
      rest := rest - {m};
    }
  }

  /** Code-point order on strings: Python's `str` comparison and MySQL's `utf8mb4_bin` collation. */
  predicate StringLe(a: string, b: string) {
    if a == "" then true
    else if b == "" then false
    else if a[0] != b[0] then a[0] < b[0]
    else StringLe(a[1..], b[1..])
  }

  lemma {:induction false} StringLeTotal(a: string, b: string)
    ensures StringLe(a, b) || StringLe(b, a)
  {
    if a != "" && b != "" && a[0] == b[0] { StringLeTotal(a[1..], b[1..]); }
  }

  lemma {:induction false} StringLeAntisymmetric(a: string, b: string)
    requires StringLe(a, b) && StringLe(b, a)
    ensures a == b
  {
    if a != "" && b != "" {
      StringLeAntisymmetric(a[1..], b[1..]);
      assert a == [a[0]] + a[1..] && b == [b[0]] + b[1..];
    }
  }

  lemma {:induction false} StringLeTransitive(a: string, b: string, c: string)
    requires StringLe(a, b) && StringLe(b, c)
    ensures StringLe(a, c)
  {
    if a != "" && b != "" && c != "" && a[0] == b[0] == c[0] {
      StringLeTransitive(a[1..], b[1..], c[1..]);
    }
  }

  lemma StringLeIsOrder()
    ensures TotalOrder(StringLe)
  {
    forall a, b ensures StringLe(a, b) || StringLe(b, a) { StringLeTotal(a, b); }
    forall a, b | StringLe(a, b) && StringLe(b, a) ensures a == b { StringLeAntisymmetric(a, b); }
    forall a, b, c | StringLe(a, b) && StringLe(b, c) ensures StringLe(a, c) { StringLeTransitive(a, b, c); }
  }

  // ------------------------------------------------------------------ sums

  /** `sum(m.values())`. */
  ghost function Sum<K>(m: map<K, int>): int {
    if m == map[] then 0 else
      var k :| k in m;
      m[k] + Sum(m - {k})
  }

  lemma {:induction false} SumRemove<K>(m: map<K, int>, k: K)
    requires k in m
    ensures Sum(m) == m[k] + Sum(m - {k})
    decreases |m|
  {
    var p :| p in m && Sum(m) == m[p] + Sum(m - {p});
    if p != k {
      SumRemove(m - {p}, k);
      SumRemove(m - {k}, p);
      assert m - {p} - {k} == m - {k} - {p};
    }
  }

  lemma SumUpdate<K>(m: map<K, int>, k: K, v: int)
    ensures Sum(m[k := v]) == Sum(m) - Get(m, k, 0) + v
  {
    SumRemove(m[k := v], k);
    assert m[k := v] - {k} == m - {k};
    if k in m { SumRemove(m, k); } else { assert m - {k} == m; }
  }

  lemma SumUnion<K>(a: map<K, int>, b: map<K, int>)
    requires a.Keys !! b.Keys
    ensures Sum(a + b) == Sum(a) + Sum(b)
  {
    SumUnionOver(a, b, b.Keys);
    assert b - b.Keys == map[];
    assert (a + b) - b.Keys == a;
  }

  lemma {:induction false} SumUnionOver<K>(a: map<K, int>, b: map<K, int>, ks: set<K>)
    requires a.Keys !! b.Keys && ks <= b.Keys
    ensures Sum(a + b) - Sum((a + b) - ks) == Sum(b) - Sum(b - ks)
    decreases |ks|
  {
    if ks == {} {
      assert (a + b) - ks == a + b && b - ks == b;
    } else {
      var k :| k in ks;
      SumUnionOver(a, b, ks - {k});
      var whole, part := (a + b) - (ks - {k}), b - (ks - {k});
      SumRemove(whole, k);
      SumRemove(part, k);
      assert whole - {k} == (a + b) - ks && part - {k} == b - ks;
    }
  }

  // ---------------------------------------------------------------- slices

  /** Python's `s[:n]`: a negative bound counts from the end. */
  function Slice<T>(s: seq<T>, n: int): (r: seq<T>)
    ensures r <= s
  {
    if n >= 0 then s[..Min(n, |s|)] else s[..Max(|s| + n, 0)]
  }

  function Pow2(n: nat): (r: nat)
    ensures r >= 1
  {
    if n == 0 then 1 else 2 * Pow2(n - 1)
  }
}
