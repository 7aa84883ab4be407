/** Ordering of the page sections: `[...sections].sort((a, b) => a.order - b.order)`,
    as App.tsx, AdminPanel.tsx and AdminSectionManager.tsx each write it.
    `Array.prototype.sort` is stable, so sections with equal `order` keep
    their relative order. */
module Sections {
  import opened Types

  predicate SortedByOrder(s: seq<SectionConfig>) {
    forall i, j :: 0 <= i < j < |s| ==> s[i].order <= s[j].order
  }

  /** The sections have pairwise distinct `order` values. */
  predicate DistinctOrders(s: seq<SectionConfig>) {
    forall i, j :: 0 <= i < j < |s| ==> s[i].order != s[j].order
  }

  /** The sections of `s` whose `order` is `v`, in the order of `s`. */
  function WithOrder(s: seq<SectionConfig>, v: int): seq<SectionConfig>
  {
    if |s| == 0 then []
    else (if s[0].order == v then [s[0]] else []) + WithOrder(s[1..], v)
  }

  /** Puts `x` in front of the first section whose order is not smaller. */
  function Insert(x: SectionConfig, t: seq<SectionConfig>): seq<SectionConfig>
  {
    if |t| == 0 || x.order <= t[0].order then [x] + t
    else [t[0]] + Insert(x, t[1..])
  }

  /** Inserting into a sorted list keeps it sorted and adds exactly `x`. */
  lemma {:induction false} InsertSpec(x: SectionConfig, t: seq<SectionConfig>)
    requires SortedByOrder(t)
    ensures SortedByOrder(Insert(x, t))
    ensures multiset(Insert(x, t)) == multiset(t) + multiset{x}
    ensures |Insert(x, t)| == |t| + 1
  {
    InsertSorted(x, t);
    InsertCounts(x, t);
  }

  /** The sortedness half of `InsertSpec`. */
  lemma {:induction false} InsertSorted(x: SectionConfig, t: seq<SectionConfig>)
    requires SortedByOrder(t)
    ensures SortedByOrder(Insert(x, t))
  {
    if |t| > 0 && t[0].order < x.order {
      var rest := Insert(x, t[1..]);
      InsertSorted(x, t[1..]);
      InsertAbove(x, t[1..], t[0].order);
      assert Insert(x, t) == [t[0]] + rest;
    }
  }

  /** The counting half of `InsertSpec`; it holds for any list. */
  lemma {:induction false} InsertCounts(x: SectionConfig, t: seq<SectionConfig>)
    ensures multiset(Insert(x, t)) == multiset(t) + multiset{x}
    ensures |Insert(x, t)| == |t| + 1
  {
    if |t| > 0 && t[0].order < x.order {
      InsertCounts(x, t[1..]);
      assert Insert(x, t) == [t[0]] + Insert(x, t[1..]);
      assert t == [t[0]] + t[1..];
    }
  }

  /** A bound below `x` and every element of `t` stays below every
      element after the insertion. */
  lemma {:induction false} InsertAbove(x: SectionConfig, t: seq<SectionConfig>, b: int)
    requires b <= x.order && forall k :: 0 <= k < |t| ==> b <= t[k].order
    ensures forall k :: 0 <= k < |Insert(x, t)| ==> b <= Insert(x, t)[k].order
  {
    if |t| > 0 && t[0].order < x.order {
      InsertAbove(x, t[1..], b);
      assert Insert(x, t) == [t[0]] + Insert(x, t[1..]);
    }
  }

  /** The stable ascending sort by `order`: the result is sorted and a
      permutation of the input. */
  function SortByOrder(s: seq<SectionConfig>): (r: seq<SectionConfig>)
    ensures SortedByOrder(r)
    ensures multiset(r) == multiset(s)
    ensures |r| == |s|
  {
    if |s| == 0 then []
    else
      assert s == [s[0]] + s[1..];
      InsertSpec(s[0], SortByOrder(s[1..]));
      Insert(s[0], SortByOrder(s[1..]))
  }

  /** Inserting `x` in front of its equals keeps it before them. */
  lemma {:induction false} InsertStable(x: SectionConfig, t: seq<SectionConfig>, v: int)
    ensures WithOrder(Insert(x, t), v) == (if x.order == v then [x] else []) + WithOrder(t, v)
  {
    var ax := if x.order == v then [x] else [];
    if |t| == 0 || x.order <= t[0].order {
      assert Insert(x, t) == [x] + t;
      WithOrderCons(x, t, v);
    } else {
      var rest := Insert(x, t[1..]);
      var a0 := if t[0].order == v then [t[0]] else [];
      assert Insert(x, t) == [t[0]] + rest;
      assert t == [t[0]] + t[1..];
      InsertStable(x, t[1..], v);
      WithOrderCons(t[0], rest, v);
      WithOrderCons(t[0], t[1..], v);
      assert a0 + ax == ax + a0 by {
        assert a0 == [] || ax == [];
      }
      calc {
        WithOrder(Insert(x, t), v);
        a0 + WithOrder(rest, v);
        a0 + (ax + WithOrder(t[1..], v));
        (a0 + ax) + WithOrder(t[1..], v);
        (ax + a0) + WithOrder(t[1..], v);
        ax + (a0 + WithOrder(t[1..], v));
        ax + WithOrder(t, v);
      }
    }
  }

  /** Filtering a list with one more section in front. */
  lemma WithOrderCons(a: SectionConfig, s: seq<SectionConfig>, v: int)
    ensures WithOrder([a] + s, v) == (if a.order == v then [a] else []) + WithOrder(s, v)
  {
    assert ([a] + s)[1..] == s;
  }

  /** Stability: for every order value, the sections carrying it appear in
      the sorted list in the same relative order as in the input. */
  lemma {:induction false} SortIsStable(s: seq<SectionConfig>, v: int)
    ensures WithOrder(SortByOrder(s), v) == WithOrder(s, v)
  {
    if |s| > 0 {
      SortIsStable(s[1..], v);
      InsertStable(s[0], SortByOrder(s[1..]), v);
    }
  }

  /** A list that is already sorted is left as it is. */
  lemma {:induction false} SortOfSorted(s: seq<SectionConfig>)
    requires SortedByOrder(s)
    ensures SortByOrder(s) == s
  {
    if |s| > 0 {
      SortOfSorted(s[1..]);
      assert s == [s[0]] + s[1..];
    }
  }

  /** A section with order `v` turns up when filtering for `v`. */
  lemma {:induction false} WithOrderMember(s: seq<SectionConfig>, v: int)
    requires WithOrder(s, v) != []
    ensures exists k :: 0 <= k < |s| && s[k].order == v
  {
    if s[0].order != v {
      WithOrderMember(s[1..], v);
      var k :| 0 <= k < |s[1..]| && s[1..][k].order == v;
      assert s[k + 1].order == v;
    }
  }

  /** Two sorted lists of the same length that agree on the sections of
      every order value are the same list. */
  lemma {:induction false} SortedUnique(a: seq<SectionConfig>, b: seq<SectionConfig>)
    requires SortedByOrder(a) && SortedByOrder(b)
    requires |a| == |b|
    requires forall v :: WithOrder(a, v) == WithOrder(b, v)
    ensures a == b
    decreases |a|
  {
    if |a| > 0 {
      var m, n := a[0].order, b[0].order;
      assert WithOrder(a, m)[0] == a[0];
      WithOrderMember(b, m);
      assert WithOrder(b, n)[0] == b[0];
      WithOrderMember(a, n);
      assert m == n;
      assert a[0] == b[0];
      forall v ensures WithOrder(a[1..], v) == WithOrder(b[1..], v) {
        assert WithOrder(a, v) == WithOrder(b, v);
        if v == m {
          assert WithOrder(a, v) == [a[0]] + WithOrder(a[1..], v);
          assert WithOrder(b, v) == [b[0]] + WithOrder(b[1..], v);
          assert ([a[0]] + WithOrder(a[1..], v))[1..] == WithOrder(a[1..], v);
          assert ([b[0]] + WithOrder(b[1..], v))[1..] == WithOrder(b[1..], v);
        } else {
          assert WithOrder(a, v) == WithOrder(a[1..], v);
          assert WithOrder(b, v) == WithOrder(b[1..], v);
        }
      }
      SortedUnique(a[1..], b[1..]);
      assert a == [a[0]] + a[1..] && b == [b[0]] + b[1..];
    }
  }

  /** The sort is characterised by its properties: a sorted permutation
      that keeps each order value's sections in input order is the sort. */
  lemma SortCharacterized(s: seq<SectionConfig>, r: seq<SectionConfig>)
    requires SortedByOrder(r)
    requires |r| == |s|
    requires forall v :: WithOrder(r, v) == WithOrder(s, v)
    ensures r == SortByOrder(s)
  {
    forall v ensures WithOrder(r, v) == WithOrder(SortByOrder(s), v) {
      SortIsStable(s, v);
    }
    SortedUnique(r, SortByOrder(s));
  }
}
