/**
 * Generic sequence operations standing for the JavaScript array methods
 * the site uses: `filter`, `slice(0, n)`, a stable `sort` with a
 * descending numeric comparator, and de-duplication through a `Set`.
 */
module Seqs {

  /** `r` is obtained from `s` by deleting elements; what is kept keeps its order. */
  ghost predicate IsSubseq<T>(r: seq<T>, s: seq<T>)
    decreases |s|
  {
    r == [] || (s != [] && (IsSubseq(r, s[1..]) || (r[0] == s[0] && IsSubseq(r[1..], s[1..]))))
  }

  lemma {:induction false} SubseqTransitive<T>(a: seq<T>, b: seq<T>, c: seq<T>)
    requires IsSubseq(a, b) && IsSubseq(b, c)
    ensures IsSubseq(a, c)
    decreases |c|
  {
    if a == [] {
    } else if IsSubseq(b, c[1..]) {
      SubseqTransitive(a, b, c[1..]);
    } else {
      assert b[0] == c[0] && IsSubseq(b[1..], c[1..]);
      if IsSubseq(a, b[1..]) {
        SubseqTransitive(a, b[1..], c[1..]);
      } else {
        SubseqTransitive(a[1..], b[1..], c[1..]);
      }
    }
  }

  lemma {:induction false} SubseqReflexive<T>(s: seq<T>)
    ensures IsSubseq(s, s)
  {
    if s != [] {
      SubseqReflexive(s[1..]);
    }
  }

  lemma {:induction false} PrefixIsSubseq<T>(s: seq<T>, n: nat)
    requires n <= |s|
    ensures IsSubseq(s[..n], s)
  {
    if n > 0 {
      PrefixIsSubseq(s[1..], n - 1);
      assert s[..n][1..] == s[1..][..n - 1];
    }
  }

  /** `s.filter(p)` */
  function Filter<T>(s: seq<T>, p: T -> bool): (r: seq<T>)
    ensures |r| <= |s|
    ensures forall i :: 0 <= i < |r| ==> r[i] in s && p(r[i])
    ensures forall i :: 0 <= i < |s| && p(s[i]) ==> s[i] in r
    ensures multiset(r) <= multiset(s)
  {
    if s == [] then []
    else if p(s[0]) then
      assert s == [s[0]] + s[1..];
      [s[0]] + Filter(s[1..], p)
    else
      assert s == [s[0]] + s[1..];
      Filter(s[1..], p)
  }

  /** Filtering keeps the order of what it keeps. */
  lemma {:induction false} FilterIsSubseq<T>(s: seq<T>, p: T -> bool)
    ensures IsSubseq(Filter(s, p), s)
  {
    if s != [] {
      FilterIsSubseq(s[1..], p);
    }
  }

  /** A filter that every element passes returns its input. */
  lemma {:induction false} FilterAll<T>(s: seq<T>, p: T -> bool)
    requires forall x :: x in s ==> p(x)
    ensures Filter(s, p) == s
  {
    if s != [] {
      FilterAll(s[1..], p);
    }
  }

  /** Two predicates that agree on the elements of `s` filter it alike. */
  lemma {:induction false} FilterExtensional<T>(s: seq<T>, p: T -> bool, q: T -> bool)
    requires forall x :: x in s ==> p(x) == q(x)
    ensures Filter(s, p) == Filter(s, q)
  {
    if s != [] {
      FilterExtensional(s[1..], p, q);
    }
  }

  /** A filter that no element passes returns nothing. */
  lemma {:induction false} FilterNone<T>(s: seq<T>, p: T -> bool)
    requires forall i :: 0 <= i < |s| ==> !p(s[i])
    ensures Filter(s, p) == []
  {
    if s != [] {
      assert forall i :: 0 <= i < |s[1..]| ==> s[1..][i] == s[i + 1];
      FilterNone(s[1..], p);
    }
  }

  lemma FilterCons<T>(x: T, s: seq<T>, p: T -> bool)
    ensures Filter([x] + s, p) == (if p(x) then [x] else []) + Filter(s, p)
  {
    assert ([x] + s)[1..] == s;
  }

  lemma {:induction false} FilterAppend<T>(s: seq<T>, x: T, p: T -> bool)
    ensures Filter(s + [x], p) == Filter(s, p) + (if p(x) then [x] else [])
  {
    if s == [] {
      assert [x][1..] == [];
    } else {
      assert (s + [x])[1..] == s[1..] + [x];
      FilterAppend(s[1..], x, p);
    }
  }

  /**
   * Splitting a filter into two disjoint filters: what passes `p` is what
   * passes exactly one of `a` and `b`.
   */
  lemma {:induction false} FilterSplit<T>(s: seq<T>, p: T -> bool, a: T -> bool, b: T -> bool)
    requires forall i :: 0 <= i < |s| ==> (p(s[i]) <==> a(s[i]) || b(s[i])) && !(a(s[i]) && b(s[i]))
    ensures multiset(Filter(s, a)) + multiset(Filter(s, b)) == multiset(Filter(s, p))
    ensures |Filter(s, a)| + |Filter(s, b)| == |Filter(s, p)|
  {
    if s != [] {
      assert forall i :: 0 <= i < |s[1..]| ==> s[1..][i] == s[i + 1];
      FilterSplit(s[1..], p, a, b);
    }
  }

  /** `s.slice(0, n)` */
  function Take<T>(s: seq<T>, n: nat): (r: seq<T>)
    ensures |r| == if n <= |s| then n else |s|
    ensures r == s[..|r|]
  {
    if n <= |s| then s[..n] else s
  }

  lemma PrefixMultiset<T>(s: seq<T>, k: nat)
    requires k <= |s|
    ensures multiset(s[..k]) <= multiset(s)
  {
    assert s == s[..k] + s[k..];
  }

  lemma TakeIsSubseq<T>(s: seq<T>, n: nat)
    ensures IsSubseq(Take(s, n), s)
    ensures multiset(Take(s, n)) <= multiset(s)
  {
    var r := Take(s, n);
    PrefixIsSubseq(s, |r|);
    assert s == r + s[|r|..];
  }

  /** Non-increasing by `key`: what a comparator `(a, b) => key(b) - key(a)` sorts into. */
  ghost predicate SortedDesc<T>(s: seq<T>, key: T -> int) {
    forall i, j :: 0 <= i < j < |s| ==> key(s[i]) >= key(s[j])
  }

  /** A prefix of a sorted sequence keeps its largest keys: whatever is cut has a key no greater than anything kept. */
  lemma TakeSortedKeepsLargest<T>(s: seq<T>, n: nat, key: T -> int)
    requires SortedDesc(s, key)
    ensures SortedDesc(Take(s, n), key)
    ensures forall g, h :: g in s && g !in Take(s, n) && h in Take(s, n) ==> key(g) <= key(h)
  {
    var r := Take(s, n);
    forall g, h | g in s && g !in r && h in r ensures key(g) <= key(h) {
      var j :| 0 <= j < |s| && s[j] == g;
      var i :| 0 <= i < |r| && r[i] == h;
      assert s[i] == h;
      assert j >= |r|;
    }
  }

  /** Puts `x` in front of the first element whose key is not above its own. */
  function Insert<T>(x: T, t: seq<T>, key: T -> int): seq<T>
  {
    if t == [] || key(x) >= key(t[0]) then
      [x] + t
    else
      [t[0]] + Insert(x, t[1..], key)
  }

  /** Inserting adds exactly one occurrence of `x`. */
  lemma {:induction false} InsertPermutes<T>(x: T, t: seq<T>, key: T -> int)
    ensures multiset(Insert(x, t, key)) == multiset(t) + multiset{x}
    ensures |Insert(x, t, key)| == |t| + 1
  {
    if t != [] && key(x) < key(t[0]) {
      InsertPermutes(x, t[1..], key);
      assert t == [t[0]] + t[1..];
    }
  }

  /** One step of `Insert` past an element whose key is above that of `x`. */
  lemma InsertPasses<T>(x: T, t: seq<T>, key: T -> int, k: nat)
    requires k < |t| && key(t[k]) > key(x)
    ensures Insert(x, t[k..], key) == [t[k]] + Insert(x, t[k + 1..], key)
  {
    assert t[k..][1..] == t[k + 1..];
  }

  /** `Insert` passes over a leading run of elements whose keys are above that of `x`. */
  lemma {:induction false} InsertSkips<T>(x: T, t: seq<T>, key: T -> int, k: nat)
    requires k <= |t|
    requires forall m :: 0 <= m < k ==> key(t[m]) > key(x)
    ensures Insert(x, t, key) == t[..k] + Insert(x, t[k..], key)
  {
    if k == 0 {
      assert t[..0] == [] && t[0..] == t;
    } else {
      calc {
        Insert(x, t, key);
        { InsertSkips(x, t, key, k - 1); }
        t[..k - 1] + Insert(x, t[k - 1..], key);
        { InsertPasses(x, t, key, k - 1); }
        t[..k - 1] + ([t[k - 1]] + Insert(x, t[k..], key));
        (t[..k - 1] + [t[k - 1]]) + Insert(x, t[k..], key);
        { assert t[..k] == t[..k - 1] + [t[k - 1]]; }
        t[..k] + Insert(x, t[k..], key);
      }
    }
  }

  /** `r` is `t` with `x` placed at `k`, past a run of keys above its own and before one that is not. */
  lemma PlacedIsInsert<T>(r: seq<T>, x: T, t: seq<T>, k: nat, key: T -> int)
    requires k <= |t| && |r| == |t| + 1
    requires forall m :: 0 <= m < k ==> r[m] == t[m] && key(t[m]) > key(x)
    requires r[k] == x
    requires forall m :: k < m < |r| ==> r[m] == t[m - 1]
    requires k == |t| || key(t[k]) <= key(x)
    ensures r == Insert(x, t, key)
  {
    var placed := t[..k] + ([x] + t[k..]);
    assert r == placed by {
      forall m | 0 <= m < |r| ensures r[m] == placed[m] {
        if m > k {
          assert placed[m] == t[m - 1];
        }
      }
    }
    calc {
      Insert(x, t, key);
    == { InsertSkips(x, t, key, k); }
      t[..k] + Insert(x, t[k..], key);
    == { if k < |t| { assert t[k..][0] == t[k]; } }
      placed;
    }
  }

  /** Putting `h` in front of a sorted `rest` whose keys it bounds keeps it sorted. */
  lemma ConsSorted<T>(h: T, rest: seq<T>, key: T -> int)
    requires SortedDesc(rest, key)
    requires forall y :: y in rest ==> key(h) >= key(y)
    ensures SortedDesc([h] + rest, key)
  {
    var r := [h] + rest;
    forall i, j | 0 <= i < j < |r| ensures key(r[i]) >= key(r[j]) {
      assert r[j] == rest[j - 1];
      if i > 0 {
        assert r[i] == rest[i - 1];
      }
    }
  }

  lemma {:induction false} InsertSorted<T>(x: T, t: seq<T>, key: T -> int)
    requires SortedDesc(t, key)
    ensures SortedDesc(Insert(x, t, key), key)
  {
    if t == [] || key(x) >= key(t[0]) {
      ConsSorted(x, t, key);
    } else {
      var rest := Insert(x, t[1..], key);
      InsertSorted(x, t[1..], key);
      InsertPermutes(x, t[1..], key);
      forall y | y in rest ensures key(t[0]) >= key(y) {
        assert y in multiset(rest);
        assert y == x || y in t[1..];
      }
      ConsSorted(t[0], rest, key);
    }
  }

  /**
   * `[...s].sort((a, b) => key(b) - key(a))`. ECMAScript requires `sort`
   * to be stable, so elements with equal keys keep their input order; an
   * insertion sort from the back gives that order.
   */
  function SortDesc<T>(s: seq<T>, key: T -> int): (r: seq<T>)
    ensures multiset(r) == multiset(s)
    ensures |r| == |s|
    ensures SortedDesc(r, key)
  {
    if s == [] then []
    else
      assert s == [s[0]] + s[1..];
      var rest := SortDesc(s[1..], key);
      InsertSorted(s[0], rest, key);
      InsertPermutes(s[0], rest, key);
      Insert(s[0], rest, key)
  }

  /** The step of `InsertStable` where `Insert` passes over the head `h` of `t`. */
  lemma InsertStableStep<T>(x: T, h: T, tail: seq<T>, rest: seq<T>, p: T -> bool)
    requires Filter(rest, p) == (if p(x) then [x] else []) + Filter(tail, p)
    requires !p(x) || !p(h)
    ensures Filter([h] + rest, p) == (if p(x) then [x] else []) + Filter([h] + tail, p)
  {
    FilterCons(h, rest, p);
    FilterCons(h, tail, p);
  }

  lemma {:induction false} InsertStable<T>(x: T, t: seq<T>, key: T -> int, v: int)
    ensures var p := y => key(y) == v;
      Filter(Insert(x, t, key), p) == (if p(x) then [x] else []) + Filter(t, p)
  {
    var p := y => key(y) == v;
    if t == [] || key(x) >= key(t[0]) {
      assert Insert(x, t, key) == [x] + t;
      FilterCons(x, t, p);
    } else {
      var rest := Insert(x, t[1..], key);
      calc {
        Filter(Insert(x, t, key), p);
      == { assert Insert(x, t, key) == [t[0]] + rest; }
        Filter([t[0]] + rest, p);
      == { InsertStable(x, t[1..], key, v);
           InsertStableStep(x, t[0], t[1..], rest, p); }
        (if p(x) then [x] else []) + Filter([t[0]] + t[1..], p);
      == { assert [t[0]] + t[1..] == t; }
        (if p(x) then [x] else []) + Filter(t, p);
      }
    }
  }

  /** Sorting is stable: among elements with one key, the output keeps the input order. */
  lemma {:induction false} SortDescStable<T>(s: seq<T>, key: T -> int, v: int)
    ensures Filter(SortDesc(s, key), y => key(y) == v) == Filter(s, y => key(y) == v)
  {
    if s != [] {
      SortDescStable(s[1..], key, v);
      InsertStable(s[0], SortDesc(s[1..], key), key, v);
    }
  }

  /** No element occurs twice. */
  ghost predicate Distinct<T>(s: seq<T>) {
    forall i, j :: 0 <= i < j < |s| ==> s[i] != s[j]
  }

  /** The index of the first occurrence of `x` in `s`. */
  function IndexOf<T(==)>(s: seq<T>, x: T): (k: nat)
    requires x in s
    ensures k < |s| && s[k] == x && x !in s[..k]
  {
    if s[0] == x then 0 else 1 + IndexOf(s[1..], x)
  }

  lemma {:induction false} IndexOfAppend<T>(s: seq<T>, x: T, y: T)
    requires y in s
    ensures IndexOf(s + [x], y) == IndexOf(s, y)
  {
    if s[0] != y {
      assert (s + [x])[1..] == s[1..] + [x];
      IndexOfAppend(s[1..], x, y);
    }
  }

  /**
   * `[...new Set(s)]`: a `Set` remembers insertion order and ignores an
   * element it already holds, so each value is kept at its first appearance.
   */
  function Dedup<T(==)>(s: seq<T>): (r: seq<T>)
    ensures forall i :: 0 <= i < |r| ==> r[i] in s
    ensures forall i :: 0 <= i < |s| ==> s[i] in r
    ensures Distinct(r)
  {
    if s == [] then []
    else
      var init, last := s[..|s| - 1], s[|s| - 1];
      assert s == init + [last];
      var d := Dedup(init);
      if last in init then d else d + [last]
  }

  /** The de-duplicated values appear in the order in which they first occur. */
  lemma {:induction false} DedupFirstAppearance<T>(s: seq<T>)
    ensures forall i, j :: 0 <= i < j < |Dedup(s)| ==> IndexOf(s, Dedup(s)[i]) < IndexOf(s, Dedup(s)[j])
  {
    if s != [] {
      var init, last := s[..|s| - 1], s[|s| - 1];
      assert s == init + [last];
      DedupFirstAppearance(init);
      var d := Dedup(init);
      forall y | y in init ensures IndexOf(s, y) == IndexOf(init, y) && IndexOf(init, y) < |init| {
        IndexOfAppend(init, last, y);
      }
      if last !in init {
        var k := IndexOf(s, last);
        assert k == |init|;
      }
    }
  }
}
