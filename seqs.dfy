/**
 * The array and map idioms the stores are written with: `Array.prototype.filter`,
 * a stable descending `sort` on a numeric key, `slice(0, n)`, and filling a
 * `Map` by `forEach(x => map.set(id(x), x))`.
 */
module Seqs {

  /** `s.filter(p)`: keeps, in order, the elements that satisfy `p`. */
  function Filter<T(!new)>(s: seq<T>, p: T -> bool): (r: seq<T>)
    ensures |r| <= |s|
  {
    if s == [] then []
    else
      var rest := Filter(s[1..], p);
      assert s == [s[0]] + s[1..];
      if p(s[0]) then [s[0]] + rest else rest
  }

  /**
   * A filtered list holds each element that passes as often as the input does,
   * and nothing else.
   */
  lemma {:induction false} FilterMultiset<T(!new)>(s: seq<T>, p: T -> bool)
    ensures forall x :: multiset(Filter(s, p))[x] == if p(x) then multiset(s)[x] else 0
    ensures forall x :: x in Filter(s, p) <==> x in s && p(x)
  {
    if s != [] {
      FilterMultiset(s[1..], p);
      assert s == [s[0]] + s[1..];
    }
  }

  /** No element has a larger key than an element before it. */
  predicate SortedDesc<T>(s: seq<T>, key: T -> int) {
    forall i, j :: 0 <= i < j < |s| ==> key(s[i]) >= key(s[j])
  }

  /** Puts `x` in front of the first element whose key is not larger than its own. */
  function InsertDesc<T(!new)>(x: T, s: seq<T>, key: T -> int): (r: seq<T>)
    requires SortedDesc(s, key)
    ensures SortedDesc(r, key)
    ensures multiset(r) == multiset(s) + multiset{x}
  {
    if s == [] || key(s[0]) <= key(x) then [x] + s
    else
      var rest := InsertDesc(x, s[1..], key);
      assert s == [s[0]] + s[1..];
      assert multiset([s[0]] + rest) == multiset{s[0]} + multiset(rest);
      HeadAboveRest(x, s, rest, key);
      [s[0]] + rest
  }

  /**
   * The step of `InsertDesc` that keeps the order: the head of `s` is not below
   * anything that inserting `x` into the tail of `s` produced.
   */
  lemma HeadAboveRest<T>(x: T, s: seq<T>, rest: seq<T>, key: T -> int)
    requires |s| > 0 && SortedDesc(s, key) && key(x) < key(s[0])
    requires SortedDesc(rest, key) && multiset(rest) == multiset(s[1..]) + multiset{x}
    ensures SortedDesc([s[0]] + rest, key)
  {
    forall y | y in rest
      ensures key(y) <= key(s[0])
    {
      assert y in multiset(rest);
      if y != x {
        assert y in multiset(s[1..]);
        var j :| 0 <= j < |s[1..]| && s[1..][j] == y;
        assert s[j + 1] == y;
      }
    }
    var r := [s[0]] + rest;
    forall i, j | 0 <= i < j < |r|
      ensures key(r[i]) >= key(r[j])
    {
      if i == 0 {
        assert r[j] == rest[j - 1] && r[j] in rest;
      } else {
        assert r[i] == rest[i - 1] && r[j] == rest[j - 1];
      }
    }
  }

  /**
   * `s.sort((a, b) => key(b) - key(a))`: the same elements, by non-increasing key
   * (insertion sort; elements with equal keys keep their relative order).
   */
  function SortDesc<T(!new)>(s: seq<T>, key: T -> int): (r: seq<T>)
    ensures SortedDesc(r, key)
    ensures multiset(r) == multiset(s)
  {
    if s == [] then []
    else
      assert s == [s[0]] + s[1..];
      InsertDesc(s[0], SortDesc(s[1..], key), key)
  }

  /** `s.slice(0, n)`. */
  function Take<T>(s: seq<T>, n: nat): (r: seq<T>)
    ensures |r| == if |s| <= n then |s| else n
    ensures r == s[..|r|]
  {
    if |s| <= n then s else s[..n]
  }

  /** An element of `s` that is not among the first `n` sits at position `n` or later. */
  lemma NotTakenIsLater<T>(s: seq<T>, n: nat, x: T)
    requires x in s && x !in Take(s, n)
    ensures exists j :: |Take(s, n)| <= j < |s| && s[j] == x
  {
    var j :| 0 <= j < |s| && s[j] == x;
    assert |Take(s, n)| <= j;
  }

  /**
   * The first `n` elements of a list sorted by non-increasing key are its top
   * `n`: they stay sorted, and an element left out has no larger key than the
   * last one kept, which only happens when `n` elements were kept.
   */
  lemma TakeSortedIsTop<T>(s: seq<T>, key: T -> int, n: nat)
    requires n > 0 && SortedDesc(s, key)
    ensures SortedDesc(Take(s, n), key)
    ensures forall x :: x in s && x !in Take(s, n) ==> |Take(s, n)| == n && key(x) <= key(Take(s, n)[n - 1])
  {
    forall x | x in s && x !in Take(s, n)
      ensures |Take(s, n)| == n && key(x) <= key(Take(s, n)[n - 1])
    {
      NotTakenIsLater(s, n, x);
    }
  }

  /** Filtering distributes over concatenation. */
  lemma {:induction false} FilterAppend<T(!new)>(a: seq<T>, b: seq<T>, p: T -> bool)
    ensures Filter(a + b, p) == Filter(a, p) + Filter(b, p)
  {
    if a == [] {
      assert a + b == b;
    } else {
      var rest := a[1..];
      assert a + b == [a[0]] + (rest + b);
      FilterAppend(rest, b, p);
      var head := if p(a[0]) then [a[0]] else [];
      assert Filter(a + b, p) == head + Filter(rest + b, p);
      assert Filter(a, p) == head + Filter(rest, p);
    }
  }

  /** Two filters in a row keep what satisfies both. */
  lemma {:induction false} FilterFilter<T(!new)>(s: seq<T>, p: T -> bool, q: T -> bool, both: T -> bool)
    requires forall x :: both(x) == (p(x) && q(x))
    ensures Filter(Filter(s, p), q) == Filter(s, both)
  {
    if s != [] {
      FilterFilter(s[1..], p, q, both);
    }
  }

  /** The positions of `s` whose element passes `p`. */
  function Positions<T>(s: seq<T>, p: T -> bool): set<int> {
    set i | 0 <= i < |s| && p(s[i])
  }

  /** The length of a filtered list is the number of positions whose element passes. */
  lemma {:induction false} FilterCount<T(!new)>(s: seq<T>, p: T -> bool)
    ensures |Filter(s, p)| == |Positions(s, p)|
  {
    if s != [] {
      var n := |s| - 1;
      var init := s[..n];
      FilterCount(init, p);
      assert s == init + [s[n]];
      FilterAppend(init, [s[n]], p);
      assert Positions(s, p) == Positions(init, p) + (if p(s[n]) then {n} else {});
    }
  }

  /** The members of `s` that pass `p`. */
  function Where<T>(s: set<T>, p: T -> bool): set<T> {
    set x | x in s && p(x)
  }

  /**
   * Filtering a list that holds exactly the members of a set keeps exactly the
   * members of the set that pass, each once.
   */
  lemma FilterOfSet<T(!new)>(xs: seq<T>, s: set<T>, p: T -> bool)
    requires multiset(xs) == multiset(s)
    ensures multiset(Filter(xs, p)) == multiset(Where(s, p))
    ensures |Filter(xs, p)| == |Where(s, p)|
  {
    FilterMultiset(xs, p);
    forall x
      ensures multiset(Filter(xs, p))[x] == multiset(Where(s, p))[x]
    {
    }
    assert multiset(Filter(xs, p)) == multiset(Where(s, p));
    assert |multiset(Filter(xs, p))| == |Filter(xs, p)|;
  }

  /** A prefix holds no element more often than the whole list. */
  lemma TakeSubMultiset<T>(s: seq<T>, n: nat)
    ensures multiset(Take(s, n)) <= multiset(s)
  {
    var top := Take(s, n);
    assert s == top + s[|top|..];
  }

  /**
   * The first `n` of a list sorted by non-increasing key: sorted, as long as
   * the list allows up to `n`, drawn from the list, and every element left out
   * has a key no larger than the last one kept.
   */
  lemma TopOf<T(!new)>(xs: seq<T>, key: T -> int, n: nat)
    requires n > 0
    ensures
      var top := Take(SortDesc(xs, key), n);
      && SortedDesc(top, key)
      && |top| == (if |xs| <= n then |xs| else n)
      && multiset(top) <= multiset(xs)
      && forall x :: x in xs && x !in top ==> |top| == n && key(x) <= key(top[n - 1])
  {
    var sorted := SortDesc(xs, key);
    assert multiset(sorted) == multiset(xs);
    assert |sorted| == |xs| by {
      assert |multiset(sorted)| == |sorted|;
    }
    TakeSortedIsTop(sorted, key, n);
    TakeSubMultiset(sorted, n);
    var top := Take(sorted, n);
    forall x | x in xs && x !in top
      ensures |top| == n && key(x) <= key(top[n - 1])
    {
      assert x in multiset(sorted);
    }
  }

  /**
   * The first `n`, by non-increasing key, of the members of a set that pass
   * `p`, when taken from a list holding exactly the set's members.
   */
  lemma TopOfSet<T(!new)>(xs: seq<T>, s: set<T>, p: T -> bool, key: T -> int, n: nat)
    requires n > 0 && multiset(xs) == multiset(s)
    ensures
      var top, candidates := Take(SortDesc(Filter(xs, p), key), n), Where(s, p);
      && SortedDesc(top, key)
      && |top| == (if |candidates| <= n then |candidates| else n)
      && multiset(top) <= multiset(candidates)
      && forall x :: x in candidates && x !in top ==> |top| == n && key(x) <= key(top[n - 1])
  {
    var kept := Filter(xs, p);
    FilterOfSet(xs, s, p);
    TopOf(kept, key, n);
    forall x | x in Where(s, p)
      ensures x in kept
    {
      assert x in multiset(Where(s, p));
    }
  }

  /** The elements of `s` at the positions in `at`. */
  function ElementsAt<T>(s: seq<T>, at: set<int>): set<T>
    requires forall i :: i in at ==> 0 <= i < |s|
  {
    set i | i in at :: s[i]
  }

  /** Positions holding pairwise different elements hold as many elements as there are positions. */
  lemma ElementsAtCount<T>(s: seq<T>, at: set<int>)
    requires forall i :: i in at ==> 0 <= i < |s|
    requires forall i, j :: i in at && j in at && s[i] == s[j] ==> i == j
    ensures |ElementsAt(s, at)| == |at|
  {
    ElementsBelowCount(s, at, |s|);
    assert (set i | i in at && i < |s|) == at;
  }

  lemma {:induction false} ElementsBelowCount<T>(s: seq<T>, at: set<int>, n: nat)
    requires n <= |s|
    requires forall i :: i in at ==> 0 <= i < |s|
    requires forall i, j :: i in at && j in at && s[i] == s[j] ==> i == j
    ensures |ElementsAt(s, set i | i in at && i < n)| == |set i | i in at && i < n|
  {
    if n > 0 {
      ElementsBelowCount(s, at, n - 1);
      var below, upTo := set i | i in at && i < n - 1, set i | i in at && i < n;
      if n - 1 in at {
        assert upTo == below + {n - 1};
        assert ElementsAt(s, upTo) == ElementsAt(s, below) + {s[n - 1]};
        assert s[n - 1] !in ElementsAt(s, below);
      } else {
        assert upTo == below;
      }
    }
  }

  /**
   * `forEach(x => m.set(id(x), x))` over `xs`, starting from an empty map:
   * a later element overwrites an earlier one with the same id.
   */
  function Keyed<T>(xs: seq<T>, id: T -> string): (m: map<string, T>)
    ensures m.Keys == set x | x in xs :: id(x)
    ensures forall k :: k in m ==> id(m[k]) == k && m[k] in xs
  {
    if xs == [] then map[]
    else
      var init := xs[..|xs| - 1];
      var last := xs[|xs| - 1];
      assert xs == init + [last];
      Keyed(init, id)[id(last) := last]
  }

  /** The entry kept for an id is the last element of `xs` with that id. */
  lemma {:induction false} KeyedLastWins<T>(xs: seq<T>, id: T -> string, i: nat)
    requires i < |xs|
    requires forall j :: i < j < |xs| ==> id(xs[j]) != id(xs[i])
    ensures id(xs[i]) in Keyed(xs, id) && Keyed(xs, id)[id(xs[i])] == xs[i]
  {
    if i < |xs| - 1 {
      var init := xs[..|xs| - 1];
      KeyedLastWins(init, id, i);
    }
  }

  /** Every element whose id is not repeated later is kept under its id. */
  lemma KeyedUnique<T>(xs: seq<T>, id: T -> string)
    requires forall i, j :: 0 <= i < j < |xs| ==> id(xs[i]) != id(xs[j])
    ensures forall i :: 0 <= i < |xs| ==> Keyed(xs, id)[id(xs[i])] == xs[i]
  {
    forall i | 0 <= i < |xs|
      ensures Keyed(xs, id)[id(xs[i])] == xs[i]
    {
      KeyedLastWins(xs, id, i);
    }
  }
}
