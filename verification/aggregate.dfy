/** The collection operations the routes rely on: `Array.prototype.reduce`
    with `+`, the database's `find(filter)` as a selection over a table,
    `findOne(filter)` as the first match, and `sort({ field: -1 })` as a
    descending sort. */
module Aggregate {
  import opened Common

  /** The key strictly increases along `s`, so no two elements share a key
      (document ids in insertion order). */
  predicate IdsAscending<T>(s: seq<T>, id: T -> int)
  {
    forall i, j :: 0 <= i < j < |s| ==> id(s[i]) < id(s[j])
  }

  /** `s.reduce((acc, x) => acc + f(x), 0)`: a left fold starting from 0. */
  function Sum<T>(s: seq<T>, f: T -> real): real
  {
    if s == [] then 0.0 else Sum(s[..|s| - 1], f) + f(s[|s| - 1])
  }

  /** One step of `reduce`: the next element is added to the accumulated sum. */
  lemma {:induction false} SumSnoc<T>(s: seq<T>, x: T, f: T -> real)
    ensures Sum(s + [x], f) == Sum(s, f) + f(x)
  {
    assert (s + [x])[..|s + [x]| - 1] == s;
  }

  /** A sum of nonnegative terms is nonnegative, and one of nonpositive terms
      is nonpositive. */
  lemma {:induction false} SumSign<T>(s: seq<T>, f: T -> real)
    ensures (forall i :: 0 <= i < |s| ==> f(s[i]) >= 0.0) ==> Sum(s, f) >= 0.0
    ensures (forall i :: 0 <= i < |s| ==> f(s[i]) <= 0.0) ==> Sum(s, f) <= 0.0
    decreases |s|
  {
    if s != [] {
      SumSign(s[..|s| - 1], f);
    }
  }

  lemma {:induction false} SumAppend<T>(a: seq<T>, b: seq<T>, f: T -> real)
    ensures Sum(a + b, f) == Sum(a, f) + Sum(b, f)
    decreases |b|
  {
    if b == [] {
      assert a + b == a;
    } else {
      var b' := b[..|b| - 1];
      assert a + b == (a + b') + [b[|b| - 1]];
      SumSnoc(a + b', b[|b| - 1], f);
      SumAppend(a, b', f);
      SumSnoc(b', b[|b| - 1], f);
      assert b' + [b[|b| - 1]] == b;
    }
  }

  lemma {:induction false} SumCons<T>(x: T, s: seq<T>, f: T -> real)
    ensures Sum([x] + s, f) == f(x) + Sum(s, f)
  {
    SumAppend([x], s, f);
    SumSnoc([], x, f);
    assert [] + [x] == [x];
  }

  lemma MultisetWithout<T>(b: seq<T>, j: nat)
    requires j < |b|
    ensures multiset(b[..j] + b[j + 1..]) == multiset(b) - multiset{b[j]}
  {
    assert b == b[..j] + [b[j]] + b[j + 1..];
  }

  /** Taking one entry out of a sum subtracts exactly its contribution. */
  lemma SumWithout<T>(b: seq<T>, j: nat, f: T -> real)
    requires j < |b|
    ensures Sum(b, f) == f(b[j]) + Sum(b[..j] + b[j + 1..], f)
  {
    var pre, mid, post := b[..j], b[j..], b[j + 1..];
    assert b == pre + mid;
    SumAppend(pre, mid, f);
    assert mid == [b[j]] + post;
    SumCons(b[j], post, f);
    SumAppend(pre, post, f);
  }

  /** `s` without its `k`-th entry. */
  function RemoveAt<T>(s: seq<T>, k: nat): (r: seq<T>)
    requires k < |s|
    ensures |r| == |s| - 1
    ensures multiset(r) == multiset(s) - multiset{s[k]}
    ensures forall i :: 0 <= i < k ==> r[i] == s[i]
    ensures forall i :: k <= i < |r| ==> r[i] == s[i + 1]
  {
    MultisetWithout(s, k);
    s[..k] + s[k + 1..]
  }

  /** Matching the head of `a` with an equal entry `b[j]` leaves tails that
      are still permutations of each other. */
  lemma PermutationRest<T>(a: seq<T>, b: seq<T>, j: nat)
    requires multiset(a) == multiset(b) && |a| > 0 && j < |b| && b[j] == a[0]
    ensures multiset(a[1..]) == multiset(b[..j] + b[j + 1..])
  {
    calc {
      multiset(a[1..]);
      { assert a == [a[0]] + a[1..]; assert multiset(a) == multiset{a[0]} + multiset(a[1..]); }
      multiset(a) - multiset{a[0]};
      multiset(b) - multiset{b[j]};
      { MultisetWithout(b, j); }
      multiset(b[..j] + b[j + 1..]);
    }
  }

  /** A sum does not depend on the order of the entries it adds up. */
  lemma {:induction false} SumPermutation<T>(a: seq<T>, b: seq<T>, f: T -> real)
    requires multiset(a) == multiset(b)
    ensures Sum(a, f) == Sum(b, f)
    decreases |a|
  {
    if a == [] {
      assert |b| == |multiset(b)| == 0;
      assert b == [];
    } else {
      assert a[0] in multiset(b);
      var j :| 0 <= j < |b| && b[j] == a[0];
      var rest := b[..j] + b[j + 1..];
      PermutationRest(a, b, j);
      SumPermutation(a[1..], rest, f);
      SumWithout(a, 0, f);
      assert a[..0] + a[1..] == a[1..];
      SumWithout(b, j, f);
    }
  }

  /** `findOne(filter)`: the position of the first entry of `s` that
      satisfies `p`, or `None` when no entry does. */
  function FirstWhere<T>(s: seq<T>, p: T -> bool): (k: Option<nat>)
    ensures k.Some? ==> k.value < |s| && p(s[k.value])
    ensures k.Some? ==> forall i :: 0 <= i < k.value ==> !p(s[i])
    ensures k.None? <==> forall i :: 0 <= i < |s| ==> !p(s[i])
  {
    if s == [] then None
    else if p(s[0]) then Some(0)
    else
      match FirstWhere(s[1..], p)
      case None => None
      case Some(k) => Some(k + 1)
  }

  /** `find(filter)`: the entries of `s` that satisfy `keep`, in table order. */
  function Select<T(!new)>(s: seq<T>, keep: T -> bool): (r: seq<T>)
    ensures forall x {:trigger multiset(r)[x]} :: multiset(r)[x] == if keep(x) then multiset(s)[x] else 0
    ensures forall x {:trigger x in r} :: x in r <==> x in s && keep(x)
    ensures |r| <= |s|
  {
    if s == [] then []
    else
      assert s == [s[0]] + s[1..];
      (if keep(s[0]) then [s[0]] else []) + Select(s[1..], keep)
  }

  lemma {:induction false} SelectAppend<T(!new)>(a: seq<T>, b: seq<T>, keep: T -> bool)
    ensures Select(a + b, keep) == Select(a, keep) + Select(b, keep)
    decreases |a|
  {
    if a == [] {
      assert a + b == b;
    } else {
      var head := if keep(a[0]) then [a[0]] else [];
      assert (a + b)[0] == a[0] && (a + b)[1..] == a[1..] + b;
      assert Select(a + b, keep) == head + Select(a[1..] + b, keep);
      assert Select(a, keep) == head + Select(a[1..], keep);
      SelectAppend(a[1..], b, keep);
    }
  }

  /** A new last entry shows up in a selection exactly when it is kept. */
  lemma SelectSnoc<T(!new)>(s: seq<T>, x: T, keep: T -> bool)
    ensures Select(s + [x], keep) == Select(s, keep) + (if keep(x) then [x] else [])
  {
    SelectAppend(s, [x], keep);
    assert [x][1..] == [];
  }

  /** A selection that keeps nothing is empty. */
  lemma SelectNone<T(!new)>(s: seq<T>, keep: T -> bool)
    requires forall x :: x in s ==> !keep(x)
    ensures Select(s, keep) == []
  {
  }

  /** Ordered by `key`, largest first: `sort({ key: -1 })`. */
  predicate SortedDesc<T>(s: seq<T>, key: T -> int)
  {
    forall i, j :: 0 <= i < j < |s| ==> key(s[i]) >= key(s[j])
  }

  /** A bound on every key of `s` holds for every key of a sub-multiset of it. */
  lemma KeysBounded<T>(r: seq<T>, s: seq<T>, key: T -> int, bound: int)
    requires multiset(r) <= multiset(s)
    requires forall i :: 0 <= i < |s| ==> key(s[i]) <= bound
    ensures forall i :: 0 <= i < |r| ==> key(r[i]) <= bound
  {
    forall i | 0 <= i < |r|
      ensures key(r[i]) <= bound
    {
      assert r[i] in multiset(r);
      assert r[i] in multiset(s);
      var m :| 0 <= m < |s| && s[m] == r[i];
    }
  }

  /** Putting in front an entry whose key bounds every key of a sorted
      sequence keeps it sorted. */
  lemma SortedCons<T>(h: T, rest: seq<T>, key: T -> int)
    requires SortedDesc(rest, key)
    requires forall i :: 0 <= i < |rest| ==> key(rest[i]) <= key(h)
    ensures SortedDesc([h] + rest, key)
  {
    var r := [h] + rest;
    forall i, j | 0 <= i < j < |r|
      ensures key(r[i]) >= key(r[j])
    {
      assert r[j] == rest[j - 1];
      if i > 0 {
        assert r[i] == rest[i - 1];
      }
    }
  }

  /** The first entry of a sorted sequence has the largest key. */
  lemma HeadIsLargest<T>(s: seq<T>, key: T -> int)
    requires SortedDesc(s, key) && |s| > 0
    ensures forall i :: 0 <= i < |s| ==> key(s[i]) <= key(s[0])
  {
    forall i | 0 < i < |s|
      ensures key(s[i]) <= key(s[0])
    {
      assert key(s[0]) >= key(s[i]);
    }
  }

  /** Dropping the first entry keeps a sequence sorted. */
  lemma TailSorted<T>(s: seq<T>, key: T -> int)
    requires SortedDesc(s, key) && |s| > 0
    ensures SortedDesc(s[1..], key)
  {
    var tail := s[1..];
    forall i, j | 0 <= i < j < |tail|
      ensures key(tail[i]) >= key(tail[j])
    {
      assert tail[i] == s[i + 1] && tail[j] == s[j + 1];
    }
  }

  /** The step of an insertion below the head: a sorted insertion into the
      tail, put behind the head, is sorted and holds the same entries plus `x`. */
  lemma InsertBelowHead<T>(x: T, s: seq<T>, rest: seq<T>, key: T -> int)
    requires SortedDesc(s, key) && |s| > 0 && key(x) < key(s[0])
    requires SortedDesc(rest, key) && multiset(rest) == multiset(s[1..]) + multiset{x}
    ensures SortedDesc([s[0]] + rest, key)
    ensures multiset([s[0]] + rest) == multiset(s) + multiset{x}
  {
    var others := [x] + s[1..];
    HeadIsLargest(s, key);
    forall i | 0 < i < |others|
      ensures key(others[i]) <= key(s[0])
    {
      assert others[i] == s[i];
    }
    KeysBounded(rest, others, key, key(s[0]));
    SortedCons(s[0], rest, key);
    assert s == [s[0]] + s[1..];
  }

  function Insert<T>(x: T, s: seq<T>, key: T -> int): (r: seq<T>)
    requires SortedDesc(s, key)
    ensures SortedDesc(r, key)
    ensures multiset(r) == multiset(s) + multiset{x}
    decreases |s|
  {
    if s == [] then [x]
    else if key(x) >= key(s[0]) then
      HeadIsLargest(s, key);
      SortedCons(x, s, key);
      [x] + s
    else
      TailSorted(s, key);
      var rest := Insert(x, s[1..], key);
      InsertBelowHead(x, s, rest, key);
      [s[0]] + rest
  }

  /** The entries of `s` rearranged so that `key` descends. Entries with equal
      keys come out in some order; nothing is promised about which. */
  function SortDesc<T>(s: seq<T>, key: T -> int): (r: seq<T>)
    ensures SortedDesc(r, key)
    ensures multiset(r) == multiset(s)
    ensures |r| == |s|
  {
    if s == [] then []
    else
      assert s == [s[0]] + s[1..];
      Insert(s[0], SortDesc(s[1..], key), key)
  }
}
