/**
 Collection facts shared by every model: queries without an ORDER BY, list
 slicing into chunks, sorting, and keys in ascending order.
 */
module Collections {

  datatype Option<+T> = None | Some(value: T)

  ghost function Elems<T>(xs: seq<T>): set<T> {
    set x | x in xs
  }

  ghost predicate NoDup<T>(xs: seq<T>) {
    forall i, j :: 0 <= i < j < |xs| ==> xs[i] != xs[j]
  }

  /** `rows` lists the members of `s` once each, in some order. */
  ghost predicate Enumerates<T>(rows: seq<T>, s: set<T>) {
    NoDup(rows) && Elems(rows) == s
  }

  lemma {:induction false} NoDupSize<T>(xs: seq<T>)
    requires NoDup(xs)
    ensures |Elems(xs)| == |xs|
  {
    if xs == [] {
    } else {
      NoDupSize(xs[1..]);
      assert Elems(xs) == {xs[0]} + Elems(xs[1..]);
    }
  }

  lemma ElemsAppend<T>(xs: seq<T>, x: T)
    ensures Elems(xs + [x]) == Elems(xs) + {x}
  {
    assert (xs + [x])[|xs|] == x;
    assert forall y :: y in xs ==> y in xs + [x];
  }

  lemma NoElems<T>(xs: seq<T>)
    ensures Elems(xs) == {} <==> xs == []
  {
    if xs != [] {
      assert xs[0] in Elems(xs);
    }
  }

  lemma NextRow<T>(rows: seq<T>, i: nat)
    requires NoDup(rows) && i < |rows|
    ensures rows[i] in Elems(rows) && rows[i] !in Elems(rows[..i])
    ensures Elems(rows[..i + 1]) == Elems(rows[..i]) + {rows[i]}
  {
    assert rows[..i + 1] == rows[..i] + [rows[i]];
    ElemsAppend(rows[..i], rows[i]);
  }

  lemma SubsetSize<T>(a: set<T>, b: set<T>)
    requires a <= b
    ensures |a| <= |b|
  {
    assert b == a + (b - a);
  }

  /** A query without an ORDER BY: the caller learns the rows, not their order. */
  method Query<T(==)>(s: set<T>) returns (rows: seq<T>)
    ensures Enumerates(rows, s)
    ensures |rows| == |s|
  {
    rows := [];
    var left := s;
    while left != {}
      invariant left <= s
      invariant Enumerates(rows, s - left)
    {
      var x :| x in left;
      ElemsAppend(rows, x);
      rows, left := rows + [x], left - {x};
    }
    NoDupSize(rows);
    assert Elems(rows) == s;
  }

  ghost function Sum(xs: seq<nat>): nat {
    if xs == [] then 0 else xs[0] + Sum(xs[1..])
  }

  ghost function Flatten<T>(xss: seq<seq<T>>): seq<T> {
    if xss == [] then [] else xss[0] + Flatten(xss[1..])
  }

  lemma {:induction false} FlattenAppend<T>(xss: seq<seq<T>>, xs: seq<T>)
    ensures Flatten(xss + [xs]) == Flatten(xss) + xs
  {
    if xss == [] {
      assert Flatten(xss + [xs]) == xs;
    } else {
      assert (xss + [xs])[1..] == xss[1..] + [xs];
      FlattenAppend(xss[1..], xs);
    }
  }

  // ---- Chunks ---------------------------------------------------------------------

  ghost function Chunked<T>(xs: seq<T>, size: nat): seq<seq<T>>
    requires size > 0
  {
    if xs == [] then [] else if |xs| <= size then [xs] else [xs[..size]] + Chunked(xs[size..], size)
  }

  /** `chunks` */
  method Chunks<T>(xs: seq<T>, size: nat) returns (out: seq<seq<T>>)
    requires size > 0
    ensures out == Chunked(xs, size)
  {
    out := [];
    var i := 0;
    while i < |xs|
      invariant 0 <= i
      invariant Chunked(xs, size) == out + Chunked(if i <= |xs| then xs[i..] else [], size)
    {
      ghost var tail := xs[i..];
      var end := if i + size < |xs| then i + size else |xs|;
      assert |tail| > size ==> xs[i..end] == tail[..size] && xs[end..] == tail[size..];
      assert |tail| <= size ==> xs[i..end] == tail;
      out := out + [xs[i..end]];
      i := i + size;
    }
  }

  /** Chunking loses, repeats and reorders nothing, and only the last chunk may be short. */
  lemma {:induction false} ChunksTile<T>(xs: seq<T>, size: nat)
    requires size > 0
    ensures Flatten(Chunked(xs, size)) == xs
    ensures forall i :: 0 <= i < |Chunked(xs, size)| ==> 1 <= |Chunked(xs, size)[i]| <= size
    ensures forall i :: 0 <= i < |Chunked(xs, size)| - 1 ==> |Chunked(xs, size)[i]| == size
  {
    if xs == [] {
    } else if |xs| <= size {
      assert Flatten([xs]) == xs + Flatten([]);
    } else {
      ChunksTile(xs[size..], size);
      var rest := Chunked(xs[size..], size);
      var all := [xs[..size]] + rest;
      assert all[1..] == rest;
      assert xs == xs[..size] + xs[size..];
      forall i | 0 <= i < |all|
        ensures 1 <= |all[i]| <= size && (i < |all| - 1 ==> |all[i]| == size)
      {
        if i > 0 {
          assert all[i] == rest[i - 1];
        }
      }
    }
  }

  lemma NoDupConcat<T>(a: seq<T>, b: seq<T>)
    requires NoDup(a) && NoDup(b) && forall x :: x in a ==> x !in b
    ensures NoDup(a + b)
  {
    forall i, j | 0 <= i < j < |a + b|
      ensures (a + b)[i] != (a + b)[j]
    {
      if i < |a| && |a| <= j {
        assert a[i] in a && b[j - |a|] in b;
      }
    }
  }

  // ---- Ascending keys ------------------------------------------------------

  ghost predicate Ascending(xs: seq<nat>) {
    forall i, j :: 0 <= i < j < |xs| ==> xs[i] < xs[j]
  }

  lemma {:induction false} MinExists(s: set<nat>) returns (m: nat)
    requires s != {}
    ensures m in s && forall k :: k in s ==> m <= k
    decreases |s|
  {
    m :| m in s;
    var rest := s - {m};
    assert |rest| < |s|;
    if rest != {} {
      var least := MinExists(rest);
      forall k | k in s
        ensures k == m || least <= k
      {
        assert k == m || k in rest;
      }
      m := if m < least then m else least;
    }
  }

  function Min(s: set<nat>): (m: nat)
    requires s != {}
    ensures m in s && forall k :: k in s ==> m <= k
  {
    assert exists m :: m in s && forall k :: k in s ==> m <= k by {
      var m := MinExists(s);
    }
    var m :| m in s && forall k :: k in s ==> m <= k;
    m
  }

  lemma {:induction false} KeyOrderExists(s: set<nat>) returns (xs: seq<nat>)
    ensures Elems(xs) == s && Ascending(xs)
    decreases |s|
  {
    if s == {} {
      xs := [];
    } else {
      var m := Min(s);
      xs := KeyOrderExists(s - {m});
      AscendingCons(m, xs);
      xs := [m] + xs;
    }
  }

  /** The members of `s` in key order: what `order_by('pk')` returns. */
  ghost function InKeyOrder(s: set<nat>): (xs: seq<nat>)
    ensures Elems(xs) == s && Ascending(xs)
  {
    assert exists xs: seq<nat> :: Elems(xs) == s && Ascending(xs) by {
      var xs := KeyOrderExists(s);
    }
    var xs: seq<nat> :| Elems(xs) == s && Ascending(xs);
    xs
  }

  lemma AscendingCons(m: nat, rest: seq<nat>)
    requires Ascending(rest) && forall k :: k in Elems(rest) ==> m < k
    ensures Ascending([m] + rest) && Elems([m] + rest) == {m} + Elems(rest)
  {
    assert forall i :: 0 <= i < |rest| ==> rest[i] in Elems(rest);
  }

  lemma AscendingEnumerates(xs: seq<nat>)
    requires Ascending(xs)
    ensures Enumerates(xs, Elems(xs)) && |xs| == |Elems(xs)|
  {
    NoDupSize(xs);
  }

  /** Ascending lists with the same members are the same list. */
  lemma {:induction false} AscendingUnique(xs: seq<nat>, ys: seq<nat>)
    requires Ascending(xs) && Ascending(ys) && Elems(xs) == Elems(ys)
    ensures xs == ys
  {
    AscendingEnumerates(xs);
    AscendingEnumerates(ys);
    if xs == [] {
    } else {
      assert xs[0] in Elems(ys) && ys[0] in Elems(xs);
      assert xs[0] == ys[0];
      assert forall x :: x in xs[1..] ==> x in Elems(xs) && x != xs[0];
      assert forall y :: y in ys[1..] ==> y in Elems(ys) && y != ys[0];
      forall x
        ensures x in Elems(xs[1..]) <==> x in Elems(ys[1..])
      {
        assert x in Elems(xs) && x != xs[0] ==> x in xs[1..];
        assert x in Elems(ys) && x != ys[0] ==> x in ys[1..];
      }
      AscendingUnique(xs[1..], ys[1..]);
    }
  }

  lemma HeadIsLeast(xs: seq<nat>, m: nat)
    requires Ascending(xs) && m in Elems(xs) && forall k :: k in Elems(xs) ==> m <= k
    ensures xs[0] == m && Ascending(xs[1..]) && Elems(xs[1..]) == Elems(xs) - {m}
  {
    var j :| 0 <= j < |xs| && xs[j] == m;
    assert xs[0] in Elems(xs);
    assert j == 0;
    forall k
      ensures k in xs[1..] <==> k in xs && k != m
    {
      if k in xs && k != m {
        var i :| 0 <= i < |xs| && xs[i] == k;
        assert xs[1..][i - 1] == k;
      }
    }
  }

  /** The first in key order is the least, and without it the rest stays in order. */
  lemma KeyOrderTail(s: set<nat>)
    requires s != {}
    ensures InKeyOrder(s) != [] && InKeyOrder(s)[0] == Min(s)
    ensures InKeyOrder(s - {Min(s)}) == InKeyOrder(s)[1..]
  {
    var keys := InKeyOrder(s);
    HeadIsLeast(keys, Min(s));
    AscendingUnique(InKeyOrder(s - {Min(s)}), keys[1..]);
  }

  // ---- Descending sort ----------------------------------------------

  ghost predicate DescendingBy<T(!new)>(xs: seq<T>, key: T -> int) {
    forall i, j :: 0 <= i < j < |xs| ==> key(xs[i]) >= key(xs[j])
  }

  function Insert<T>(x: T, xs: seq<T>, key: T -> int): (ys: seq<T>)
    ensures multiset(ys) == multiset{x} + multiset(xs)
  {
    if xs == [] || key(x) >= key(xs[0]) then
      [x] + xs
    else
      assert xs == [xs[0]] + xs[1..];
      [xs[0]] + Insert(x, xs[1..], key)
  }

  /** `sorted(xs, key=key, reverse=True)`. */
  function SortDescending<T>(xs: seq<T>, key: T -> int): (ys: seq<T>)
    ensures multiset(ys) == multiset(xs)
  {
    if xs == [] then
      []
    else
      assert xs == [xs[0]] + xs[1..];
      Insert(xs[0], SortDescending(xs[1..], key), key)
  }

  lemma {:induction false} InsertKeepsDescending<T(!new)>(x: T, xs: seq<T>, key: T -> int)
    requires DescendingBy(xs, key)
    ensures DescendingBy(Insert(x, xs, key), key)
  {
    if xs == [] || key(x) >= key(xs[0]) {
    } else {
      var rest := Insert(x, xs[1..], key);
      InsertKeepsDescending(x, xs[1..], key);
      forall i | 0 <= i < |rest|
        ensures key(xs[0]) >= key(rest[i])
      {
        assert rest[i] in multiset(rest);
        assert rest[i] == x || rest[i] in multiset(xs[1..]);
      }
    }
  }

  lemma {:induction false} SortIsDescending<T(!new)>(xs: seq<T>, key: T -> int)
    ensures DescendingBy(SortDescending(xs, key), key)
  {
    if xs == [] {
    } else {
      SortIsDescending(xs[1..], key);
      InsertKeepsDescending(xs[0], SortDescending(xs[1..], key), key);
    }
  }

  /** Sorting a query result only reorders it. */
  lemma SortEnumerates(xs: seq<nat>, ys: seq<nat>, s: set<nat>)
    requires Enumerates(xs, s) && multiset(ys) == multiset(xs)
    ensures Enumerates(ys, s)
  {
    forall x
      ensures x in ys <==> x in xs
    {
      assert x in multiset(ys) <==> x in multiset(xs);
    }
    NoDupCounts(xs);
    NoDupFromCounts(ys);
    assert Elems(ys) == s;
  }

  lemma {:induction false} NoDupCounts(xs: seq<nat>)
    requires NoDup(xs)
    ensures forall x :: multiset(xs)[x] <= 1
  {
    if xs == [] {
    } else {
      assert xs == [xs[0]] + xs[1..];
      NoDupCounts(xs[1..]);
      assert xs[0] !in multiset(xs[1..]);
    }
  }

  lemma {:induction false} NoDupFromCounts(ys: seq<nat>)
    requires forall y :: multiset(ys)[y] <= 1
    ensures NoDup(ys)
  {
    if ys == [] {
    } else {
      var first := multiset{ys[0]};
      assert ys == [ys[0]] + ys[1..];
      assert multiset(ys) == first + multiset(ys[1..]);
      forall y
        ensures multiset(ys[1..])[y] <= 1
      {
        assert multiset(ys)[y] <= 1;
      }
      assert multiset(ys)[ys[0]] <= 1;
      NoDupFromCounts(ys[1..]);
    }
  }
}
