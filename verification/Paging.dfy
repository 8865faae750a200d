/**
 Keyset paging: `order_by('pk')`, `filter(pk__gt=offset)`, `[:batch_size]`, over a
 set of rows that shrinks while its pages are processed.
 */
module Paging {
  import opened Collections

  function After(s: set<nat>, offset: Option<nat>): set<nat> {
    set k | k in s && (offset == None || k > offset.value)
  }

  ghost function Take<T>(xs: seq<T>, n: nat): seq<T> {
    if n < |xs| then xs[..n] else xs
  }

  /** One page: the first `size` matching keys after the offset. */
  ghost function Page(s: set<nat>, offset: Option<nat>, size: nat): seq<nat> {
    Take(InKeyOrder(After(s, offset)), size)
  }

  /** The offset once the first `i` keys have been passed. */
  ghost function OffsetAt(keys: seq<nat>, i: nat): Option<nat>
    requires i <= |keys|
  {
    if i == 0 then None else Some(keys[i - 1])
  }

  lemma SuffixAscends(keys: seq<nat>, i: nat)
    requires Ascending(keys) && i <= |keys|
    ensures Ascending(keys[i..])
    ensures forall k :: k in keys[i..] <==> k in keys && (i == 0 || k > keys[i - 1])
  {
    forall k
      ensures k in keys[i..] <==> k in keys && (i == 0 || k > keys[i - 1])
    {
      if k in keys && (i == 0 || k > keys[i - 1]) {
        var j :| 0 <= j < |keys| && keys[j] == k;
        assert i <= j;
        assert keys[i..][j - i] == k;
      }
    }
  }

  lemma SuffixIsAfter(s: set<nat>, i: nat)
    requires i <= |InKeyOrder(s)|
    ensures InKeyOrder(After(s, OffsetAt(InKeyOrder(s), i))) == InKeyOrder(s)[i..]
  {
    var keys := InKeyOrder(s);
    SuffixAscends(keys, i);
    assert forall k :: k in keys <==> k in Elems(keys);
    assert Elems(keys[i..]) == After(s, OffsetAt(keys, i));
    AscendingUnique(InKeyOrder(After(s, OffsetAt(keys, i))), keys[i..]);
  }

  /**
   While rows at or before the offset drop out of the matching set (`left`), the next page is
   still the next stretch of the keys that matched at the start.
   */
  lemma PageIsNextStretch(s: set<nat>, left: set<nat>, i: nat, size: nat)
    requires i <= |InKeyOrder(s)|
    requires After(left, OffsetAt(InKeyOrder(s), i)) == After(s, OffsetAt(InKeyOrder(s), i))
    ensures Page(left, OffsetAt(InKeyOrder(s), i), size) == Take(InKeyOrder(s)[i..], size)
  {
    SuffixIsAfter(s, i);
  }

  /** Removing the first `j` keys from the set does not disturb what lies after them. */
  lemma ProcessedLieBefore(s: set<nat>, j: nat)
    requires j <= |InKeyOrder(s)|
    ensures var keys := InKeyOrder(s);
            After(s - Elems(keys[..j]), OffsetAt(keys, j)) == After(s, OffsetAt(keys, j))
  {
    var keys := InKeyOrder(s);
    forall k | k in Elems(keys[..j])
      ensures k !in After(s, OffsetAt(keys, j))
    {
      var m :| 0 <= m < j && keys[m] == k;
    }
  }

  /** A page in hand, and the offset it leads to. */
  lemma TakeNext(keys: seq<nat>, n: nat, size: nat)
    requires n <= |keys| && Take(keys[n..], size) != []
    ensures var page := Take(keys[n..], size);
            && n + |page| <= |keys| && page == keys[n..n + |page|]
            && keys[..n] + page == keys[..n + |page|]
            && OffsetAt(keys, n + |page|) == Some(page[|page| - 1])
  {
  }

  /** The query for one page. */
  method FetchPage(s: set<nat>, offset: Option<nat>, size: nat) returns (page: seq<nat>)
    ensures page == Page(s, offset, size)
  {
    var left := After(s, offset);
    ghost var keys := InKeyOrder(left);
    ghost var rest := keys;
    page := [];
    while |page| < size && left != {}
      invariant |page| <= size && keys == page + rest
      invariant Ascending(rest) && Elems(rest) == left
      decreases size - |page|
    {
      var m := Min(left);
      HeadIsLeast(rest, m);
      page, left, rest := page + [m], left - {m}, rest[1..];
    }
    AscendingEnumerates(rest);
  }
}
