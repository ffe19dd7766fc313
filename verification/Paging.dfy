/** Byte- and count-bounded paging, the loop shared by the session-event replay,
    the stored run-event reader and the in-memory run-event reader: take items in
    order, stop at the count bound or at the first item that would push a
    non-empty page over the byte bound. */
module Paging {
  import opened Prelude

  /** The first `n` items fit one page: within the count bound, and either a
      single item or within the byte bound (with the reader's saturating sum). */
  predicate Fits(sizes: seq<nat>, n: nat, maxItems: nat, maxBytes: nat)
    requires n <= |sizes|
  {
    n <= maxItems && (n <= 1 || Min(Sum(sizes[..n]), U64_MAX) <= maxBytes)
  }

  /** `n` items are exactly one page: they fit and one more would not. */
  predicate IsPage(sizes: seq<nat>, n: nat, maxItems: nat, maxBytes: nat)
  {
    n <= |sizes| && Fits(sizes, n, maxItems, maxBytes) &&
    (n < |sizes| ==> !Fits(sizes, n + 1, maxItems, maxBytes))
  }

  function PageLength(sizes: seq<nat>, maxItems: nat, maxBytes: nat): (n: nat)
    ensures IsPage(sizes, n, maxItems, maxBytes)
  {
    Grow(sizes, 0, maxItems, maxBytes)
  }

  function Grow(sizes: seq<nat>, taken: nat, maxItems: nat, maxBytes: nat): (n: nat)
    requires taken <= |sizes| && Fits(sizes, taken, maxItems, maxBytes)
    ensures taken <= n && IsPage(sizes, n, maxItems, maxBytes)
    decreases |sizes| - taken
  {
    if taken < |sizes| && Fits(sizes, taken + 1, maxItems, maxBytes)
    then Grow(sizes, taken + 1, maxItems, maxBytes)
    else taken
  }

  lemma {:induction false} SumPrefixMonotone(sizes: seq<nat>, m: nat, n: nat)
    requires m <= n <= |sizes|
    ensures Sum(sizes[..m]) <= Sum(sizes[..n])
  {
    assert sizes[..n] == sizes[..m] + sizes[m..n];
    SumConcat(sizes[..m], sizes[m..n]);
  }

  /** A page that fits has only fitting prefixes, so stopping at the first item
      that does not fit loses nothing: the page is unique. */
  lemma PageUnique(sizes: seq<nat>, m: nat, n: nat, maxItems: nat, maxBytes: nat)
    requires IsPage(sizes, m, maxItems, maxBytes) && IsPage(sizes, n, maxItems, maxBytes)
    ensures m == n
  {
    if m < n {
      SumPrefixMonotone(sizes, m + 1, n);
    } else if n < m {
      SumPrefixMonotone(sizes, n + 1, m);
    }
  }

  /** One page read the way every reader's loop reads it. */
  method TakePage(sizes: seq<nat>, maxItems: nat, maxBytes: nat) returns (n: nat, more: bool)
    ensures IsPage(sizes, n, maxItems, maxBytes)
    ensures more <==> n < |sizes|
    ensures n == PageLength(sizes, maxItems, maxBytes)
  {
    n, more := 0, false;
    var used: nat := 0;
    assert sizes[..0] == [];
    while n < |sizes| && !more
      invariant n <= |sizes| && Fits(sizes, n, maxItems, maxBytes)
      invariant used == Min(Sum(sizes[..n]), U64_MAX)
      invariant more ==> n < |sizes| && !Fits(sizes, n + 1, maxItems, maxBytes)
      decreases |sizes| - n, !more
    {
      SumSnoc(sizes, n);
      if n >= maxItems || (n != 0 && SatAdd(used, sizes[n]) > maxBytes) {
        more := true;
      } else {
        used := SatAdd(used, sizes[n]);
        n := n + 1;
      }
    }
    PageUnique(sizes, n, PageLength(sizes, maxItems, maxBytes), maxItems, maxBytes);
  }
}
