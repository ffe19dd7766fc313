/** What a stable sort by a comparator returns. The result is determined by its
    specification, so any stable sort, `slice::sort_by` included, computes it. */
module StableSort {
  import opened Prelude

  ghost predicate TotalPreorder<T(!new)>(le: (T, T) -> bool) {
    && (forall a, b :: le(a, b) || le(b, a))
    && (forall a, b, c :: le(a, b) && le(b, c) ==> le(a, c))
  }

  function Ties<T>(le: (T, T) -> bool, y: T): T -> bool { x => le(x, y) && le(y, x) }

  predicate Sorted<T>(le: (T, T) -> bool, s: seq<T>) {
    forall i, j | 0 <= i < j < |s| :: le(s[i], s[j])
  }

  /** In order, and every group of ties keeps the order it had. */
  ghost predicate IsStableSort<T(!new)>(le: (T, T) -> bool, input: seq<T>, output: seq<T>) {
    Sorted(le, output) && forall y :: Filter(output, Ties(le, y)) == Filter(input, Ties(le, y))
  }

  function Insert<T>(le: (T, T) -> bool, x: T, s: seq<T>): seq<T> {
    if s == [] || le(x, s[0]) then [x] + s else [s[0]] + Insert(le, x, s[1..])
  }

  function Sort<T>(le: (T, T) -> bool, s: seq<T>): seq<T> {
    if s == [] then [] else Insert(le, s[0], Sort(le, s[1..]))
  }

  lemma {:induction false} InsertMembers<T(!new)>(le: (T, T) -> bool, x: T, s: seq<T>)
    ensures multiset(Insert(le, x, s)) == multiset{x} + multiset(s)
    ensures forall y :: y in Insert(le, x, s) <==> y == x || y in s
  {
    if s != [] && !le(x, s[0]) {
      InsertMembers(le, x, s[1..]);
      assert s == [s[0]] + s[1..];
    }
  }

  lemma {:induction false} InsertSorted<T(!new)>(le: (T, T) -> bool, x: T, s: seq<T>)
    requires TotalPreorder(le) && Sorted(le, s)
    ensures Sorted(le, Insert(le, x, s))
  {
    var r := Insert(le, x, s);
    if s == [] {
    } else if le(x, s[0]) {
      forall j | 1 <= j < |r| ensures le(x, r[j]) {
        assert le(s[0], s[j - 1]) || j == 1;
      }
    } else {
      InsertSorted(le, x, s[1..]);
      InsertMembers(le, x, s[1..]);
      forall j | 1 <= j < |r| ensures le(s[0], r[j]) {
        assert r[j] in Insert(le, x, s[1..]);
      }
    }
  }

  lemma {:induction false} InsertKeepsTies<T(!new)>(le: (T, T) -> bool, x: T, s: seq<T>, y: T)
    requires TotalPreorder(le)
    ensures Filter(Insert(le, x, s), Ties(le, y)) == Filter([x] + s, Ties(le, y))
  {
    if s != [] && !le(x, s[0]) {
      var tie, rest := Ties(le, y), s[1..];
      InsertKeepsTies(le, x, rest, y);
      FilterHead(s[0], Insert(le, x, rest), tie);
      FilterHead(x, rest, tie);
      FilterHead(s[0], rest, tie);
      FilterHead(x, s, tie);
      assert s == [s[0]] + rest;
      assert !(tie(x) && tie(s[0]));
      Associates(Kept(tie, s[0]), Kept(tie, x), Filter(rest, tie));
      Associates(Kept(tie, x), Kept(tie, s[0]), Filter(rest, tie));
      assert Kept(tie, x) + Kept(tie, s[0]) == Kept(tie, s[0]) + Kept(tie, x);
    }
  }

  function Kept<T>(keep: T -> bool, x: T): seq<T> { if keep(x) then [x] else [] }

  lemma {:induction false} SortIsStable<T(!new)>(le: (T, T) -> bool, s: seq<T>)
    requires TotalPreorder(le)
    ensures IsStableSort(le, s, Sort(le, s))
  {
    if s != [] {
      SortIsStable(le, s[1..]);
      var rest := Sort(le, s[1..]);
      InsertSorted(le, s[0], rest);
      forall y ensures Filter(Sort(le, s), Ties(le, y)) == Filter(s, Ties(le, y)) {
        InsertKeepsTies(le, s[0], rest, y);
        assert ([s[0]] + rest)[1..] == rest;
      }
    }
  }

  lemma {:induction false} SortPermutes<T(!new)>(le: (T, T) -> bool, s: seq<T>)
    ensures multiset(Sort(le, s)) == multiset(s)
  {
    if s != [] {
      SortPermutes(le, s[1..]);
      InsertMembers(le, s[0], Sort(le, s[1..]));
      assert s == [s[0]] + s[1..];
    }
  }

  lemma FirstTies<T(!new)>(le: (T, T) -> bool, a: seq<T>, b: seq<T>)
    requires TotalPreorder(le) && Sorted(le, a) && a != [] && b != []
    requires forall y :: Filter(a, Ties(le, y)) == Filter(b, Ties(le, y))
    ensures le(a[0], b[0])
  {
    FilterMembers(b, Ties(le, b[0]));
    FilterMembers(a, Ties(le, b[0]));
    assert b[0] in Filter(a, Ties(le, b[0]));
  }

  lemma HeadTies<T(!new)>(le: (T, T) -> bool, s: seq<T>)
    requires TotalPreorder(le) && s != []
    ensures Filter(s, Ties(le, s[0])) != []
  {}

  /** The specification has one solution. */
  lemma {:induction false} StableSortIsUnique<T(!new)>(le: (T, T) -> bool, a: seq<T>, b: seq<T>)
    requires TotalPreorder(le) && Sorted(le, a) && Sorted(le, b)
    requires forall y :: Filter(a, Ties(le, y)) == Filter(b, Ties(le, y))
    ensures a == b
    decreases |a|
  {
    if a == [] && b != [] {
      HeadTies(le, b);
    } else if b == [] && a != [] {
      HeadTies(le, a);
    } else if a != [] {
      FirstTies(le, a, b);
      FirstTies(le, b, a);
      assert Filter(a, Ties(le, a[0]))[0] == a[0];
      assert Filter(b, Ties(le, a[0]))[0] == b[0];
      forall y ensures Filter(a[1..], Ties(le, y)) == Filter(b[1..], Ties(le, y)) {
        var head := if Ties(le, y)(a[0]) then [a[0]] else [];
        assert head + Filter(a[1..], Ties(le, y)) == head + Filter(b[1..], Ties(le, y));
        assert (head + Filter(a[1..], Ties(le, y)))[|head|..] == Filter(a[1..], Ties(le, y));
        assert (head + Filter(b[1..], Ties(le, y)))[|head|..] == Filter(b[1..], Ties(le, y));
      }
      StableSortIsUnique(le, a[1..], b[1..]);
      assert a == [a[0]] + a[1..] && b == [b[0]] + b[1..];
    }
  }

  lemma {:induction false} FilterSorted<T(!new)>(le: (T, T) -> bool, s: seq<T>, keep: T -> bool)
    requires Sorted(le, s)
    ensures Sorted(le, Filter(s, keep))
  {
    if s != [] {
      var rest := Filter(s[1..], keep);
      FilterSorted(le, s[1..], keep);
      FilterMembers(s[1..], keep);
      forall j | 0 <= j < |rest| ensures le(s[0], rest[j]) {
        assert rest[j] in s[1..];
      }
    }
  }

  lemma {:induction false} FilterSwap<T>(s: seq<T>, p: T -> bool, q: T -> bool)
    ensures Filter(Filter(s, p), q) == Filter(Filter(s, q), p)
  {
    if s != [] {
      FilterSwap(s[1..], p, q);
      FilterHead(s[0], Filter(s[1..], p), q);
      FilterHead(s[0], Filter(s[1..], q), p);
      assert [] + Filter(s[1..], p) == Filter(s[1..], p) && [] + Filter(s[1..], q) == Filter(s[1..], q);
    }
  }

  /** A stable sort leaves a part of its input in the order it had exactly when that
      part was in order already. */
  lemma PartKeepsOrder<T(!new)>(le: (T, T) -> bool, s: seq<T>, part: T -> bool)
    requires TotalPreorder(le)
    ensures Filter(Sort(le, s), part) == Filter(s, part) <==> Sorted(le, Filter(s, part))
  {
    var sorted, kept := Filter(Sort(le, s), part), Filter(s, part);
    SortIsStable(le, s);
    FilterSorted(le, Sort(le, s), part);
    if Sorted(le, kept) {
      forall y ensures Filter(sorted, Ties(le, y)) == Filter(kept, Ties(le, y)) {
        FilterSwap(Sort(le, s), part, Ties(le, y));
        FilterSwap(s, part, Ties(le, y));
      }
      StableSortIsUnique(le, sorted, kept);
    }
  }
}
