/** Quota evidence and the two sorts behind automatic provider routing. */
module Ranking {
  import opened Prelude
  import opened StableSort

  datatype Ordering = Less | Equal | Greater {
    function Then(next: Ordering): Ordering { if this.Equal? then next else this }
  }

  function CompareBool(a: bool, b: bool): Ordering { if a == b then Equal else if b then Less else Greater }

  function CompareReal(a: real, b: real): Ordering { if a < b then Less else if a > b then Greater else Equal }

  /** A missing reset is the end of time. */
  function CompareReset(a: Option<real>, b: Option<real>): Ordering {
    match (a, b)
    case (None, None) => Equal
    case (None, Some(_)) => Greater
    case (Some(_), None) => Less
    case (Some(x), Some(y)) => CompareReal(x, y)
  }

  // ----- Evidence

  datatype Window = Window(used: Option<real>, remaining: Option<real>, resetsAt: Option<real>)

  function Clamp(x: real): real { if x < 0.0 then 0.0 else if x > 100.0 then 100.0 else x }

  function Clamped(x: Option<real>): Option<real> { if x.Some? then Some(Clamp(x.value)) else None }

  function Complement(x: Option<real>): Option<real> { if x.Some? then Some(100.0 - x.value) else None }

  function Or(a: Option<real>, b: Option<real>): Option<real> { if a.Some? then a else b }

  function NewWindow(used: Option<real>, remaining: Option<real>, resetsAt: Option<real>): Window {
    var u := Clamped(used);
    var r := Clamped(Or(remaining, Complement(u)));
    Window(Or(u, Complement(r)), r, resetsAt)
  }

  predicate Percent(x: Option<real>) { x.Some? ==> 0.0 <= x.value <= 100.0 }

  predicate Normal(w: Window) {
    Percent(w.used) && Percent(w.remaining) && (w.used.Some? <==> w.remaining.Some?)
  }

  /** A measure within 0 to 100 stays as it is, any other moves to the nearer end. */
  lemma ClampIsNearest(x: real, y: real)
    requires 0.0 <= y <= 100.0
    ensures 0.0 <= Clamp(x) <= 100.0
    ensures if x <= y then x <= Clamp(x) <= y else y <= Clamp(x) <= x
  {}

  /** One known side fills in the other, everything lands in 0 to 100, and two
      measured sides are only clamped. */
  lemma NewWindowIsNormal(used: Option<real>, remaining: Option<real>, resetsAt: Option<real>)
    ensures var w := NewWindow(used, remaining, resetsAt);
            && Normal(w) && w.resetsAt == resetsAt && (w.used.Some? <==> used.Some? || remaining.Some?)
            && (used.Some? ==> w.used == Clamped(used)) && (remaining.Some? ==> w.remaining == Clamped(remaining))
            && (w.used.Some? && (used.None? || remaining.None?) ==> w.used.value + w.remaining.value == 100.0)
  {}

  datatype Usage = Usage(key: string, ok: bool, windows: seq<Window>, resetAt: Option<real>)

  /** The soonest reset among the windows, the first of equals. */
  function Soonest(windows: seq<Window>): Option<real> {
    if windows == [] then None
    else
      var rest := Soonest(windows[1..]);
      if rest.None? || (windows[0].resetsAt.Some? && windows[0].resetsAt.value <= rest.value)
      then Or(windows[0].resetsAt, rest) else rest
  }

  /** The first window's remaining allowance that is known, or -1. */
  function EffectiveRemaining(windows: seq<Window>): real {
    if windows == [] then -1.0
    else if windows[0].remaining.Some? then windows[0].remaining.value
    else EffectiveRemaining(windows[1..])
  }

  lemma {:induction false} SoonestIsSoonest(windows: seq<Window>)
    ensures match Soonest(windows)
            case None => forall w | w in windows :: w.resetsAt.None?
            case Some(at) =>
              && (exists w :: w in windows && w.resetsAt == Some(at))
              && (forall w | w in windows && w.resetsAt.Some? :: at <= w.resetsAt.value)
  {
    if windows != [] {
      SoonestIsSoonest(windows[1..]);
      assert windows == [windows[0]] + windows[1..];
      var rest := Soonest(windows[1..]);
      assert windows[0] in windows;
      if rest.Some? {
        var w :| w in windows[1..] && w.resetsAt == rest;
        assert w in windows;
      }
    }
  }

  /** What collectors produce is ranked on -1 or a percentage, never on anything else. */
  lemma {:induction false} RemainingIsPercentOrUnknown(windows: seq<Window>)
    requires forall w | w in windows :: Normal(w)
    ensures EffectiveRemaining(windows) == -1.0 || 0.0 <= EffectiveRemaining(windows) <= 100.0
    ensures EffectiveRemaining(windows) == -1.0 <==> forall w | w in windows :: w.used.None?
  {
    if windows != [] {
      RemainingIsPercentOrUnknown(windows[1..]);
      assert windows == [windows[0]] + windows[1..];
      assert windows[0] in windows;
    }
  }

  /** The allowance ranked on is that of the first window that knows one. */
  lemma {:induction false} RemainingIsFirstKnown(windows: seq<Window>, i: nat)
    requires i < |windows| && windows[i].remaining.Some?
    requires forall j | 0 <= j < i :: windows[j].remaining.None?
    ensures EffectiveRemaining(windows) == windows[i].remaining.value
    decreases i
  {
    if i > 0 {
      RemainingIsFirstKnown(windows[1..], i - 1);
    }
  }

  // ----- The two comparators

  function Left(u: Usage): real { EffectiveRemaining(u.windows) }

  function ReportOrder(a: Usage, b: Usage): Ordering {
    CompareBool(Left(a) <= 0.0, Left(b) <= 0.0).Then(CompareReset(a.resetAt, b.resetAt))
  }

  function RouteOrder(a: Usage, b: Usage): Ordering {
    CompareBool(Left(a) <= 0.0, Left(b) <= 0.0).Then(CompareReal(Left(b), Left(a)))
      .Then(CompareReset(a.resetAt, b.resetAt))
  }

  const REPORT_LE: (Usage, Usage) -> bool := (a, b) => !ReportOrder(a, b).Greater?
  const ROUTE_LE: (Usage, Usage) -> bool := (a, b) => !RouteOrder(a, b).Greater?

  lemma ComparatorsArePreorders()
    ensures TotalPreorder(REPORT_LE) && TotalPreorder(ROUTE_LE)
  {}

  /** The report's provider order, and the routing order made from it. */
  function Reported(collected: seq<Usage>): seq<Usage> { Sort(REPORT_LE, collected) }

  function Ranked(report: seq<Usage>): seq<Usage> { Sort(ROUTE_LE, report) }

  lemma {:induction false} FilterTwice<T>(s: seq<T>, keep: T -> bool, finer: T -> bool)
    requires forall x | x in s && finer(x) :: keep(x)
    ensures Filter(Filter(s, keep), finer) == Filter(s, finer)
  {
    if s != [] {
      FilterTwice(s[1..], keep, finer);
      if keep(s[0]) {
        assert Filter(s, keep)[1..] == Filter(s[1..], keep);
      } else {
        assert Filter(s, keep) == [] + Filter(s[1..], keep) == Filter(s[1..], keep);
      }
    }
  }

  /** Two providers the router cannot tell apart are in the order they were collected
      in, through both sorts. */
  lemma TiesKeepCollectionOrder(collected: seq<Usage>, u: Usage)
    ensures Filter(Ranked(Reported(collected)), Ties(ROUTE_LE, u)) == Filter(collected, Ties(ROUTE_LE, u))
  {
    ComparatorsArePreorders();
    var report := Reported(collected);
    SortIsStable(REPORT_LE, collected);
    SortIsStable(ROUTE_LE, report);
    SameTies(report, collected, u);
  }

  /** Providers tied for routing are tied in the report. */
  lemma SameTies(report: seq<Usage>, collected: seq<Usage>, u: Usage)
    requires Filter(report, Ties(REPORT_LE, u)) == Filter(collected, Ties(REPORT_LE, u))
    ensures Filter(report, Ties(ROUTE_LE, u)) == Filter(collected, Ties(ROUTE_LE, u))
  {
    FilterTwice(report, Ties(REPORT_LE, u), Ties(ROUTE_LE, u));
    FilterTwice(collected, Ties(REPORT_LE, u), Ties(ROUTE_LE, u));
  }

  /** The report: exactly the collected providers, those with quota left before all others,
      and in each of the two groups the sooner reset first. */
  lemma ReportPrefersHeadroom(collected: seq<Usage>, i: nat, j: nat)
    requires i < j < |Reported(collected)|
    ensures var report := Reported(collected);
            var a, b := report[i], report[j];
            && multiset(report) == multiset(collected)
            && (Left(b) > 0.0 ==> Left(a) > 0.0)
            && ((Left(a) > 0.0 <==> Left(b) > 0.0) ==> SoonerOrSame(a.resetAt, b.resetAt))
  {
    ComparatorsArePreorders();
    SortPermutes(REPORT_LE, collected);
    SortIsStable(REPORT_LE, collected);
    assert REPORT_LE(Reported(collected)[i], Reported(collected)[j]);
  }

  /** And providers with the same standing and reset keep collection order there. */
  lemma ReportKeepsTies(collected: seq<Usage>, u: Usage)
    ensures var same := (v: Usage) => (Left(v) > 0.0 <==> Left(u) > 0.0) && v.resetAt == u.resetAt;
            Filter(Reported(collected), same) == Filter(collected, same)
  {
    ComparatorsArePreorders();
    SortIsStable(REPORT_LE, collected);
    var same := (v: Usage) => (Left(v) > 0.0 <==> Left(u) > 0.0) && v.resetAt == u.resetAt;
    FilterTwice(Reported(collected), Ties(REPORT_LE, u), same);
    FilterTwice(collected, Ties(REPORT_LE, u), same);
  }

  predicate SoonerOrSame(a: Option<real>, b: Option<real>) {
    b.None? || (a.Some? && a.value <= b.value)
  }

  /** Routing over a fresh report: exactly the collected providers, those with quota
      left before all others, more quota first, and a sooner reset first among equals. */
  lemma RoutePrefersHeadroom(collected: seq<Usage>, i: nat, j: nat)
    requires i < j < |Ranked(Reported(collected))|
    ensures var ranked := Ranked(Reported(collected));
            var a, b := ranked[i], ranked[j];
            && multiset(ranked) == multiset(collected)
            && (Left(b) > 0.0 ==> Left(a) > 0.0)
            && Left(a) >= Left(b)
            && (Left(a) == Left(b) ==> SoonerOrSame(a.resetAt, b.resetAt))
  {
    ComparatorsArePreorders();
    var report := Reported(collected);
    SortPermutes(REPORT_LE, collected);
    SortPermutes(ROUTE_LE, report);
    SortIsStable(ROUTE_LE, report);
    var ranked := Ranked(report);
    assert ROUTE_LE(ranked[i], ranked[j]);
  }

  predicate Bare(u: Usage) { Left(u) <= 0.0 }

  /** Over a fresh report, the providers without headroom keep report order exactly when
      no exhausted one (0 left) stands after an unmeasured one (-1 left). */
  lemma BareKeepReportOrder(collected: seq<Usage>)
    ensures var bare := Filter(Reported(collected), Bare);
            Filter(Ranked(Reported(collected)), Bare) == bare <==>
              forall i, j :: 0 <= i < j < |bare| ==> Left(bare[i]) >= Left(bare[j])
  {
    ComparatorsArePreorders();
    var report := Reported(collected);
    var bare := Filter(report, Bare);
    PartKeepsOrder(ROUTE_LE, report, Bare);
    SortIsStable(REPORT_LE, collected);
    FilterSorted(REPORT_LE, report, Bare);
    FilterMembers(report, Bare);
    forall i, j | 0 <= i < j < |bare| ensures ROUTE_LE(bare[i], bare[j]) <==> Left(bare[i]) >= Left(bare[j]) {
      assert bare[i] in bare && bare[j] in bare && REPORT_LE(bare[i], bare[j]);
    }
  }

  /** It happens: an exhausted provider overtakes an unmeasured one that the report lists
      before it. */
  lemma ExhaustedOvertakesUnmeasured()
    ensures var unmeasured := Usage("a", true, [], Some(1.0));
            var exhausted := Usage("b", true, [Window(Some(100.0), Some(0.0), Some(2.0))], Some(2.0));
            && Reported([unmeasured, exhausted]) == [unmeasured, exhausted]
            && Ranked([unmeasured, exhausted]) == [exhausted, unmeasured]
  {
    var unmeasured := Usage("a", true, [], Some(1.0));
    var exhausted := Usage("b", true, [Window(Some(100.0), Some(0.0), Some(2.0))], Some(2.0));
    assert Left(unmeasured) == -1.0 && Left(exhausted) == 0.0;
    SortTwo(REPORT_LE, unmeasured, exhausted);
    SortTwo(ROUTE_LE, unmeasured, exhausted);
  }

  lemma SortTwo(le: (Usage, Usage) -> bool, a: Usage, b: Usage)
    ensures Sort(le, [a, b]) == if le(a, b) then [a, b] else [b, a]
  {
    assert [a, b][1..] == [b] && [b][1..] == [];
    assert Sort(le, []) == [];
    assert Sort(le, [b]) == Insert(le, b, []) == [b] + [] == [b];
    assert Sort(le, [a, b]) == Insert(le, a, [b]);
    assert Insert(le, a, []) == [a] + [] == [a];
    if le(a, b) {
      assert Insert(le, a, [b]) == [a] + [b] == [a, b];
    } else {
      assert Insert(le, a, [b]) == [b] + Insert(le, a, [b][1..]) == [b] + [a] == [b, a];
    }
  }
}
