/** The one-shot launcher: the run's bounded event buffer, paged reads of it, and the
    loop that consumes pages and writes each event once. */
module Launcher {
  import opened Prelude
  import opened Paging

  const MAX_EVENT_BYTES_PER_RUN: nat := 8 * 1024 * 1024

  datatype Event = Event(sequence: nat, isOutput: bool, data: Option<string>, size: nat)

  datatype Buffer = Buffer(events: seq<Event>, bytes: nat, next: nat, gap: bool)

  const EMPTY: Buffer := Buffer([], 0, 1, false)

  datatype Page = Page(events: seq<Event>, next: Option<nat>, gap: bool)

  function Sizes(events: seq<Event>): (sizes: seq<nat>)
    ensures |sizes| == |events| && forall i | 0 <= i < |events| :: sizes[i] == events[i].size
  {
    seq(|events|, i requires 0 <= i < |events| => events[i].size)
  }

  // ----- The buffer

  /** How many of the oldest events have to go before one of `size` bytes fits. */
  function Evicted(events: seq<Event>, size: nat): (n: nat)
    ensures n <= |events|
  {
    if events == [] || Sum(Sizes(events)) + size <= MAX_EVENT_BYTES_PER_RUN then 0
    else 1 + Evicted(events[1..], size)
  }

  function Pushed(b: Buffer, isOutput: bool, data: Option<string>, size: nat): Buffer {
    var n := Evicted(b.events, size);
    var kept := b.events[n..] + [Event(b.next, isOutput, data, size)];
    Buffer(kept, Sum(Sizes(kept)), b.next + 1, b.gap || n > 0)
  }

  predicate Sound(b: Buffer) {
    && b.bytes == Sum(Sizes(b.events)) <= MAX_EVENT_BYTES_PER_RUN
    && b.next == (if b.gap then b.next else |b.events| + 1)
    && |b.events| < b.next
    && (b.gap ==> |b.events| + 1 < b.next && b.events != [])
    && forall i | 0 <= i < |b.events| :: b.events[i].sequence == b.next - |b.events| + i
  }

  lemma EvictedFits(events: seq<Event>, size: nat)
    requires size <= MAX_EVENT_BYTES_PER_RUN
    ensures Sum(Sizes(events[Evicted(events, size)..])) + size <= MAX_EVENT_BYTES_PER_RUN
  {
    if Evicted(events, size) > 0 {
      EvictedFits(events[1..], size);
      assert events[1..][Evicted(events[1..], size)..] == events[Evicted(events, size)..];
    } else {
      assert events[0..] == events;
      assert Sizes([]) == [];
    }
  }

  /** No more events go than have to: with the last one evicted put back, the new one would
      not fit. */
  lemma EvictionIsMinimal(events: seq<Event>, size: nat)
    requires Evicted(events, size) > 0
    ensures Sum(Sizes(events[Evicted(events, size) - 1..])) + size > MAX_EVENT_BYTES_PER_RUN
  {
    if Evicted(events[1..], size) > 0 {
      EvictionIsMinimal(events[1..], size);
      assert events[1..][Evicted(events[1..], size) - 1..] == events[Evicted(events, size) - 1..];
    } else {
      assert events[0..] == events;
    }
  }

  lemma SizesSnoc(events: seq<Event>, e: Event)
    ensures Sum(Sizes(events + [e])) == Sum(Sizes(events)) + e.size
  {
    assert Sizes(events + [e]) == Sizes(events) + [e.size];
    SumConcat(Sizes(events), [e.size]);
  }

  lemma PushKeepsSound(b: Buffer, isOutput: bool, data: Option<string>, size: nat)
    requires Sound(b) && size <= MAX_EVENT_BYTES_PER_RUN
    ensures Sound(Pushed(b, isOutput, data, size))
  {
    EvictedFits(b.events, size);
    SizesSnoc(b.events[Evicted(b.events, size)..], Event(b.next, isOutput, data, size));
  }

  class EventBuffer {
    var events: seq<Event>
    var bytes: nat
    var next: nat
    var gap: bool

    ghost function State(): Buffer
      reads this
    {
      Buffer(events, bytes, next, gap)
    }

    constructor ()
      ensures State() == EMPTY && Sound(State())
    {
      events, bytes, next, gap := [], 0, 1, false;
    }

    /** Drop the oldest events until `size` more bytes fit. */
    method MakeRoom(size: nat)
      requires bytes == Sum(Sizes(events)) <= MAX_EVENT_BYTES_PER_RUN && size <= MAX_EVENT_BYTES_PER_RUN
      modifies this`events, this`bytes, this`gap
      ensures events == old(events)[Evicted(old(events), size)..]
      ensures bytes == Sum(Sizes(events)) && bytes + size <= MAX_EVENT_BYTES_PER_RUN
      ensures gap == (old(gap) || Evicted(old(events), size) > 0)
    {
      assert Sizes([]) == [];
      ghost var n: nat := 0;
      while events != [] && SatAdd(bytes, size) > MAX_EVENT_BYTES_PER_RUN
        invariant n <= |old(events)| && events == old(events)[n..]
        invariant bytes == Sum(Sizes(events)) <= MAX_EVENT_BYTES_PER_RUN
        invariant Evicted(old(events), size) == n + Evicted(events, size)
        invariant gap == (old(gap) || n > 0)
        decreases |events|
      {
        assert Sizes(events)[1..] == Sizes(events[1..]);
        bytes := bytes - events[0].size;
        events := events[1..];
        gap := true;
        n := n + 1;
      }
    }

    /** Make room for the new event, then keep it. */
    method Push(isOutput: bool, data: Option<string>, size: nat)
      requires Sound(State()) && size <= MAX_EVENT_BYTES_PER_RUN
      modifies this
      ensures State() == Pushed(old(State()), isOutput, data, size) && Sound(State())
    {
      PushKeepsSound(State(), isOutput, data, size);
      var event := Event(next, isOutput, data, size);
      next := next + 1;
      MakeRoom(size);
      SizesSnoc(events, event);
      bytes := SatAdd(bytes, size);
      events := events + [event];
    }

    /** One page after the cursor: at least one event when there is any. A cursor newer
        than everything retained is refused. */
    method ReadEvents(cursor: Option<nat>, pageBytes: nat) returns (page: Result<Page, ReadError>)
      ensures page == ReadOf(State(), cursor, pageBytes)
    {
      if cursor.Some? && events != [] && cursor.value > events[|events| - 1].sequence {
        return Err(CursorTooNew);
      }
      var after := cursor.GetOr(0);
      var newer := Newer(events, after);
      var n, more := TakePage(Sizes(newer), |newer|, pageBytes);
      var missed := cursor.Some? && events != [] && cursor.value + 1 < events[0].sequence;
      page := Ok(Page(newer[..n], NextCursor(events, newer[..n]), gap || missed));
    }
  }

  // ----- Reading pages

  function Newer(events: seq<Event>, after: nat): seq<Event> {
    Filter(events, (e: Event) => e.sequence > after)
  }

  /** The last selected event's sequence, if the buffer holds anything beyond it. */
  function NextCursor(events: seq<Event>, selected: seq<Event>): Option<nat> {
    if selected == [] then None
    else
      var last := selected[|selected| - 1].sequence;
      if exists e :: e in events && e.sequence > last then Some(last) else None
  }

  function PageOf(b: Buffer, cursor: Option<nat>, pageBytes: nat): Page {
    var newer := Newer(b.events, cursor.GetOr(0));
    var selected := newer[..PageLength(Sizes(newer), |newer|, pageBytes)];
    Page(selected, NextCursor(b.events, selected),
         b.gap || (cursor.Some? && b.events != [] && cursor.value + 1 < b.events[0].sequence))
  }

  datatype ReadError = CursorTooNew

  function ReadOf(b: Buffer, cursor: Option<nat>, pageBytes: nat): Result<Page, ReadError> {
    if cursor.Some? && b.events != [] && cursor.value > b.events[|b.events| - 1].sequence then Err(CursorTooNew)
    else Ok(PageOf(b, cursor, pageBytes))
  }

  // ----- Consuming pages

  datatype Record = GapAfter(after: nat) | Emit(event: Event)

  datatype Format = Text | Jsonl

  datatype Line = Delta(text: string) | EventLine(shown: Event) | GapLine(gapAfter: nat)

  /** Everything the consumer has written, with the history of what it showed. */
  datatype Screen = Screen(last: nat, seen: bool, output: seq<Line>, diagnostics: seq<Line>, records: seq<Record>)

  const BLANK: Screen := Screen(0, false, [], [], [])

  function Announced(format: Format, s: Screen): Screen {
    if format.Jsonl? then s.(output := s.output + [GapLine(s.last)], records := s.records + [GapAfter(s.last)])
    else s.(diagnostics := s.diagnostics + [GapLine(s.last)], records := s.records + [GapAfter(s.last)])
  }

  function Written(format: Format, s: Screen, e: Event): Screen {
    var lines := if format.Jsonl? then [EventLine(e)]
                 else if e.isOutput && e.data.Some? then [Delta(e.data.value)] else [];
    Screen(e.sequence, s.seen || e.isOutput, s.output + lines, s.diagnostics, s.records + [Emit(e)])
  }

  /** One event of a page. */
  function Shown(format: Format, s: Screen, gap: bool, e: Event): Screen {
    if e.sequence <= s.last then s
    else Written(format, if gap && e.sequence > s.last + 1 then Announced(format, s) else s, e)
  }

  function ShownAll(format: Format, s: Screen, gap: bool, events: seq<Event>): Screen
    decreases |events|
  {
    if events == [] then s else ShownAll(format, Shown(format, s, gap, events[0]), gap, events[1..])
  }

  /** Consecutive pages, up to the first that ends the walk. */
  function Walked(format: Format, s: Screen, pages: seq<Page>): Screen
    decreases |pages|
  {
    if pages == [] then s
    else
      var s' := ShownAll(format, s, pages[0].gap, pages[0].events);
      if pages[0].next.None? then s' else Walked(format, s', pages[1..])
  }

  predicate Finishes(pages: seq<Page>) {
    pages != [] && (pages[0].next.None? || Finishes(pages[1..]))
  }

  /** The walk ends exactly if some page has no next cursor. */
  lemma {:induction false} FinishesAtLastPage(pages: seq<Page>)
    ensures Finishes(pages) <==> exists k :: 0 <= k < |pages| && pages[k].next.None?
    decreases |pages|
  {
    if pages != [] {
      FinishesAtLastPage(pages[1..]);
      if k :| 0 <= k < |pages[1..]| && pages[1..][k].next.None? {
        assert pages[k + 1].next.None?;
      }
      if k :| 0 < k < |pages| && pages[k].next.None? {
        assert pages[1..][k - 1].next.None?;
      }
    }
  }

  /** And it shows nothing of what comes after the first of those. */
  lemma {:induction false} NothingAfterLastPage(format: Format, s: Screen, pages: seq<Page>, later: seq<Page>)
    requires Finishes(pages)
    ensures Walked(format, s, pages + later) == Walked(format, s, pages)
    decreases |pages|
  {
    if pages[0].next.Some? {
      assert (pages + later)[1..] == pages[1..] + later;
      NothingAfterLastPage(format, ShownAll(format, s, pages[0].gap, pages[0].events), pages[1..], later);
    }
  }

  /** The launcher's cursor, high-water mark and writers. */
  class Consumer {
    var cursor: Option<nat>
    var last: nat
    var outputSeen: bool
    var output: seq<Line>
    var diagnostics: seq<Line>
    ghost var records: seq<Record>
    const format: Format

    ghost function State(): Screen
      reads this
    {
      Screen(last, outputSeen, output, diagnostics, records)
    }

    constructor (format: Format)
      ensures this.format == format && cursor == None && State() == BLANK
    {
      this.format, cursor, last, outputSeen, output, diagnostics, records := format, None, 0, false, [], [], [];
    }

    method ShowEvent(gap: bool, event: Event)
      modifies this
      ensures cursor == old(cursor) && State() == Shown(format, old(State()), gap, event)
    {
      if event.sequence <= last {
        return;
      }
      if gap && event.sequence > last + 1 {
        if format == Jsonl {
          output := output + [GapLine(last)];
        } else {
          diagnostics := diagnostics + [GapLine(last)];
        }
        records := records + [GapAfter(last)];
      }
      last := event.sequence;
      if format == Text && event.isOutput {
        if event.data.Some? {
          output := output + [Delta(event.data.value)];
        }
        outputSeen := true;
      } else if format == Jsonl {
        output := output + [EventLine(event)];
        if event.isOutput {
          outputSeen := true;
        }
      }
      records := records + [Emit(event)];
    }

    method ShowPage(page: Page)
      modifies this
      ensures cursor == old(cursor) && State() == ShownAll(format, old(State()), page.gap, page.events)
    {
      var i := 0;
      while i < |page.events|
        invariant 0 <= i <= |page.events| && cursor == old(cursor)
        invariant ShownAll(format, State(), page.gap, page.events[i..]) ==
                  ShownAll(format, old(State()), page.gap, page.events)
      {
        assert page.events[i..][1..] == page.events[i + 1..];
        ShowEvent(page.gap, page.events[i]);
        i := i + 1;
      }
    }

    /** Read and show pages until one has no next cursor; `pages` are the manager's
        answers, and running out of them is a failed read. */
    method ConsumeEvents(pages: seq<Page>) returns (ok: bool)
      modifies this
      ensures State() == Walked(format, old(State()), pages)
      ensures (ok <==> exists k :: 0 <= k < |pages| && pages[k].next.None?) && (ok ==> cursor == None)
    {
      FinishesAtLastPage(pages);
      var k := 0;
      while k < |pages|
        invariant 0 <= k <= |pages|
        invariant Walked(format, State(), pages[k..]) == Walked(format, old(State()), pages)
        invariant Finishes(pages[k..]) == Finishes(pages)
      {
        assert pages[k..][1..] == pages[k + 1..];
        ShowPage(pages[k]);
        cursor := pages[k].next;
        if cursor.None? {
          return true;
        }
        k := k + 1;
      }
      return false;
    }
  }

  // ----- Any pages

  function Level(r: Record): nat {
    match r
    case GapAfter(n) => n
    case Emit(e) => e.sequence
  }

  function LevelAt(records: seq<Record>, i: nat): nat
    requires i <= |records|
  {
    if i == 0 then 0 else Level(records[i - 1])
  }

  predicate LinkAt(records: seq<Record>, i: nat, exact: bool)
    requires i < |records|
  {
    match records[i]
    case GapAfter(n) =>
      && n == LevelAt(records, i) && (i > 0 ==> records[i - 1].Emit?)
      && i + 1 < |records| && records[i + 1].Emit?
    case Emit(e) =>
      if i > 0 && records[i - 1].GapAfter? then e.sequence > LevelAt(records, i) + 1
      else if exact then e.sequence == LevelAt(records, i) + 1
      else e.sequence > LevelAt(records, i)
  }

  /** The records make one ascending line: a gap record names the last event shown
      and stands just before an event beyond the next one. When `exact`, an event
      without a gap record before it is the next one. */
  predicate Linked(records: seq<Record>, exact: bool) {
    forall i | 0 <= i < |records| :: LinkAt(records, i, exact)
  }

  predicate Consistent(s: Screen, exact: bool) {
    && Linked(s.records, exact) && s.last == LevelAt(s.records, |s.records|)
    && (s.records != [] ==> s.records[|s.records| - 1].Emit?)
  }

  lemma ShownStaysLinked(format: Format, s: Screen, gap: bool, e: Event, exact: bool)
    requires Consistent(s, exact) && (exact ==> gap || e.sequence <= s.last + 1)
    ensures Consistent(Shown(format, s, gap, e), exact)
  {
    if e.sequence > s.last {
      var jumps := gap && e.sequence > s.last + 1;
      var tail := if jumps then [GapAfter(s.last), Emit(e)] else [Emit(e)];
      assert Shown(format, s, gap, e).records == s.records + tail;
      forall i | 0 <= i < |s.records| ensures LinkAt(s.records + tail, i, exact) {
        assert LinkAt(s.records, i, exact);
        LinkStays(s.records, tail, i, exact);
      }
      TailLinks(s, tail, e, exact);
    }
  }

  lemma LinkStays(records: seq<Record>, tail: seq<Record>, i: nat, exact: bool)
    requires i < |records| && LinkAt(records, i, exact)
    ensures LinkAt(records + tail, i, exact)
  {}

  lemma TailLinks(s: Screen, tail: seq<Record>, e: Event, exact: bool)
    requires Consistent(s, exact) && e.sequence > s.last
    requires tail == [Emit(e)] || (tail == [GapAfter(s.last), Emit(e)] && e.sequence > s.last + 1)
    requires exact && tail == [Emit(e)] ==> e.sequence == s.last + 1
    ensures var records := s.records + tail;
            && (forall i | |s.records| <= i < |records| :: LinkAt(records, i, exact))
            && LevelAt(records, |records|) == e.sequence && records[|records| - 1].Emit?
  {
    var records, n := s.records + tail, |s.records|;
    assert LevelAt(records, n) == s.last;
    assert records[n] == tail[0] && (n > 0 ==> records[n - 1] == s.records[n - 1]);
    if |tail| == 2 {
      assert records[n + 1] == tail[1];
    }
  }

  lemma {:induction false} PageStaysLinked(format: Format, s: Screen, gap: bool, events: seq<Event>)
    requires Consistent(s, false)
    ensures Consistent(ShownAll(format, s, gap, events), false)
    decreases |events|
  {
    if events != [] {
      ShownStaysLinked(format, s, gap, events[0], false);
      PageStaysLinked(format, Shown(format, s, gap, events[0]), gap, events[1..]);
    }
  }

  lemma {:induction false} WalkStaysLinked(format: Format, s: Screen, pages: seq<Page>)
    requires Consistent(s, false)
    ensures Consistent(Walked(format, s, pages), false)
    decreases |pages|
  {
    if pages != [] {
      PageStaysLinked(format, s, pages[0].gap, pages[0].events);
      WalkStaysLinked(format, ShownAll(format, s, pages[0].gap, pages[0].events), pages[1..]);
    }
  }

  function Calls(format: Format, s: Screen, calls: seq<seq<Page>>): Screen
    decreases |calls|
  {
    if calls == [] then s else Calls(format, Walked(format, s, calls[0]), calls[1..])
  }

  lemma {:induction false} CallsStayLinked(format: Format, s: Screen, calls: seq<seq<Page>>)
    requires Consistent(s, false)
    ensures Consistent(Calls(format, s, calls), false)
    decreases |calls|
  {
    if calls != [] {
      WalkStaysLinked(format, s, calls[0]);
      CallsStayLinked(format, Walked(format, s, calls[0]), calls[1..]);
    }
  }

  lemma {:induction false} LinkedAscends(records: seq<Record>, i: nat, j: nat, exact: bool)
    requires Linked(records, exact) && i < j < |records| && records[j].Emit?
    ensures Level(records[i]) < Level(records[j])
    decreases j
  {
    assert LinkAt(records, j, exact) && LinkAt(records, j - 1, exact);
    if i < j - 1 {
      if records[j - 1].Emit? {
        LinkedAscends(records, i, j - 1, exact);
      } else if i < j - 2 {
        LinkedAscends(records, i, j - 2, exact);
      }
    }
  }

  /** Whatever pages the manager answers, over all calls: the sequence numbers shown
      strictly increase, and a gap record stands only where one was jumped. */
  lemma EachEventShownOnce(format: Format, calls: seq<seq<Page>>)
    ensures var s := Calls(format, BLANK, calls);
            && Linked(s.records, false)
            && forall i, j | 0 <= i < j < |s.records| && s.records[i].Emit? && s.records[j].Emit? ::
                 s.records[i].event.sequence < s.records[j].event.sequence
  {
    CallsStayLinked(format, BLANK, calls);
    var s := Calls(format, BLANK, calls);
    forall i, j | 0 <= i < j < |s.records| && s.records[i].Emit? && s.records[j].Emit?
      ensures s.records[i].event.sequence < s.records[j].event.sequence
    {
      LinkedAscends(s.records, i, j, false);
    }
  }

  // ----- Pages of a growing buffer

  /** The run and its reader; `pushed` is every event the run ever produced. Between
      two calls the cursor is always none, so calls need no step of their own. */
  datatype System = System(buffer: Buffer, pushed: seq<Event>, cursor: Option<nat>, screen: Screen)

  datatype Action = Produce(isOutput: bool, data: Option<string>, size: nat) | Read(pageBytes: nat)

  function Next(format: Format, sys: System, action: Action): System {
    match action
    case Produce(isOutput, data, size) =>
      sys.(buffer := Pushed(sys.buffer, isOutput, data, size),
           pushed := sys.pushed + [Event(sys.buffer.next, isOutput, data, size)])
    case Read(pageBytes) =>
      var page := PageOf(sys.buffer, sys.cursor, pageBytes);
      sys.(cursor := page.next, screen := ShownAll(format, sys.screen, page.gap, page.events))
  }

  function Run(format: Format, sys: System, actions: seq<Action>): System
    decreases |actions|
  {
    if actions == [] then sys else Run(format, Next(format, sys, actions[0]), actions[1..])
  }

  const START: System := System(EMPTY, [], None, BLANK)

  function Lost(sys: System): int { |sys.pushed| - |sys.buffer.events| }

  /** Everything up to the high-water mark was shown or is gone from the buffer. */
  predicate Covers(s: Screen, pushed: seq<Event>, lost: int) {
    && s.last <= |pushed|
    && (forall n | lost <= n < s.last :: 0 <= n ==> Emit(pushed[n]) in s.records)
    && (forall r | r in s.records && r.Emit? ::
          0 < r.event.sequence <= |pushed| && r.event == pushed[r.event.sequence - 1])
  }

  predicate Numbered(pushed: seq<Event>) { forall i | 0 <= i < |pushed| :: pushed[i].sequence == i + 1 }

  /** The buffer holds the newest of the events pushed, and says whether it lost any. */
  predicate Retains(b: Buffer, pushed: seq<Event>) {
    && Sound(b) && Numbered(pushed) && |pushed| == b.next - 1
    && |b.events| <= |pushed| && b.events == pushed[|pushed| - |b.events|..]
  }

  /** The screen and the cursor are in step with what was pushed. */
  predicate Follows(screen: Screen, cursor: Option<nat>, pushed: seq<Event>, lost: int) {
    && Consistent(screen, true) && Covers(screen, pushed, lost)
    && (cursor.Some? ==> cursor.value <= screen.last && cursor.value < |pushed|)
  }

  ghost predicate Inv(sys: System) {
    Retains(sys.buffer, sys.pushed) && Follows(sys.screen, sys.cursor, sys.pushed, Lost(sys))
  }

  lemma FollowsGrows(s: Screen, cursor: Option<nat>, pushed: seq<Event>, e: Event, lost: int, lost': int)
    requires Follows(s, cursor, pushed, lost) && lost <= lost'
    ensures Follows(s, cursor, pushed + [e], lost')
  {}

  lemma KeptIsSuffix(pushed: seq<Event>, lost: nat, n: nat, e: Event)
    requires lost + n <= |pushed|
    ensures pushed[lost..][n..] + [e] == (pushed + [e])[lost + n..]
  {}

  lemma PushRetains(b: Buffer, pushed: seq<Event>, isOutput: bool, data: Option<string>, size: nat)
    requires Retains(b, pushed) && size <= MAX_EVENT_BYTES_PER_RUN
    ensures Retains(Pushed(b, isOutput, data, size), pushed + [Event(b.next, isOutput, data, size)])
    ensures |Pushed(b, isOutput, data, size).events| <= |b.events| + 1
  {
    PushKeepsSound(b, isOutput, data, size);
    KeptIsSuffix(pushed, |pushed| - |b.events|, Evicted(b.events, size), Event(b.next, isOutput, data, size));
  }

  lemma ProduceKeepsInv(format: Format, sys: System, isOutput: bool, data: Option<string>, size: nat)
    requires Inv(sys) && size <= MAX_EVENT_BYTES_PER_RUN
    ensures Inv(Next(format, sys, Produce(isOutput, data, size)))
  {
    var sys' := Next(format, sys, Produce(isOutput, data, size));
    PushRetains(sys.buffer, sys.pushed, isOutput, data, size);
    var e := Event(sys.buffer.next, isOutput, data, size);
    FollowsGrows(sys.screen, sys.cursor, sys.pushed, e, Lost(sys), Lost(sys'));
  }

  lemma {:induction false} NewerIsSuffix(events: seq<Event>, first: nat, after: nat)
    requires forall i | 0 <= i < |events| :: events[i].sequence == first + i
    ensures Newer(events, after) == events[Min(if after < first then 0 else after - first + 1, |events|)..]
    decreases |events|
  {
    if events != [] {
      if after < first {
        FilterAll(events, (e: Event) => e.sequence > after);
        assert events[0..] == events;
      } else {
        NewerIsSuffix(events[1..], first + 1, after);
        assert events[1..][Min(after - first, |events| - 1)..] == events[Min(after - first + 1, |events|)..];
      }
    }
  }

  lemma CoversNext(s: Screen, s': Screen, pushed: seq<Event>, a: nat, lost: nat)
    requires Numbered(pushed) && s.last <= a < |pushed| && Covers(s, pushed, lost) && (a <= s.last || a <= lost)
    requires s'.last == a + 1
    requires s'.records == s.records + [Emit(pushed[a])] ||
             s'.records == s.records + [GapAfter(s.last), Emit(pushed[a])]
    ensures Covers(s', pushed, lost)
  {
    var tail := s'.records[|s.records|..];
    assert s'.records == s.records + tail && Emit(pushed[a]) in tail;
    forall n | lost <= n < s'.last && 0 <= n ensures Emit(pushed[n]) in s'.records {
      if n < s.last {
        assert Emit(pushed[n]) in s.records;
      }
    }
    forall r | r in s'.records && r.Emit?
      ensures 0 < r.event.sequence <= |pushed| && r.event == pushed[r.event.sequence - 1]
    {
      assert r in s.records || r == Emit(pushed[a]);
    }
  }

  lemma ShownCovers(format: Format, s: Screen, gap: bool, pushed: seq<Event>, a: nat, lost: nat)
    requires Numbered(pushed) && a < |pushed| && Consistent(s, true) && Covers(s, pushed, lost)
    requires a <= s.last || (gap && a <= lost)
    ensures var s' := Shown(format, s, gap, pushed[a]);
            Consistent(s', true) && Covers(s', pushed, lost) && s'.last == (if a < s.last then s.last else a + 1)
  {
    ShownStaysLinked(format, s, gap, pushed[a], true);
    if s.last <= a {
      var tail := if gap && a > s.last then [GapAfter(s.last), Emit(pushed[a])] else [Emit(pushed[a])];
      var s' := Shown(format, s, gap, pushed[a]);
      assert s'.records == s.records + tail;
      CoversNext(s, s', pushed, a, lost);
    }
  }

  lemma {:induction false} SliceCovers(format: Format, s: Screen, gap: bool, pushed: seq<Event>, a: nat, b: nat,
                                       lost: nat)
    requires Numbered(pushed) && a <= b <= |pushed| && Consistent(s, true) && Covers(s, pushed, lost)
    requires a <= s.last || (gap && a <= lost)
    ensures var s' := ShownAll(format, s, gap, pushed[a..b]);
            Consistent(s', true) && Covers(s', pushed, lost) && s'.last >= s.last && (a < b ==> s'.last >= b)
    decreases b - a
  {
    if a < b {
      ShownCovers(format, s, gap, pushed, a, lost);
      assert pushed[a..b][0] == pushed[a] && pushed[a..b][1..] == pushed[a + 1..b];
      SliceCovers(format, Shown(format, s, gap, pushed[a]), gap, pushed, a + 1, b, lost);
    }
  }

  /** Where a page starts in what was pushed: right after the cursor, or at the oldest
      retained event. */
  function PageStart(b: Buffer, pushed: seq<Event>, cursor: Option<nat>): (a: nat)
    requires Retains(b, pushed) && cursor.GetOr(0) <= |pushed|
    ensures a <= |pushed|
  {
    var lost := |pushed| - |b.events|;
    if cursor.GetOr(0) < lost then lost else cursor.GetOr(0)
  }

  lemma NewerThanCursor(b: Buffer, pushed: seq<Event>, cursor: Option<nat>)
    requires Retains(b, pushed) && cursor.GetOr(0) <= |pushed|
    ensures Newer(b.events, cursor.GetOr(0)) == pushed[PageStart(b, pushed, cursor)..]
  {
    NewerIsSuffix(b.events, |pushed| - |b.events| + 1, cursor.GetOr(0));
  }

  lemma CursorOfSlice(pushed: seq<Event>, lost: nat, a: nat, b: nat)
    requires Numbered(pushed) && lost <= a <= b <= |pushed|
    ensures NextCursor(pushed[lost..], pushed[a..b]) == (if a < b < |pushed| then Some(b) else None)
  {
    if a < b {
      assert pushed[a..b][b - a - 1] == pushed[b - 1];
      if b < |pushed| {
        assert pushed[lost..][b - lost] == pushed[b];
      }
    }
  }

  /** How far a page reaches: at least one event while any follow. */
  lemma PageReaches(pushed: seq<Event>, a: nat, pageBytes: nat) returns (b: nat)
    requires a <= |pushed|
    ensures a <= b <= |pushed| && (a < |pushed| ==> a < b)
    ensures var newer := pushed[a..];
            newer[..PageLength(Sizes(newer), |newer|, pageBytes)] == pushed[a..b]
    ensures b - a <= 1 || Min(Sum(Sizes(pushed[a..b])), U64_MAX) <= pageBytes
    ensures a < b < |pushed| ==> Min(Sum(Sizes(pushed[a..b + 1])), U64_MAX) > pageBytes
  {
    var newer := pushed[a..];
    b := a + PageLength(Sizes(newer), |newer|, pageBytes);
    assert Sizes(newer)[..b - a] == Sizes(pushed[a..b]);
    if b < |pushed| {
      assert Sizes(newer)[..b - a + 1] == Sizes(pushed[a..b + 1]);
    }
    if newer != [] {
      assert Fits(Sizes(newer), 1, |newer|, pageBytes);
    }
  }

  /** A page says that events are lost exactly when the buffer does not hold everything that
      was pushed. */
  lemma GapMeansLoss(b: Buffer, pushed: seq<Event>, cursor: Option<nat>, pageBytes: nat)
    requires Retains(b, pushed)
    ensures PageOf(b, cursor, pageBytes).gap <==> |b.events| < |pushed|
  {}

  /** A cursor is refused exactly when it is past everything produced so far, and there is
      something to be past. */
  lemma RefusedCursorIsAhead(b: Buffer, pushed: seq<Event>, cursor: nat, pageBytes: nat)
    requires Retains(b, pushed)
    ensures ReadOf(b, Some(cursor), pageBytes).Err? <==> b.events != [] && cursor > |pushed|
    ensures ReadOf(b, None, pageBytes).Ok?
  {
    if b.events != [] {
      assert b.events[|b.events| - 1] == pushed[|pushed| - 1];
    }
  }

  /** A page of the buffer is a slice of what was pushed, as long as the byte bound allows,
      and its cursor says whether that is all. */
  lemma PageIsSlice(b: Buffer, pushed: seq<Event>, cursor: Option<nat>, pageBytes: nat) returns (to: nat)
    requires Retains(b, pushed) && cursor.GetOr(0) <= |pushed|
    ensures var from, page := PageStart(b, pushed, cursor), PageOf(b, cursor, pageBytes);
            && from <= to <= |pushed| && (from < |pushed| ==> from < to)
            && page.events == pushed[from..to]
            && (to - from <= 1 || Min(Sum(Sizes(pushed[from..to])), U64_MAX) <= pageBytes)
            && (from < to < |pushed| ==> Min(Sum(Sizes(pushed[from..to + 1])), U64_MAX) > pageBytes)
            && page.next == (if from < to < |pushed| then Some(to) else None)
  {
    var from := PageStart(b, pushed, cursor);
    NewerThanCursor(b, pushed, cursor);
    to := PageReaches(pushed, from, pageBytes);
    CursorOfSlice(pushed, |pushed| - |b.events|, from, to);
  }

  /** What one page's slice does to the screen, given that it starts no later than
      the high-water mark or at the oldest retained event. */
  lemma ReadCovers(format: Format, sys: System, pageBytes: nat) returns (b: nat)
    requires Inv(sys)
    ensures var page := PageOf(sys.buffer, sys.cursor, pageBytes);
            var s' := ShownAll(format, sys.screen, page.gap, page.events);
            && Consistent(s', true) && Covers(s', sys.pushed, Lost(sys)) && s'.last <= |sys.pushed|
            && (page.next.Some? ==> page.next == Some(b) && b <= s'.last && b < |sys.pushed|)
            && (page.next.None? ==> s'.last == |sys.pushed|)
  {
    b := PageIsSlice(sys.buffer, sys.pushed, sys.cursor, pageBytes);
    var a := PageStart(sys.buffer, sys.pushed, sys.cursor);
    var page := PageOf(sys.buffer, sys.cursor, pageBytes);
    assert a <= sys.screen.last || (page.gap && a <= Lost(sys));
    SliceCovers(format, sys.screen, page.gap, sys.pushed, a, b, Lost(sys));
  }

  lemma ReadKeepsInv(format: Format, sys: System, pageBytes: nat)
    requires Inv(sys)
    ensures var sys' := Next(format, sys, Read(pageBytes));
            Inv(sys') && (sys'.cursor.None? ==> sys'.screen.last == |sys.pushed|)
  {
    var b := ReadCovers(format, sys, pageBytes);
  }

  /** A cursor stays at or below the newest event, which the buffer never evicts. */
  lemma ReadIsServed(sys: System, pageBytes: nat)
    requires Inv(sys)
    ensures ReadOf(sys.buffer, sys.cursor, pageBytes).Ok?
  {}

  predicate Small(action: Action) { action.Produce? ==> action.size <= MAX_EVENT_BYTES_PER_RUN }

  lemma {:induction false} RunKeepsInv(format: Format, sys: System, actions: seq<Action>)
    requires Inv(sys) && forall action | action in actions :: Small(action)
    ensures Inv(Run(format, sys, actions))
    decreases |actions|
  {
    if actions != [] {
      var action := actions[0];
      assert Small(action);
      if action.Read? {
        ReadKeepsInv(format, sys, action.pageBytes);
      } else {
        ProduceKeepsInv(format, sys, action.isOutput, action.data, action.size);
      }
      RunKeepsInv(format, Next(format, sys, action), actions[1..]);
    }
  }

  /** However production and reads interleave and whatever the buffer evicts: no read is
      refused; shown events are real, in order and once each; every jump is announced right before
      the event after it and nothing else is; and when a read ends its walk, every
      event the buffer still holds has been shown. */
  lemma RetainedEventsAreShown(format: Format, actions: seq<Action>, pageBytes: nat)
    requires forall action | action in actions :: Small(action)
    ensures var sys := Run(format, START, actions);
            var sys' := Next(format, sys, Read(pageBytes));
            && ReadOf(sys.buffer, sys.cursor, pageBytes).Ok?
            && Linked(sys'.screen.records, true)
            && (forall r | r in sys'.screen.records && r.Emit? :: r.event in sys.pushed)
            && (sys'.cursor.None? ==> forall e | e in sys.buffer.events :: Emit(e) in sys'.screen.records)
  {
    assert Sizes([]) == [];
    RunKeepsInv(format, START, actions);
    ReadKeepsInv(format, Run(format, START, actions), pageBytes);
    ReadIsServed(Run(format, START, actions), pageBytes);
  }

  /** The pages the reads of a run answer, one after the other. */
  function PagesOf(format: Format, sys: System, actions: seq<Action>): seq<Page>
    decreases |actions|
  {
    if actions == [] then []
    else
      (if actions[0].Read? then [PageOf(sys.buffer, sys.cursor, actions[0].pageBytes)] else []) +
      PagesOf(format, Next(format, sys, actions[0]), actions[1..])
  }

  predicate Continues(pages: seq<Page>) { forall k | 0 <= k < |pages| - 1 :: pages[k].next.Some? }

  /** Reads interleaved with production, up to the page that ends the walk, show what
      one call of the consumer shows for those pages. */
  lemma {:induction false} CallIsReads(format: Format, sys: System, actions: seq<Action>)
    requires Continues(PagesOf(format, sys, actions))
    ensures Run(format, sys, actions).screen == Walked(format, sys.screen, PagesOf(format, sys, actions))
    decreases |actions|
  {
    if actions != [] {
      var sys' := Next(format, sys, actions[0]);
      var pages, rest := PagesOf(format, sys, actions), PagesOf(format, sys', actions[1..]);
      if actions[0].Read? {
        assert pages == [PageOf(sys.buffer, sys.cursor, actions[0].pageBytes)] + rest;
        assert pages[1..] == rest;
        forall k | 0 <= k < |rest| - 1 ensures rest[k].next.Some? {
          assert pages[k + 1].next.Some?;
        }
      } else {
        assert pages == [] + rest == rest;
      }
      CallIsReads(format, sys', actions[1..]);
    }
  }

  // ----- What is written

  function OutputOf(format: Format, r: Record): seq<Line> {
    match r
    case GapAfter(n) => if format.Jsonl? then [GapLine(n)] else []
    case Emit(e) =>
      if format.Jsonl? then [EventLine(e)] else if e.isOutput && e.data.Some? then [Delta(e.data.value)] else []
  }

  function DiagnosticOf(format: Format, r: Record): seq<Line> {
    if format.Text? && r.GapAfter? then [GapLine(r.after)] else []
  }

  function Lines(line: Record -> seq<Line>, records: seq<Record>): seq<Line> {
    if records == [] then [] else line(records[0]) + Lines(line, records[1..])
  }

  lemma {:induction false} LinesConcat(line: Record -> seq<Line>, a: seq<Record>, b: seq<Record>)
    ensures Lines(line, a + b) == Lines(line, a) + Lines(line, b)
  {
    if a == [] {
      assert a + b == b;
    } else {
      assert (a + b)[1..] == a[1..] + b;
      LinesConcat(line, a[1..], b);
      Associates(line(a[0]), Lines(line, a[1..]), Lines(line, b));
    }
  }

  ghost predicate Rendered(format: Format, s: Screen) {
    && s.output == Lines(r => OutputOf(format, r), s.records)
    && s.diagnostics == Lines(r => DiagnosticOf(format, r), s.records)
    && (s.seen <==> exists r :: r in s.records && r.Emit? && r.event.isOutput)
  }

  lemma RecordIsRendered(format: Format, s: Screen, s': Screen, r: Record)
    requires Rendered(format, s) && s'.records == s.records + [r]
    requires s'.output == s.output + OutputOf(format, r) && s'.diagnostics == s.diagnostics + DiagnosticOf(format, r)
    requires s'.seen == (s.seen || (r.Emit? && r.event.isOutput))
    ensures Rendered(format, s')
  {
    LinesConcat(q => OutputOf(format, q), s.records, [r]);
    LinesConcat(q => DiagnosticOf(format, q), s.records, [r]);
    assert r in s'.records;
    if exists q :: q in s'.records && q.Emit? && q.event.isOutput {
      var q :| q in s'.records && q.Emit? && q.event.isOutput;
      assert q in s.records || q == r;
    }
  }

  lemma ShownStaysRendered(format: Format, s: Screen, gap: bool, e: Event)
    requires Rendered(format, s)
    ensures Rendered(format, Shown(format, s, gap, e))
  {
    if e.sequence > s.last {
      var mid := s;
      if gap && e.sequence > s.last + 1 {
        mid := Announced(format, s);
        RecordIsRendered(format, s, mid, GapAfter(s.last));
      }
      RecordIsRendered(format, mid, Written(format, mid, e), Emit(e));
    }
  }

  /** What reaches the writers is the records and nothing else: in text form the
      deltas of output events on the output and the gaps on the diagnostics, in line
      form everything on the output; and the fallback flag is set exactly when an
      output event was shown. */
  lemma {:induction false} WrittenIsTheRecords(format: Format, s: Screen, gap: bool, events: seq<Event>)
    requires Rendered(format, s)
    ensures Rendered(format, ShownAll(format, s, gap, events))
    decreases |events|
  {
    if events != [] {
      ShownStaysRendered(format, s, gap, events[0]);
      WrittenIsTheRecords(format, Shown(format, s, gap, events[0]), gap, events[1..]);
    }
  }
}
