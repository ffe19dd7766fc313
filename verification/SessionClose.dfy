/** What `session.close` and adapter-initiated closes leave in a session's log,
    over every interleaving of SessionProtocol. */
module SessionClose {
  import opened Prelude
  import opened SessionLog
  import opened SessionProtocol

  // ----- Between two closes

  /** A fact after which a session that was closed can be closed again: a status other
      than `closed`, or the facade's `session.created`. */
  predicate Reopens(kind: Kind) { kind.SessionCreated? || (kind.SessionStatus? && kind.status != Closed) }

  /** The log's last close is not followed by a reopening fact. */
  predicate ClosedTail(events: seq<Event>) {
    events != [] &&
    var last := events[|events| - 1].kind;
    last.SessionClosed? || (!Reopens(last) && ClosedTail(events[..|events| - 1]))
  }

  /** Between any two closed facts lies a reopening fact. */
  ghost predicate ClosesSeparated(events: seq<Event>) {
    forall i, j :: 0 <= i < j < |events| && events[i].kind.SessionClosed? && events[j].kind.SessionClosed? ==>
      exists k :: i < k < j && Reopens(events[k].kind)
  }

  lemma ClosedTailSnoc(events: seq<Event>, e: Event)
    ensures ClosedTail(events + [e]) <==>
            e.kind.SessionClosed? || (!Reopens(e.kind) && ClosedTail(events))
  {
    assert (events + [e])[..|events|] == events;
  }

  /** A closed tail reads as a closed row. */
  lemma {:induction false} ClosedTailIsClosed(events: seq<Event>)
    requires ClosedTail(events)
    ensures LogStatus(events) == Closed
    decreases |events|
  {
    if !events[|events| - 1].kind.SessionClosed? {
      ClosedTailIsClosed(events[..|events| - 1]);
    }
  }

  /** Without a closed tail, every closed fact already has a reopening fact after it. */
  lemma {:induction false} ReopenedAfter(events: seq<Event>, i: nat)
    requires i < |events| && events[i].kind.SessionClosed? && !ClosedTail(events)
    ensures exists k :: i < k < |events| && Reopens(events[k].kind)
    decreases |events|
  {
    var n := |events| - 1;
    if !Reopens(events[n].kind) {
      ReopenedAfter(events[..n], i);
    }
  }

  /** Closes stay separated under any append but a close on a closed tail. */
  lemma AppendKeepsSeparation(sh: Shared, s: SessionId, kind: Kind, size: nat)
    requires ClosesSeparated(sh.Log(s)) && (kind.SessionClosed? ==> !ClosedTail(sh.Log(s)))
    ensures var sh' := Append(sh, s, kind, size);
            && ClosesSeparated(sh'.Log(s))
            && (ClosedTail(sh'.Log(s)) <==>
                kind.SessionClosed? || (!Reopens(kind) && ClosedTail(sh.Log(s))))
  {
    var sh' := Append(sh, s, kind, size);
    var events, events' := sh.Log(s), sh'.Log(s);
    ClosedTailSnoc(events, Stored(Stamp(sh, s, kind, size)));
    forall i, j | 0 <= i < j < |events'| && events'[i].kind.SessionClosed? && events'[j].kind.SessionClosed?
      ensures exists k :: i < k < j && Reopens(events'[k].kind)
    {
      if j < |events| {
        var k :| i < k < j && Reopens(events[k].kind);
        assert Reopens(events'[k].kind);
      } else {
        ReopenedAfter(events, i);
        var k :| i < k < |events| && Reopens(events[k].kind);
        assert Reopens(events'[k].kind);
      }
    }
  }

  /** The id a `session.create` gets back is not that of a live, open session. */
  predicate Apart(st: State, step: Step) {
    step.CreateRecord? && step.session in st.shared.live ==> st.shared.live[step.session].closed
  }

  ghost predicate ApartRun(st: State, steps: seq<Step>)
    decreases |steps|
  {
    steps != [] && Enabled(st, steps[0]) ==> Apart(st, steps[0]) && ApartRun(Next(st, steps[0]), steps[1..])
  }

  /** A live session whose tail is closed is marked so. */
  ghost predicate TailInv(st: State, s: SessionId) {
    var events := st.shared.Log(s);
    ClosesSeparated(events) && (s in st.shared.live && ClosedTail(events) ==> st.shared.live[s].closed)
  }

  /** The command's own session can still be closed where the command will allow it. */
  predicate CommandTail(st: State) {
    var sh := st.shared;
    match st.command
    case Creating(s, _, _, recorded, _) =>
      (s in sh.live ==> sh.live[s].closed) && (recorded ==> !ClosedTail(sh.Log(s)))
    case Resuming(s, _, thread) => !ClosedTail(sh.Log(s))
    case Closing(s, alreadyClosed, _, _) => alreadyClosed || !ClosedTail(sh.Log(s))
    case Authoring(s) => !ClosedTail(sh.Log(s))
    case _ => true
  }

  ghost predicate CloseInv(st: State) {
    (forall s :: TailInv(st, s)) && CommandTail(st)
  }

  /** No appender closes a closed tail. */
  lemma CloseFindsOpenTail(st: State, step: Step)
    requires CloseInv(st) && Enabled(st, step)
    requires Written(st, step).Some? && Written(st, step).value.kind.SessionClosed?
    ensures !ClosedTail(st.shared.Log(Written(st, step).value.session))
  {
    assert TailInv(st, Written(st, step).value.session);
  }

  lemma LogTail(st: State, step: Step, s: SessionId)
    requires CloseInv(st) && Enabled(st, step)
    ensures var events, events' := st.shared.Log(s), Next(st, step).shared.Log(s);
            && ClosesSeparated(events')
            && (ClosedTail(events') <==>
                match Written(st, step)
                case Some(w) =>
                  if w.session == s then w.kind.SessionClosed? || (!Reopens(w.kind) && ClosedTail(events))
                  else ClosedTail(events)
                case None => ClosedTail(events))
  {
    StepWrites(st, step);
    assert TailInv(st, s);
    if Written(st, step).Some? {
      var w := Written(st, step).value;
      if w.kind.SessionClosed? {
        CloseFindsOpenTail(st, step);
      }
      if w.session == s {
        AppendKeepsSeparation(st.shared, s, w.kind, w.size);
        assert Next(st, step).shared.Log(s) == Append(st.shared, s, w.kind, w.size).Log(s);
      } else {
        assert Next(st, step).shared.Log(s) == st.shared.Log(s);
      }
    }
  }

  predicate ClosesLog(w: Option<Write>, s: SessionId) {
    w.Some? && w.value.session == s && w.value.kind.SessionClosed?
  }

  lemma PumpMarks(st: State, step: Step, s: SessionId)
    requires Enabled(st, step) && Pumps(step) && s in Next(st, step).shared.live
    ensures s in st.shared.live && (st.shared.live[s].closed ==> Next(st, step).shared.live[s].closed)
    ensures ClosesLog(Written(st, step), s) ==> Next(st, step).shared.live[s].closed
    ensures Next(st, step).shared.live[s].pump == st.shared.live[s].pump
  {
    if step.PumpTakes? {
      var thread := st.pumps[step.thread];
      DrainMarks(st.shared, thread.session, thread.pump.skipIdle, step.kind, step.size, step.stored, s);
    }
  }

  lemma DrainMarks(sh: Shared, t: SessionId, skipIdle: bool, kind: Kind, size: nat, stored: bool, s: SessionId)
    requires s in Drain(sh, t, skipIdle, kind, size, stored).0.live
    ensures var live := Drain(sh, t, skipIdle, kind, size, stored).0.live;
            && s in sh.live && (sh.live[s].closed ==> live[s].closed) && live[s].pump == sh.live[s].pump
            && (kind.SessionClosed? && s == t && !Dropped(sh, t, skipIdle, kind) ==> live[s].closed)
  {}

  /** A live entry the step does not enter was there before, its mark is never taken off,
      and a close recorded while it is live marks it. */
  lemma MarkStays(st: State, step: Step, s: SessionId)
    requires CommandInv(st) && Enabled(st, step) && s in Next(st, step).shared.live
    requires step.CreateInsert? || step.ResumeInsert? ==> s != st.command.session
    ensures s in st.shared.live && (st.shared.live[s].closed ==> Next(st, step).shared.live[s].closed)
    ensures ClosesLog(Written(st, step), s) ==> Next(st, step).shared.live[s].closed
  {
    if Pumps(step) {
      PumpMarks(st, step, s);
    }
  }

  lemma StepKeepsTail(st: State, step: Step, s: SessionId)
    requires Inv(st) && CloseInv(st) && Enabled(st, step)
    ensures TailInv(Next(st, step), s)
  {
    LogTail(st, step, s);
    if s in Next(st, step).shared.live {
      if !((step.CreateInsert? || step.ResumeInsert?) && s == st.command.session) {
        MarkStays(st, step, s);
        assert TailInv(st, s);
      }
    }
  }

  lemma StartKeepsTail(st: State, step: Step)
    requires Inv(st) && CloseInv(st) && Enabled(st, step) && Apart(st, step) && Starts(step)
    ensures CommandTail(Next(st, step))
  {
    if !Next(st, step).command.Ready? {
      LogTail(st, step, Next(st, step).command.session);
    }
  }

  lemma CloseKeepsTail(st: State, step: Step)
    requires Inv(st) && CloseInv(st) && Enabled(st, step) && Closes(step)
    ensures CommandTail(Next(st, step))
  {
    var st' := Next(st, step);
    if !st'.command.Ready? {
      var s := st'.command.session;
      assert TailInv(st, s) && LogInv(st, s) && st'.shared.Log(s) == st.shared.Log(s);
      if step.CloseCheck? && ClosedTail(st.shared.Log(s)) {
        ClosedTailIsClosed(st.shared.Log(s));
      }
    }
  }

  lemma OtherStepKeepsTail(st: State, step: Step)
    requires Inv(st) && CloseInv(st) && Enabled(st, step) && !Starts(step) && !Closes(step)
    ensures CommandTail(Next(st, step))
  {
    if !step.RestoreAppend? && !step.RestoreBroadcast? {
      CommandWaits(st, step);
      if !st.command.Ready? {
        var s := st.command.session;
        LogTail(st, step, s);
        if s in Next(st, step).shared.live {
          MarkStays(st, step, s);
        }
      }
    }
  }

  lemma StepKeepsCloses(st: State, step: Step)
    requires Inv(st) && CloseInv(st) && Enabled(st, step) && Apart(st, step)
    ensures CloseInv(Next(st, step))
  {
    forall s ensures TailInv(Next(st, step), s) {
      StepKeepsTail(st, step, s);
    }
    if Starts(step) {
      StartKeepsTail(st, step);
    } else if Closes(step) {
      CloseKeepsTail(st, step);
    } else {
      OtherStepKeepsTail(st, step);
    }
  }

  lemma {:induction false} RunKeepsCloses(st: State, steps: seq<Step>, st': State)
    requires Inv(st) && CloseInv(st) && Reaches(st, steps, st') && ApartRun(st, steps)
    ensures Inv(st') && CloseInv(st')
    decreases |steps|
  {
    if steps != [] {
      StepKeepsInv(st, steps[0]);
      StepKeepsCloses(st, steps[0]);
      RunKeepsCloses(Next(st, steps[0]), steps[1..], st');
    }
  }

  /** A database as earlier runtimes left it, and a runtime that has just opened it. */
  ghost predicate AtStart(st: State) {
    && st.command.Ready? && st.shared.live == map[] && st.pumps == map[]
    && forall s :: LogInv(st, s) && ClosesSeparated(st.shared.Log(s))
  }

  /** Over every interleaving: a session's row is the status of its log's last close or
      status fact; and as long as no create gets the id of a live, open session, between
      any two closes in a log lies a status other than `closed` or a new creation. */
  lemma ClosesAreSeparated(start: State, steps: seq<Step>, st: State, s: SessionId)
    requires AtStart(start) && Reaches(start, steps, st)
    ensures ApartRun(start, steps) ==> ClosesSeparated(st.shared.Log(s))
    ensures s in st.shared.rows ==> st.shared.rows[s] == LogStatus(st.shared.Log(s))
  {
    RunKeepsInv(start, steps, st);
    assert LogInv(st, s);
    if ApartRun(start, steps) {
      assert CloseInv(start);
      RunKeepsCloses(start, steps, st);
      assert TailInv(st, s);
    }
  }

  // ----- A create of a live, open session

  /** The pump records an adapter's close of a live, open session. */
  lemma DrainRecordsClose(sh: Shared, s: SessionId)
    requires s in sh.live && !sh.live[s].closed && s in sh.rows
    ensures var (sh', pump) := Drain(sh, s, false, SessionClosed, 0, true);
            && pump == Draining(false) && s in sh'.live && sh'.live[s] == sh.live[s].(closed := true) && s in sh'.rows
            && sh'.Log(s) == sh.Log(s) + [Event(MaxSeq(sh.Log(s)) + 1, SessionClosed, 0)]
  {}

  /** The same as a step; the thread is ready for the next fact. */
  lemma PumpCloses(st: State, t: nat, s: SessionId) returns (st': State)
    requires t in st.pumps && st.pumps[t] == Thread(s, Draining(false))
    requires s in st.shared.live && !st.shared.live[s].closed && s in st.shared.rows
    ensures var close := PumpTakes(t, SessionClosed, 0, true); Enabled(st, close) && st' == Next(st, close)
    ensures st'.command == st.command && st'.pumps == st.pumps && s in st'.shared.rows
    ensures s in st'.shared.live && st'.shared.live[s] == st.shared.live[s].(closed := true)
    ensures st'.shared.Log(s) == st.shared.Log(s) + [Event(MaxSeq(st.shared.Log(s)) + 1, SessionClosed, 0)]
  {
    DrainRecordsClose(st.shared, s);
    st' := Next(st, PumpTakes(t, SessionClosed, 0, true));
    assert st'.pumps == st.pumps[t := Thread(s, Draining(false))];
  }

  lemma AdjacentCloses(all: seq<Event>, events: seq<Event>, a: Event, b: Event)
    requires a.kind.SessionClosed? && b.kind.SessionClosed? && all == events + [a] + [b]
    ensures !ClosesSeparated(all)
  {
    assert all[|events|].kind.SessionClosed? && all[|events| + 1].kind.SessionClosed?;
  }

  /** The command enters its session and its pump records the adapter's close. */
  lemma InsertedThenClosed(st: State, s: SessionId, writes: bool, monitoring: bool, t: nat)
    returns (steps: seq<Step>, st': State)
    requires st.command == Creating(s, writes, monitoring, true, Some(t)) && s in st.shared.rows
    requires t in st.pumps && st.pumps[t] == Thread(s, Draining(false))
    ensures Reaches(st, steps, st')
    ensures st'.shared.Log(s) ==
            st.shared.Log(s) + [Event(MaxSeq(st.shared.Log(s)) + 1, SessionClosed, 0)]
  {
    var mid := Next(st, CreateInsert);
    var close := PumpTakes(t, SessionClosed, 0, true);
    st' := PumpCloses(mid, t, s);
    ReachesOne(mid, close);
    ReachesCons(st, CreateInsert, [close], st');
    steps := [CreateInsert] + [close];
  }

  /** The old thread `t` (or the new one, before its entry stands) closes the old entry,
      the new thread the new one. */
  lemma BothClose(st: State, s: SessionId, writes: bool, monitoring: bool, t: nat, thread: nat)
    returns (steps: seq<Step>, st': State)
    requires st.command == Creating(s, writes, monitoring, true, Some(thread)) && s in st.shared.rows
    requires s in st.shared.live && !st.shared.live[s].closed
    requires t in st.pumps && st.pumps[t] == Thread(s, Draining(false))
    requires thread in st.pumps && st.pumps[thread] == Thread(s, Draining(false))
    ensures Reaches(st, steps, st')
    ensures var events := st.shared.Log(s);
            var a := Event(MaxSeq(events) + 1, SessionClosed, 0);
            st'.shared.Log(s) == events + [a] + [Event(MaxSeq(events + [a]) + 1, SessionClosed, 0)]
  {
    var mid := PumpCloses(st, t, s);
    var last;
    last, st' := InsertedThenClosed(mid, s, writes, monitoring, thread);
    steps := [PumpTakes(t, SessionClosed, 0, true)] + last;
    ReachesCons(st, PumpTakes(t, SessionClosed, 0, true), last, st');
  }

  lemma BothCloseSideBySide(st: State, s: SessionId, writes: bool, monitoring: bool, t: nat, thread: nat)
    returns (steps: seq<Step>, st': State)
    requires st.command == Creating(s, writes, monitoring, true, Some(thread)) && s in st.shared.rows
    requires s in st.shared.live && !st.shared.live[s].closed
    requires t in st.pumps && st.pumps[t] == Thread(s, Draining(false))
    requires thread in st.pumps && st.pumps[thread] == Thread(s, Draining(false))
    ensures Reaches(st, steps, st') && !ClosesSeparated(st'.shared.Log(s))
  {
    steps, st' := BothClose(st, s, writes, monitoring, t, thread);
    var events := st.shared.Log(s);
    var a := Event(MaxSeq(events) + 1, SessionClosed, 0);
    AdjacentCloses(st'.shared.Log(s), events, a, Event(MaxSeq(events + [a]) + 1, SessionClosed, 0));
  }

  /** The guard is exact. From every state in which a create gets the id of a live session
      not marked closed, a run leaves two closes side by side, each recorded for a thread
      of its own if one of the old entry still drains. */
  lemma LiveIdClosesTwice(st: State, s: SessionId, writes: bool, monitoring: bool, t: nat)
    returns (steps: seq<Step>, st': State)
    requires Inv(st) && Enabled(st, CreateRecord(s, writes, monitoring))
    requires !Apart(st, CreateRecord(s, writes, monitoring))
    requires t == st.next || (t in st.pumps && st.pumps[t] == Thread(s, Draining(false)))
    ensures Reaches(st, steps, st') && steps != [] && steps[0] == CreateRecord(s, writes, monitoring)
    ensures !ClosesSeparated(st'.shared.Log(s))
  {
    var first, mid := CreatesAndSpawns(st, s, writes, monitoring);
    var last;
    last, st' := BothCloseSideBySide(mid, s, writes, monitoring, t, st.next);
    ReachesTrans(st, first, mid, last, st');
    steps := first + last;
  }

  // ----- Closing a session that is not live

  function CloseCount(events: seq<Event>): nat {
    |Filter(events, (e: Event) => e.kind.SessionClosed?)|
  }

  lemma CloseCountSnoc(events: seq<Event>, e: Event)
    ensures CloseCount(events + [e]) == CloseCount(events) + if e.kind.SessionClosed? then 1 else 0
  {
    FilterConcat(events, [e], (x: Event) => x.kind.SessionClosed?);
  }

  /** Reading the row of a session that is not live lets the close through exactly when
      the log's last close or status fact, if any, is not a close or a `closed` status;
      whatever pumps append before the fact itself, that fact then adds one close. */
  lemma CheckFollowsLog(st: State)
    requires Inv(st) && st.command.Checking? && st.command.session in st.shared.rows
    ensures var s := st.command.session;
            Next(st, CloseCheck).command == (if LogStatus(st.shared.Log(s)) == Closed then Ready else Authoring(s))
  {
    assert LogInv(st, st.command.session);
  }

  lemma AuthorAddsOne(st: State, size: nat)
    requires st.command.Authoring? && st.command.session in st.shared.rows
    ensures var s := st.command.session;
            var st' := Next(st, CloseAuthor(size, true));
            && CloseCount(st'.shared.Log(s)) == CloseCount(st.shared.Log(s)) + 1
            && st'.shared.rows[s] == Closed && st'.command.Ready?
  {
    CloseCountSnoc(st.shared.Log(st.command.session),
                   Stored(Stamp(st.shared, st.command.session, SessionClosed, size)));
  }

  /** The exact guard of a repeated close, on the log: `session.close` of a session that
      is not live writes a further close if and only if the last close or status fact
      of its log, if any, is a status other than `closed`; either way the row ends closed. */
  lemma CloseOfIdleSession(st: State, s: SessionId, size: nat) returns (steps: seq<Step>, st': State)
    requires Inv(st) && st.command.Ready? && s in st.shared.rows && s !in st.shared.live
    ensures Reaches(st, steps, st') && st'.command.Ready? && st'.shared.rows.Keys == st.shared.rows.Keys
    ensures st'.shared.rows[s] == Closed
    ensures CloseCount(st'.shared.Log(s)) == CloseCount(st.shared.Log(s)) +
                                             if LogStatus(st.shared.Log(s)) != Closed then 1 else 0
  {
    assert LogInv(st, s);
    var st1 := Next(st, CloseTake(s));
    StepKeepsInv(st, CloseTake(s));
    CheckFollowsLog(st1);
    var st2 := Next(st1, CloseCheck);
    var rest := CloseChecked(st1, s, size);
    st' := if st2.command.Ready? then st2 else Next(st2, CloseAuthor(size, true));
    steps := [CloseTake(s)] + rest;
    ReachesCons(st, CloseTake(s), rest, st');
  }

  /** The row check, and the fact it lets through. */
  lemma CloseChecked(st: State, s: SessionId, size: nat) returns (steps: seq<Step>)
    requires st.command == Checking(s) && s in st.shared.rows
    ensures var checked := Next(st, CloseCheck);
            if checked.command.Ready? then Reaches(st, steps, checked)
            else
              && checked.command == Authoring(s) && checked.shared == st.shared
              && Reaches(st, steps, Next(checked, CloseAuthor(size, true)))
              && CloseCount(Next(checked, CloseAuthor(size, true)).shared.Log(s)) == CloseCount(st.shared.Log(s)) + 1
              && Next(checked, CloseAuthor(size, true)).shared.rows == st.shared.rows[s := Closed]
              && Next(checked, CloseAuthor(size, true)).command.Ready?
  {
    var checked := Next(st, CloseCheck);
    if checked.command.Ready? {
      ReachesOne(st, CloseCheck);
      steps := [CloseCheck];
    } else {
      AuthorAddsOne(checked, size);
      ReachesOne(checked, CloseAuthor(size, true));
      ReachesCons(st, CloseCheck, [CloseAuthor(size, true)], Next(checked, CloseAuthor(size, true)));
      steps := [CloseCheck] + [CloseAuthor(size, true)];
    }
  }

  /** The pump records a status whatever came before it. */
  lemma PumpReports(st: State, t: nat, s: SessionId) returns (st': State)
    requires t in st.pumps && st.pumps[t] == Thread(s, Draining(false)) && s in st.shared.rows
    ensures var report := PumpTakes(t, SessionStatus(Idle), 0, true); Enabled(st, report) && st' == Next(st, report)
    ensures st'.command == st.command && st'.pumps == st.pumps && st'.shared.live == st.shared.live
    ensures s in st'.shared.rows && st'.shared.rows[s] == Idle
    ensures CloseCount(st'.shared.Log(s)) == CloseCount(st.shared.Log(s))
  {
    st' := Next(st, PumpTakes(t, SessionStatus(Idle), 0, true));
    CloseCountSnoc(st.shared.Log(s), Stored(Stamp(st.shared, s, SessionStatus(Idle), 0)));
    assert st'.pumps == st.pumps[t := Thread(s, Draining(false))];
  }

  /** The adapter closes the session itself and then reports a status. */
  lemma AdapterClosesThenReports(st: State, s: SessionId, t: nat) returns (steps: seq<Step>, st': State)
    requires s in st.shared.rows && s in st.shared.live && !st.shared.live[s].closed
    requires t in st.pumps && st.pumps[t] == Thread(s, Draining(false))
    ensures Reaches(st, steps, st') && st'.command == st.command && st'.pumps == st.pumps
    ensures s in st'.shared.live && st'.shared.live[s] == st.shared.live[s].(closed := true)
    ensures s in st'.shared.rows && st'.shared.rows[s] == Idle
    ensures CloseCount(st'.shared.Log(s)) == CloseCount(st.shared.Log(s)) + 1
  {
    var close, report := PumpTakes(t, SessionClosed, 0, true), PumpTakes(t, SessionStatus(Idle), 0, true);
    var mid := PumpCloses(st, t, s);
    CloseCountSnoc(st.shared.Log(s), Event(MaxSeq(st.shared.Log(s)) + 1, SessionClosed, 0));
    st' := PumpReports(mid, t, s);
    ReachesOne(mid, report);
    ReachesCons(st, close, [report], st');
    steps := [close] + [report];
  }

  /** `session.close` of a live session whose pump has nothing left to record: its entry,
      its thread and its pending attributions are gone, and the log has one fact more,
      unless its adapter closed it already. */
  lemma CloseOfLiveSession(st: State, s: SessionId) returns (steps: seq<Step>, st': State)
    requires st.command.Ready? && s in st.shared.live && s in st.shared.rows
    requires st.shared.live[s].pump in st.pumps && st.pumps[st.shared.live[s].pump].pump.Draining?
    ensures Reaches(st, steps, st') && st'.command.Ready? && st'.shared.live == st.shared.live - {s}
    ensures st'.pumps == st.pumps - {st.shared.live[s].pump} && forall key :: key in st'.shared.answers ==> key.0 != s
    ensures if st.shared.live[s].closed then
              st'.shared.Log(s) == st.shared.Log(s) && st'.shared.rows == st.shared.rows
            else
              && st'.shared.Log(s) == st.shared.Log(s) + [Event(MaxSeq(st.shared.Log(s)) + 1, SessionClosed, 0)]
              && st'.shared.rows == st.shared.rows[s := Closed]
  {
    var ends := PumpEnds(st.shared.live[s].pump);
    var st1 := Next(st, CloseTake(s));
    var st2 := Next(st1, CloseStop(true));
    var st3 := Next(st2, ends);
    st' := Next(st3, CloseFinish(0, true));
    ReachesOne(st3, CloseFinish(0, true));
    ReachesCons(st2, ends, [CloseFinish(0, true)], st');
    ReachesCons(st1, CloseStop(true), [ends] + [CloseFinish(0, true)], st');
    steps := [CloseTake(s)] + ([CloseStop(true)] + ([ends] + [CloseFinish(0, true)]));
    ReachesCons(st, CloseTake(s), [CloseStop(true)] + ([ends] + [CloseFinish(0, true)]), st');
  }

  /** When the adapter refuses to stop, its entry is gone all the same, its pump goes on, and
      nothing is recorded. */
  lemma RefusedStopIsNoClose(st: State, s: SessionId)
    requires st.command.Ready? && s in st.shared.live
    ensures var st' := Next(Next(st, CloseTake(s)), CloseStop(false));
            && st'.command.Ready? && st'.shared.live == st.shared.live - {s} && st'.pumps == st.pumps
            && st'.shared.log == st.shared.log && st'.shared.rows == st.shared.rows
  {}

  /** An adapter that reports a status after its own close defeats the guard: two
      ordinary `session.close` commands then leave two closes in the log. */
  lemma StatusAfterCloseReopens(st: State, s: SessionId) returns (steps: seq<Step>, st': State)
    requires Inv(st) && st.command.Ready? && s in st.shared.live && !st.shared.live[s].closed
    requires st.shared.live[s].pump in st.pumps
    requires st.pumps[st.shared.live[s].pump] == Thread(s, Draining(false))
    ensures Reaches(st, steps, st')
    ensures CloseCount(st'.shared.Log(s)) == CloseCount(st.shared.Log(s)) + 2
  {
    assert LogInv(st, s);
    var first, st1 := AdapterClosesThenReports(st, s, st.shared.live[s].pump);
    var second, st2 := CloseOfLiveSession(st1, s);
    RunKeepsInv(st, first, st1);
    RunKeepsInv(st1, second, st2);
    var third;
    assert LogInv(st2, s);
    third, st' := CloseOfIdleSession(st2, s, 0);
    ReachesTrans(st1, second, st2, third, st');
    ReachesTrans(st, first, st1, second + third, st');
    steps := first + (second + third);
  }

  // ----- After an authored close

  /** Nothing can write the session's log unless it is created again. */
  ghost predicate Settled(st: State, s: SessionId) {
    && s in st.shared.rows && st.shared.rows[s] == Closed
    && s !in st.shared.live && !Pumped(st, s)
    && (!st.command.Ready? && !st.command.Checking? ==> st.command.session != s)
  }

  lemma SettledIsSilent(st: State, step: Step, s: SessionId)
    requires Settled(st, s) && Enabled(st, step)
    ensures Written(st, step).Some? ==> Written(st, step).value.session != s
  {}

  lemma SettledThreads(st: State, step: Step, s: SessionId)
    requires Settled(st, s) && Enabled(st, step)
    ensures !Pumped(Next(st, step), s)
  {
    var st' := Next(st, step);
    forall t | t in st'.pumps ensures st'.pumps[t].session != s {
      if t in st.pumps {
        assert st'.pumps[t].session == st.pumps[t].session || t == st.next;
      }
    }
  }

  lemma SettledCommand(st: State, step: Step, s: SessionId)
    requires Settled(st, s) && Enabled(st, step) && (step.CreateRecord? ==> step.session != s)
    ensures s !in Next(st, step).shared.live
    ensures var command := Next(st, step).command; !command.Ready? && !command.Checking? ==> command.session != s
  {
    if !Starts(step) && !Closes(step) && !step.RestoreAppend? && !step.RestoreBroadcast? {
      CommandWaits(st, step);
    }
  }

  lemma SettledStep(st: State, step: Step, s: SessionId)
    requires Settled(st, s) && Enabled(st, step) && (step.CreateRecord? ==> step.session != s)
    ensures Settled(Next(st, step), s) && Next(st, step).shared.Log(s) == st.shared.Log(s)
  {
    StepWrites(st, step);
    SettledIsSilent(st, step, s);
    SettledThreads(st, step, s);
    SettledCommand(st, step, s);
  }

  predicate NeverCreated(steps: seq<Step>, s: SessionId) {
    forall step :: step in steps && step.CreateRecord? ==> step.session != s
  }

  lemma {:induction false} SettledRun(st: State, steps: seq<Step>, st': State, s: SessionId)
    requires Settled(st, s) && Reaches(st, steps, st') && NeverCreated(steps, s)
    ensures st'.shared.Log(s) == st.shared.Log(s)
    decreases |steps|
  {
    if steps != [] {
      SettledStep(st, steps[0], s);
      SettledRun(Next(st, steps[0]), steps[1..], st', s);
    }
  }

  lemma CloseSettles(st: State, size: nat)
    requires Inv(st) && Enabled(st, CloseFinish(size, true)) && !st.command.alreadyClosed
    ensures var s := st.command.session;
            var st' := Next(st, CloseFinish(size, true));
            && st'.shared.Log(s) == st.shared.Log(s) + [Event(|st.shared.Log(s)| + 1, SessionClosed, size)]
            && s in st'.shared.rows && st'.shared.rows[s] == Closed && s !in st'.shared.live
            && st'.pumps == st.pumps && st'.command.Ready?
  {
    assert LogInv(st, st.command.session);
    ContiguousHead(st.shared.Log(st.command.session));
  }

  /** When `session.close` stopped the adapter, joined the pump and authored the close,
      that close stays the last fact of the log for as long as the id is not created
      again, given that the joined pump was the session's only thread. */
  lemma NothingFollowsAuthoredClose(st: State, size: nat, steps: seq<Step>, st': State)
    requires Inv(st) && Enabled(st, CloseFinish(size, true)) && !st.command.alreadyClosed
    requires !Pumped(st, st.command.session) && NeverCreated(steps, st.command.session)
    requires Reaches(Next(st, CloseFinish(size, true)), steps, st')
    ensures var s := st.command.session;
            st'.shared.Log(s) == st.shared.Log(s) + [Event(|st.shared.Log(s)| + 1, SessionClosed, size)]
  {
    CloseSettles(st, size);
    SettledRun(Next(st, CloseFinish(size, true)), steps, st', st.command.session);
  }

  /** A draining thread records what its adapter reports. */
  lemma PumpRecordsOutput(st: State, t: nat)
    requires t in st.pumps && st.pumps[t].pump.Draining?
    ensures var s := st.pumps[t].session;
            Next(st, PumpTakes(t, RunOutput(""), 0, true)).shared.Log(s) ==
              st.shared.Log(s) + [Event(MaxSeq(st.shared.Log(s)) + 1, RunOutput(""), 0)]
  {}

  /** A thread between two of its actions gets to record what its adapter reports. */
  lemma ThreadRecordsOutput(st: State, t: nat) returns (steps: seq<Step>, st': State)
    requires t in st.pumps
    ensures Reaches(st, steps, st') && forall step :: step in steps ==> Pumps(step)
    ensures var s := st.pumps[t].session;
            st'.shared.Log(s) == st.shared.Log(s) + [Event(MaxSeq(st.shared.Log(s)) + 1, RunOutput(""), 0)]
  {
    var output := PumpTakes(t, RunOutput(""), 0, true);
    if st.pumps[t].pump.AfterRun? {
      var quota := PumpQuota(t, false, 0, false);
      var mid := Next(st, quota);
      PumpRecordsOutput(mid, t);
      st' := Next(mid, output);
      ReachesOne(mid, output);
      ReachesCons(st, quota, [output], st');
      steps := [quota] + [output];
    } else {
      PumpRecordsOutput(st, t);
      st' := Next(st, output);
      ReachesOne(st, output);
      steps := [output];
    }
  }

  /** Both hypotheses are needed. A second thread of the session, left over from an entry
      that another create of the same id replaced, records a fact after the close ... */
  lemma LeftoverPumpFollowsClose(st: State, size: nat, t: nat) returns (steps: seq<Step>, st': State)
    requires Enabled(st, CloseFinish(size, true)) && !st.command.alreadyClosed
    requires t in st.pumps && st.pumps[t].session == st.command.session
    ensures Reaches(Next(st, CloseFinish(size, true)), steps, st') && NeverCreated(steps, st.command.session)
    ensures var events := Next(st, CloseFinish(size, true)).shared.Log(st.command.session);
            st'.shared.Log(st.command.session) == events + [Event(MaxSeq(events) + 1, RunOutput(""), 0)]
  {
    steps, st' := ThreadRecordsOutput(Next(st, CloseFinish(size, true)), t);
  }

  /** Such a thread is reachable from every state with a live session and a free command:
      a create gets the id, replaces the entry and with it the only handle on thread `t`,
      and the next `session.close` joins the new pump only. */
  lemma ReplacedPumpOutlivesClose(st: State, s: SessionId, writes: bool, monitoring: bool, t: nat)
    returns (steps: seq<Step>, st': State)
    requires Inv(st) && st.command.Ready? && s in st.shared.live
    requires t in st.pumps && st.pumps[t].session == s
    ensures Reaches(st, steps, st') && Enabled(st', CloseFinish(0, true))
    ensures st'.command.session == s && !st'.command.alreadyClosed
    ensures t in st'.pumps && st'.pumps[t].session == s
  {
    var first, mid := CreatesAndSpawns(st, s, writes, monitoring);
    var last;
    last, st' := InsertedThenStopped(mid, s, writes, monitoring, st.next);
    ReachesTrans(st, first, mid, last, st');
    steps := first + last;
  }

  lemma InsertedThenStopped(st: State, s: SessionId, writes: bool, monitoring: bool, thread: nat)
    returns (steps: seq<Step>, st': State)
    requires st.command == Creating(s, writes, monitoring, true, Some(thread))
    requires thread in st.pumps && st.pumps[thread].pump.Draining?
    ensures Reaches(st, steps, st') && st'.command == Closing(s, false, true, thread)
    ensures st'.pumps == st.pumps - {thread}
  {
    var st1 := Next(st, CreateInsert);
    var st2 := Next(st1, CloseTake(s));
    var st3 := Next(st2, CloseStop(true));
    st' := Next(st3, PumpEnds(thread));
    ReachesOne(st3, PumpEnds(thread));
    ReachesCons(st2, CloseStop(true), [PumpEnds(thread)], st');
    ReachesCons(st1, CloseTake(s), [CloseStop(true)] + [PumpEnds(thread)], st');
    steps := [CreateInsert] + ([CloseTake(s)] + ([CloseStop(true)] + [PumpEnds(thread)]));
    ReachesCons(st, CreateInsert, [CloseTake(s)] + ([CloseStop(true)] + [PumpEnds(thread)]), st');
  }

  /** ... and so does a later create that gets the same id. */
  lemma CreateFollowsClose(st: State, size: nat, writes: bool, monitoring: bool)
    returns (steps: seq<Step>, st': State)
    requires Inv(st) && Enabled(st, CloseFinish(size, true)) && !st.command.alreadyClosed
    ensures Reaches(Next(st, CloseFinish(size, true)), steps, st')
    ensures steps != [] && steps[0] == CreateRecord(st.command.session, writes, monitoring)
    ensures var events := Next(st, CloseFinish(size, true)).shared.Log(st.command.session);
            st'.shared.Log(st.command.session) == events + [Event(|events| + 1, SessionCreated, 0)]
  {
    StepKeepsInv(st, CloseFinish(size, true));
    steps, st' := CreatesAndSpawns(Next(st, CloseFinish(size, true)), st.command.session, writes, monitoring);
  }

  /** One session's only thread is the one its live entry, or its command, holds. */
  ghost predicate Lone(st: State, s: SessionId) {
    && (st.command.Creating? && st.command.session == s ==> s !in st.shared.live)
    && forall t :: t in st.pumps && st.pumps[t].session == s ==>
         && (s in st.shared.live ==> st.shared.live[s].pump == t)
         && ((st.command.Creating? || st.command.Resuming?) && st.command.session == s ==>
             st.command.thread == Some(t))
         && (st.command.Closing? && st.command.session == s ==> st.command.joining == t)
  }

  /** Every create that gets the id `s` is the first to get it. */
  ghost predicate FreshRun(st: State, steps: seq<Step>, s: SessionId)
    decreases |steps|
  {
    steps != [] && Enabled(st, steps[0]) ==>
      && (steps[0].CreateRecord? && steps[0].session == s ==> s !in st.shared.rows)
      && FreshRun(Next(st, steps[0]), steps[1..], s)
  }

  lemma StartKeepsLone(st: State, step: Step, s: SessionId)
    requires Inv(st) && Lone(st, s) && Enabled(st, step) && Starts(step)
    requires step.CreateRecord? && step.session == s ==> s !in st.shared.rows
    ensures Lone(Next(st, step), s)
  {
    assert LogInv(st, s);
  }

  lemma CloseKeepsLone(st: State, step: Step, s: SessionId)
    requires Lone(st, s) && Enabled(st, step) && Closes(step)
    ensures Lone(Next(st, step), s)
  {
    var st' := Next(st, step);
    assert st'.pumps == st.pumps;
    if step.CloseTake? {
      assert st'.shared.live == st.shared.live - {step.session};
    } else {
      assert st'.shared.live == st.shared.live;
    }
  }

  lemma OtherStepKeepsLone(st: State, step: Step, s: SessionId)
    requires Lone(st, s) && Enabled(st, step) && !Starts(step) && !Closes(step)
    ensures Lone(Next(st, step), s)
  {
    if Pumps(step) {
      CommandWaits(st, step);
      if s in Next(st, step).shared.live {
        PumpMarks(st, step, s);
      }
    }
  }

  lemma StepKeepsLone(st: State, step: Step, s: SessionId)
    requires Inv(st) && Lone(st, s) && Enabled(st, step)
    requires step.CreateRecord? && step.session == s ==> s !in st.shared.rows
    ensures Lone(Next(st, step), s)
  {
    if Starts(step) {
      StartKeepsLone(st, step, s);
    } else if Closes(step) {
      CloseKeepsLone(st, step, s);
    } else {
      OtherStepKeepsLone(st, step, s);
    }
  }

  lemma {:induction false} RunKeepsLone(st: State, steps: seq<Step>, st': State, s: SessionId)
    requires Inv(st) && Lone(st, s) && Reaches(st, steps, st') && FreshRun(st, steps, s)
    ensures Lone(st', s)
    decreases |steps|
  {
    if steps != [] {
      StepKeepsInv(st, steps[0]);
      StepKeepsLone(st, steps[0], s);
      RunKeepsLone(Next(st, steps[0]), steps[1..], st', s);
    }
  }

  /** Where no id comes back, the first hypothesis holds: the pump that `session.close`
      joined was the session's only thread. */
  lemma JoinedPumpWasTheOnlyOne(start: State, steps: seq<Step>, st: State, size: nat)
    requires AtStart(start) && Reaches(start, steps, st) && Enabled(st, CloseFinish(size, true))
    requires FreshRun(start, steps, st.command.session)
    ensures !Pumped(st, st.command.session)
  {
    RunKeepsLone(start, steps, st, st.command.session);
  }
}
