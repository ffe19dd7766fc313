/** The durable run history: repairing runs whose owner process exited, appending
    events under a payload budget, and serving a terminal run page by page. */
module RunHistory {
  import opened Prelude
  import Paging

  type RunId = string

  const TERMINAL_STATES: set<string> := {"succeeded", "failed", "timed_out", "cancelled"}
  const TERMINAL_EVENT_KINDS: set<string> := {"completed", "failed", "timed_out", "cancelled"}
  const MAX_EVENT_BYTES_PER_RUN: nat := 8 * 1024 * 1024
  const EVENT_METADATA_BYTES: nat := 96

  datatype Run = Run(ownerPid: int, state: string, status: Option<string>,
                     closedReason: Option<string>, completedAt: Option<real>)

  datatype RunEvent = RunEvent(sequence: int, kind: string, createdAt: real, data: Option<string>)

  /** The stored sequence as readers report it: `i64` clamped at zero. */
  function Reported(e: RunEvent): nat { if e.sequence < 0 then 0 else e.sequence }

  /** One run's rows as a scan by primary key yields them. */
  predicate Ordered(rows: seq<RunEvent>) {
    forall i, j :: 0 <= i < j < |rows| ==> rows[i].sequence < rows[j].sequence
  }

  /** `COALESCE(MAX(seq), 0)` over an ordered scan. */
  function MaxSequence(rows: seq<RunEvent>): int {
    if rows == [] then 0 else rows[|rows| - 1].sequence
  }

  predicate HasTerminal(rows: seq<RunEvent>) {
    exists i :: 0 <= i < |rows| && rows[i].kind in TERMINAL_EVENT_KINDS
  }

  // ----- Repairing orphaned runs

  /** A non-terminal run of another process that is gone. The liveness probe takes
      the low 32 bits of the recorded id. */
  predicate Orphan(run: Run, self: int, alive: set<int>) {
    && run.ownerPid != self && run.state !in TERMINAL_STATES
    && run.ownerPid > 0 && run.ownerPid % 0x1_0000_0000 !in alive
  }

  function Failed(run: Run, at: real): Run {
    run.(state := "failed", status := Some("failed"), completedAt := Some(at), closedReason := Some("owner_exited"))
  }

  function Terminated(rows: seq<RunEvent>, at: real): seq<RunEvent> {
    if HasTerminal(rows) then rows else rows + [RunEvent(MaxSequence(rows) + 1, "failed", at, None)]
  }

  function Rows(events: map<RunId, seq<RunEvent>>, id: RunId): seq<RunEvent> {
    if id in events then events[id] else []
  }

  function RepairedRuns(runs: map<RunId, Run>, self: int, alive: set<int>, at: real): map<RunId, Run> {
    map id | id in runs :: if Orphan(runs[id], self, alive) then Failed(runs[id], at) else runs[id]
  }

  function OrphanIds(runs: map<RunId, Run>, self: int, alive: set<int>): set<RunId> {
    set id | id in runs && Orphan(runs[id], self, alive)
  }

  function RepairedEvents(runs: map<RunId, Run>, events: map<RunId, seq<RunEvent>>,
                          self: int, alive: set<int>, at: real): map<RunId, seq<RunEvent>> {
    map id | id in events.Keys + OrphanIds(runs, self, alive) ::
      if id in OrphanIds(runs, self, alive) then Terminated(Rows(events, id), at) else events[id]
  }

  class RunStore {
    var runs: map<RunId, Run>
    var events: map<RunId, seq<RunEvent>>
    const self: int

    constructor (self: int)
      ensures runs == map[] && events == map[] && this.self == self
    {
      runs, events, this.self := map[], map[], self;
    }

    /** Fail the dead owners' runs, one owner at a time, and close each stream. */
    method ReconcileOrphanedRuns(alive: set<int>, at: real)
      modifies this
      ensures runs == RepairedRuns(old(runs), self, alive, at)
      ensures events == RepairedEvents(old(runs), old(events), self, alive, at)
    {
      var owners := set id | id in runs && runs[id].ownerPid != self && runs[id].state !in TERMINAL_STATES
        :: runs[id].ownerPid;
      ghost var done: set<int> := {};
      assert Progress(runs, self, alive, at, {}) == runs;
      assert ProgressEvents(runs, events, self, alive, at, {}) == events;
      while owners != {}
        invariant owners !! done && self !in owners
        invariant forall id :: id in OrphanIds(old(runs), self, alive) ==> old(runs)[id].ownerPid in owners + done
        invariant runs == Progress(old(runs), self, alive, at, done)
        invariant events == ProgressEvents(old(runs), old(events), self, alive, at, done)
        decreases owners
      {
        var owner :| owner in owners;
        owners := owners - {owner};
        if owner > 0 && owner % 0x1_0000_0000 !in alive {
          var orphaned := set id | id in runs && runs[id].ownerPid == owner && runs[id].state !in TERMINAL_STATES;
          runs := map id | id in runs :: if id in orphaned then Failed(runs[id], at) else runs[id];
          CloseStreams(orphaned, at);
        }
        OwnerHandled(old(runs), old(events), self, alive, at, done, owner);
        done := done + {owner};
      }
      EveryOwnerHandled(old(runs), old(events), self, alive, at, done);
    }

    /** Append the terminal event each listed run's stream never received. */
    method CloseStreams(ids: set<RunId>, at: real)
      modifies this`events
      ensures events == CloseAll(old(events), ids, at)
    {
      var todo := ids;
      ghost var done: set<RunId> := {};
      assert CloseAll(events, done, at) == events;
      while todo != {}
        invariant done + todo == ids && done !! todo
        invariant events == CloseAll(old(events), done, at)
        decreases todo
      {
        var id :| id in todo;
        CloseOne(old(events), done, id, at);
        CloseStream(id, at);
        todo, done := todo - {id}, done + {id};
      }
    }

    method CloseStream(id: RunId, at: real)
      modifies this`events
      ensures events == old(events)[id := Terminated(Rows(old(events), id), at)]
    {
      var rows := Rows(events, id);
      if !HasTerminal(rows) {
        rows := rows + [RunEvent(MaxSequence(rows) + 1, "failed", at, None)];
      }
      events := events[id := rows];
    }

    /** Append one event; the payload is kept only when retention is on and the
        run's budget allows it, and a sequence already stored wins. */
    method AppendEvent(id: RunId, event: RunEvent, retain: bool, readable: bool)
      modifies this`events
      ensures events == old(events)[id := Appended(Rows(old(events), id), event, retain, readable)]
    {
      var rows := Rows(events, id);
      var data := event.data;
      if !retain || (data.Some? && (!readable || !BudgetAllows(rows, data.value))) {
        data := None;
      }
      events := events[id := InsertOrIgnore(rows, event.(data := data))];
    }

    /** One page of a terminal, visible run: at least one event when any follows the
        cursor. */
    method StoredEvents(id: RunId, cursor: nat, pageBytes: nat, alive: set<int>) returns (page: Option<Page>)
      ensures page == StoredPage(runs, events, self, alive, id, cursor, pageBytes)
    {
      if id !in runs || runs[id].state !in TERMINAL_STATES || !OwnerVisible(runs[id].ownerPid, self, alive) {
        return None;
      }
      var found := RowsAfter(Rows(events, id), AsI64(cursor));
      var n, more := Paging.TakePage(Sizes(found), |found|, pageBytes);
      page := Some(Page(found[..n], Reported(RunEvent(MaxSequence(Rows(events, id)), "", 0.0, None)), more));
    }
  }

  /** The tables after the owners in `done` were handled. */
  ghost function Progress(runs: map<RunId, Run>, self: int, alive: set<int>, at: real, done: set<int>)
    : map<RunId, Run>
  {
    map id | id in runs ::
      if Orphan(runs[id], self, alive) && runs[id].ownerPid in done then Failed(runs[id], at) else runs[id]
  }

  ghost function Handled(runs: map<RunId, Run>, self: int, alive: set<int>, done: set<int>): set<RunId> {
    set id | id in runs && Orphan(runs[id], self, alive) && runs[id].ownerPid in done
  }

  ghost function CloseAll(events: map<RunId, seq<RunEvent>>, ids: set<RunId>, at: real): map<RunId, seq<RunEvent>> {
    map id | id in events.Keys + ids :: if id in ids then Terminated(Rows(events, id), at) else events[id]
  }

  ghost function ProgressEvents(runs: map<RunId, Run>, events: map<RunId, seq<RunEvent>>, self: int,
                                alive: set<int>, at: real, done: set<int>): map<RunId, seq<RunEvent>> {
    CloseAll(events, Handled(runs, self, alive, done), at)
  }

  lemma CloseOne(events: map<RunId, seq<RunEvent>>, done: set<RunId>, id: RunId, at: real)
    requires id !in done
    ensures Rows(CloseAll(events, done, at), id) == Rows(events, id)
    ensures CloseAll(events, done + {id}, at) == CloseAll(events, done, at)[id := Terminated(Rows(events, id), at)]
  {}

  lemma CloseAllTwice(events: map<RunId, seq<RunEvent>>, first: set<RunId>, second: set<RunId>, at: real)
    requires first !! second
    ensures CloseAll(CloseAll(events, first, at), second, at) == CloseAll(events, first + second, at)
  {
    var once := CloseAll(events, first, at);
    assert forall id :: id in second ==> Rows(once, id) == Rows(events, id);
  }

  /** One owner's update and stream closing move both tables one owner on. */
  lemma OwnerHandled(runs: map<RunId, Run>, events: map<RunId, seq<RunEvent>>, self: int, alive: set<int>,
                     at: real, done: set<int>, owner: int)
    requires owner !in done && owner != self
    ensures var now := Progress(runs, self, alive, at, done);
            var streams := ProgressEvents(runs, events, self, alive, at, done);
            var orphaned := set id | id in now && now[id].ownerPid == owner && now[id].state !in TERMINAL_STATES;
            if owner > 0 && owner % 0x1_0000_0000 !in alive then
              && Progress(runs, self, alive, at, done + {owner}) ==
                 (map id | id in now :: if id in orphaned then Failed(now[id], at) else now[id])
              && ProgressEvents(runs, events, self, alive, at, done + {owner}) == CloseAll(streams, orphaned, at)
            else
              && Progress(runs, self, alive, at, done + {owner}) == now
              && ProgressEvents(runs, events, self, alive, at, done + {owner}) == streams
  {
    var now := Progress(runs, self, alive, at, done);
    var orphaned := set id | id in now && now[id].ownerPid == owner && now[id].state !in TERMINAL_STATES;
    assert orphaned == set id | id in runs && runs[id].ownerPid == owner && runs[id].state !in TERMINAL_STATES;
    var was, then' := Handled(runs, self, alive, done), Handled(runs, self, alive, done + {owner});
    if owner > 0 && owner % 0x1_0000_0000 !in alive {
      assert then' == was + orphaned && was !! orphaned;
      CloseAllTwice(events, was, orphaned, at);
    } else {
      assert then' == was;
    }
  }

  lemma EveryOwnerHandled(runs: map<RunId, Run>, events: map<RunId, seq<RunEvent>>, self: int, alive: set<int>,
                          at: real, done: set<int>)
    requires forall id :: id in OrphanIds(runs, self, alive) ==> runs[id].ownerPid in done
    ensures Progress(runs, self, alive, at, done) == RepairedRuns(runs, self, alive, at)
    ensures ProgressEvents(runs, events, self, alive, at, done) == RepairedEvents(runs, events, self, alive, at)
  {
    assert forall id :: id in runs && Orphan(runs[id], self, alive) ==> id in OrphanIds(runs, self, alive);
  }

  /** After a repair no orphan is left and every repaired stream is closed, so a
      second repair under the same liveness changes nothing. */
  lemma RepairIsComplete(runs: map<RunId, Run>, events: map<RunId, seq<RunEvent>>,
                         self: int, alive: set<int>, at: real, later: real)
    ensures var runs' := RepairedRuns(runs, self, alive, at);
            var events' := RepairedEvents(runs, events, self, alive, at);
            && OrphanIds(runs', self, alive) == {}
            && (forall id :: id in OrphanIds(runs, self, alive) ==> HasTerminal(Rows(events', id)))
            && RepairedRuns(runs', self, alive, later) == runs'
            && RepairedEvents(runs', events', self, alive, later) == events'
  {
    var events' := RepairedEvents(runs, events, self, alive, at);
    forall id | id in OrphanIds(runs, self, alive) ensures HasTerminal(Rows(events', id)) {
      var rows := events'[id];
      assert HasTerminal(Rows(events, id)) || rows[|rows| - 1].kind in TERMINAL_EVENT_KINDS;
    }
  }

  /** Only orphans and their streams change; a stream grows by at most the one
      terminal event, exactly when it had none, and stays ordered. */
  lemma RepairTouchesOnlyOrphans(runs: map<RunId, Run>, events: map<RunId, seq<RunEvent>>,
                                 self: int, alive: set<int>, at: real, id: RunId)
    requires Ordered(Rows(events, id))
    ensures var before, after' := Rows(events, id), Rows(RepairedEvents(runs, events, self, alive, at), id);
            && Ordered(after') && before <= after'
            && (after' != before <==> id in OrphanIds(runs, self, alive) && !HasTerminal(before))
            && (after' != before ==>
                  after' == before + [RunEvent(MaxSequence(before) + 1, "failed", at, None)])
    ensures id in runs && id !in OrphanIds(runs, self, alive) ==>
              RepairedRuns(runs, self, alive, at)[id] == runs[id]
  {}

  /** What a repair makes of one run: exactly a run that was neither over nor this
      process's, and whose owner is gone, ends failed because its owner exited; its process
      and the other runs are as they were. A stream counts as ended by any of the four
      terminal events. */
  lemma RepairFailsOrphans(runs: map<RunId, Run>, self: int, alive: set<int>, at: real, id: RunId,
                           rows: seq<RunEvent>)
    requires id in runs
    ensures var run := runs[id];
            RepairedRuns(runs, self, alive, at)[id] ==
            if run.state in ["succeeded", "failed", "timed_out", "cancelled"] || run.ownerPid == self
               || run.ownerPid <= 0 || run.ownerPid % 0x1_0000_0000 in alive
            then run
            else Run(run.ownerPid, "failed", Some("failed"), Some("owner_exited"), Some(at))
    ensures RepairedRuns(runs, self, alive, at).Keys == runs.Keys
    ensures HasTerminal(rows) <==>
              exists e :: e in rows && e.kind in ["completed", "failed", "timed_out", "cancelled"]
  {
    assert HasTerminal(rows) ==> exists i :: 0 <= i < |rows| && rows[i] in rows && rows[i].kind in TERMINAL_EVENT_KINDS;
  }

  // ----- The payload budget

  /** UTF-8 length of one character, and of a text. */
  function Utf8Width(c: char): nat {
    if c as int < 0x80 then 1 else if c as int < 0x800 then 2 else if c as int < 0x1_0000 then 3 else 4
  }

  /** Section 3 of RFC 3629: the shortest form, which holds 7 bits in one byte and 5n + 1 in
      n bytes. */
  lemma WidthIsShortest(c: char)
    ensures 1 <= Utf8Width(c) <= 4
    ensures Utf8Width(c) == 1 <==> (c as int) / 0x80 == 0
    ensures Utf8Width(c) <= 2 <==> (c as int) / 0x800 == 0
    ensures Utf8Width(c) <= 3 <==> (c as int) / 0x1_0000 == 0
  {}

  function ByteLength(text: string): nat {
    if text == [] then 0 else Utf8Width(text[0]) + ByteLength(text[1..])
  }

  function DataLength(e: RunEvent): nat { match e.data case None => 0 case Some(text) => |text| }

  function DataBytes(e: RunEvent): nat { match e.data case None => 0 case Some(text) => ByteLength(text) }

  /** `SUM(LENGTH(data))`, which counts characters of a text column. */
  function StoredCharacters(rows: seq<RunEvent>): nat {
    if rows == [] then 0 else DataLength(rows[0]) + StoredCharacters(rows[1..])
  }

  function StoredBytes(rows: seq<RunEvent>): nat {
    if rows == [] then 0 else DataBytes(rows[0]) + StoredBytes(rows[1..])
  }

  predicate BudgetAllows(rows: seq<RunEvent>, data: string) {
    SatAdd(StoredCharacters(rows), ByteLength(data)) <= MAX_EVENT_BYTES_PER_RUN
  }

  function InsertOrIgnore(rows: seq<RunEvent>, e: RunEvent): seq<RunEvent> {
    if rows == [] then [e]
    else if e.sequence < rows[0].sequence then [e] + rows
    else if e.sequence == rows[0].sequence then rows
    else [rows[0]] + InsertOrIgnore(rows[1..], e)
  }

  /** Whether the payload is stored; a budget that cannot be read allows nothing. */
  predicate Kept(rows: seq<RunEvent>, event: RunEvent, retain: bool, readable: bool) {
    retain && event.data.Some? && readable && BudgetAllows(rows, event.data.value)
  }

  function Appended(rows: seq<RunEvent>, event: RunEvent, retain: bool, readable: bool): seq<RunEvent> {
    InsertOrIgnore(rows, if Kept(rows, event, retain, readable) then event else event.(data := None))
  }

  /** Inserting adds at most the new row, loses none, and its sequence is present. */
  lemma {:induction false} InsertMembers(rows: seq<RunEvent>, e: RunEvent)
    ensures forall x :: x in InsertOrIgnore(rows, e) ==> x in rows || x == e
    ensures forall x :: x in rows ==> x in InsertOrIgnore(rows, e)
    ensures exists x :: x in InsertOrIgnore(rows, e) && x.sequence == e.sequence
  {
    if rows == [] || e.sequence < rows[0].sequence {
      assert e in InsertOrIgnore(rows, e);
    } else if e.sequence == rows[0].sequence {
      assert rows[0] in rows;
    } else {
      InsertMembers(rows[1..], e);
      assert rows == [rows[0]] + rows[1..];
      var x :| x in InsertOrIgnore(rows[1..], e) && x.sequence == e.sequence;
      assert x in InsertOrIgnore(rows, e);
    }
  }

  lemma {:induction false} InsertKeepsOrder(rows: seq<RunEvent>, e: RunEvent)
    requires Ordered(rows)
    ensures Ordered(InsertOrIgnore(rows, e))
    decreases |rows|
  {
    if rows != [] && rows[0].sequence < e.sequence {
      var rest := InsertOrIgnore(rows[1..], e);
      InsertKeepsOrder(rows[1..], e);
      InsertMembers(rows[1..], e);
      forall j | 0 <= j < |rest| ensures rows[0].sequence < rest[j].sequence {
        assert rest[j] in rest;
      }
    }
  }

  lemma {:induction false} InsertAddsOnce(rows: seq<RunEvent>, e: RunEvent)
    ensures StoredCharacters(InsertOrIgnore(rows, e)) <= StoredCharacters(rows) + DataLength(e)
    decreases |rows|
  {
    if rows == [] || e.sequence < rows[0].sequence {
      assert ([e] + rows)[1..] == rows;
    } else if e.sequence != rows[0].sequence {
      InsertAddsOnce(rows[1..], e);
      assert InsertOrIgnore(rows, e)[1..] == InsertOrIgnore(rows[1..], e);
    }
  }

  lemma {:induction false} CharactersBelowBytes(text: string)
    ensures |text| <= ByteLength(text) <= 4 * |text|
    ensures (forall c :: c in text ==> c as int < 0x80) ==> ByteLength(text) == |text|
  {
    if text != [] {
      CharactersBelowBytes(text[1..]);
      assert text[0] in text && forall c :: c in text[1..] ==> c in text;
    }
  }

  /** Every append keeps a run's retained characters within the budget, keeps the
      scan ordered, and never loses or rewrites a stored row. */
  lemma AppendKeepsBudget(rows: seq<RunEvent>, event: RunEvent, retain: bool, readable: bool)
    requires Ordered(rows) && StoredCharacters(rows) <= MAX_EVENT_BYTES_PER_RUN
    ensures var rows' := Appended(rows, event, retain, readable);
            && Ordered(rows') && StoredCharacters(rows') <= MAX_EVENT_BYTES_PER_RUN
            && (forall x :: x in rows ==> x in rows')
            && exists x :: x in rows' && x.sequence == event.sequence
  {
    var row := if Kept(rows, event, retain, readable) then event else event.(data := None);
    InsertKeepsOrder(rows, row);
    InsertMembers(rows, row);
    InsertAddsOnce(rows, row);
    if event.data.Some? {
      CharactersBelowBytes(event.data.value);
    }
  }

  predicate Fresh(rows: seq<RunEvent>, sequence: int) { forall x | x in rows :: x.sequence != sequence }

  lemma {:induction false} InsertBytes(rows: seq<RunEvent>, e: RunEvent)
    requires Ordered(rows)
    ensures StoredBytes(InsertOrIgnore(rows, e)) ==
            StoredBytes(rows) + if Fresh(rows, e.sequence) then DataBytes(e) else 0
    decreases |rows|
  {
    if rows == [] {
      assert [e][1..] == [];
    } else if e.sequence < rows[0].sequence {
      assert ([e] + rows)[1..] == rows;
      forall x | x in rows ensures x.sequence != e.sequence {}
    } else if e.sequence == rows[0].sequence {
      assert rows[0] in rows;
    } else {
      InsertBytes(rows[1..], e);
      assert InsertOrIgnore(rows, e)[1..] == InsertOrIgnore(rows[1..], e);
      assert rows == [rows[0]] + rows[1..];
      assert Fresh(rows, e.sequence) <==> Fresh(rows[1..], e.sequence);
    }
  }

  /** What an append leaves: nothing new if the sequence is stored already, else exactly the
      event, with its payload when retention is on and the budget can be read and allows
      it, and without it otherwise. */
  lemma AppendIsExact(rows: seq<RunEvent>, event: RunEvent, retain: bool, readable: bool)
    requires Ordered(rows)
    ensures var rows' := Appended(rows, event, retain, readable);
            var kept := retain && readable && event.data.Some? &&
                        SatAdd(StoredCharacters(rows), ByteLength(event.data.value)) <= MAX_EVENT_BYTES_PER_RUN;
            var row := if kept then event else RunEvent(event.sequence, event.kind, event.createdAt, None);
            if exists x :: x in rows && x.sequence == event.sequence then rows' == rows
            else forall x :: x in rows' <==> x in rows || x == row
  {
    var row := if Kept(rows, event, retain, readable) then event else event.(data := None);
    InsertMembers(rows, row);
    InsertIgnores(rows, row);
    if forall x :: x in rows ==> x.sequence != event.sequence {
      var x :| x in InsertOrIgnore(rows, row) && x.sequence == row.sequence;
      assert x == row;
    }
  }

  lemma {:induction false} InsertIgnores(rows: seq<RunEvent>, e: RunEvent)
    requires Ordered(rows)
    ensures (exists x :: x in rows && x.sequence == e.sequence) ==> InsertOrIgnore(rows, e) == rows
    decreases |rows|
  {
    if rows != [] && rows[0].sequence < e.sequence {
      InsertIgnores(rows[1..], e);
      assert rows == [rows[0]] + rows[1..];
    } else if exists x :: x in rows && x.sequence == e.sequence {
      var i :| 0 <= i < |rows| && rows[i].sequence == e.sequence;
      assert i == 0;
    }
  }

  /** Which appends take the retained bytes past the budget: exactly those of a new row
      whose payload the character count lets in though the bytes do not fit. */
  lemma OverrunIsExact(rows: seq<RunEvent>, event: RunEvent, retain: bool, readable: bool)
    requires Ordered(rows) && StoredBytes(rows) <= MAX_EVENT_BYTES_PER_RUN
    ensures StoredBytes(Appended(rows, event, retain, readable)) > MAX_EVENT_BYTES_PER_RUN <==>
            Fresh(rows, event.sequence) && Kept(rows, event, retain, readable) &&
            StoredBytes(rows) + ByteLength(event.data.value) > MAX_EVENT_BYTES_PER_RUN
  {
    InsertBytes(rows, if Kept(rows, event, retain, readable) then event else event.(data := None));
  }

  predicate Ascii(e: RunEvent) { e.data.Some? ==> forall c | c in e.data.value :: c as int < 0x80 }

  lemma {:induction false} AsciiBytes(rows: seq<RunEvent>)
    requires forall x | x in rows :: Ascii(x)
    ensures StoredBytes(rows) == StoredCharacters(rows)
  {
    if rows != [] {
      AsciiBytes(rows[1..]);
      assert Ascii(rows[0]);
      if rows[0].data.Some? {
        CharactersBelowBytes(rows[0].data.value);
      }
    }
  }

  /** Over ASCII rows characters are bytes, so the documented bound holds for any append. */
  lemma AsciiStaysWithinBudget(rows: seq<RunEvent>, event: RunEvent, retain: bool, readable: bool)
    requires Ordered(rows) && StoredBytes(rows) <= MAX_EVENT_BYTES_PER_RUN
    requires forall x | x in rows :: Ascii(x)
    ensures StoredBytes(Appended(rows, event, retain, readable)) <= MAX_EVENT_BYTES_PER_RUN
  {
    OverrunIsExact(rows, event, retain, readable);
    AsciiBytes(rows);
  }

  lemma {:induction false} RepeatedBytes(n: nat, c: char)
    ensures ByteLength(seq(n, _ => c)) == n * Utf8Width(c)
  {
    if n > 0 {
      assert seq(n, _ => c)[1..] == seq(n - 1, _ => c);
      RepeatedBytes(n - 1, c);
    }
  }

  /** The budget is documented in bytes but read back in characters, so retained
      bytes can pass it: half a budget of two-byte characters leaves room for half
      a budget more. */
  lemma BudgetCountsCharacters()
    ensures exists first: RunEvent, second: RunEvent ::
              StoredBytes(Appended(Appended([], first, true, true), second, true, true)) > MAX_EVENT_BYTES_PER_RUN
  {
    var half := MAX_EVENT_BYTES_PER_RUN / 2;
    var wide, narrow := seq(half, _ => 0xE9 as char), seq(half, _ => 'a');
    RepeatedBytes(half, 0xE9 as char);
    RepeatedBytes(half, 'a');
    var first := RunEvent(1, "output", 0.0, Some(wide));
    var second := RunEvent(2, "output", 0.0, Some(narrow));
    assert StoredCharacters([]) == 0;
    assert BudgetAllows([], wide);
    assert Appended([], first, true, true) == [first];
    assert [first][1..] == [];
    assert StoredCharacters([first]) == half;
    assert BudgetAllows([first], narrow);
    assert InsertOrIgnore([first][1..], second) == [second];
    assert Appended([first], second, true, true) == [first] + [second];
    assert ([first] + [second])[1..] == [second] && [second][1..] == [];
    assert StoredBytes([second]) == half;
    assert StoredBytes([first] + [second]) == 2 * half + half;
  }

  // ----- Paging

  datatype Page = Page(events: seq<RunEvent>, latest: nat, hasMore: bool)

  predicate OwnerVisible(owner: int, self: int, alive: set<int>) {
    owner == self || (owner > 0 && owner % 0x1_0000_0000 !in alive)
  }

  function RowsAfter(rows: seq<RunEvent>, cursor: int): seq<RunEvent> {
    Filter(rows, (e: RunEvent) => e.sequence > cursor)
  }

  function Sizes(rows: seq<RunEvent>): (sizes: seq<nat>)
    ensures |sizes| == |rows|
  {
    seq(|rows|, i requires 0 <= i < |rows| => SatAdd(DataBytes(rows[i]), EVENT_METADATA_BYTES))
  }

  function PageOf(rows: seq<RunEvent>, cursor: int, pageBytes: nat): Page {
    var found := RowsAfter(rows, cursor);
    var n := Paging.PageLength(Sizes(found), |found|, pageBytes);
    Page(found[..n], if MaxSequence(rows) < 0 then 0 else MaxSequence(rows), n < |found|)
  }

  function StoredPage(runs: map<RunId, Run>, events: map<RunId, seq<RunEvent>>, self: int, alive: set<int>,
                      id: RunId, cursor: nat, pageBytes: nat): Option<Page> {
    if id !in runs || runs[id].state !in TERMINAL_STATES || !OwnerVisible(runs[id].ownerPid, self, alive)
    then None else Some(PageOf(Rows(events, id), AsI64(cursor), pageBytes))
  }

  /** What the table guarantees of one run's rows: ordered, numbered from one up. */
  predicate Numbered(rows: seq<RunEvent>) {
    Ordered(rows) && forall e :: e in rows ==> 0 < e.sequence < I64_LIMIT
  }

  /** Following a cursor from page to page until a page has no more. */
  ghost function Walk(rows: seq<RunEvent>, cursor: int, pageBytes: nat): seq<RunEvent>
    requires Numbered(rows)
    decreases |RowsAfter(rows, cursor)|
  {
    var page := PageOf(rows, cursor, pageBytes);
    PageProgress(rows, cursor, pageBytes);
    if page.hasMore then page.events + Walk(rows, page.events[|page.events| - 1].sequence, pageBytes)
    else page.events
  }

  /** Dropping the first `n` events after a cursor is moving the cursor to the
      `n`-th of them. */
  lemma RowsAfterPage(rows: seq<RunEvent>, cursor: int, n: nat)
    requires Ordered(rows) && 0 < n <= |RowsAfter(rows, cursor)|
    ensures RowsAfter(rows, RowsAfter(rows, cursor)[n - 1].sequence) == RowsAfter(rows, cursor)[n..]
  {
    SuffixFrom(rows, cursor);
    var cut := |rows| - |RowsAfter(rows, cursor)|;
    assert RowsAfter(rows, cursor) == rows[cut..];
    var last := rows[cut + n - 1].sequence;
    var keep := (e: RunEvent) => e.sequence > last;
    assert rows == rows[..cut + n] + rows[cut + n..];
    FilterConcat(rows[..cut + n], rows[cut + n..], keep);
    FilterNone(rows[..cut + n], keep);
    FilterAll(rows[cut + n..], keep);
    assert rows[cut..][n..] == rows[cut + n..];
  }

  lemma {:induction false} SuffixFrom(rows: seq<RunEvent>, cursor: int)
    requires Ordered(rows)
    ensures |RowsAfter(rows, cursor)| <= |rows|
    ensures RowsAfter(rows, cursor) == rows[|rows| - |RowsAfter(rows, cursor)|..]
  {
    if rows != [] {
      if rows[0].sequence > cursor {
        FilterAll(rows, (e: RunEvent) => e.sequence > cursor);
      } else {
        SuffixFrom(rows[1..], cursor);
      }
    }
  }

  /** Which runs are served: known ones that are over, of this process or of one that is
      gone. */
  lemma ServedRuns(runs: map<RunId, Run>, events: map<RunId, seq<RunEvent>>, self: int, alive: set<int>,
                   id: RunId, cursor: nat, pageBytes: nat)
    ensures StoredPage(runs, events, self, alive, id, cursor, pageBytes) ==
            if id in runs && runs[id].state in ["succeeded", "failed", "timed_out", "cancelled"]
               && (runs[id].ownerPid == self ||
                   (runs[id].ownerPid > 0 && runs[id].ownerPid % 0x1_0000_0000 !in alive))
            then Some(PageOf(Rows(events, id), AsI64(cursor), pageBytes)) else None
  {}

  /** A page is a prefix of what follows the cursor, holds an event whenever one
      follows, is one event or within the byte bound, which one more event would pass,
      names the newest sequence, and a continued walk moves on. */
  lemma PageProgress(rows: seq<RunEvent>, cursor: int, pageBytes: nat)
    requires Numbered(rows)
    ensures var page := PageOf(rows, cursor, pageBytes);
            var found := RowsAfter(rows, cursor);
            && page.events <= found && (page.hasMore <==> page.events != found)
            && (found != [] ==> page.events != [])
            && (|page.events| <= 1 || Min(Sum(Sizes(page.events)), U64_MAX) <= pageBytes)
            && (page.hasMore ==> Min(Sum(Sizes(found[..|page.events| + 1])), U64_MAX) > pageBytes)
            && page.latest == (if rows == [] then 0 else rows[|rows| - 1].sequence)
            && (page.hasMore ==>
                RowsAfter(rows, page.events[|page.events| - 1].sequence) == found[|page.events|..])
  {
    var found := RowsAfter(rows, cursor);
    var n := Paging.PageLength(Sizes(found), |found|, pageBytes);
    assert found != [] ==> Paging.Fits(Sizes(found), 1, |found|, pageBytes);
    assert Sizes(found)[..n] == Sizes(found[..n]);
    if n < |found| {
      assert Sizes(found)[..n + 1] == Sizes(found[..n + 1]);
    }
    assert rows != [] ==> rows[|rows| - 1] in rows;
    if 0 < n {
      RowsAfterPage(rows, cursor, n);
    }
  }

  /** The pages of a walk concatenate to exactly the events after its starting
      cursor, in order and once each. */
  lemma {:induction false} WalkIsComplete(rows: seq<RunEvent>, cursor: int, pageBytes: nat)
    requires Numbered(rows)
    ensures Walk(rows, cursor, pageBytes) == RowsAfter(rows, cursor)
    decreases |RowsAfter(rows, cursor)|
  {
    var page := PageOf(rows, cursor, pageBytes);
    PageProgress(rows, cursor, pageBytes);
    if page.hasMore {
      WalkIsComplete(rows, page.events[|page.events| - 1].sequence, pageBytes);
      PrefixAndRest(page.events, RowsAfter(rows, cursor));
    }
  }

  lemma PrefixAndRest(prefix: seq<RunEvent>, whole: seq<RunEvent>)
    requires prefix <= whole
    ensures prefix + whole[|prefix|..] == whole
  {}

  datatype ReadError = CursorTooNew

  datatype Events = Events(events: seq<RunEvent>, next: Option<nat>, gap: bool)

  /** The manager's reader over a stored run: a cursor past the stream is refused. */
  function ReadStored(rows: seq<RunEvent>, cursor: Option<nat>, pageBytes: nat): Result<Events, ReadError> {
    var page := PageOf(rows, AsI64(cursor.GetOr(0)), pageBytes);
    if cursor.Some? && cursor.value > page.latest then Err(CursorTooNew)
    else Ok(Events(page.events,
                   if page.hasMore && page.events != [] then Some(Reported(page.events[|page.events| - 1])) else None,
                   false))
  }

  /** The stored page itself reads a cursor of 2^63 or more as negative and serves
      the whole stream. The reader's guard is what keeps every 64-bit cursor honest:
      it answers with events after the cursor, or refuses it, exactly when the
      cursor is past the newest event. */
  lemma CursorsStayHonest(rows: seq<RunEvent>, cursor: nat, pageBytes: nat)
    requires Numbered(rows) && cursor <= U64_MAX
    ensures cursor >= I64_LIMIT ==> RowsAfter(rows, AsI64(cursor)) == rows
    ensures ReadStored(rows, Some(cursor), pageBytes).Err? <==> cursor > MaxSequence(rows)
    ensures ReadStored(rows, Some(cursor), pageBytes).Ok? ==>
              var read := ReadStored(rows, Some(cursor), pageBytes).value;
              && read.events <= RowsAfter(rows, cursor)
              && (read.next.None? <==> read.events == RowsAfter(rows, cursor))
              && (read.next.Some? ==> cursor < read.next.value) && !read.gap
  {
    PageProgress(rows, AsI64(cursor), pageBytes);
    NothingPastNewest(rows);
    if cursor >= I64_LIMIT {
      WrappedCursorServesAll(rows, cursor);
    } else {
      RowsAfterAreLater(rows, cursor);
    }
  }

  /** A first read, without a cursor, starts at the first event and is never refused. */
  lemma FirstReadStartsAtFirst(rows: seq<RunEvent>, pageBytes: nat)
    requires Numbered(rows)
    ensures ReadStored(rows, None, pageBytes) == ReadStored(rows, Some(0), pageBytes)
    ensures ReadStored(rows, None, pageBytes).Ok?
    ensures var read := ReadStored(rows, None, pageBytes).value;
            read.events <= rows && !read.gap
  {
    CursorsStayHonest(rows, 0, pageBytes);
    NothingPastNewest(rows);
    AllAfterZero(rows);
  }

  lemma AllAfterZero(rows: seq<RunEvent>)
    requires Numbered(rows)
    ensures RowsAfter(rows, 0) == rows
  {
    FilterAll(rows, (e: RunEvent) => e.sequence > 0);
  }

  lemma NothingPastNewest(rows: seq<RunEvent>)
    requires Numbered(rows)
    ensures 0 <= MaxSequence(rows) < I64_LIMIT
  {
    if rows != [] {
      assert rows[|rows| - 1] in rows;
    }
  }

  lemma WrappedCursorServesAll(rows: seq<RunEvent>, cursor: nat)
    requires Numbered(rows) && I64_LIMIT <= cursor <= U64_MAX
    ensures RowsAfter(rows, AsI64(cursor)) == rows
  {
    FilterAll(rows, (e: RunEvent) => e.sequence > AsI64(cursor));
  }

  lemma RowsAfterAreLater(rows: seq<RunEvent>, cursor: int)
    ensures forall i | 0 <= i < |RowsAfter(rows, cursor)| :: RowsAfter(rows, cursor)[i].sequence > cursor
  {
    FilterMembers(rows, (e: RunEvent) => e.sequence > cursor);
    forall i | 0 <= i < |RowsAfter(rows, cursor)| ensures RowsAfter(rows, cursor)[i].sequence > cursor {
      assert RowsAfter(rows, cursor)[i] in RowsAfter(rows, cursor);
    }
  }
}
