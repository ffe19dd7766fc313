/** Every interleaving of the event pumps with the command side of one runtime.
    A step is one lock acquisition or one unlocked store write; `command` is the
    program counter of the single command being handled, as the bridge loop
    serves them one at a time, and `pumps` holds one program counter per pump
    thread. Subscribes, shutdown marks and pump steps interleave freely. A session id
    can be created again: adapters of one process mint ids from counters of their own. */
module SessionProtocol {
  import opened Prelude
  import opened SessionLog

  datatype Thread = Thread(session: SessionId, pump: Pump)

  datatype Command =
    | Ready
    | Creating(session: SessionId, writes: bool, monitoring: bool, recorded: bool, thread: Option<nat>)
    | Resuming(session: SessionId, monitoring: bool, thread: Option<nat>)
    | Closing(session: SessionId, alreadyClosed: bool, stopped: bool, joining: nat)
    | Checking(session: SessionId)   // it was not live; the row is still to be read
    | Authoring(session: SessionId)  // the row was not closed; the fact is still to be appended
    | Restoring(session: SessionId, event: Event)

  /** `next` is the first thread not yet spawned. */
  datatype State = State(shared: Shared, pumps: map<nat, Thread>, next: nat, command: Command)

  datatype Step =
    // pump threads
    | PumpTakes(thread: nat, kind: Kind, size: nat, stored: bool)
    | PumpCheckpoint(thread: nat, found: bool, size: nat, stored: bool)
    | PumpQuota(thread: nat, found: bool, size: nat, stored: bool)
    | PumpEnds(thread: nat)
    // consumers
    | OpenChannel(consumer: ConsumerId)
    | Subscribes(consumer: ConsumerId, session: SessionId, lastSeen: nat)
    | AnswerRegisters(consumer: ConsumerId, session: SessionId, request: RequestId)
    | AnswerWithdraws(consumer: ConsumerId, session: SessionId, request: RequestId)
    // session.create
    | CreateRecord(session: SessionId, writes: bool, monitoring: bool)
    | CreateFact(size: nat, stored: bool)
    | CreateSpawn(ok: bool)
    | CreateInsert
    // the startup continuation of an interrupted session
    | ResumeFact(session: SessionId, monitoring: bool, size: nat, stored: bool)
    | ResumeSpawn(ok: bool, size: nat, stored: bool)
    | ResumeInsert
    // session.close
    | CloseTake(session: SessionId)
    | CloseStop(ok: bool)
    | CloseFinish(size: nat, stored: bool)
    | CloseCheck
    | CloseAuthor(size: nat, stored: bool)
    // checkpoint.restore and shutdown: appends outside the lock
    | RestoreAppend(session: SessionId, size: nat)
    | RestoreBroadcast
    | ShutdownMark(session: SessionId, size: nat)

  /** Whether some thread drains into the session. */
  predicate Pumped(st: State, s: SessionId) { exists t :: t in st.pumps && st.pumps[t].session == s }

  predicate Enabled(st: State, step: Step) {
    var sh := st.shared;
    match step
    case PumpTakes(t, _, _, _) => t in st.pumps && st.pumps[t].pump.Draining?
    case PumpCheckpoint(t, found, _, _) =>
      t in st.pumps && st.pumps[t].pump.AfterRun? && (found ==> st.pumps[t].pump.checkpoint)
    case PumpQuota(t, found, _, _) =>
      t in st.pumps && st.pumps[t].pump.AfterRun? && (found ==> st.pumps[t].pump.quota)
    case PumpEnds(t) => t in st.pumps && st.pumps[t].pump.Draining?
    case OpenChannel(_) => true
    case Subscribes(_, s, _) => s in sh.rows
    case AnswerRegisters(_, s, _) => st.command.Ready? && s in sh.live
    case AnswerWithdraws(_, s, _) => st.command.Ready?
    case CreateRecord(_, _, _) => st.command.Ready?
    case CreateFact(_, _) => st.command.Creating? && !st.command.recorded
    case CreateSpawn(_) => st.command.Creating? && st.command.recorded && st.command.thread.None?
    case CreateInsert => st.command.Creating? && st.command.thread.Some?
    case ResumeFact(s, _, _, _) =>
      st.command.Ready? && !Pumped(st, s) && s !in sh.live && s in sh.rows && sh.rows[s] == Interrupted
    case ResumeSpawn(_, _, _) => st.command.Resuming? && st.command.thread.None?
    case ResumeInsert => st.command.Resuming? && st.command.thread.Some?
    case CloseTake(_) => st.command.Ready?
    case CloseStop(_) => st.command.Closing? && !st.command.stopped
    case CloseFinish(_, _) =>
      // the pump whose handle the entry held was joined
      st.command.Closing? && st.command.stopped && st.command.joining !in st.pumps
    case CloseCheck => st.command.Checking?
    case CloseAuthor(_, _) => st.command.Authoring?
    case RestoreAppend(s, _) =>
      st.command.Ready? && s in sh.rows && sh.rows[s] in {Idle, Interrupted}
    case RestoreBroadcast => st.command.Restoring?
    case ShutdownMark(s, _) => s in sh.rows && InFlight(sh.rows[s])
  }

  function AppendIf(sh: Shared, s: SessionId, kind: Kind, size: nat, stored: bool): Shared {
    if stored then Append(sh, s, kind, size) else sh
  }

  /** A thread after one more of its actions. */
  function Moved(st: State, t: nat, sh: Shared, pump: Pump): State
    requires t in st.pumps
  {
    st.(shared := sh, pumps := st.pumps[t := st.pumps[t].(pump := pump)])
  }

  function Next(st: State, step: Step): State
    requires Enabled(st, step)
  {
    var sh := st.shared;
    match step
    case PumpTakes(t, kind, size, stored) =>
      var (sh', pump) := Drain(sh, st.pumps[t].session, st.pumps[t].pump.skipIdle, kind, size, stored);
      Moved(st, t, sh', pump)
    case PumpCheckpoint(t, found, size, stored) =>
      var thread := st.pumps[t];
      Moved(st, t, AppendFact(sh, thread.session, CheckpointCreated(thread.pump.run), size, found && stored),
            thread.pump.(checkpoint := false))
    case PumpQuota(t, found, size, stored) =>
      Moved(st, t, AppendFact(sh, st.pumps[t].session, QuotaObserved, size, found && stored), Draining(false))
    case PumpEnds(t) => st.(pumps := st.pumps - {t})
    case OpenChannel(c) => st.(shared := Opened(sh, c))
    case Subscribes(c, s, lastSeen) => st.(shared := Subscribe(sh, c, s, lastSeen))
    case AnswerRegisters(c, s, request) =>
      if (s, request) in sh.answers then st
      else st.(shared := sh.(answers := sh.answers[(s, request) := c]))
    case AnswerWithdraws(c, s, request) =>
      if (s, request) in sh.answers && sh.answers[(s, request)] == c
      then st.(shared := sh.(answers := sh.answers - {(s, request)})) else st
    case CreateRecord(s, writes, monitoring) =>
      // an upsert: a row that is there keeps its status
      st.(shared := sh.(rows := if s in sh.rows then sh.rows else sh.rows[s := Idle]),
          command := Creating(s, writes, monitoring, false, None))
    case CreateFact(size, stored) =>
      st.(shared := AppendIf(sh, st.command.session, SessionCreated, size, stored),
          command := if stored then st.command.(recorded := true) else Ready)
    case CreateSpawn(ok) =>
      if ok then Spawned(st, false) else st.(command := Ready)
    case CreateInsert =>
      Inserted(st, LiveSession({}, false, st.command.writes, st.command.monitoring, st.command.thread.value))
    case ResumeFact(s, monitoring, size, stored) =>
      st.(shared := AppendIf(sh, s, SessionStatus(Working), size, stored),
          command := if stored then Resuming(s, monitoring, None) else Ready)
    case ResumeSpawn(ok, size, stored) =>
      if ok then Spawned(st, true)
      else st.(shared := AppendIf(sh, st.command.session, SessionStatus(Interrupted), size, stored),
               command := Ready)
    case ResumeInsert =>
      Inserted(st, LiveSession({}, false, false, st.command.monitoring, st.command.thread.value))
    case CloseTake(s) =>
      st.(shared := TakeLive(sh, s),
          command := if s in sh.live then Closing(s, sh.live[s].closed, false, sh.live[s].pump) else Checking(s))
    case CloseCheck =>
      var s := st.command.session;
      st.(command := if s in sh.rows && sh.rows[s] != Closed then Authoring(s) else Ready)
    case CloseAuthor(size, stored) =>
      st.(shared := AppendIf(sh, st.command.session, SessionClosed, size, stored), command := Ready)
    case CloseStop(ok) =>
      st.(command := if ok then st.command.(stopped := true) else Ready)
    case CloseFinish(size, stored) =>
      st.(shared := AppendIf(sh, st.command.session, SessionClosed, size,
                             stored && !st.command.alreadyClosed),
          command := Ready)
    case RestoreAppend(s, size) =>
      st.(shared := Append(sh, s, CheckpointRestored, size),
          command := Restoring(s, Stamp(sh, s, CheckpointRestored, size)))
    case RestoreBroadcast =>
      st.(shared := Broadcast(sh, st.command.session, st.command.event), command := Ready)
    case ShutdownMark(s, size) =>
      st.(shared := Append(sh, s, SessionStatus(Interrupted), size))
  }

  /** The command's pump thread starts draining. */
  function Spawned(st: State, skipIdle: bool): State
    requires st.command.Creating? || st.command.Resuming?
  {
    st.(pumps := st.pumps[st.next := Thread(st.command.session, Draining(skipIdle))], next := st.next + 1,
        command := st.command.(thread := Some(st.next)))
  }

  /** The command enters its live session, replacing one of the same id. */
  function Inserted(st: State, entry: LiveSession): State
    requires st.command.Creating? || st.command.Resuming?
  {
    st.(shared := st.shared.(live := st.shared.live[st.command.session := entry]), command := Ready)
  }

  /** `steps` leads from `st` to `st'`, each step enabled where it is taken. */
  ghost predicate Reaches(st: State, steps: seq<Step>, st': State)
    decreases |steps|
  {
    if steps == [] then st' == st
    else Enabled(st, steps[0]) && Reaches(Next(st, steps[0]), steps[1..], st')
  }

  // ----- What a step writes

  datatype Write = Write(session: SessionId, kind: Kind, size: nat)

  function WriteIf(stored: bool, s: SessionId, kind: Kind, size: nat): Option<Write> {
    if stored then Some(Write(s, kind, size)) else None
  }

  /** The one fact a step records, if any. */
  function Written(st: State, step: Step): Option<Write>
    requires Enabled(st, step)
  {
    match step
    case PumpTakes(t, kind, size, stored) =>
      var s := st.pumps[t].session;
      WriteIf(stored && !Dropped(st.shared, s, st.pumps[t].pump.skipIdle, kind),
              s, Accepted(st.shared, s, kind).1, size)
    case PumpCheckpoint(t, found, size, stored) =>
      WriteIf(found && stored, st.pumps[t].session, CheckpointCreated(st.pumps[t].pump.run), size)
    case PumpQuota(t, found, size, stored) => WriteIf(found && stored, st.pumps[t].session, QuotaObserved, size)
    case CreateFact(size, stored) => WriteIf(stored, st.command.session, SessionCreated, size)
    case ResumeFact(s, _, size, stored) => WriteIf(stored, s, SessionStatus(Working), size)
    case ResumeSpawn(ok, size, stored) =>
      WriteIf(!ok && stored, st.command.session, SessionStatus(Interrupted), size)
    case CloseFinish(size, stored) =>
      WriteIf(stored && !st.command.alreadyClosed, st.command.session, SessionClosed, size)
    case CloseAuthor(size, stored) => WriteIf(stored, st.command.session, SessionClosed, size)
    case RestoreAppend(s, size) => WriteIf(true, s, CheckpointRestored, size)
    case ShutdownMark(s, size) => WriteIf(true, s, SessionStatus(Interrupted), size)
    case _ => None
  }

  /** What the row of a created session becomes. */
  function RecordedRows(st: State, step: Step): map<SessionId, Status> {
    if step.CreateRecord? && step.session !in st.shared.rows then st.shared.rows[step.session := Idle]
    else st.shared.rows
  }

  predicate Pumps(step: Step) { step.PumpTakes? || step.PumpCheckpoint? || step.PumpQuota? || step.PumpEnds? }

  predicate Starts(step: Step) {
    || step.CreateRecord? || step.CreateFact? || step.CreateSpawn? || step.CreateInsert?
    || step.ResumeFact? || step.ResumeSpawn? || step.ResumeInsert?
  }

  predicate Closes(step: Step) {
    step.CloseTake? || step.CloseStop? || step.CloseFinish? || step.CloseCheck? || step.CloseAuthor?
  }

  /** A step changes the log by the fact it writes and the rows by what that projects. */
  predicate WritesOnly(st: State, step: Step)
    requires Enabled(st, step)
  {
    var sh' := Next(st, step).shared;
    match Written(st, step)
    case None => sh'.log == st.shared.log && sh'.rows == RecordedRows(st, step)
    case Some(w) =>
      var appended := Append(st.shared, w.session, w.kind, w.size);
      sh'.log == appended.log && sh'.rows == appended.rows
  }

  lemma DrainWrites(sh: Shared, s: SessionId, skipIdle: bool, kind: Kind, size: nat, stored: bool)
    ensures var sh' := Drain(sh, s, skipIdle, kind, size, stored).0;
            var appended := Append(sh, s, Accepted(sh, s, kind).1, size);
            if stored && !Dropped(sh, s, skipIdle, kind)
            then sh'.log == appended.log && sh'.rows == appended.rows
            else sh'.log == sh.log && sh'.rows == sh.rows
  {
    AcceptedMarks(sh, s, kind);
  }

  lemma PumpWrites(st: State, step: Step)
    requires Enabled(st, step) && Pumps(step)
    ensures WritesOnly(st, step)
  {
    if step.PumpTakes? {
      var thread := st.pumps[step.thread];
      DrainWrites(st.shared, thread.session, thread.pump.skipIdle, step.kind, step.size, step.stored);
    }
  }

  lemma StartWrites(st: State, step: Step)
    requires Enabled(st, step) && Starts(step)
    ensures WritesOnly(st, step)
  {}

  lemma StepWrites(st: State, step: Step)
    requires Enabled(st, step)
    ensures WritesOnly(st, step)
  {
    if Pumps(step) {
      PumpWrites(st, step);
    } else if Starts(step) {
      StartWrites(st, step);
    }
  }

  // ----- The inductive invariant

  /** The status the last close or status fact of a log records. */
  function LogStatus(events: seq<Event>): Status {
    if events == [] then Idle
    else
      match events[|events| - 1].kind
      case SessionClosed => Closed
      case SessionStatus(status) => status
      case _ => LogStatus(events[..|events| - 1])
  }

  ghost predicate LogInv(st: State, s: SessionId) {
    var sh := st.shared;
    && Durable(sh.Log(s))
    && (s in sh.log || s in sh.live ==> s in sh.rows)
    && (s in sh.rows ==> sh.rows[s] == LogStatus(sh.Log(s)))
  }

  ghost predicate ThreadInv(st: State) {
    forall t :: t in st.pumps ==> t < st.next && st.pumps[t].session in st.shared.rows
  }

  ghost predicate CommandInv(st: State) {
    match st.command
    case Ready => true
    case Creating(s, _, _, recorded, thread) => s in st.shared.rows && (thread.Some? ==> recorded)
    case Resuming(s, _, _) => s in st.shared.rows && s !in st.shared.live
    case Closing(s, _, _, _) => s in st.shared.rows && s !in st.shared.live
    case Checking(s) => s !in st.shared.live
    case Authoring(s) => s in st.shared.rows && s !in st.shared.live
    case Restoring(s, _) => s in st.shared.rows
  }

  /** What every run keeps, ids repeating or not: logs are numbered and scrubbed, every
      session that has a log, a live entry, a thread or a command has a row, and that row
      is the status of the log's last close or status fact. */
  ghost predicate Inv(st: State) {
    (forall s :: LogInv(st, s)) && ThreadInv(st) && CommandInv(st)
  }

  lemma WriterHasRow(st: State, step: Step)
    requires Inv(st) && Enabled(st, step) && Written(st, step).Some?
    ensures Written(st, step).value.session in st.shared.rows
  {}

  lemma LogStatusSnoc(events: seq<Event>, e: Event)
    ensures LogStatus(events + [e]) ==
            match e.kind
            case SessionClosed => Closed
            case SessionStatus(status) => status
            case _ => LogStatus(events)
  {
    assert (events + [e])[..|events|] == events;
  }

  /** The row follows the log: what an append projects is what the log then says. */
  lemma AppendKeepsRow(sh: Shared, s: SessionId, kind: Kind, size: nat)
    requires s in sh.rows && sh.rows[s] == LogStatus(sh.Log(s))
    ensures var sh' := Append(sh, s, kind, size);
            s in sh'.rows && sh'.rows[s] == LogStatus(sh'.Log(s))
  {
    LogStatusSnoc(sh.Log(s), Stored(Stamp(sh, s, kind, size)));
  }

  /** Pumps and consumers leave the command and the set of live sessions alone. */
  lemma CommandWaits(st: State, step: Step)
    requires Enabled(st, step) && !Starts(step) && !Closes(step) && !step.RestoreAppend? && !step.RestoreBroadcast?
    ensures Next(st, step).command == st.command && Next(st, step).shared.live.Keys == st.shared.live.Keys
  {}

  lemma LiveKeys(st: State, step: Step, s: SessionId)
    requires Inv(st) && Enabled(st, step) && s in Next(st, step).shared.live
    ensures s in st.shared.rows
  {
    assert LogInv(st, s);
    if Pumps(step) {
      CommandWaits(st, step);
    }
  }

  lemma StepKeepsLogInv(st: State, step: Step, s: SessionId)
    requires Inv(st) && Enabled(st, step)
    ensures LogInv(Next(st, step), s)
  {
    var st' := Next(st, step);
    assert LogInv(st, s);
    StepWrites(st, step);
    if s in st'.shared.live {
      LiveKeys(st, step, s);
    }
    if Written(st, step).Some? {
      var w := Written(st, step).value;
      WriterHasRow(st, step);
      if w.session == s {
        AppendDurable(st.shared, s, w.kind, w.size);
        AppendKeepsRow(st.shared, s, w.kind, w.size);
        assert st'.shared.Log(s) == Append(st.shared, s, w.kind, w.size).Log(s);
      } else {
        assert st'.shared.Log(s) == st.shared.Log(s);
      }
    }
  }

  lemma RowsStay(st: State, step: Step, s: SessionId)
    requires Enabled(st, step) && s in st.shared.rows
    ensures s in Next(st, step).shared.rows
  {
    StepWrites(st, step);
  }

  lemma StepKeepsThreads(st: State, step: Step)
    requires Inv(st) && Enabled(st, step)
    ensures ThreadInv(Next(st, step))
  {
    var st' := Next(st, step);
    forall t | t in st'.pumps ensures t < st'.next && st'.pumps[t].session in st'.shared.rows {
      if t in st.pumps {
        RowsStay(st, step, st.pumps[t].session);
      } else {
        RowsStay(st, step, st.command.session);
      }
    }
  }

  lemma StepKeepsCommand(st: State, step: Step)
    requires Inv(st) && Enabled(st, step)
    ensures CommandInv(Next(st, step))
  {
    if Starts(step) || Closes(step) || step.RestoreAppend? || step.RestoreBroadcast? {
      if step.CloseTake? {
        assert LogInv(st, step.session);
      }
    } else {
      CommandWaits(st, step);
      if !st.command.Ready? && st.command.session in st.shared.rows {
        RowsStay(st, step, st.command.session);
      }
    }
  }

  lemma StepKeepsInv(st: State, step: Step)
    requires Inv(st) && Enabled(st, step)
    ensures Inv(Next(st, step))
  {
    forall s ensures LogInv(Next(st, step), s) {
      StepKeepsLogInv(st, step, s);
    }
    StepKeepsThreads(st, step);
    StepKeepsCommand(st, step);
  }

  lemma {:induction false} RunKeepsInv(st: State, steps: seq<Step>, st': State)
    requires Inv(st) && Reaches(st, steps, st')
    ensures Inv(st')
    decreases |steps|
  {
    if steps != [] {
      StepKeepsInv(st, steps[0]);
      RunKeepsInv(Next(st, steps[0]), steps[1..], st');
    }
  }

  const FRESH: State := State(Shared(map[], map[], map[], map[], map[]), map[], 0, Ready)

  lemma ReachesCons(st: State, step: Step, rest: seq<Step>, st': State)
    requires Enabled(st, step) && Reaches(Next(st, step), rest, st')
    ensures Reaches(st, [step] + rest, st')
  {
    assert ([step] + rest)[1..] == rest;
  }

  lemma ReachesOne(st: State, step: Step)
    requires Enabled(st, step)
    ensures Reaches(st, [step], Next(st, step))
  {
    assert Reaches(Next(st, step), [], Next(st, step));
  }

  lemma {:induction false} ReachesTrans(st: State, first: seq<Step>, mid: State, second: seq<Step>, st': State)
    requires Reaches(st, first, mid) && Reaches(mid, second, st')
    ensures Reaches(st, first + second, st')
    decreases |first|
  {
    if first == [] {
      assert first + second == second;
    } else {
      assert (first + second)[1..] == first[1..] + second;
      ReachesTrans(Next(st, first[0]), first[1..], mid, second, st');
    }
  }

  /** A create gets an id back, records it, writes its fact and spawns its pump. */
  lemma CreatesAndSpawns(st: State, s: SessionId, writes: bool, monitoring: bool)
    returns (steps: seq<Step>, st': State)
    requires Inv(st) && st.command.Ready?
    ensures Reaches(st, steps, st') && steps != [] && steps[0] == CreateRecord(s, writes, monitoring)
    ensures st'.command == Creating(s, writes, monitoring, true, Some(st.next)) && st'.shared.live == st.shared.live
    ensures st'.pumps == st.pumps[st.next := Thread(s, Draining(false))] && s in st'.shared.rows
    ensures st'.shared.Log(s) == st.shared.Log(s) + [Event(|st.shared.Log(s)| + 1, SessionCreated, 0)]
    ensures st'.shared.channels == st.shared.channels
    ensures st'.shared.rows == (if s in st.shared.rows then st.shared.rows else st.shared.rows[s := Idle])
  {
    var st1 := Next(st, CreateRecord(s, writes, monitoring));
    var st2 := Next(st1, CreateFact(0, true));
    st' := Next(st2, CreateSpawn(true));
    assert LogInv(st, s);
    ContiguousHead(st.shared.Log(s));
    ReachesOne(st2, CreateSpawn(true));
    ReachesCons(st1, CreateFact(0, true), [CreateSpawn(true)], st');
    var rest := [CreateFact(0, true)] + [CreateSpawn(true)];
    ReachesCons(st, CreateRecord(s, writes, monitoring), rest, st');
    steps := [CreateRecord(s, writes, monitoring)] + rest;
  }

  /** A create that nothing fails ends with its session live: without subscribers, open,
      with the access it asked for and the pump it spawned, its row as it was or idle. */
  lemma CreatedSessionIsLive(st: State, s: SessionId, writes: bool, monitoring: bool)
    returns (steps: seq<Step>, st': State)
    requires Inv(st) && st.command.Ready?
    ensures Reaches(st, steps, st') && st'.command.Ready?
    ensures st'.shared.live == st.shared.live[s := LiveSession({}, false, writes, monitoring, st.next)]
    ensures st'.pumps == st.pumps[st.next := Thread(s, Draining(false))]
    ensures st'.shared.rows == (if s in st.shared.rows then st.shared.rows else st.shared.rows[s := Idle])
    ensures st'.shared.Log(s) == st.shared.Log(s) + [Event(|st.shared.Log(s)| + 1, SessionCreated, 0)]
  {
    var first, mid := CreatesAndSpawns(st, s, writes, monitoring);
    st' := Next(mid, CreateInsert);
    ReachesOne(mid, CreateInsert);
    ReachesTrans(st, first, mid, [CreateInsert], st');
    steps := first + [CreateInsert];
  }

  /** One that fails, at its fact or at its pump, leaves no live session and no thread; the
      row and a fact already written stay. */
  lemma FailedCreateIsNotLive(st: State, step: Step)
    requires Enabled(st, step) && (step == CreateSpawn(false) || (step.CreateFact? && !step.stored))
    ensures var st' := Next(st, step);
            st'.command.Ready? && st'.shared == st.shared && st'.pumps == st.pumps
  {}

  /** What follows a completed run outside the lock: the checkpoint of that run, if one was
      made, then the quota observed, if any; each is appended to the session's log and
      delivered to its subscribers, and then the pump drains again. */
  lemma FollowUpsRecord(st: State, t: nat, found: bool, size: nat, c: ConsumerId)
    requires t in st.pumps && st.pumps[t].pump.AfterRun?
    ensures var Thread(s, pump) := st.pumps[t];
            && (Enabled(st, PumpCheckpoint(t, found, size, true)) ==>
                  var st' := Next(st, PumpCheckpoint(t, found, size, true));
                  && st'.pumps == st.pumps[t := Thread(s, AfterRun(pump.run, false, pump.quota))]
                  && Recorded(st.shared, st'.shared, found, s, CheckpointCreated(pump.run), size, c))
            && (Enabled(st, PumpQuota(t, found, size, true)) ==>
                  var st' := Next(st, PumpQuota(t, found, size, true));
                  && st'.pumps == st.pumps[t := Thread(s, Draining(false))]
                  && Recorded(st.shared, st'.shared, found, s, QuotaObserved, size, c))
  {}

  predicate Recorded(sh: Shared, sh': Shared, happens: bool, s: SessionId, kind: Kind, size: nat, c: ConsumerId) {
    var event := Event(MaxSeq(sh.Log(s)) + 1, kind, size);
    && sh'.Log(s) == sh.Log(s) + (if happens then [event] else [])
    && sh'.live == sh.live && sh'.rows == sh.rows && sh'.channels.Keys == sh.channels.Keys
    && (c in sh.channels ==>
          sh'.channels[c] == sh.channels[c] + (if happens && s in sh.live && c in sh.live[s].subscribers
                                               then [Delivery(s, event)] else []))
  }

  /** Which sessions a shutdown marks, and of which a checkpoint can be restored. */
  lemma MarkedAndRestorable(st: State, s: SessionId, size: nat)
    ensures Enabled(st, ShutdownMark(s, size)) <==>
              s in st.shared.rows && st.shared.rows[s] in [Working, WaitingApproval, Compacting]
    ensures Enabled(st, RestoreAppend(s, size)) <==>
              st.command.Ready? && s in st.shared.rows && st.shared.rows[s] in [Idle, Interrupted]
  {}

  /** The continuation fact is recorded and a pump that skips the startup `idle` spawned. */
  lemma ContinuationStarts(st: State, s: SessionId, monitoring: bool) returns (steps: seq<Step>, st': State)
    requires Inv(st) && st.command.Ready? && !Pumped(st, s) && s !in st.shared.live
    requires s in st.shared.rows && st.shared.rows[s] == Interrupted
    ensures Reaches(st, steps, st') && st'.command == Resuming(s, monitoring, Some(st.next))
    ensures st'.pumps == st.pumps[st.next := Thread(s, Draining(true))] && s in st'.shared.rows
    ensures st'.shared.rows[s] == Working && st'.shared.live == st.shared.live
    ensures st'.shared.Log(s) == st.shared.Log(s) + [Event(|st.shared.Log(s)| + 1, SessionStatus(Working), 0)]
  {
    var fact := ResumeFact(s, monitoring, 0, true);
    assert LogInv(st, s);
    ContiguousHead(st.shared.Log(s));
    var mid := Next(st, fact);
    st' := Next(mid, ResumeSpawn(true, 0, true));
    ReachesOne(mid, ResumeSpawn(true, 0, true));
    ReachesCons(st, fact, [ResumeSpawn(true, 0, true)], st');
    steps := [fact] + [ResumeSpawn(true, 0, true)];
  }

  /** A shutdown mark is one fact and the row it projects. */
  lemma ShutdownMarks(st: State, s: SessionId) returns (st': State)
    requires Inv(st) && s in st.shared.rows && InFlight(st.shared.rows[s])
    ensures Enabled(st, ShutdownMark(s, 0)) && st' == Next(st, ShutdownMark(s, 0)) && Inv(st')
    ensures st'.shared.Log(s) == st.shared.Log(s) + [Event(|st.shared.Log(s)| + 1, SessionStatus(Interrupted), 0)]
    ensures s in st'.shared.rows && st'.shared.rows[s] == Interrupted && st'.shared.live == st.shared.live
    ensures st'.pumps == st.pumps && st'.command == st.command && st'.next == st.next
  {
    st' := Next(st, ShutdownMark(s, 0));
    assert LogInv(st, s);
    ContiguousHead(st.shared.Log(s));
    StepKeepsInv(st, ShutdownMark(s, 0));
  }

  /** An interrupted session that nothing here drives is continued: it ends working, live
      without subscribers at least privilege, and drained past its startup `idle`. */
  lemma SessionContinues(st: State, s: SessionId, monitoring: bool) returns (steps: seq<Step>, st': State)
    requires Inv(st) && st.command.Ready? && !Pumped(st, s) && s !in st.shared.live
    requires s in st.shared.rows && st.shared.rows[s] == Interrupted
    ensures Reaches(st, steps, st') && st'.command.Ready? && s in st'.shared.rows && st'.shared.rows[s] == Working
    ensures st'.shared.live == st.shared.live[s := LiveSession({}, false, false, monitoring, st.next)]
    ensures st'.pumps == st.pumps[st.next := Thread(s, Draining(true))]
    ensures st'.shared.Log(s) == st.shared.Log(s) + [Event(|st.shared.Log(s)| + 1, SessionStatus(Working), 0)]
  {
    var first, mid := ContinuationStarts(st, s, monitoring);
    st' := Next(mid, ResumeInsert);
    ReachesOne(mid, ResumeInsert);
    ReachesTrans(st, first, mid, [ResumeInsert], st');
    steps := first + [ResumeInsert];
  }

  /** So is one a shutdown cut off: from every state with a session in flight that nothing
      here drives, the mark and the continuation are two facts of its log. */
  lemma InterruptedSessionContinues(st: State, s: SessionId, monitoring: bool) returns (steps: seq<Step>, st': State)
    requires Inv(st) && st.command.Ready? && !Pumped(st, s) && s !in st.shared.live
    requires s in st.shared.rows && st.shared.rows[s] in [Working, WaitingApproval, Compacting]
    ensures Reaches(st, [ShutdownMark(s, 0)] + steps, st')
    ensures s in st'.shared.rows && st'.shared.rows[s] == Working && s in st'.shared.live
    ensures var n := |st.shared.Log(s)|;
            st'.shared.Log(s) == st.shared.Log(s) + [Event(n + 1, SessionStatus(Interrupted), 0)] +
                                 [Event(n + 2, SessionStatus(Working), 0)]
  {
    var marked := ShutdownMarks(st, s);
    steps, st' := SessionContinues(marked, s, monitoring);
    ReachesCons(st, ShutdownMark(s, 0), steps, st');
  }

  /** A continuation whose pump cannot be spawned tells the truth again: interrupted, not
      live, no thread. */
  lemma FailedSpawnIsInterrupted(st: State, size: nat)
    requires Inv(st) && Enabled(st, ResumeSpawn(false, size, true))
    ensures var s := st.command.session;
            var st' := Next(st, ResumeSpawn(false, size, true));
            && st'.command.Ready? && st'.pumps == st.pumps && st'.shared.live == st.shared.live
            && st'.shared.rows[s] == Interrupted
            && st'.shared.Log(s) ==
               st.shared.Log(s) + [Event(MaxSeq(st.shared.Log(s)) + 1, SessionStatus(Interrupted), size)]
  {}

  /** Of the consumers that answer one request, the first registered is the one the recorded
      fact names, and a consumer can only withdraw its own registration. */
  lemma FirstAnswerIsNamed(st: State, s: SessionId, q: RequestId, c: ConsumerId, d: ConsumerId)
    requires st.command.Ready? && s in st.shared.live && (s, q) !in st.shared.answers && c != d
    ensures var registered := Next(Next(st, AnswerRegisters(c, s, q)), AnswerRegisters(d, s, q));
            var both := Next(registered, AnswerWithdraws(d, s, q));
            && both.shared.answers == st.shared.answers[(s, q) := c]
            && Next(both, AnswerWithdraws(c, s, q)).shared.answers == st.shared.answers
            && both.shared.log == st.shared.log && both.shared.live == st.shared.live
            && both.shared.channels == st.shared.channels
  {
    assert st.shared.answers[(s, q) := c] - {(s, q)} == st.shared.answers;
  }
}
