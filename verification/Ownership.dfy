/** Which runtime drives which Agent Session when several runtimes, in any number
    of processes, share one database: live-owner registration, the liveness rule,
    and the startup sweep that claims orphaned sessions by compare-and-swap. */
module Ownership {
  import opened Prelude
  import opened Text

  type SessionId = string
  type Owner = string

  /** The owner id a store mints: process id, open stamp, per-process sequence. */
  function OwnerId(pid: nat, stamp: nat, sequence: nat): Owner {
    Render(pid, 10) + [':'] + (Render(stamp, 16) + [':'] + Render(sequence, 10))
  }

  /** The process id an owner id names, when it parses. */
  function OwnerPid(owner: Owner): Option<nat> {
    match Before(owner, ':')
    case None => None
    case Some(pid) => ParseU32(pid)
  }

  /** Whether a row's recorded owner is gone, as one process sees it: `registered`
      is that process's live-owner set, `alive` the process-liveness oracle. */
  predicate OwnerDead(self: nat, registered: set<Owner>, alive: set<nat>, owner: Option<Owner>) {
    match owner
    case None => true
    case Some(text) =>
      match OwnerPid(text)
      case None => false
      case Some(pid) => if pid == self then text !in registered else pid > 0 && pid !in alive
  }

  lemma OwnerIdNamesPid(pid: nat, stamp: nat, sequence: nat)
    ensures OwnerPid(OwnerId(pid, stamp, sequence)) == if pid <= U32_MAX then Some(pid) else None
  {
    RenderInverse(pid, 10);
    var tail := Render(stamp, 16) + [':'] + Render(sequence, 10);
    assert OwnerId(pid, stamp, sequence) == Render(pid, 10) + [':'] + tail;
    BeforeHead(Render(pid, 10), tail, ':');
    ParseInverse(pid);
  }

  /** Whose owners are judged dead. A row without one; an owner id of this process exactly
      when no runtime of it holds the registration; one of another process exactly when
      that process is gone; and nothing that does not name a process of 32 bits. */
  lemma DeadExactly(self: nat, registered: set<Owner>, alive: set<nat>, pid: nat, stamp: nat, sequence: nat)
    ensures OwnerDead(self, registered, alive, None)
    ensures var owner := OwnerId(pid, stamp, sequence);
            OwnerDead(self, registered, alive, Some(owner)) <==>
              pid <= U32_MAX && if pid == self then owner !in registered else pid != 0 && pid !in alive
  {
    OwnerIdNamesPid(pid, stamp, sequence);
  }

  /** An owner text of any other form is left alone. */
  lemma UnreadableOwnerIsKept(self: nat, registered: set<Owner>, alive: set<nat>, owner: Owner)
    requires ':' !in owner
    ensures !OwnerDead(self, registered, alive, Some(owner))
  {
    BeforeNone(owner, ':');
  }

  lemma SplitTwice(a: string, b: string, c: string)
    requires ':' !in a && ':' !in b && ':' !in c
    ensures Split(a + [':'] + (b + [':'] + c), ':') == [a, b, c]
  {
    SplitHead(a, b + [':'] + c, ':');
    SplitHead(b, c, ':');
    SplitPlain(c, ':');
  }

  /** Different stores never share an owner id: the text determines all three parts. */
  lemma OwnerIdInjective(p1: nat, t1: nat, n1: nat, p2: nat, t2: nat, n2: nat)
    requires OwnerId(p1, t1, n1) == OwnerId(p2, t2, n2)
    ensures p1 == p2 && t1 == t2 && n1 == n2
  {
    RenderInverse(p1, 10); RenderInverse(t1, 16); RenderInverse(n1, 10);
    RenderInverse(p2, 10); RenderInverse(t2, 16); RenderInverse(n2, 10);
    SplitTwice(Render(p1, 10), Render(t1, 16), Render(n1, 10));
    SplitTwice(Render(p2, 10), Render(t2, 16), Render(n2, 10));
  }

  /** One process's reference-counted live-owner map. `guards` is the multiset of
      registrations still held; the map counts them and holds no zero entry. */
  class OwnerRegistry {
    var live: map<Owner, nat>
    ghost var guards: multiset<Owner>

    ghost predicate Valid()
      reads this
    {
      forall id :: (id in live <==> id in guards) && (id in live ==> live[id] == guards[id])
    }

    constructor ()
      ensures Valid() && guards == multiset{}
    {
      live, guards := map[], multiset{};
    }

    method Register(id: Owner)
      requires Valid()
      modifies this
      ensures Valid() && guards == old(guards) + multiset{id}
    {
      live := live[id := (if id in live then live[id] else 0) + 1];
      guards := guards + multiset{id};
    }

    /** Dropping one guard; the id leaves the map with its last registration. */
    method Release(id: Owner)
      requires Valid()
      modifies this
      ensures Valid() && guards == old(guards) - multiset{id}
    {
      if id in live {
        if live[id] == 1 {
          live := live - {id};
        } else {
          live := live[id := live[id] - 1];
        }
      }
      guards := guards - multiset{id};
    }

    method SessionOwnerDead(self: nat, alive: set<nat>, owner: Option<Owner>) returns (dead: bool)
      requires Valid()
      ensures dead == OwnerDead(self, (set id | id in guards), alive, owner)
    {
      match owner {
        case None => dead := true;
        case Some(text) =>
          match OwnerPid(text) {
            case None => dead := false;
            case Some(pid) => dead := if pid == self then text !in live else pid > 0 && pid !in alive;
          }
      }
    }
  }

  /** The owner column of `agent_sessions`, and one runtime's sweep over it. */
  class SessionTable {
    var owners: map<SessionId, Option<Owner>>

    /** The compare-and-swap claim: it lands only on the owner the sweep observed. */
    method Claim(s: SessionId, expected: Option<Owner>, me: Owner) returns (landed: bool)
      modifies this
      ensures landed <==> s in old(owners) && old(owners)[s] == expected
      ensures owners == if landed then old(owners)[s := Some(me)] else old(owners)
    {
      landed := s in owners && owners[s] == expected;
      if landed {
        owners := owners[s := Some(me)];
      }
    }

    /** The startup sweep run without interference: the resumable candidates (one per
        session, as enumerated from the table) whose owner is unchanged become this
        runtime's, and every other row keeps its owner. */
    method Sweep(candidates: seq<Candidate>, me: Owner) returns (claimed: set<SessionId>)
      requires forall i, j :: 0 <= i < j < |candidates| ==> candidates[i].session != candidates[j].session
      modifies this
      ensures forall s :: s in claimed <==>
                exists c :: c in candidates && c.session == s && c.interrupted && c.cursor.Some? && c.resumable &&
                            s in old(owners) && c.owner == old(owners)[s]
      ensures owners.Keys == old(owners).Keys
      ensures forall s :: s in owners ==> owners[s] == if s in claimed then Some(me) else old(owners)[s]
    {
      claimed := {};
      for i := 0 to |candidates|
        invariant claimed == Claimable(candidates[..i], old(owners))
        invariant owners.Keys == old(owners).Keys
        invariant forall s :: s in owners ==> owners[s] == if s in claimed then Some(me) else old(owners)[s]
      {
        var c := candidates[i];
        assert candidates[..i + 1] == candidates[..i] + [c];
        assert c.session !in claimed;
        if !c.interrupted || c.cursor.None? || !c.resumable {
          continue;
        }
        var landed := Claim(c.session, c.owner, me);
        if landed {
          claimed := claimed + {c.session};
        }
      }
      assert candidates[..|candidates|] == candidates;
    }
  }

  /** One row the sweep enumerated, and whether a serving adapter can resume it in a
      resolved environment. */
  datatype Candidate = Candidate(
    session: SessionId, owner: Option<Owner>, interrupted: bool, cursor: Option<string>, resumable: bool)

  function Claimable(candidates: seq<Candidate>, owners: map<SessionId, Option<Owner>>): set<SessionId> {
    set c | c in candidates && c.interrupted && c.cursor.Some? && c.resumable
            && c.session in owners && owners[c.session] == c.owner :: c.session
  }

  // ----- Any number of runtimes over one database

  /** One runtime: the guard it holds (`owner`), the rows its sweep read, the
      orphans it kept as candidates, the sessions it has claimed or recorded but
      not yet attached, and the sessions it drives. */
  datatype Runtime = Runtime(
    pid: nat, owner: Owner, read: set<(SessionId, Option<Owner>)>,
    candidates: set<(SessionId, Option<Owner>)>, held: set<SessionId>, driven: set<SessionId>)

  /** `minted` is every owner id ever stamped on a row or registered. */
  datatype State = State(
    alive: set<nat>, rows: map<SessionId, Option<Owner>>, runtimes: map<nat, Runtime>, minted: set<Owner>)

  datatype Step =
    | ProcessStarts(pid: nat)
    | ProcessDies(pid: nat)
    | Open(rid: nat, pid: nat, stamp: nat, sequence: nat)
    | Reopen(rid: nat, pid: nat, owner: Owner)  // the same store handed to a second runtime
    | SweepReads(rid: nat)
    | SweepFilters(rid: nat)
    | Claim(rid: nat, session: SessionId, expected: Option<Owner>)
    | Record(rid: nat, session: SessionId)
    | Attach(rid: nat, session: SessionId, ok: bool)
    | Close(rid: nat, session: SessionId)
    | DropSessions(rid: nat)
    | DropGuard(rid: nat)

  function Registered(st: State, pid: nat): set<Owner> {
    set rid | rid in st.runtimes && st.runtimes[rid].pid == pid :: st.runtimes[rid].owner
  }

  predicate Enabled(st: State, step: Step) {
    match step
    case ProcessStarts(pid) => 0 < pid <= U32_MAX && pid !in st.alive
    case ProcessDies(pid) => pid in st.alive
    case Open(rid, pid, stamp, sequence) =>
      rid !in st.runtimes && pid in st.alive && OwnerId(pid, stamp, sequence) !in st.minted
    case Reopen(rid, pid, owner) =>
      rid !in st.runtimes && pid in st.alive && owner in st.minted && OwnerPid(owner) == Some(pid)
    case SweepReads(rid) => rid in st.runtimes
    case SweepFilters(rid) => rid in st.runtimes
    case Claim(rid, s, expected) => rid in st.runtimes && (s, expected) in st.runtimes[rid].candidates
    case Record(rid, s) => rid in st.runtimes  // an upsert: the id may have a row already
    case Attach(rid, s, _) => rid in st.runtimes && s in st.runtimes[rid].held
    case Close(rid, s) => rid in st.runtimes
    case DropSessions(rid) => rid in st.runtimes
    case DropGuard(rid) => rid in st.runtimes && st.runtimes[rid].driven == {}
  }

  function Next(st: State, step: Step): State
    requires Enabled(st, step)
  {
    match step
    case ProcessStarts(pid) => st.(alive := st.alive + {pid})
    case ProcessDies(pid) =>
      st.(alive := st.alive - {pid},
          runtimes := map rid | rid in st.runtimes && st.runtimes[rid].pid != pid :: st.runtimes[rid])
    case Open(rid, pid, stamp, sequence) =>
      st.(runtimes := st.runtimes[rid := Runtime(pid, OwnerId(pid, stamp, sequence), {}, {}, {}, {})],
          minted := st.minted + {OwnerId(pid, stamp, sequence)})
    case Reopen(rid, pid, owner) =>
      st.(runtimes := st.runtimes[rid := Runtime(pid, owner, {}, {}, {}, {})])
    case SweepReads(rid) =>
      st.(runtimes := st.runtimes[rid := st.runtimes[rid].(read := set s | s in st.rows :: (s, st.rows[s]))])
    case SweepFilters(rid) =>
      var r := st.runtimes[rid];
      st.(runtimes := st.runtimes[rid := r.(candidates :=
            set c | c in r.read && OwnerDead(r.pid, Registered(st, r.pid), st.alive, c.1))])
    case Claim(rid, s, expected) =>
      var r := st.runtimes[rid];
      if s in st.rows && st.rows[s] == expected then
        st.(rows := st.rows[s := Some(r.owner)],
            runtimes := st.runtimes[rid := r.(candidates := r.candidates - {(s, expected)}, held := r.held + {s})])
      else
        st.(runtimes := st.runtimes[rid := r.(candidates := r.candidates - {(s, expected)})])
    case Record(rid, s) =>
      var r := st.runtimes[rid];
      st.(rows := st.rows[s := Some(r.owner)], runtimes := st.runtimes[rid := r.(held := r.held + {s})])
    case Attach(rid, s, ok) =>
      var r := st.runtimes[rid];
      st.(runtimes := st.runtimes[rid :=
            r.(held := r.held - {s}, driven := if ok then r.driven + {s} else r.driven)])
    case Close(rid, s) =>
      var r := st.runtimes[rid];
      st.(runtimes := st.runtimes[rid := r.(driven := r.driven - {s})])
    case DropSessions(rid) =>
      var r := st.runtimes[rid];
      st.(runtimes := st.runtimes[rid := r.(read := {}, candidates := {}, held := {}, driven := {})])
    case DropGuard(rid) => st.(runtimes := st.runtimes - {rid})
  }

  ghost predicate Reaches(st: State, steps: seq<Step>, st': State)
    decreases |steps|
  {
    if steps == [] then st' == st
    else Enabled(st, steps[0]) && Reaches(Next(st, steps[0]), steps[1..], st')
  }

  /** Whether a runtime drives a session or is about to. */
  predicate Owns(st: State, rid: nat, s: SessionId) {
    rid in st.runtimes && s in st.runtimes[rid].held + st.runtimes[rid].driven
  }

  /** Two things the code does not check. A session id an adapter mints is not in use by
      another runtime: ids repeat between adapters of one process. A store handed to a
      second runtime is not expected by a sweep's pending claim. */
  predicate Guarded(st: State, step: Step) {
    && (step.Record? ==> forall rid :: rid in st.runtimes && rid != step.rid ==> !Owns(st, rid, step.session))
    && (step.Reopen? ==> forall rid, c :: rid in st.runtimes && c in st.runtimes[rid].candidates ==>
          c.1 != Some(step.owner))
  }

  ghost predicate GuardedRun(st: State, steps: seq<Step>)
    decreases |steps|
  {
    steps != [] && Enabled(st, steps[0]) ==> Guarded(st, steps[0]) && GuardedRun(Next(st, steps[0]), steps[1..])
  }

  /** Registered ids are minted and name their live process. */
  ghost predicate GuardInv(st: State) {
    && (forall rid :: rid in st.runtimes ==>
          var r := st.runtimes[rid];
          r.owner in st.minted && OwnerPid(r.owner) == Some(r.pid) && r.pid in st.alive)
    && (forall pid :: pid in st.alive ==> 0 < pid <= U32_MAX)
  }

  /** Every owner a row or a pending sweep mentions was minted. */
  ghost predicate MintedInv(st: State) {
    && (forall s :: s in st.rows && st.rows[s].Some? ==> st.rows[s].value in st.minted)
    && (forall rid, c :: rid in st.runtimes && c in st.runtimes[rid].read && c.1.Some? ==> c.1.value in st.minted)
  }

  /** A claim's expected owner is minted and registered nowhere. */
  ghost predicate Gone(st: State, owner: Option<Owner>) {
    owner.Some? ==>
      owner.value in st.minted && forall rid :: rid in st.runtimes ==> st.runtimes[rid].owner != owner.value
  }

  ghost predicate CandidateInv(st: State) {
    forall rid, c :: rid in st.runtimes && c in st.runtimes[rid].candidates ==> Gone(st, c.1)
  }

  /** A held or driven session's row names its runtime's registered owner. */
  ghost predicate RowInv(st: State) {
    forall rid, s :: Owns(st, rid, s) ==> s in st.rows && st.rows[s] == Some(st.runtimes[rid].owner)
  }

  ghost predicate DisjointInv(st: State) {
    forall a, b, s :: Owns(st, a, s) && Owns(st, b, s) ==> a == b
  }

  ghost predicate Inv(st: State) {
    GuardInv(st) && MintedInv(st) && CandidateInv(st) && RowInv(st) && DisjointInv(st)
  }

  /** An owner one runtime judged dead is registered by no runtime of any process. */
  lemma DeadMeansGone(st: State, rid: nat, owner: Option<Owner>)
    requires GuardInv(st) && rid in st.runtimes
    requires owner.Some? ==> owner.value in st.minted
    requires OwnerDead(st.runtimes[rid].pid, Registered(st, st.runtimes[rid].pid), st.alive, owner)
    ensures Gone(st, owner)
  {
    if owner.Some? {
      forall other | other in st.runtimes ensures st.runtimes[other].owner != owner.value {
        var r := st.runtimes[other];
        assert r.owner in Registered(st, r.pid);
      }
    }
  }

  /** `st'` has some of the guards of `st`, all of live processes. */
  ghost predicate FewerGuards(st: State, st': State) {
    && st'.alive <= st.alive && st.minted <= st'.minted
    && forall rid :: rid in st'.runtimes ==>
         && rid in st.runtimes && st'.runtimes[rid].owner == st.runtimes[rid].owner
         && st'.runtimes[rid].pid == st.runtimes[rid].pid && st'.runtimes[rid].pid in st'.alive
  }

  lemma FewerGuardsSuffice(st: State, st': State)
    requires GuardInv(st) && FewerGuards(st, st')
    ensures GuardInv(st')
  {}

  lemma GuardStays(st: State, step: Step, rid: nat)
    requires GuardInv(st) && Enabled(st, step) && !step.Open? && !step.Reopen? && rid in Next(st, step).runtimes
    ensures rid in st.runtimes && Next(st, step).runtimes[rid].owner == st.runtimes[rid].owner
    ensures Next(st, step).runtimes[rid].pid == st.runtimes[rid].pid
    ensures Next(st, step).runtimes[rid].pid in Next(st, step).alive
  {}

  lemma NoNewGuards(st: State, step: Step)
    requires GuardInv(st) && Enabled(st, step) && !step.Open? && !step.Reopen? && !step.ProcessStarts?
    ensures FewerGuards(st, Next(st, step))
  {
    var st' := Next(st, step);
    forall rid | rid in st'.runtimes
      ensures rid in st.runtimes && st'.runtimes[rid].owner == st.runtimes[rid].owner
      ensures st'.runtimes[rid].pid == st.runtimes[rid].pid && st'.runtimes[rid].pid in st'.alive
    {
      GuardStays(st, step, rid);
    }
  }

  lemma OpenKeepsGuards(st: State, step: Step)
    requires GuardInv(st) && Enabled(st, step) && (step.Open? || step.Reopen?)
    ensures GuardInv(Next(st, step))
  {
    if step.Open? {
      OwnerIdNamesPid(step.pid, step.stamp, step.sequence);
    }
  }

  lemma StepKeepsGuards(st: State, step: Step)
    requires GuardInv(st) && Enabled(st, step)
    ensures GuardInv(Next(st, step))
  {
    if step.Open? || step.Reopen? {
      OpenKeepsGuards(st, step);
    } else if !step.ProcessStarts? {
      NoNewGuards(st, step);
      FewerGuardsSuffice(st, Next(st, step));
    }
  }

  lemma RowsStayMinted(st: State, step: Step)
    requires GuardInv(st) && MintedInv(st) && Enabled(st, step)
    ensures forall s :: s in Next(st, step).rows && Next(st, step).rows[s].Some? ==>
              Next(st, step).rows[s].value in Next(st, step).minted
  {
    var st' := Next(st, step);
    forall s | s in st'.rows && st'.rows[s].Some? ensures st'.rows[s].value in st'.minted {
      if s in st.rows && st.rows[s] == st'.rows[s] {
        assert st.rows[s].value in st.minted;
      }
    }
  }

  lemma StepKeepsMinted(st: State, step: Step)
    requires GuardInv(st) && MintedInv(st) && Enabled(st, step)
    ensures MintedInv(Next(st, step))
  {
    var st' := Next(st, step);
    RowsStayMinted(st, step);
    forall rid, c | rid in st'.runtimes && c in st'.runtimes[rid].read && c.1.Some?
      ensures c.1.value in st'.minted
    {
      if step.SweepReads? && step.rid == rid {
        assert c.0 in st.rows && c.1 == st.rows[c.0];
      } else if rid in st.runtimes {
        assert c in st.runtimes[rid].read;
      }
    }
  }

  /** An owner nobody registers stays so, unless its store is opened again. */
  lemma GoneStays(st: State, step: Step, owner: Option<Owner>)
    requires Gone(st, owner) && Enabled(st, step) && (step.Reopen? ==> owner != Some(step.owner))
    ensures Gone(Next(st, step), owner)
  {}

  lemma CandidatesAreSwept(st: State, step: Step, rid: nat, c: (SessionId, Option<Owner>))
    requires Enabled(st, step)
    requires rid in Next(st, step).runtimes && c in Next(st, step).runtimes[rid].candidates
    ensures rid in st.runtimes
    ensures c in st.runtimes[rid].candidates ||
            (step == SweepFilters(rid) && c in st.runtimes[rid].read &&
             OwnerDead(st.runtimes[rid].pid, Registered(st, st.runtimes[rid].pid), st.alive, c.1))
  {}

  lemma StepKeepsCandidates(st: State, step: Step)
    requires Inv(st) && Enabled(st, step) && Guarded(st, step)
    ensures CandidateInv(Next(st, step))
  {
    var st' := Next(st, step);
    forall rid, c | rid in st'.runtimes && c in st'.runtimes[rid].candidates ensures Gone(st', c.1) {
      CandidatesAreSwept(st, step, rid, c);
      if c !in st.runtimes[rid].candidates {
        DeadMeansGone(st, rid, c.1);
      }
      GoneStays(st, step, c.1);
    }
  }

  /** A landed claim takes its session from nobody: a holder's row would name an
      owner that is still registered. */
  lemma ClaimStealsNothing(st: State, step: Step, rid: nat, s: SessionId)
    requires CandidateInv(st) && RowInv(st) && Enabled(st, step) && step.Claim? && Owns(st, rid, s)
    ensures st.rows[s] == step.expected ==> s != step.session
  {
    assert Gone(st, step.expected);
  }

  /** A runtime comes to own a session by a landed claim or by recording it. */
  predicate Acquires(st: State, step: Step, rid: nat, s: SessionId) {
    || (step == Record(rid, s) && rid in st.runtimes)
    || (step.Claim? && step.rid == rid && step.session == s && rid in st.runtimes &&
        s in st.rows && st.rows[s] == step.expected)
  }

  lemma OwnsStep(st: State, step: Step, rid: nat, s: SessionId)
    requires Enabled(st, step) && Owns(Next(st, step), rid, s)
    ensures Owns(st, rid, s) || Acquires(st, step, rid, s)
    ensures Acquires(st, step, rid, s) ==> Next(st, step).rows == st.rows[s := Some(st.runtimes[rid].owner)]
    ensures rid in st.runtimes && Next(st, step).runtimes[rid].owner == st.runtimes[rid].owner
  {}

  /** Nobody else owned what a runtime acquires. */
  lemma AcquiredAlone(st: State, step: Step, rid: nat, s: SessionId, other: nat)
    requires CandidateInv(st) && RowInv(st) && Enabled(st, step) && Guarded(st, step)
    requires Acquires(st, step, rid, s) && Owns(st, other, s)
    ensures other == rid
  {
    if step.Claim? {
      ClaimStealsNothing(st, step, other, s);
    }
  }

  lemma RowsChange(st: State, step: Step, s: SessionId)
    requires Enabled(st, step) && s in st.rows
    ensures s in Next(st, step).rows
    ensures Next(st, step).rows[s] != st.rows[s] ==>
              (step.Record? || step.Claim?) && Acquires(st, step, step.rid, s)
  {}

  lemma StepKeepsRows(st: State, step: Step)
    requires CandidateInv(st) && RowInv(st) && Enabled(st, step) && Guarded(st, step)
    ensures RowInv(Next(st, step))
  {
    var st' := Next(st, step);
    forall rid, s | Owns(st', rid, s) ensures s in st'.rows && st'.rows[s] == Some(st'.runtimes[rid].owner) {
      OwnsStep(st, step, rid, s);
      if !Acquires(st, step, rid, s) {
        RowsChange(st, step, s);
        if st'.rows[s] != st.rows[s] {
          AcquiredAlone(st, step, step.rid, s, rid);
        }
      }
    }
  }

  lemma StepKeepsDisjoint(st: State, step: Step)
    requires Inv(st) && Enabled(st, step) && Guarded(st, step)
    ensures DisjointInv(Next(st, step))
  {
    var st' := Next(st, step);
    forall a, b, s | Owns(st', a, s) && Owns(st', b, s) ensures a == b {
      OwnsStep(st, step, a, s);
      OwnsStep(st, step, b, s);
      if Acquires(st, step, a, s) && Owns(st, b, s) {
        AcquiredAlone(st, step, a, s, b);
      } else if Acquires(st, step, b, s) && Owns(st, a, s) {
        AcquiredAlone(st, step, b, s, a);
      }
    }
  }

  lemma {:induction false} RunKeepsInv(st: State, steps: seq<Step>, st': State)
    requires Inv(st) && Reaches(st, steps, st') && GuardedRun(st, steps)
    ensures Inv(st')
    decreases |steps|
  {
    if steps != [] {
      StepKeepsGuards(st, steps[0]);
      StepKeepsMinted(st, steps[0]);
      StepKeepsCandidates(st, steps[0]);
      StepKeepsRows(st, steps[0]);
      StepKeepsDisjoint(st, steps[0]);
      RunKeepsInv(Next(st, steps[0]), steps[1..], st');
    }
  }

  /** A database as earlier processes left it: nobody is running. */
  predicate AtRest(st: State) {
    && st.alive == {} && st.runtimes == map[]
    && forall s :: s in st.rows && st.rows[s].Some? ==> st.rows[s].value in st.minted
  }

  /** Whatever the interleaving of opens (on stores of their own or shared ones), sweeps,
      claims, creates, attaches, closes, drops, crashes and process-id reuse: as long as
      creates and shared stores are guarded, no session is driven by two runtimes, and a
      driven session's row names its driver's registered owner. */
  lemma SingleDriver(st: State, steps: seq<Step>, st': State)
    requires AtRest(st) && Reaches(st, steps, st') && GuardedRun(st, steps)
    ensures forall a, b, s :: Drives(st', a, s) && Drives(st', b, s) ==> a == b
    ensures forall rid, s :: Drives(st', rid, s) ==>
              s in st'.rows && st'.rows[s] == Some(st'.runtimes[rid].owner)
  {
    RunKeepsInv(st, steps, st');
    assert forall rid, s :: Drives(st', rid, s) ==> Owns(st', rid, s);
  }

  predicate Drives(st: State, rid: nat, s: SessionId) {
    rid in st.runtimes && s in st.runtimes[rid].driven
  }

  /** What is orphaned gets resumed: from every state with a session whose row names no
      owner, or an owner id of another process that is gone, or one of this process that
      nobody holds any more, a run of any runtime ends with it driving the session. */
  lemma OrphanIsResumed(st: State, rid: nat, s: SessionId, pid: nat, stamp: nat, sequence: nat)
    returns (steps: seq<Step>, st': State)
    requires rid in st.runtimes && s in st.rows
    requires || st.rows[s] == None
             || (st.rows[s] == Some(OwnerId(pid, stamp, sequence)) && 0 < pid <= U32_MAX
                 && if pid == st.runtimes[rid].pid
                    then OwnerId(pid, stamp, sequence) !in Registered(st, pid) else pid !in st.alive)
    ensures Reaches(st, steps, st') && GuardedRun(st, steps)
    ensures Drives(st', rid, s) && st'.rows == st.rows[s := Some(st.runtimes[rid].owner)]
    ensures st'.alive == st.alive && st'.runtimes.Keys == st.runtimes.Keys
  {
    DeadExactly(st.runtimes[rid].pid, Registered(st, st.runtimes[rid].pid), st.alive, pid, stamp, sequence);
    var mid := SweepFinds(st, rid, s);
    st' := ClaimAndAttach(mid, rid, s, st.rows[s]);
    var sweep := [SweepReads(rid), SweepFilters(rid)];
    var adopt := [Claim(rid, s, st.rows[s]), Attach(rid, s, true)];
    ReachesTrans(st, sweep, mid, adopt, st');
    steps := sweep + adopt;
    PlainRunIsGuarded(st, steps);
  }

  /** In particular what a crash leaves behind: when the process of a session's driver dies,
      every runtime of another process can end up driving the session. */
  lemma CrashIsRecovered(st: State, driver: nat, rid: nat, s: SessionId, stamp: nat, sequence: nat)
    returns (steps: seq<Step>, st': State)
    requires GuardInv(st) && RowInv(st) && Drives(st, driver, s)
    requires var r := st.runtimes[driver]; r.owner == OwnerId(r.pid, stamp, sequence)
    requires rid in st.runtimes && st.runtimes[rid].pid != st.runtimes[driver].pid
    ensures Reaches(st, [ProcessDies(st.runtimes[driver].pid)] + steps, st') && Drives(st', rid, s)
    ensures driver !in st'.runtimes && st.runtimes[driver].pid !in st'.alive
  {
    var pid := st.runtimes[driver].pid;
    assert Owns(st, driver, s);
    var dead := Next(st, ProcessDies(pid));
    steps, st' := OrphanIsResumed(dead, rid, s, pid, stamp, sequence);
    assert ([ProcessDies(pid)] + steps)[1..] == steps;
  }

  /** The guard on creates is exact. A runtime records an id and attaches it: this leaves
      two drivers if and only if another runtime was driving the session. */
  lemma RecordDoubleDrives(st: State, a: nat, b: nat, s: SessionId)
    requires a != b && b in st.runtimes
    ensures var st' := Next(Next(st, Record(b, s)), Attach(b, s, true));
            && Reaches(st, [Record(b, s), Attach(b, s, true)], st') && Drives(st', b, s)
            && (Drives(st', a, s) <==> Drives(st, a, s))
  {
    ReachesTwo(st, Record(b, s), Attach(b, s, true));
  }

  /** From every state, then, an unguarded create can end with two drivers: a runtime
      that only holds the session attaches later, with the same end. */
  lemma UnguardedRecordDoubleDrives(st: State, b: nat, s: SessionId)
    returns (a: nat, steps: seq<Step>, st': State)
    requires Enabled(st, Record(b, s)) && !Guarded(st, Record(b, s))
    ensures Reaches(st, [Record(b, s)] + steps, st') && a != b && Drives(st', a, s) && Drives(st', b, s)
  {
    a :| a in st.runtimes && a != b && Owns(st, a, s);
    RecordDoubleDrives(st, a, b, s);
    var both := [Record(b, s), Attach(b, s, true)];
    var mid := Next(Next(st, Record(b, s)), Attach(b, s, true));
    if Drives(st, a, s) {
      steps, st' := [Attach(b, s, true)], mid;
      assert [Record(b, s)] + steps == both;
    } else {
      st' := Next(mid, Attach(a, s, true));
      assert Reaches(st', [], st') && Reaches(mid, [Attach(a, s, true)], st');
      ReachesTrans(st, both, mid, [Attach(a, s, true)], st');
      steps := [Attach(b, s, true), Attach(a, s, true)];
      assert [Record(b, s)] + steps == both + [Attach(a, s, true)];
    }
  }

  /** A runtime opens on a store of its own, which mints a fresh id. */
  lemma Opens(st: State, rid: nat, pid: nat, stamp: nat, sequence: nat) returns (st': State)
    requires Enabled(st, Open(rid, pid, stamp, sequence))
    ensures Reaches(st, [Open(rid, pid, stamp, sequence)], st') && st'.alive == st.alive && st'.rows == st.rows
    ensures st'.runtimes == st.runtimes[rid := Runtime(pid, OwnerId(pid, stamp, sequence), {}, {}, {}, {})]
    ensures st'.minted == st.minted + {OwnerId(pid, stamp, sequence)}
  {
    st' := Next(st, Open(rid, pid, stamp, sequence));
    assert Reaches(st', [], st');
  }

  /** A process starts on a database at rest and opens a first runtime. */
  lemma StartsAndOpens(st: State, pid: nat, stamp: nat) returns (steps: seq<Step>, st': State)
    requires AtRest(st) && 0 < pid <= U32_MAX && OwnerId(pid, stamp, 0) !in st.minted
    ensures Reaches(st, steps, st') && forall step | step in steps :: !step.Reopen?
    ensures st'.alive == {pid} && st'.rows == st.rows && st'.minted == st.minted + {OwnerId(pid, stamp, 0)}
    ensures st'.runtimes == map[0 := Runtime(pid, OwnerId(pid, stamp, 0), {}, {}, {}, {})]
  {
    var open := Open(0, pid, stamp, 0);
    ReachesTwo(st, ProcessStarts(pid), open);
    steps, st' := [ProcessStarts(pid), open], Next(Next(st, ProcessStarts(pid)), open);
  }

  /** Two runtimes of one process, each on a store of its own, whose adapters mint the
      same session id: from every database at rest both end up driving that session. */
  lemma RepeatedIdDoubleDrives(st: State, pid: nat, t0: nat, t1: nat, s: SessionId)
    returns (steps: seq<Step>, st': State)
    requires AtRest(st) && 0 < pid <= U32_MAX
    requires OwnerId(pid, t0, 0) !in st.minted && OwnerId(pid, t1, 1) !in st.minted
    ensures Reaches(st, steps, st') && Drives(st', 0, s) && Drives(st', 1, s)
    ensures forall step :: step in steps ==> !step.Reopen?
    ensures st'.runtimes[0].owner != st'.runtimes[1].owner
  {
    if OwnerId(pid, t0, 0) == OwnerId(pid, t1, 1) { OwnerIdInjective(pid, t0, 0, pid, t1, 1); }
    var starts, a := StartsAndOpens(st, pid, t0);
    var b := Opens(a, 1, pid, t1, 1);
    RecordDoubleDrives(b, 1, 0, s);
    var c := Next(Next(b, Record(0, s)), Attach(0, s, true));
    RecordDoubleDrives(c, 0, 1, s);
    st' := Next(Next(c, Record(1, s)), Attach(1, s, true));
    var first, second := [Record(0, s), Attach(0, s, true)], [Record(1, s), Attach(1, s, true)];
    ReachesTrans(b, first, c, second, st');
    var rest := [Open(1, pid, t1, 1)] + (first + second);
    ReachesTrans(a, [Open(1, pid, t1, 1)], b, first + second, st');
    ReachesTrans(st, starts, a, rest, st');
    steps := starts + rest;
  }

  /** A runtime takes a candidate through its claim to driving the session. */
  lemma ClaimAndAttach(st: State, rid: nat, s: SessionId, expected: Option<Owner>) returns (st': State)
    requires rid in st.runtimes && (s, expected) in st.runtimes[rid].candidates
    requires s in st.rows && st.rows[s] == expected
    ensures Reaches(st, [Claim(rid, s, expected), Attach(rid, s, true)], st')
    ensures Drives(st', rid, s) && st'.rows == st.rows[s := Some(st.runtimes[rid].owner)]
    ensures st'.alive == st.alive && st'.runtimes.Keys == st.runtimes.Keys
    ensures (s, expected) !in st'.runtimes[rid].candidates
    ensures forall other :: other != rid && other in st.runtimes ==>
              other in st'.runtimes && st'.runtimes[other] == st.runtimes[other]
  {
    ReachesTwo(st, Claim(rid, s, expected), Attach(rid, s, true));
    st' := Next(Next(st, Claim(rid, s, expected)), Attach(rid, s, true));
  }

  /** A sweep keeps an orphan of a dead owner as a candidate. */
  lemma SweepFinds(st: State, rid: nat, s: SessionId) returns (st': State)
    requires rid in st.runtimes && s in st.rows
    requires OwnerDead(st.runtimes[rid].pid, Registered(st, st.runtimes[rid].pid), st.alive, st.rows[s])
    ensures Reaches(st, [SweepReads(rid), SweepFilters(rid)], st')
    ensures st'.alive == st.alive && st'.rows == st.rows && st'.minted == st.minted
    ensures st'.runtimes.Keys == st.runtimes.Keys && (s, st.rows[s]) in st'.runtimes[rid].candidates
    ensures st'.runtimes[rid].owner == st.runtimes[rid].owner && st'.runtimes[rid].pid == st.runtimes[rid].pid
    ensures forall other :: other != rid && other in st.runtimes ==>
              other in st'.runtimes && st'.runtimes[other] == st.runtimes[other]
  {
    ReachesTwo(st, SweepReads(rid), SweepFilters(rid));
    var mid := Next(st, SweepReads(rid));
    assert (s, st.rows[s]) in mid.runtimes[rid].read;
    RegisteredSame(st, mid, st.runtimes[rid].pid);
    st' := Next(mid, SweepFilters(rid));
  }

  lemma RegisteredSame(st: State, st': State, pid: nat)
    requires st'.runtimes.Keys == st.runtimes.Keys
    requires forall rid :: rid in st.runtimes ==>
               st'.runtimes[rid].owner == st.runtimes[rid].owner && st'.runtimes[rid].pid == st.runtimes[rid].pid
    ensures Registered(st', pid) == Registered(st, pid)
  {}

  lemma {:induction false} PlainRunIsGuarded(st: State, steps: seq<Step>)
    requires forall step :: step in steps ==> !step.Record? && !step.Reopen?
    ensures GuardedRun(st, steps)
    decreases |steps|
  {
    if steps != [] && Enabled(st, steps[0]) {
      PlainRunIsGuarded(Next(st, steps[0]), steps[1..]);
    }
  }

  lemma {:induction false} GuardedTrans(st: State, first: seq<Step>, mid: State, rest: seq<Step>)
    requires Reaches(st, first, mid) && GuardedRun(st, first) && GuardedRun(mid, rest)
    ensures GuardedRun(st, first + rest)
    decreases |first|
  {
    if first == [] {
      assert first + rest == rest;
    } else {
      assert (first + rest)[1..] == first[1..] + rest;
      GuardedTrans(Next(st, first[0]), first[1..], mid, rest);
    }
  }

  /** A runtime gives one session up: its attach fails, and it closes it. */
  lemma GivesUp(st: State, rid: nat, s: SessionId) returns (steps: seq<Step>, st': State)
    requires rid in st.runtimes
    ensures Reaches(st, steps, st') && GuardedRun(st, steps) && !Owns(st', rid, s)
    ensures st' == st.(runtimes := st'.runtimes) && st'.runtimes.Keys == st.runtimes.Keys
    ensures forall a :: a in st.runtimes ==>
              && st'.runtimes[a].candidates == st.runtimes[a].candidates
              && st'.runtimes[a].owner == st.runtimes[a].owner
              && (a != rid ==> st'.runtimes[a] == st.runtimes[a])
  {
    var close := Close(rid, s);
    if s in st.runtimes[rid].held {
      ReachesTwo(st, Attach(rid, s, false), close);
      steps, st' := [Attach(rid, s, false), close], Next(Next(st, Attach(rid, s, false)), close);
    } else {
      steps, st' := [close], Next(st, close);
      assert Reaches(st', [], st');
    }
    PlainRunIsGuarded(st, steps);
  }

  /** The session is created again by the runtime on the shared store; the old claim,
      which expects that store's owner, lands as well. */
  lemma RecordThenClaim(st: State, second: nat, rid: nat, s: SessionId, reused: Owner)
    returns (steps: seq<Step>, st': State)
    requires second in st.runtimes && st.runtimes[second].owner == reused && rid != second
    requires rid in st.runtimes && (s, Some(reused)) in st.runtimes[rid].candidates
    requires forall other :: other in st.runtimes ==> !Owns(st, other, s)
    ensures Reaches(st, steps, st') && GuardedRun(st, steps)
    ensures Drives(st', second, s) && Drives(st', rid, s)
  {
    RecordDoubleDrives(st, rid, second, s);
    var first := [Record(second, s), Attach(second, s, true)];
    var mid := Next(Next(st, Record(second, s)), Attach(second, s, true));
    st' := ClaimAndAttach(mid, rid, s, Some(reused));
    var last := [Claim(rid, s, Some(reused)), Attach(rid, s, true)];
    ReachesTrans(st, first, mid, last, st');
    assert first[1..] == [Attach(second, s, true)];
    PlainRunIsGuarded(Next(st, Record(second, s)), first[1..]);
    PlainRunIsGuarded(mid, last);
    GuardedTrans(st, first, mid, last);
    steps := first + last;
  }

  /** The guard on shared stores is exact as well: when a pending claim expects the owner
      of a store that a second runtime opens, a run that is guarded from there on ends
      with two drivers. */
  lemma UnguardedReopenDoubleDrives(st: State, second: nat, pid: nat, reused: Owner)
    returns (rid: nat, s: SessionId, steps: seq<Step>, st': State)
    requires DisjointInv(st) && Enabled(st, Reopen(second, pid, reused)) && !Guarded(st, Reopen(second, pid, reused))
    ensures Reaches(Next(st, Reopen(second, pid, reused)), steps, st')
    ensures GuardedRun(Next(st, Reopen(second, pid, reused)), steps)
    ensures rid != second && Drives(st', second, s) && Drives(st', rid, s)
  {
    var claimer, c :| claimer in st.runtimes && c in st.runtimes[claimer].candidates && c.1 == Some(reused);
    rid, s := claimer, c.0;
    var shared := Next(st, Reopen(second, pid, reused));
    assert forall other :: Owns(shared, other, s) ==> Owns(st, other, s);
    var owner := rid;
    if other: nat :| Owns(shared, other, s) {
      owner := other;
    }
    var first, mid := GivesUp(shared, owner, s);
    assert forall other :: Owns(mid, other, s) ==> Owns(shared, other, s);
    var last;
    last, st' := RecordThenClaim(mid, second, rid, s, reused);
    ReachesTrans(shared, first, mid, last, st');
    GuardedTrans(shared, first, mid, last);
    steps := first + last;
  }

  /** The same without any id repeating. With a sweep of `rid` still holding a candidate
      expecting `reused`, a second runtime shared on the store that minted `reused` adopts
      the session back to that id by its own sweep, and the old claim then lands too. */
  lemma ReusedOwnerDoubleDrives(st: State, rid: nat, second: nat, pid: nat, s: SessionId, reused: Owner)
    returns (steps: seq<Step>, st': State)
    requires rid in st.runtimes && (s, Some(reused)) in st.runtimes[rid].candidates
    requires Enabled(st, Reopen(second, pid, reused)) && second != rid && s in st.rows
    requires OwnerDead(pid, Registered(st, pid) + {reused}, st.alive, st.rows[s])
    ensures Reaches(Next(st, Reopen(second, pid, reused)), steps, st')
    ensures Drives(st', second, s) && Drives(st', rid, s)
  {
    var st1 := Next(st, Reopen(second, pid, reused));
    assert Registered(st1, pid) <= Registered(st, pid) + {reused} by {
      forall id | id in Registered(st1, pid) ensures id in Registered(st, pid) + {reused} {
        var other :| other in st1.runtimes && st1.runtimes[other].pid == pid && st1.runtimes[other].owner == id;
        assert other != second ==> st.runtimes[other].owner in Registered(st, pid);
      }
    }
    var st2 := SweepFinds(st1, second, s);
    var st3 := ClaimAndAttach(st2, second, s, st.rows[s]);
    st' := ClaimAndAttach(st3, rid, s, Some(reused));
    var third := [Claim(rid, s, Some(reused)), Attach(rid, s, true)];
    var later := [Claim(second, s, st.rows[s]), Attach(second, s, true)] + third;
    ReachesTrans(st2, [Claim(second, s, st.rows[s]), Attach(second, s, true)], st3, third, st');
    ReachesTrans(st1, [SweepReads(second), SweepFilters(second)], st2, later, st');
    steps := [SweepReads(second), SweepFilters(second)] + later;
  }

  /** A runtime lets go of its sessions and then of its registration. */
  lemma Drops(st: State, rid: nat) returns (st': State)
    requires rid in st.runtimes
    ensures Reaches(st, [DropSessions(rid), DropGuard(rid)], st')
    ensures st' == st.(runtimes := st.runtimes - {rid})
  {
    ReachesTwo(st, DropSessions(rid), DropGuard(rid));
    st' := Next(Next(st, DropSessions(rid)), DropGuard(rid));
  }

  /** A runtime takes a session over and is gone again; only the row remembers it. */
  lemma PassesThrough(st: State, rid: nat, s: SessionId, step: Step) returns (steps: seq<Step>, st': State)
    requires rid in st.runtimes && Enabled(st, step)
    requires step == Record(rid, s) ||
             (step.Claim? && step.rid == rid && step.session == s && s in st.rows && st.rows[s] == step.expected)
    ensures Reaches(st, steps, st') && forall x | x in steps :: !x.Reopen?
    ensures st' == st.(rows := st.rows[s := Some(st.runtimes[rid].owner)], runtimes := st.runtimes - {rid})
  {
    var st1 := Next(st, step);
    st' := Drops(st1, rid);
    assert st1.runtimes - {rid} == st.runtimes - {rid};
    var drop := [DropSessions(rid), DropGuard(rid)];
    assert ([step] + drop)[1..] == drop;
    steps := [step] + drop;
  }

  /** The state such a trace needs is reachable from any database at rest: `0` creates
      the session and exits, `1` sweeps it, `2` adopts it and exits, all in one process;
      a fourth runtime on the store of `0` then drives it together with `1`. */
  lemma DoubleDriveIsReachable(st: State, pid: nat, t0: nat, t1: nat, t2: nat, s: SessionId)
    returns (steps: seq<Step>, st': State)
    requires AtRest(st) && 0 < pid <= U32_MAX
    requires OwnerId(pid, t0, 0) !in st.minted && OwnerId(pid, t1, 1) !in st.minted && OwnerId(pid, t2, 2) !in st.minted
    ensures Reaches(st, steps, st') && Drives(st', 3, s) && Drives(st', 1, s)
  {
    var first, st1 := OrphanIsSwept(st, pid, t0, t1, t2, s);
    var second, st2 := OrphanIsAdopted(st1, pid, t0, t1, t2, s);
    OwnerIdNamesPid(pid, t0, 0);
    OwnerIdNamesPid(pid, t2, 2);
    DistinctIds(pid, t0, t1, t2);
    var reused := OwnerId(pid, t0, 0);
    assert Registered(st2, pid) == {OwnerId(pid, t1, 1)};
    var reopen := Reopen(3, pid, reused);
    var last;
    last, st' := ReusedOwnerDoubleDrives(st2, 1, 3, pid, s, reused);
    assert ([reopen] + last)[1..] == last;
    ReachesTrans(st1, second, st2, [reopen] + last, st');
    ReachesTrans(st, first, st1, second + ([reopen] + last), st');
    steps := first + (second + ([reopen] + last));
  }

  lemma DistinctIds(pid: nat, t0: nat, t1: nat, t2: nat)
    ensures OwnerId(pid, t0, 0) != OwnerId(pid, t1, 1) && OwnerId(pid, t0, 0) != OwnerId(pid, t2, 2)
    ensures OwnerId(pid, t1, 1) != OwnerId(pid, t2, 2)
  {
    if OwnerId(pid, t0, 0) == OwnerId(pid, t1, 1) { OwnerIdInjective(pid, t0, 0, pid, t1, 1); }
    if OwnerId(pid, t0, 0) == OwnerId(pid, t2, 2) { OwnerIdInjective(pid, t0, 0, pid, t2, 2); }
    if OwnerId(pid, t1, 1) == OwnerId(pid, t2, 2) { OwnerIdInjective(pid, t1, 1, pid, t2, 2); }
  }

  lemma AloneRegistered(st: State, rid: nat)
    requires st.runtimes.Keys == {rid}
    ensures Registered(st, st.runtimes[rid].pid) == {st.runtimes[rid].owner}
  {}

  /** A runtime opens where none is left and sweeps an orphan of its own process. */
  lemma OpensAndSweeps(st: State, rid: nat, pid: nat, stamp: nat, sequence: nat, s: SessionId)
    returns (steps: seq<Step>, st': State)
    requires Enabled(st, Open(rid, pid, stamp, sequence)) && st.runtimes == map[] && s in st.rows
    requires st.rows[s].Some? && OwnerPid(st.rows[s].value) == Some(pid)
    requires st.rows[s].value != OwnerId(pid, stamp, sequence)
    ensures Reaches(st, steps, st') && st'.alive == st.alive && st'.rows == st.rows && st'.runtimes.Keys == {rid}
    ensures st'.minted == st.minted + {OwnerId(pid, stamp, sequence)}
    ensures st'.runtimes[rid].pid == pid && st'.runtimes[rid].owner == OwnerId(pid, stamp, sequence)
    ensures (s, st.rows[s]) in st'.runtimes[rid].candidates
  {
    var a := Opens(st, rid, pid, stamp, sequence);
    AloneRegistered(a, rid);
    st' := SweepFinds(a, rid, s);
    steps := [Open(rid, pid, stamp, sequence)] + [SweepReads(rid), SweepFilters(rid)];
    ReachesTrans(st, [Open(rid, pid, stamp, sequence)], a, [SweepReads(rid), SweepFilters(rid)], st');
  }

  /** The first half: `0` leaves an orphan behind and `1` keeps it as a candidate. */
  lemma OrphanIsSwept(st: State, pid: nat, t0: nat, t1: nat, t2: nat, s: SessionId)
    returns (steps: seq<Step>, st': State)
    requires AtRest(st) && 0 < pid <= U32_MAX
    requires OwnerId(pid, t0, 0) !in st.minted && OwnerId(pid, t1, 1) !in st.minted && OwnerId(pid, t2, 2) !in st.minted
    ensures Reaches(st, steps, st')
    ensures st'.alive == {pid} && st'.runtimes.Keys == {1} && s in st'.rows
    ensures st'.rows[s] == Some(OwnerId(pid, t0, 0)) && OwnerId(pid, t0, 0) in st'.minted
    ensures st'.runtimes[1].pid == pid && st'.runtimes[1].owner == OwnerId(pid, t1, 1)
    ensures (s, Some(OwnerId(pid, t0, 0))) in st'.runtimes[1].candidates && OwnerId(pid, t2, 2) !in st'.minted
  {
    DistinctIds(pid, t0, t1, t2);
    OwnerIdNamesPid(pid, t0, 0);
    var starts, a := StartsAndOpens(st, pid, t0);
    var pass, b := PassesThrough(a, 0, s, Record(0, s));
    assert b.runtimes == map[];
    var sweep;
    sweep, st' := OpensAndSweeps(b, 1, pid, t1, 1, s);
    ReachesTrans(a, pass, b, sweep, st');
    ReachesTrans(st, starts, a, pass + sweep, st');
    steps := starts + (pass + sweep);
  }

  /** The second half: `2` adopts the orphan and exits; `1` knows nothing of it. */
  lemma OrphanIsAdopted(st: State, pid: nat, t0: nat, t1: nat, t2: nat, s: SessionId)
    returns (steps: seq<Step>, st': State)
    requires st.alive == {pid} && 0 < pid <= U32_MAX && st.runtimes.Keys == {1} && s in st.rows
    requires OwnerId(pid, t2, 2) !in st.minted
    requires st.rows[s] == Some(OwnerId(pid, t0, 0)) && st.runtimes[1].pid == pid
    requires st.runtimes[1].owner == OwnerId(pid, t1, 1)
    ensures Reaches(st, steps, st') && st'.alive == st.alive && st'.runtimes == st.runtimes
    ensures s in st'.rows && st'.rows[s] == Some(OwnerId(pid, t2, 2)) && st.minted <= st'.minted
  {
    DistinctIds(pid, t0, t1, t2);
    OwnerIdNamesPid(pid, t0, 0);
    var a := Opens(st, 2, pid, t2, 2);
    assert OwnerId(pid, t0, 0) !in Registered(a, pid);
    var b := SweepFinds(a, 2, s);
    var expected := Some(OwnerId(pid, t0, 0));
    var pass;
    pass, st' := PassesThrough(b, 2, s, Claim(2, s, expected));
    assert st'.runtimes.Keys == {1} && st'.runtimes[1] == st.runtimes[1];
    assert st'.runtimes == st.runtimes;
    var sweep := [SweepReads(2), SweepFilters(2)];
    ReachesTrans(a, sweep, b, pass, st');
    ReachesTrans(st, [Open(2, pid, t2, 2)], a, sweep + pass, st');
    steps := [Open(2, pid, t2, 2)] + (sweep + pass);
  }

  lemma ReachesTwo(st: State, a: Step, b: Step)
    requires Enabled(st, a) && Enabled(Next(st, a), b)
    ensures Reaches(st, [a, b], Next(Next(st, a), b))
  {
    assert [a, b][1..] == [b] && [b][1..] == [];
    assert Reaches(Next(Next(st, a), b), [], Next(Next(st, a), b));
    assert Reaches(Next(st, a), [b], Next(Next(st, a), b));
  }

  lemma {:induction false} ReachesTrans(st: State, first: seq<Step>, mid: State, rest: seq<Step>, st': State)
    requires Reaches(st, first, mid) && Reaches(mid, rest, st')
    ensures Reaches(st, first + rest, st')
    decreases |first|
  {
    if first == [] {
      assert first + rest == rest;
    } else {
      assert (first + rest)[1..] == first[1..] + rest;
      ReachesTrans(Next(st, first[0]), first[1..], mid, rest, st');
    }
  }
}
