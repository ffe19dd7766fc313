/** Setup as a protocol of atomic file steps: one run holds the lock, it can stop
    after any step, and the user can edit the host's config between any two. */
module SetupProtocol {
  import opened Prelude
  import opened AgentSetup

  /** Why a run is looking at the journal: before planning, or after a replacement. */
  datatype Task = Before(goal: Goal, remove: bool) | After(entry: Entry, action: Action)

  /** Where the run holding the lock stands; plans carry the config they were made on. */
  datatype Phase =
    | Idle
    | Recovering(task: Task)
    | Adopting(task: Task, adopted: Entry)
    | Clearing(task: Task)
    | Planning(goal: Goal, remove: bool)
    | BackingUp(plan: SetupPlan, base: Option<Contents>)
    | Journaling(plan: SetupPlan, base: Option<Contents>)
    | Replacing(plan: SetupPlan, base: Option<Contents>)
    | Forgetting(done: Action)

  /** The files, the run and what the last one reported, with the history the theorems
      speak of: entry values AI Fuel journaled, the journaled targets with their
      entries, entry values it wrote into the config, whole configs that came from the
      user, and the config and entry of its last replacement while the user has not
      touched the file since. */
  datatype State = State(
    files: Files, phase: Phase, report: Option<Result<Action, Error>>,
    claimed: set<Entry>, targets: set<(Digest, Entry)>, written: set<Entry>, typed: set<Contents>,
    ours: Option<(Contents, Entry)>)

  datatype Step = UserEdits(config: Option<Contents>) | Stop | Begin(goal: Goal, remove: bool) | Advance

  function Entries(host: Host, config: Option<Contents>): set<Entry> {
    match host.current(config)
    case Ok(Some(e)) => {e}
    case Ok(None) => {}
    case Err(_) => {}
  }

  function Reported(st: State, report: Result<Action, Error>): State { st.(phase := Idle, report := Some(report)) }

  /** Go on to planning, or finish the commit by checking that the receipt owns it. */
  function Resume(host: Host, st: State, task: Task): State {
    match task
    case Before(goal, remove) => st.(phase := Planning(goal, remove))
    case After(entry, action) =>
      match ReadReceipt(host, st.files)
      case Err(e) => Reported(st, Err(e))
      case Ok(receipt) =>
        Reported(st, if receipt.Some? && receipt.value.entry == entry then Ok(action) else Err(RecoveryConflict))
  }

  function Recover(host: Host, st: State, task: Task): State {
    match Decide(host, st.files)
    case Err(e) => Reported(st, Err(e))
    case Ok(Proceed) => Resume(host, st, task)
    case Ok(Adopt(e)) => st.(phase := Adopting(task, e))
    case Ok(Clear) => st.(phase := Clearing(task))
  }

  function MakePlan(host: Host, st: State, goal: Goal, remove: bool): State {
    match Plan(host, goal, remove, st.files)
    case Err(e) => Reported(st, Err(e))
    case Ok(AlreadyConfigured) => Reported(st, Ok(Configured))
    case Ok(AlreadyAbsent) => Reported(st, Ok(Missing))
    case Ok(ClearStaleReceipt) => st.(phase := Forgetting(StaleReceiptCleared))
    case Ok(Apply(c, e)) => st.(phase := BackingUp(Apply(c, e), st.files.config))
    case Ok(Update(c, e)) => st.(phase := BackingUp(Update(c, e), st.files.config))
    case Ok(Remove(c)) => st.(phase := BackingUp(Remove(c), st.files.config))
  }

  predicate Writes(plan: SetupPlan) { plan.Apply? || plan.Update? }

  function WriteBackup(st: State, plan: SetupPlan, base: Option<Contents>): State {
    st.(files := if base.Some? then st.files.(backup := base) else st.files,
        phase := if Writes(plan) then Journaling(plan, base) else Replacing(plan, base))
  }

  function WriteJournal(host: Host, st: State, plan: SetupPlan, base: Option<Contents>): State {
    if !Writes(plan) || st.files.journal != Absent then Reported(st, Err(NeedsRecovery))
    else
      var j := NewJournal(host, st.files.(config := base), plan.config, plan.entry);
      st.(files := st.files.(journal := Present(j)), claimed := st.claimed + {plan.entry},
          targets := st.targets + {(j.target, plan.entry)}, phase := Replacing(plan, base))
  }

  /** Replace the config if it still is the one the plan was made on. */
  function Replace(st: State, plan: SetupPlan, base: Option<Contents>): State {
    if st.files.config != base then Reported(st, Err(ConfigChanged))
    else if Writes(plan) then
      st.(files := st.files.(config := Some(plan.config)),
          phase := Recovering(After(plan.entry, if plan.Apply? then Applied else Updated)),
          written := st.written + {plan.entry}, ours := Some((plan.config, plan.entry)))
    else if plan.Remove? then
      st.(files := st.files.(config := Some(plan.config)), phase := Forgetting(Removed), ours := None)
    else Reported(st, Err(ConfigChanged))
  }

  function Advanced(host: Host, st: State): State {
    match st.phase
    case Idle => st
    case Recovering(task) => Recover(host, st, task)
    case Adopting(task, e) =>
      st.(files := st.files.(receipt := Present(Receipt(host.identity, e))), phase := Clearing(task))
    case Clearing(task) => Resume(host, st.(files := st.files.(journal := Absent)), task)
    case Planning(goal, remove) => MakePlan(host, st, goal, remove)
    case BackingUp(plan, base) => WriteBackup(st, plan, base)
    case Journaling(plan, base) => WriteJournal(host, st, plan, base)
    case Replacing(plan, base) => Replace(st, plan, base)
    case Forgetting(action) => Reported(st.(files := st.files.(receipt := Absent)), Ok(action))
  }

  function Typed(config: Option<Contents>): set<Contents> { if config.Some? then {config.value} else {} }

  function Next(host: Host, st: State, step: Step): State {
    match step
    case UserEdits(c) => st.(files := st.files.(config := c), typed := st.typed + Typed(c), ours := None)
    case Stop => st.(phase := Idle)
    case Begin(goal, remove) =>
      if st.phase.Idle? then st.(phase := Recovering(Before(goal, remove)), report := None) else st
    case Advance => Advanced(host, st)
  }

  function Steps(host: Host, st: State, steps: seq<Step>): State
    decreases |steps|
  {
    if steps == [] then st else Steps(host, Next(host, st, steps[0]), steps[1..])
  }

  /** Before AI Fuel ever ran: any config, any leftover backup, no state of its own
      that it can read. */
  function Start(f: Files): State {
    State(f, Idle, None, {}, {}, {}, Typed(f.config), None)
  }

  predicate Untouched(f: Files) { !f.receipt.Present? && f.journal == Absent }

  // ----- The invariant

  predicate Owns(host: Host, f: Files, e: Entry) { f.receipt == Present(Receipt(host.identity, e)) }

  predicate Compatible(receipt: Stored<Receipt>, j: Journal) {
    receipt.Absent? || (receipt.Present? && (receipt.value.entry == j.entry || j.previous == Some(receipt.value.entry)))
  }

  /** A journal as `WriteJournal` leaves it: readable, for a target that was seen to
      hold its entry, over a saved base. */
  ghost predicate JournalSound(host: Host, f: Files, j: Journal) {
    && j.identity == host.identity && j.hasBackup == j.base.Some?
    && (j.base.Some? ==> DigestOf(host, f.backup) == j.base)
    && exists t :: j.target == host.digest(t) && host.current(Some(t)) == Ok(Some(j.entry))
  }

  /** The journal alone is enough to take ownership of `e` in config `c`. */
  predicate JournalClaims(host: Host, f: Files, c: Contents, e: Entry) {
    && f.journal.Present? && f.journal.value.target == host.digest(c) && f.journal.value.entry == e
    && ReadReceipt(host, f).Ok? && Compatible(f.receipt, f.journal.value)
  }

  /** What a plan made on `base` may rely on: the entry there is absent or receipted. */
  predicate Licensed(host: Host, f: Files, plan: SetupPlan, base: Option<Contents>) {
    && host.current(base).Ok? && ReadReceipt(host, f).Ok?
    && (host.current(base).value.Some? ==> Owns(host, f, host.current(base).value.value))
    && (Writes(plan) || plan.Remove?)
    && host.current(Some(plan.config)) == Ok(if Writes(plan) then Some(plan.entry) else None)
  }

  predicate Saved(f: Files, base: Option<Contents>) { base.Some? ==> f.backup == base }

  /** Where an entry AI Fuel calls its own came from: it wrote it, or the user typed a
      whole config with the digest of a target journaled for that entry. */
  ghost predicate Sourced(host: Host, st: State, e: Entry) {
    e in st.written ||
    exists c :: c in st.typed && (host.digest(c), e) in st.targets && host.current(Some(c)) == Ok(Some(e))
  }

  ghost predicate PhaseSound(host: Host, st: State) {
    match st.phase
    case Idle => true
    case Recovering(_) => true
    case Adopting(_, e) =>
      e in st.claimed && Sourced(host, st, e) && st.files.journal.Present? && (st.ours.Some? ==> st.ours.value.1 == e)
    case Clearing(_) => st.files.journal.Present? && (st.ours.Some? ==> Owns(host, st.files, st.ours.value.1))
    case Planning(_, _) => st.files.journal == Absent
    case BackingUp(plan, base) => st.files.journal == Absent && Licensed(host, st.files, plan, base)
    case Journaling(plan, base) =>
      && st.files.journal == Absent && Licensed(host, st.files, plan, base) && Writes(plan) && Saved(st.files, base)
    case Replacing(plan, base) =>
      && Licensed(host, st.files, plan, base)
      && (if Writes(plan) then JournalClaims(host, st.files, plan.config, plan.entry) else st.files.journal == Absent)
    case Forgetting(_) => st.files.journal == Absent && st.ours == None
  }

  ghost predicate OursSound(host: Host, st: State) {
    st.ours.Some? ==>
      var (c, e) := st.ours.value;
      && st.files.config == Some(c) && host.current(Some(c)) == Ok(Some(e))
      && (Owns(host, st.files, e) || JournalClaims(host, st.files, c, e))
  }

  ghost predicate Inv(host: Host, st: State) {
    && (st.files.receipt.Present? ==>
          st.files.receipt.value.entry in st.claimed && Sourced(host, st, st.files.receipt.value.entry))
    && (st.files.journal.Present? ==>
          && st.files.journal.value.entry in st.claimed
          && (st.files.journal.value.target, st.files.journal.value.entry) in st.targets)
    && !st.files.journal.Unreadable?
    && (st.files.journal.Present? ==> JournalSound(host, st.files, st.files.journal.value))
    && (st.files.config.Some? ==> st.files.config.value in st.typed || Entries(host, st.files.config) <= st.written)
    && PhaseSound(host, st) && OursSound(host, st)
  }

  /** Recovery adopts only what the journal names and the config holds. */
  lemma AdoptionIsSourced(host: Host, st: State)
    requires Inv(host, st) && Decide(host, st.files).Ok? && Decide(host, st.files).value.Adopt?
    ensures var e := Decide(host, st.files).value.entry;
            e in st.claimed && Sourced(host, st, e) && (st.ours.Some? ==> st.ours.value.1 == e)
  {
    var c, e := st.files.config.value, Decide(host, st.files).value.entry;
    assert (host.digest(c), e) in st.targets && host.current(Some(c)) == Ok(Some(e));
  }

  /** Recovery drops a journal only where the receipt already owns what was written. */
  lemma ClearingIsOwned(host: Host, st: State)
    requires Inv(host, st) && Decide(host, st.files) == Ok(Clear)
    ensures st.ours.Some? ==> Owns(host, st.files, st.ours.value.1)
  {}

  lemma RecoverKeepsInv(host: Host, st: State, task: Task)
    requires Inv(host, st) && st.phase == Recovering(task)
    ensures Inv(host, Recover(host, st, task))
  {
    match Decide(host, st.files) {
      case Err(_) =>
      case Ok(Proceed) =>
      case Ok(Adopt(_)) => AdoptionIsSourced(host, st);
      case Ok(Clear) => ClearingIsOwned(host, st);
    }
  }

  lemma PlanIsLicensed(host: Host, st: State, goal: Goal, remove: bool)
    requires Inv(host, st) && st.phase == Planning(goal, remove)
    ensures Inv(host, MakePlan(host, st, goal, remove))
  {}

  lemma JournalKeepsInv(host: Host, st: State, plan: SetupPlan, base: Option<Contents>)
    requires Inv(host, st) && st.phase == Journaling(plan, base)
    ensures Inv(host, WriteJournal(host, st, plan, base))
  {
    var st' := WriteJournal(host, st, plan, base);
    assert st'.files.journal.value.target == host.digest(plan.config);
  }

  lemma ReplaceKeepsInv(host: Host, st: State, plan: SetupPlan, base: Option<Contents>)
    requires Inv(host, st) && st.phase == Replacing(plan, base)
    ensures Inv(host, Replace(st, plan, base))
  {}

  lemma ReceiptStepKeepsInv(host: Host, st: State)
    requires Inv(host, st) && (st.phase.Adopting? || st.phase.Clearing? || st.phase.Forgetting?)
    ensures Inv(host, Advanced(host, st))
  {}

  lemma BackupKeepsInv(host: Host, st: State, plan: SetupPlan, base: Option<Contents>)
    requires Inv(host, st) && st.phase == BackingUp(plan, base)
    ensures Inv(host, WriteBackup(st, plan, base))
  {}

  lemma OutsideKeepsInv(host: Host, st: State, step: Step)
    requires Inv(host, st) && !step.Advance?
    ensures Inv(host, Next(host, st, step))
  {}

  lemma StepKeepsInv(host: Host, st: State, step: Step)
    requires Inv(host, st)
    ensures Inv(host, Next(host, st, step))
  {
    if !step.Advance? {
      OutsideKeepsInv(host, st, step);
    } else {
      match st.phase {
        case Idle =>
        case Recovering(task) => RecoverKeepsInv(host, st, task);
        case Adopting(_, _) => ReceiptStepKeepsInv(host, st);
        case Clearing(_) => ReceiptStepKeepsInv(host, st);
        case Planning(goal, remove) => PlanIsLicensed(host, st, goal, remove);
        case BackingUp(plan, base) => BackupKeepsInv(host, st, plan, base);
        case Journaling(plan, base) => JournalKeepsInv(host, st, plan, base);
        case Replacing(plan, base) => ReplaceKeepsInv(host, st, plan, base);
        case Forgetting(_) => ReceiptStepKeepsInv(host, st);
      }
    }
  }

  lemma {:induction false} RunKeepsInv(host: Host, st: State, steps: seq<Step>)
    requires Inv(host, st)
    ensures Inv(host, Steps(host, st, steps))
    decreases |steps|
  {
    if steps != [] {
      StepKeepsInv(host, st, steps[0]);
      RunKeepsInv(host, Next(host, st, steps[0]), steps[1..]);
    }
  }

  // ----- The theorems

  /** Over every run of setups, removals, crashes and user edits: when AI Fuel
      changes the config, the entry it overwrites or removes is absent, or is a value it
      had journaled as its own and either wrote itself or found in a config the user had
      typed with the very digest journaled for that entry. The receipt only ever holds
      such values. */
  lemma OnlyClaimedEntriesAreReplaced(host: Host, f: Files, steps: seq<Step>)
    requires Untouched(f)
    ensures var st := Steps(host, Start(f), steps);
            && (st.files.receipt.Present? ==>
                  st.files.receipt.value.entry in st.claimed && Sourced(host, st, st.files.receipt.value.entry))
            && (Next(host, st, Advance).files.config != st.files.config ==>
                  && host.current(st.files.config).Ok?
                  && forall e | e in Entries(host, st.files.config) :: e in st.claimed && Sourced(host, st, e))
  {
    RunKeepsInv(host, Start(f), steps);
  }

  /** A journal still pending for another entry whose target has the digest of `c`. */
  predicate Disputed(host: Host, f: Files, c: Contents, e: Entry) {
    f.journal.Present? && f.journal.value.entry != e && f.journal.value.target == host.digest(c)
  }

  /** Once AI Fuel has replaced the config, no crash loses it: until the user touches
      the file, the receipt or the journal claims exactly the entry that was written;
      and recovery from that point succeeds and leaves a receipt owning it if and only
      if no pending journal names another entry for the digest of that config. */
  lemma OwnershipSurvivesCrashes(host: Host, f: Files, steps: seq<Step>)
    requires Untouched(f)
    ensures var st := Steps(host, Start(f), steps);
            st.ours.Some? ==>
              var (c, e) := st.ours.value;
              && st.files.config == Some(c)
              && (Owns(host, st.files, e) || JournalClaims(host, st.files, c, e))
              && (!Disputed(host, st.files, c, e) <==>
                    && Decide(host, st.files).Ok?
                    && Owns(host, Recovered(host, st.files, Decide(host, st.files).value), e))
  {
    RunKeepsInv(host, Start(f), steps);
  }

  lemma {:induction false} StepsConcat(host: Host, st: State, a: seq<Step>, b: seq<Step>)
    ensures Steps(host, st, a + b) == Steps(host, Steps(host, st, a), b)
    decreases |a|
  {
    if a == [] {
      assert a + b == b;
    } else {
      assert (a + b)[1..] == a[1..] + b;
      StepsConcat(host, Next(host, st, a[0]), a[1..], b);
    }
  }

  /** A setup of `goal` on a config without an entry, stopped after its journal. */
  lemma InterruptedApply(host: Host, goal: Goal, f: Files, target: Contents, entry: Entry) returns (steps: seq<Step>)
    requires f.receipt == Absent && f.journal == Absent
    requires Plan(host, goal, false, f) == Ok(Apply(target, entry))
    ensures Steps(host, Start(f), steps) ==
            State(BackedUp(f).(journal := Present(NewJournal(host, f, target, entry))), Idle, None, {entry},
                  {(host.digest(target), entry)}, {}, Typed(f.config), None)
  {
    var s0 := Start(f);
    var s1 := Next(host, s0, Begin(goal, false));
    var s2 := Next(host, s1, Advance);
    assert s2.phase == Planning(goal, false);
    var s3 := Next(host, s2, Advance);
    assert s3.phase == BackingUp(Apply(target, entry), f.config);
    var s4 := Next(host, s3, Advance);
    var s5 := Next(host, s4, Advance);
    assert s5.claimed == {entry};
    var s6 := Next(host, s5, Stop);
    steps := [Begin(goal, false), Advance, Advance, Advance, Advance, Stop];
    assert Steps(host, s5, [Stop]) == s6;
    assert Steps(host, s4, [Advance, Stop]) == s6 by { assert [Advance, Stop][1..] == [Stop]; }
    assert Steps(host, s3, [Advance, Advance, Stop]) == s6 by {
      assert [Advance, Advance, Stop][1..] == [Advance, Stop];
    }
    assert Steps(host, s2, steps[2..]) == s6 by { assert steps[2..][1..] == [Advance, Advance, Stop]; }
    assert Steps(host, s1, steps[1..]) == s6 by { assert steps[1..][1..] == steps[2..]; }
  }

  lemma StepsSnoc(host: Host, st: State, steps: seq<Step>, step: Step)
    ensures Steps(host, st, steps + [step]) == Next(host, Steps(host, st, steps), step)
  {
    StepsConcat(host, st, steps, [step]);
    assert [step][1..] == [];
  }

  /** The value a run overwrites need not have been written by it: after a crash
      between journal and replacement, a user who types the planned file by hand has
      it adopted, and the next removal takes the typed entry out. */
  lemma TypedTwinIsRemoved(host: Host, goal: Goal, f: Files, target: Contents, entry: Entry, left: Contents)
      returns (steps: seq<Step>)
    requires f.receipt == Absent && f.journal == Absent
    requires Plan(host, goal, false, f) == Ok(Apply(target, entry))
    requires host.remove(target) == Ok(left) && host.current(Some(left)) == Ok(None)
    ensures var st := Steps(host, Start(f), steps);
            && st.files.config == Some(target) && st.written == {} && target in st.typed
            && Next(host, st, Advance).files.config == Some(left)
  {
    PlannedEntryIsVerified(host, goal, f);
    steps := InterruptedApply(host, goal, f, target, entry);
    var s0 := Start(f);
    StepsSnoc(host, s0, steps, UserEdits(Some(target)));
    steps := steps + [UserEdits(Some(target))];
    StepsSnoc(host, s0, steps, Begin(goal, true));
    steps := steps + [Begin(goal, true)];
    var s3 := Steps(host, s0, steps);
    assert Decide(host, s3.files) == Ok(Adopt(entry));
    StepsSnoc(host, s0, steps, Advance);
    steps := steps + [Advance];
    StepsSnoc(host, s0, steps, Advance);
    steps := steps + [Advance];
    StepsSnoc(host, s0, steps, Advance);
    steps := steps + [Advance];
    var s6 := Steps(host, s0, steps);
    assert s6.phase == Planning(goal, true) && Owns(host, s6.files, entry);
    assert Plan(host, goal, true, s6.files) == Ok(Remove(left));
    StepsSnoc(host, s0, steps, Advance);
    steps := steps + [Advance];
    StepsSnoc(host, s0, steps, Advance);
    steps := steps + [Advance];
    assert Steps(host, s0, steps).phase == Replacing(Remove(left), Some(target));
  }

  // ----- An undisturbed run of steps is the run of the facade

  function Settle(host: Host, st: State, n: nat): State
    decreases n
  {
    if n == 0 then st else Settle(host, Advanced(host, st), n - 1)
  }

  lemma {:induction false} IdleSettles(host: Host, st: State, n: nat)
    requires st.phase.Idle?
    ensures Settle(host, st, n) == st
  {
    if n > 0 {
      IdleSettles(host, st, n - 1);
    }
  }

  /** The steps a recovery takes, the decision included. */
  function RecoverySteps(recovery: Recovery): nat {
    match recovery
    case Proceed => 1
    case Clear => 2
    case Adopt(_) => 3
  }

  lemma RecoverySettles(host: Host, st: State, task: Task, n: nat)
    requires st.phase == Recovering(task) && n >= 3 && Decide(host, st.files).Ok?
    ensures var recovery := Decide(host, st.files).value;
            Settle(host, st, n) ==
            Settle(host, Resume(host, st.(files := Recovered(host, st.files, recovery)), task),
                   n - RecoverySteps(recovery))
  {
    var s1 := Advanced(host, st);
    var recovery := Decide(host, st.files).value;
    var resumed := Resume(host, st.(files := Recovered(host, st.files, recovery)), task);
    match recovery {
      case Proceed =>
        assert s1 == resumed;
      case Clear =>
        assert Advanced(host, s1) == resumed;
        assert Settle(host, s1, n - 1) == Settle(host, Advanced(host, s1), n - 2);
      case Adopt(_) =>
        var s2 := Advanced(host, s1);
        assert Advanced(host, s2) == resumed;
        assert Settle(host, s1, n - 1) == Settle(host, s2, n - 2);
        assert Settle(host, s2, n - 2) == Settle(host, Advanced(host, s2), n - 3);
    }
  }

  lemma RefusalSettles(host: Host, st: State, task: Task, n: nat)
    requires st.phase == Recovering(task) && n >= 1 && Decide(host, st.files).Err?
    ensures Settle(host, st, n) == Reported(st, Err(Decide(host, st.files).error))
  {
    IdleSettles(host, Advanced(host, st), n - 1);
  }

  /** The files and the report a run ends with. */
  predicate Ends(st: State, outcome: (Files, Result<Action, Error>)) {
    st.phase.Idle? && st.files == outcome.0 && st.report == Some(outcome.1)
  }

  lemma CommitSettles(host: Host, st: State, plan: SetupPlan, n: nat)
    requires Writes(plan) && st.phase == BackingUp(plan, st.files.config) && st.files.journal == Absent && n >= 6
    ensures Ends(Settle(host, st, n), Execute(host, false, plan, st.files))
  {
    var s1 := Advanced(host, st);
    var s2 := Advanced(host, s1);
    var s3 := Advanced(host, s2);
    var task := After(plan.entry, if plan.Apply? then Applied else Updated);
    assert Settle(host, s1, n - 1) == Settle(host, s2, n - 2);
    assert Settle(host, s2, n - 2) == Settle(host, s3, n - 3);
    CommitEnds(host, st, s3, plan, task, n - 3);
  }

  /** The end of a commit, from the replacement on. */
  lemma CommitEnds(host: Host, st: State, s3: State, plan: SetupPlan, task: Task, n: nat)
    requires Writes(plan) && n >= 3 && task == After(plan.entry, if plan.Apply? then Applied else Updated)
    requires s3.phase == Recovering(task)
    requires s3.files == BackedUp(st.files).(journal := Present(NewJournal(host, st.files, plan.config, plan.entry)),
                                             config := Some(plan.config))
    ensures Ends(Settle(host, s3, n), Execute(host, false, plan, st.files))
  {
    var decided := Decide(host, s3.files);
    if decided.Err? {
      RefusalSettles(host, s3, task, n);
    } else {
      RecoverySettles(host, s3, task, n);
      var resumed := Resume(host, s3.(files := Recovered(host, s3.files, decided.value)), task);
      IdleSettles(host, resumed, n - RecoverySteps(decided.value));
    }
  }

  lemma RemovalSettles(host: Host, st: State, config: Contents, n: nat)
    requires st.phase == BackingUp(Remove(config), st.files.config) && n >= 3
    ensures Ends(Settle(host, st, n), Execute(host, false, Remove(config), st.files))
  {
    var s1 := Advanced(host, st);
    var s2 := Advanced(host, s1);
    var s3 := Advanced(host, s2);
    assert Settle(host, s1, n - 1) == Settle(host, s2, n - 2);
    assert Settle(host, s2, n - 2) == Settle(host, s3, n - 3);
    IdleSettles(host, s3, n - 3);
  }

  lemma PlanSettles(host: Host, st: State, goal: Goal, remove: bool, n: nat)
    requires st.phase == Planning(goal, remove) && st.files.journal == Absent && n >= 7
    ensures Ends(Settle(host, st, n),
                 match Plan(host, goal, remove, st.files)
                 case Err(e) => (st.files, Err(e))
                 case Ok(plan) => Execute(host, false, plan, st.files))
  {
    var s1 := Advanced(host, st);
    assert Settle(host, st, n) == Settle(host, s1, n - 1);
    match s1.phase {
      case Idle => IdleSettles(host, s1, n - 1);
      case Forgetting(_) =>
        assert Settle(host, s1, n - 1) == Settle(host, Advanced(host, s1), n - 2);
        IdleSettles(host, Advanced(host, s1), n - 2);
      case BackingUp(plan, _) =>
        if Writes(plan) {
          CommitSettles(host, s1, plan, n - 1);
        } else {
          RemovalSettles(host, s1, plan.config, n - 1);
        }
    }
  }

  /** The atomic steps of one run, undisturbed, leave exactly the files and report
      exactly the action or error of the facade's call: from any state of the files,
      whatever the run decides to do. */
  lemma UndisturbedRunIsRun(host: Host, st: State, goal: Goal, remove: bool)
    requires st.phase.Idle?
    ensures Ends(Settle(host, Next(host, st, Begin(goal, remove)), 10), Run(host, goal, false, remove, st.files))
  {
    var s1 := Next(host, st, Begin(goal, remove));
    var task, decided := Before(goal, remove), Decide(host, s1.files);
    if decided.Err? {
      RefusalSettles(host, s1, task, 10);
    } else {
      RecoverySettles(host, s1, task, 10);
      var resumed := Resume(host, s1.(files := Recovered(host, s1.files, decided.value)), task);
      PlanSettles(host, resumed, goal, remove, 10 - RecoverySteps(decided.value));
    }
  }
}
