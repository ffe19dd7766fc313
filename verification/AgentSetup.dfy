/** Receipt-backed setup of the AI Fuel registration in an MCP host's config file:
    the plan, its execution, and the recovery of an interrupted setup, for an
    arbitrary host adapter and digest. */
module AgentSetup {
  import opened Prelude

  type Contents = string
  type Entry = string
  type Digest = string

  datatype Identity = Identity(schema: nat, hostId: string, configFile: string, entryName: string)

  datatype Receipt = Receipt(identity: Identity, entry: Entry)

  datatype Journal = Journal(identity: Identity, base: Option<Digest>, target: Digest, hasBackup: bool,
                             previous: Option<Entry>, entry: Entry)

  /** A private state file: absent, undecodable, or holding a value. */
  datatype Stored<T> = Absent | Unreadable | Present(value: T)

  datatype Files = Files(config: Option<Contents>, receipt: Stored<Receipt>, journal: Stored<Journal>,
                         backup: Option<Contents>)

  datatype Error =
    | Adapter(message: string) | ReceiptUnreadable | ReceiptForeign | JournalUnreadable | JournalForeign
    | NeedsRecovery | RecoveryConflict | Unowned | Edited | Conflicting | WriterWrong | RemoverWrong | Vanished
    | ConfigChanged

  /** The host side, the same in every run: reading the named entry, removing it. */
  datatype Host = Host(
    identity: Identity,
    current: Option<Contents> -> Result<Option<Entry>, string>,
    remove: Contents -> Result<Contents, string>,
    digest: Contents -> Digest)

  /** What one run wants to write; it depends on the executable's path. */
  datatype Goal = Goal(
    expected: Result<Entry, string>,
    write: Option<Contents> -> Result<Contents, string>)

  datatype SetupPlan =
    | Apply(config: Contents, entry: Entry) | Update(config: Contents, entry: Entry)
    | Remove(config: Contents) | ClearStaleReceipt | AlreadyConfigured | AlreadyAbsent

  datatype Action =
    | Applied | Updated | Configured | WouldApply | WouldUpdate | Removed | WouldRemove | Missing
    | StaleReceiptCleared | WouldClearStaleReceipt

  function CurrentEntry(host: Host, config: Option<Contents>): Result<Option<Entry>, Error> {
    match host.current(config)
    case Ok(entry) => Ok(entry)
    case Err(message) => Err(Adapter(message))
  }

  function ReadReceipt(host: Host, f: Files): Result<Option<Receipt>, Error> {
    match f.receipt
    case Absent => Ok(None)
    case Unreadable => Err(ReceiptUnreadable)
    case Present(r) => if r.identity == host.identity then Ok(Some(r)) else Err(ReceiptForeign)
  }

  function ReadJournal(host: Host, f: Files): Result<Option<Journal>, Error> {
    match f.journal
    case Absent => Ok(None)
    case Unreadable => Err(JournalUnreadable)
    case Present(j) =>
      if j.identity == host.identity && j.hasBackup == j.base.Some? then Ok(Some(j)) else Err(JournalForeign)
  }

  function PlanRemoval(host: Host, config: Option<Contents>, receipt: Option<Receipt>, current: Option<Entry>)
    : Result<SetupPlan, Error>
  {
    match current
    case None => Ok(if receipt.Some? then ClearStaleReceipt else AlreadyAbsent)
    case Some(entry) =>
      if receipt.None? then Err(Unowned)
      else if receipt.value.entry != entry then Err(Edited)
      else if config.None? then Err(Vanished)
      else match host.remove(config.value)
        case Err(message) => Err(Adapter(message))
        case Ok(updated) =>
          match CurrentEntry(host, Some(updated))
          case Err(e) => Err(e)
          case Ok(left) => if left.Some? then Err(RemoverWrong) else Ok(Remove(updated))
  }

  /** Write through the adapter and check what it wrote. */
  function Written(host: Host, goal: Goal, config: Option<Contents>, expected: Entry): Result<Contents, Error> {
    match goal.write(config)
    case Err(message) => Err(Adapter(message))
    case Ok(updated) =>
      match CurrentEntry(host, Some(updated))
      case Err(e) => Err(e)
      case Ok(entry) => if entry == Some(expected) then Ok(updated) else Err(WriterWrong)
  }

  function PlanSetup(host: Host, goal: Goal, config: Option<Contents>, receipt: Option<Receipt>, current: Option<Entry>)
    : Result<SetupPlan, Error>
  {
    match goal.expected
    case Err(message) => Err(Adapter(message))
    case Ok(expected) =>
      match current
      case None =>
        (match Written(host, goal, config, expected)
         case Err(e) => Err(e)
         case Ok(updated) => Ok(Apply(updated, expected)))
      case Some(entry) =>
        if entry == expected then Ok(AlreadyConfigured)
        else if receipt.None? then Err(Conflicting)
        else if receipt.value.entry != entry then Err(Edited)
        else match Written(host, goal, config, expected)
          case Err(e) => Err(e)
          case Ok(updated) => Ok(Update(updated, expected))
  }

  /** The plan over one reading of the config and the receipt. */
  function Plan(host: Host, goal: Goal, remove: bool, f: Files): Result<SetupPlan, Error> {
    match ReadReceipt(host, f)
    case Err(e) => Err(e)
    case Ok(receipt) =>
      match CurrentEntry(host, f.config)
      case Err(e) => Err(e)
      case Ok(current) =>
        if remove then PlanRemoval(host, f.config, receipt, current)
        else PlanSetup(host, goal, f.config, receipt, current)
  }

  datatype Recovery = Proceed | Adopt(entry: Entry) | Clear

  function DigestOf(host: Host, contents: Option<Contents>): Option<Digest> {
    match contents case None => None case Some(c) => Some(host.digest(c))
  }

  /** What an unfinished journal calls for, over one reading of the files. */
  function Decide(host: Host, f: Files): Result<Recovery, Error> {
    match ReadJournal(host, f)
    case Err(e) => Err(e)
    case Ok(None) => Ok(Proceed)
    case Ok(Some(j)) =>
      match CurrentEntry(host, f.config)
      case Err(e) => Err(e)
      case Ok(current) =>
        var found := DigestOf(host, f.config);
        if j.base.Some? && DigestOf(host, f.backup) != j.base then Err(RecoveryConflict)
        else if found == Some(j.target) then
          if current != Some(j.entry) then Err(RecoveryConflict)
          else match ReadReceipt(host, f)
            case Err(e) => Err(e)
            case Ok(receipt) =>
              if receipt.Some? && receipt.value.entry != j.entry && j.previous != Some(receipt.value.entry)
              then Err(RecoveryConflict)
              else if receipt.Some? && receipt.value.entry == j.entry then Ok(Clear)
              else Ok(Adopt(j.entry))
        else if found == j.base || current.None? then Ok(Clear)
        else match ReadReceipt(host, f)
          case Err(e) => Err(e)
          case Ok(receipt) =>
            if receipt.Some? && current == Some(receipt.value.entry) then Ok(Clear) else Err(RecoveryConflict)
  }

  function Recovered(host: Host, f: Files, recovery: Recovery): Files {
    match recovery
    case Proceed => f
    case Adopt(entry) => f.(receipt := Present(Receipt(host.identity, entry)), journal := Absent)
    case Clear => f.(journal := Absent)
  }

  /** The journal of one intended replacement, written before the config changes. */
  function NewJournal(host: Host, f: Files, target: Contents, entry: Entry): Journal {
    Journal(host.identity, DigestOf(host, f.config), host.digest(target), f.config.Some?,
            if f.receipt.Present? then Some(f.receipt.value.entry) else None, entry)
  }

  function BackedUp(f: Files): Files {
    if f.config.Some? then f.(backup := f.config) else f
  }

  /** Backup, journal, replace, recover: the write half of Apply and Update, run
      without interference. */
  function Committed(host: Host, f: Files, target: Contents, entry: Entry): (Files, Result<(), Error>) {
    var replaced := BackedUp(f).(journal := Present(NewJournal(host, f, target, entry)), config := Some(target));
    match Decide(host, replaced)
    case Err(e) => (replaced, Err(e))
    case Ok(recovery) =>
      var done := Recovered(host, replaced, recovery);
      (done, match ReadReceipt(host, done)
             case Err(e) => Err(e)
             case Ok(receipt) =>
               if receipt.Some? && receipt.value.entry == entry then Ok(()) else Err(RecoveryConflict))
  }

  function Execute(host: Host, dryRun: bool, plan: SetupPlan, f: Files): (Files, Result<Action, Error>) {
    match plan
    case AlreadyConfigured => (f, Ok(Configured))
    case AlreadyAbsent => (f, Ok(Missing))
    case Apply(target, entry) =>
      if dryRun then (f, Ok(WouldApply))
      else
        var (f', r) := Committed(host, f, target, entry);
        (f', match r case Ok(_) => Ok(Applied) case Err(e) => Err(e))
    case Update(target, entry) =>
      if dryRun then (f, Ok(WouldUpdate))
      else
        var (f', r) := Committed(host, f, target, entry);
        (f', match r case Ok(_) => Ok(Updated) case Err(e) => Err(e))
    case Remove(updated) =>
      if dryRun then (f, Ok(WouldRemove))
      else (BackedUp(f).(config := Some(updated), receipt := Absent), Ok(Removed))
    case ClearStaleReceipt =>
      if dryRun then (f, Ok(WouldClearStaleReceipt)) else (f.(receipt := Absent), Ok(StaleReceiptCleared))
  }

  /** One call run without interference. */
  function Run(host: Host, goal: Goal, dryRun: bool, remove: bool, f: Files): (Files, Result<Action, Error>) {
    if dryRun then
      match ReadJournal(host, f)
      case Err(e) => (f, Err(e))
      case Ok(Some(_)) => (f, Err(NeedsRecovery))
      case Ok(None) =>
        (match Plan(host, goal, remove, f)
         case Err(e) => (f, Err(e))
         case Ok(plan) => Execute(host, true, plan, f))
    else
      match Decide(host, f)
      case Err(e) => (f, Err(e))
      case Ok(recovery) =>
        var f1 := Recovered(host, f, recovery);
        match Plan(host, goal, remove, f1)
        case Err(e) => (f1, Err(e))
        case Ok(plan) => Execute(host, false, plan, f1)
  }

  /** The setup facade over its four files. */
  class SetupFacade {
    var config: Option<Contents>
    var receipt: Stored<Receipt>
    var journal: Stored<Journal>
    var backup: Option<Contents>
    const host: Host
    const goal: Goal

    ghost function State(): Files
      reads this
    {
      Files(config, receipt, journal, backup)
    }

    constructor (host: Host, goal: Goal, f: Files)
      ensures State() == f && this.host == host && this.goal == goal
    {
      config, receipt, journal, backup := f.config, f.receipt, f.journal, f.backup;
      this.host, this.goal := host, goal;
    }

    /** Finish or drop an interrupted setup. */
    method ReconcilePending() returns (r: Result<(), Error>)
      modifies this`receipt, this`journal
      ensures match Decide(host, old(State()))
              case Err(e) => r == Err(e) && State() == old(State())
              case Ok(recovery) => r == Ok(()) && State() == Recovered(host, old(State()), recovery)
    {
      match Decide(host, Files(config, receipt, journal, backup)) {
        case Err(e) => return Err(e);
        case Ok(recovery) =>
          if recovery.Adopt? {
            receipt := Present(Receipt(host.identity, recovery.entry));
          }
          if !recovery.Proceed? {
            journal := Absent;
          }
          return Ok(());
      }
    }

    method WriteBackup()
      modifies this`backup
      ensures State() == BackedUp(old(State()))
    {
      if config.Some? {
        backup := config;
      }
    }

    /** Replace the config under a journal and take ownership of the entry. */
    method Commit(target: Contents, entry: Entry) returns (r: Result<(), Error>)
      modifies this
      ensures (State(), r) == Committed(host, old(State()), target, entry)
    {
      var pending := NewJournal(host, Files(config, receipt, journal, backup), target, entry);
      WriteBackup();
      journal := Present(pending);
      config := Some(target);
      r := ReconcilePending();
      if r.Err? {
        return;
      }
      match ReadReceipt(host, Files(config, receipt, journal, backup)) {
        case Err(e) => r := Err(e);
        case Ok(owned) =>
          if owned.None? || owned.value.entry != entry {
            r := Err(RecoveryConflict);
          }
      }
    }

    method ExecutePlan(dryRun: bool, plan: SetupPlan) returns (r: Result<Action, Error>)
      modifies this
      ensures (State(), r) == Execute(host, dryRun, plan, old(State()))
    {
      match plan {
        case AlreadyConfigured => return Ok(Configured);
        case AlreadyAbsent => return Ok(Missing);
        case Apply(target, entry) =>
          if dryRun { return Ok(WouldApply); }
          var committed := Commit(target, entry);
          r := match committed case Ok(_) => Ok(Applied) case Err(e) => Err(e);
        case Update(target, entry) =>
          if dryRun { return Ok(WouldUpdate); }
          var committed := Commit(target, entry);
          r := match committed case Ok(_) => Ok(Updated) case Err(e) => Err(e);
        case Remove(updated) =>
          if dryRun { return Ok(WouldRemove); }
          WriteBackup();
          config := Some(updated);
          receipt := Absent;
          r := Ok(Removed);
        case ClearStaleReceipt =>
          if dryRun { return Ok(WouldClearStaleReceipt); }
          receipt := Absent;
          r := Ok(StaleReceiptCleared);
      }
    }

    method RunSetup(dryRun: bool, remove: bool) returns (r: Result<Action, Error>)
      modifies this
      ensures (State(), r) == Run(host, goal, dryRun, remove, old(State()))
    {
      if dryRun {
        match ReadJournal(host, Files(config, receipt, journal, backup)) {
          case Err(e) => return Err(e);
          case Ok(Some(_)) => return Err(NeedsRecovery);
          case Ok(None) =>
        }
      } else {
        var recovered := ReconcilePending();
        if recovered.Err? {
          return Err(recovered.error);
        }
      }
      match Plan(host, goal, remove, Files(config, receipt, journal, backup)) {
        case Err(e) => return Err(e);
        case Ok(plan) => r := ExecutePlan(dryRun, plan);
      }
    }
  }

  // ----- Previews and repeats

  /** The action a preview reports for each real one. */
  function Preview(action: Action): Action {
    match action
    case Applied => WouldApply
    case Updated => WouldUpdate
    case Removed => WouldRemove
    case StaleReceiptCleared => WouldClearStaleReceipt
    case _ => action
  }

  /** A verified plan commits: recovery right after the replacement adopts exactly
      the planned entry, whatever the adapter and the digest are. */
  lemma CommitTakesOwnership(host: Host, f: Files, target: Contents, entry: Entry)
    requires f.journal == Absent && ReadReceipt(host, f).Ok?
    requires host.current(Some(target)) == Ok(Some(entry))
    ensures Committed(host, f, target, entry) ==
            (BackedUp(f).(config := Some(target), receipt := Present(Receipt(host.identity, entry))), Ok(()))
  {}

  lemma PlannedEntryIsVerified(host: Host, goal: Goal, f: Files)
    requires Plan(host, goal, false, f).Ok?
    ensures var plan := Plan(host, goal, false, f).value;
            (plan.Apply? || plan.Update?) ==>
              goal.expected == Ok(plan.entry) && host.current(Some(plan.config)) == Ok(Some(plan.entry))
  {}

  /** The files a call starts from when nothing is pending and everything can be read. */
  predicate Settled(host: Host, f: Files, current: Option<Entry>, owned: Option<Entry>) {
    && f.journal == Absent && host.current(f.config) == Ok(current)
    && f.receipt == (if owned.Some? then Present(Receipt(host.identity, owned.value)) else Absent)
  }

  /** What one setup does, by what the config holds and what the receipt owns: a config that
      holds the entry already is left alone; an entry AI Fuel does not own is a conflict, one
      edited since is refused; otherwise the config the adapter writes, if that reads back
      with the entry, is applied over none or updates the owned one, is backed up, and is
      owned. */
  lemma SetupDecides(host: Host, goal: Goal, f: Files, expected: Entry, current: Option<Entry>, owned: Option<Entry>)
    requires Settled(host, f, current, owned) && goal.expected == Ok(expected)
    ensures var (f', outcome) := Run(host, goal, false, false, f);
            if current == Some(expected) then f' == f && outcome == Ok(Configured)
            else if current.Some? && owned.None? then f' == f && outcome == Err(Conflicting)
            else if current.Some? && owned != current then f' == f && outcome == Err(Edited)
            else
              match goal.write(f.config)
              case Err(message) => f' == f && outcome == Err(Adapter(message))
              case Ok(written) =>
                match host.current(Some(written))
                case Err(message) => f' == f && outcome == Err(Adapter(message))
                case Ok(found) =>
                  if found != Some(expected) then f' == f && outcome == Err(WriterWrong)
                  else
                    && outcome == Ok(if current.None? then Applied else Updated)
                    && f' == Files(Some(written), Present(Receipt(host.identity, expected)), Absent,
                                   if f.config.Some? then f.config else f.backup)
  {
    if goal.write(f.config).Ok? && host.current(Some(goal.write(f.config).value)) == Ok(Some(expected)) {
      CommitTakesOwnership(host, f, goal.write(f.config).value, expected);
    }
  }

  /** State that cannot be read, or is another host's, stops every call before it changes
      anything, with the error that names it; so does a config the adapter cannot read. */
  lemma UnreadableStateIsRefused(host: Host, goal: Goal, dryRun: bool, remove: bool, f: Files)
    ensures f.journal.Unreadable? ==> Run(host, goal, dryRun, remove, f) == (f, Err(JournalUnreadable))
    ensures f.journal.Present? && (f.journal.value.identity != host.identity ||
                                   f.journal.value.hasBackup != f.journal.value.base.Some?) ==>
              Run(host, goal, dryRun, remove, f) == (f, Err(JournalForeign))
    ensures f.journal.Absent? && f.receipt.Unreadable? ==>
              Run(host, goal, dryRun, remove, f) == (f, Err(ReceiptUnreadable))
    ensures f.journal.Absent? && f.receipt.Present? && f.receipt.value.identity != host.identity ==>
              Run(host, goal, dryRun, remove, f) == (f, Err(ReceiptForeign))
    ensures f.journal.Absent? && ReadReceipt(host, f).Ok? && host.current(f.config).Err? ==>
              Run(host, goal, dryRun, remove, f) == (f, Err(Adapter(host.current(f.config).error)))
    ensures f.journal.Absent? && ReadReceipt(host, f).Ok? && host.current(f.config).Ok? && goal.expected.Err? ==>
              remove || Run(host, goal, dryRun, remove, f) == (f, Err(Adapter(goal.expected.error)))
  {}

  /** What one removal does: nothing where there is no entry but to forget a stale receipt;
      an entry AI Fuel does not own, or one edited since, is refused; otherwise the config
      the adapter leaves, if no entry is left in it, replaces the old one, which is backed
      up, and the receipt is gone. */
  lemma RemovalDecides(host: Host, goal: Goal, f: Files, current: Option<Entry>, owned: Option<Entry>)
    requires Settled(host, f, current, owned)
    ensures var (f', outcome) := Run(host, goal, false, true, f);
            if current.None? then
              && outcome == Ok(if owned.Some? then StaleReceiptCleared else Missing)
              && f' == f.(receipt := Absent)
            else if owned.None? then f' == f && outcome == Err(Unowned)
            else if owned != current then f' == f && outcome == Err(Edited)
            else if f.config.None? then f' == f && outcome == Err(Vanished)
            else
              match host.remove(f.config.value)
              case Err(message) => f' == f && outcome == Err(Adapter(message))
              case Ok(left) =>
                match host.current(Some(left))
                case Err(message) => f' == f && outcome == Err(Adapter(message))
                case Ok(found) =>
                  if found.Some? then f' == f && outcome == Err(RemoverWrong)
                  else outcome == Ok(Removed) && f' == Files(Some(left), Absent, Absent, f.config)
  {}

  /** What recovery makes of a readable journal over a readable config and receipt. It
      refuses when the saved base is not in the backup. Where the config is the journaled
      target, it must hold the journaled entry and the receipt must name that entry, the one
      before it or none, and then the entry is owned. Where it is still the base, or holds
      no entry, or the one the receipt owns, the journal is dropped. Anything else is a
      conflict that changes nothing. */
  lemma RecoveryDecides(host: Host, goal: Goal, remove: bool, f: Files, j: Journal, current: Option<Entry>,
                        owned: Option<Entry>)
    requires Settled(host, f.(journal := Absent), current, owned) && f.journal == Present(j)
    requires j.identity == host.identity && j.hasBackup == j.base.Some?
    ensures var found := DigestOf(host, f.config);
            var backed := j.base.None? || DigestOf(host, f.backup) == j.base;
            var fits := if found == Some(j.target)
                        then current == Some(j.entry) && owned in [None, Some(j.entry), j.previous]
                        else found == j.base || current.None? || owned == current;
            if backed && fits then
              Run(host, goal, false, remove, f) ==
              Run(host, goal, false, remove,
                  f.(journal := Absent, receipt := if found == Some(j.target)
                                                   then Present(Receipt(host.identity, j.entry)) else f.receipt))
            else Run(host, goal, false, remove, f) == (f, Err(RecoveryConflict))
  {}

  /** What a preview answers where the real run answers `outcome`. */
  function Previewed(outcome: Result<Action, Error>): Result<Action, Error> {
    match outcome
    case Ok(action) => Ok(Preview(action))
    case Err(e) => Err(e)
  }

  lemma CleanRunIsPredicted(host: Host, goal: Goal, remove: bool, f: Files)
    requires f.journal == Absent
    ensures Run(host, goal, true, remove, f).1 == Previewed(Run(host, goal, false, remove, f).1)
  {
    var plan := Plan(host, goal, remove, f);
    if plan.Ok? && !remove {
      PlannedEntryIsVerified(host, goal, f);
      if plan.value.Apply? || plan.value.Update? {
        CommitTakesOwnership(host, f, plan.value.config, plan.value.entry);
      }
    }
  }

  /** A run of the facade never asks for the recovery it performs itself. */
  lemma RealRunRecovers(host: Host, goal: Goal, remove: bool, f: Files)
    ensures Run(host, goal, false, remove, f).1 != Err(NeedsRecovery)
  {}

  /** From any files a dry run changes nothing; and it reports exactly the action or
      error of the real run if and only if no readable journal is pending, where it
      only asks for the recovery the real run carries out. */
  lemma DryRunPredicts(host: Host, goal: Goal, remove: bool, f: Files)
    ensures Run(host, goal, true, remove, f).0 == f
    ensures Run(host, goal, true, remove, f).1 == Previewed(Run(host, goal, false, remove, f).1) <==>
            !(ReadJournal(host, f).Ok? && ReadJournal(host, f).value.Some?)
  {
    if f.journal == Absent {
      CleanRunIsPredicted(host, goal, remove, f);
    } else {
      RealRunRecovers(host, goal, remove, f);
    }
  }

  /** Recovery never touches the config or its backup and is over in one go; it changes
      the receipt only to an entry that the config was seen to hold and whose journal
      names the config's digest as its target. */
  lemma RecoveryIsFinal(host: Host, f: Files)
    requires Decide(host, f).Ok?
    ensures var f' := Recovered(host, f, Decide(host, f).value);
            && f'.config == f.config && f'.backup == f.backup
            && Decide(host, f') == Ok(Proceed)
            && (f'.receipt != f.receipt ==>
                  && f.journal.Present? && DigestOf(host, f.config) == Some(f.journal.value.target)
                  && f'.receipt == Present(Receipt(host.identity, f.journal.value.entry))
                  && host.current(f.config) == Ok(Some(f.journal.value.entry)))
  {}

  /** After a successful real run, from any files, the same call reports that there
      is nothing to do and writes nothing. */
  lemma SecondRunIsIdle(host: Host, goal: Goal, remove: bool, f: Files)
    requires Run(host, goal, false, remove, f).1.Ok?
    ensures var f' := Run(host, goal, false, remove, f).0;
            Run(host, goal, false, remove, f') == (f', Ok(if remove then Missing else Configured))
  {
    var f1 := Recovered(host, f, Decide(host, f).value);
    assert f1.journal == Absent;
    if !remove {
      PlannedEntryIsVerified(host, goal, f1);
      var plan := Plan(host, goal, false, f1).value;
      if plan.Apply? || plan.Update? {
        CommitTakesOwnership(host, f1, plan.config, plan.entry);
      }
    }
  }
}
