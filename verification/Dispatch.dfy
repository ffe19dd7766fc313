/** Command dispatch: mutating commands are recorded by id and answered from the
    record when they are delivered again. */
module Dispatch {
  import opened Prelude
  import opened Json

  const SCHEMA_VERSION := 1

  type Seq = x: int | 0 <= x <= 0xFFFF_FFFF_FFFF_FFFF

  datatype Code =
    | Unauthorized | UnknownSession | AlreadyResolved | InvalidSelection | InvalidState | ProviderError | Unsupported

  datatype Answer =
    | Accepted(seqNo: Seq, session: Option<string>, run: Option<string>, snapshot: Option<Value>)
    | Refused(code: Code, message: string)

  datatype Receipt = Receipt(command: string, answer: Answer)

  datatype Payload = NoPayload | Listing(entries: seq<string>)

  datatype Outcome = Outcome(receipt: Receipt, payload: Payload)

  datatype Operation =
    | SessionCreate | SessionSubscribe | SessionList | SessionClose | RunStart | RunCancel | ApprovalAnswer
    | ModelSelect | CheckpointRestore | IntegrationsList | ModelsList

  datatype Command = Command(operation: Operation, id: string, arguments: string)

  /** How a command's own code ends. */
  datatype Handled =
    | Done(seqNo: Seq, session: Option<string>, run: Option<string>)
    | Rejected(code: Code, message: string)
    | Attached(seqNo: Seq, attached: string, snapshot: Value)
    | Listed(entries: seq<string>)
    | Panicked

  // ----- The recorded receipt

  function Spelling(code: Code): string {
    match code
    case Unauthorized => "unauthorized"
    case UnknownSession => "unknown_session"
    case AlreadyResolved => "already_resolved"
    case InvalidSelection => "invalid_selection"
    case InvalidState => "invalid_state"
    case ProviderError => "provider_error"
    case Unsupported => "unsupported"
  }

  function Spelled(text: string): Option<Code> {
    match text
    case "unauthorized" => Some(Unauthorized)
    case "unknown_session" => Some(UnknownSession)
    case "already_resolved" => Some(AlreadyResolved)
    case "invalid_selection" => Some(InvalidSelection)
    case "invalid_state" => Some(InvalidState)
    case "provider_error" => Some(ProviderError)
    case "unsupported" => Some(Unsupported)
    case _ => None
  }

  /** `skip_serializing_if = "Option::is_none"`. */
  function WithText(fields: map<string, Value>, key: string, text: Option<string>): map<string, Value> {
    if text.Some? then fields[key := Text(text.value)] else fields
  }

  function Encode(r: Receipt): Value {
    var head := map["schema_version" := Number(SCHEMA_VERSION), "command_id" := Text(r.command),
                    "ok" := Bool(r.answer.Accepted?)];
    match r.answer
    case Accepted(seqNo, session, run, snapshot) =>
      var fields := WithText(WithText(head["seq" := Number(seqNo)], "session_id", session), "run_id", run);
      Object(if snapshot.Some? then fields["snapshot" := snapshot.value] else fields)
    case Refused(code, message) => Object(head["code" := Text(Spelling(code))]["message" := Text(message)])
  }

  /** An optional text field: absent and null read as none, any other type fails. */
  function OptionalText(record: Value, key: string): Result<Option<string>, ()> {
    match Get(record, key)
    case None => Ok(None)
    case Some(Null) => Ok(None)
    case Some(Text(t)) => Ok(Some(t))
    case Some(_) => Err(())
  }

  function OptionalSeq(record: Value, key: string): Result<Option<Seq>, ()> {
    match Get(record, key)
    case None => Ok(None)
    case Some(Null) => Ok(None)
    case Some(Number(n)) => if 0 <= n <= U64_MAX then Ok(Some(n as Seq)) else Err(())
    case Some(_) => Err(())
  }

  function OptionalCode(record: Value): Result<Option<Code>, ()> {
    match OptionalText(record, "code")
    case Err(e) => Err(e)
    case Ok(None) => Ok(None)
    case Ok(Some(t)) => match Spelled(t) case None => Err(()) case Some(code) => Ok(Some(code))
  }

  /** Rebuild a receipt from its record; a record missing its id or flag, or with a
      field of the wrong type, is malformed. */
  function Decode(record: Value): Option<Receipt> {
    var id := Get(record, "command_id");
    var accepted := Get(record, "ok");
    var seqNo := OptionalSeq(record, "seq");
    var session := OptionalText(record, "session_id");
    var run := OptionalText(record, "run_id");
    var code := OptionalCode(record);
    var message := OptionalText(record, "message");
    if id.None? || !id.value.Text? || accepted.None? || !accepted.value.Bool? then None
    else if seqNo.Err? || session.Err? || run.Err? || code.Err? || message.Err? then None
    else if accepted.value.truth then
      Some(Receipt(id.value.text, Accepted(seqNo.value.GetOr(0), session.value, run.value, None)))
    else
      Some(Receipt(id.value.text, Refused(code.value.GetOr(ProviderError), message.value.GetOr(""))))
  }

  function WithoutSnapshot(r: Receipt): Receipt {
    match r.answer
    case Accepted(seqNo, session, run, _) => Receipt(r.command, Accepted(seqNo, session, run, None))
    case Refused(_, _) => r
  }

  predicate Recordable(r: Receipt) { r.answer.Accepted? ==> r.answer.snapshot == None }

  lemma AcceptanceReadsBack(r: Receipt)
    requires r.answer.Accepted?
    ensures Decode(Encode(r)) == Some(WithoutSnapshot(r))
  {
    var record := Encode(r);
    assert record.fields["command_id"] == Text(r.command) && record.fields["ok"] == Bool(true);
    assert record.fields["seq"] == Number(r.answer.seqNo);
    assert OptionalText(record, "session_id") == Ok(r.answer.session);
    assert OptionalText(record, "run_id") == Ok(r.answer.run);
    assert "code" !in record.fields && "message" !in record.fields;
  }

  lemma RefusalReadsBack(r: Receipt)
    requires r.answer.Refused?
    ensures Decode(Encode(r)) == Some(r)
  {
    var record := Encode(r);
    assert record.fields["command_id"] == Text(r.command) && record.fields["ok"] == Bool(false);
    assert record.fields["code"] == Text(Spelling(r.answer.code));
    assert record.fields["message"] == Text(r.answer.message);
    assert Spelled(Spelling(r.answer.code)) == Some(r.answer.code);
    assert "seq" !in record.fields && "session_id" !in record.fields && "run_id" !in record.fields;
  }

  /** Decoding a recorded receipt undoes encoding it exactly for the receipts that
      carry no snapshot; of the others it keeps everything else. */
  lemma RecordRoundTrip(r: Receipt)
    ensures Decode(Encode(r)) == Some(WithoutSnapshot(r))
    ensures Decode(Encode(r)) == Some(r) <==> Recordable(r)
  {
    if r.answer.Accepted? {
      AcceptanceReadsBack(r);
    } else {
      RefusalReadsBack(r);
    }
  }

  /** What a record holds, field by field: version, id and flag always; sequence and the ids
      there are for an acceptance; code and message for a refusal. */
  lemma RecordHolds(r: Receipt)
    ensures var record := Encode(r);
            && Get(record, "schema_version") == Some(Number(1)) && Get(record, "command_id") == Some(Text(r.command))
            && Get(record, "ok") == Some(Bool(r.answer.Accepted?))
            && match r.answer
               case Accepted(seqNo, session, run, snapshot) =>
                 && Get(record, "seq") == Some(Number(seqNo)) && Get(record, "snapshot") == snapshot
                 && Get(record, "session_id") == (if session.Some? then Some(Text(session.value)) else None)
                 && Get(record, "run_id") == (if run.Some? then Some(Text(run.value)) else None)
                 && Get(record, "code") == None && Get(record, "message") == None
               case Refused(code, message) =>
                 && Get(record, "message") == Some(Text(message)) && Get(record, "seq") == None
                 && Get(record, "code").Some? && OptionalCode(record) == Ok(Some(code))
  {
    if r.answer.Refused? {
      assert Spelled(Spelling(r.answer.code)) == Some(r.answer.code);
    }
  }

  /** A record with its id and flag alone reads as the least it can mean. */
  lemma BareRecordReads(id: string, accepted: bool)
    ensures Decode(Object(map["command_id" := Text(id), "ok" := Bool(accepted)])) ==
            Some(Receipt(id, if accepted then Accepted(0, None, None, None) else Refused(ProviderError, "")))
  {}

  // ----- Dispatch

  predicate Deduplicated(command: Command) {
    command.operation !in {SessionSubscribe, SessionList, IntegrationsList, ModelsList}
  }

  function Answered(id: string, handled: Handled): Outcome {
    match handled
    case Done(seqNo, session, run) => Outcome(Receipt(id, Accepted(seqNo, session, run, None)), NoPayload)
    case Rejected(code, message) => Outcome(Receipt(id, Refused(code, message)), NoPayload)
    case Attached(seqNo, session, snapshot) =>
      Outcome(Receipt(id, Accepted(seqNo, Some(session), None, Some(snapshot))), NoPayload)
    case Listed(entries) => Outcome(Receipt(id, Accepted(0, None, None, None)), Listing(entries))
    case Panicked => Outcome(Receipt(id, Refused(ProviderError, "the command failed inside the runtime")), NoPayload)
  }

  /** `INSERT OR IGNORE`. */
  function Insert(recorded: map<string, Value>, id: string, record: Value): map<string, Value> {
    if id in recorded then recorded else recorded[id := record]
  }

  datatype State<W> = State(world: W, recorded: map<string, Value>)

  /** The record that answers the command, if the store can be read and it decodes. */
  function Recalled(recorded: map<string, Value>, command: Command, readable: bool): Option<Receipt> {
    if Deduplicated(command) && readable && command.id in recorded then Decode(recorded[command.id]) else None
  }

  function Dispatched<W>(handle: (W, Command, string) -> (W, Handled), st: State<W>, command: Command,
                         consumer: string, readable: bool, writable: bool): (State<W>, Outcome)
  {
    var known := Recalled(st.recorded, command, readable);
    if known.Some? then (st, Outcome(known.value, NoPayload))
    else
      var (world, handled) := handle(st.world, command, consumer);
      var outcome := Answered(command.id, handled);
      (State(world, if Deduplicated(command) && writable
                    then Insert(st.recorded, command.id, Encode(outcome.receipt)) else st.recorded),
       outcome)
  }

  class Dispatcher<W> {
    var world: W
    var recorded: map<string, Value>
    const handle: (W, Command, string) -> (W, Handled)

    constructor (handle: (W, Command, string) -> (W, Handled), world: W, recorded: map<string, Value>)
      ensures this.handle == handle && this.world == world && this.recorded == recorded
    {
      this.handle, this.world, this.recorded := handle, world, recorded;
    }

    /** One command; `readable` and `writable` say whether the record table works. */
    method Dispatch(command: Command, consumer: string, readable: bool, writable: bool) returns (outcome: Outcome)
      modifies this
      ensures (State(world, recorded), outcome) ==
              Dispatched(handle, old(State(world, recorded)), command, consumer, readable, writable)
    {
      if Deduplicated(command) && readable && command.id in recorded {
        var known := Decode(recorded[command.id]);
        if known.Some? {
          return Outcome(known.value, NoPayload);
        }
      }
      var (after, handled) := handle(world, command, consumer);
      world := after;
      outcome := Answered(command.id, handled);
      if Deduplicated(command) && writable && command.id !in recorded {
        recorded := recorded[command.id := Encode(outcome.receipt)];
      }
    }
  }

  /** What a client is told: its own command id always; acceptance with exactly the facts
      the command's code ended with, a refusal with its code and message, a panic as the
      provider error; a snapshot only on attaching, entries only on listing. */
  lemma AnsweredSays(id: string, handled: Handled)
    ensures var outcome := Answered(id, handled);
            var answer := outcome.receipt.answer;
            && outcome.receipt.command == id
            && (answer.Refused? <==> handled.Rejected? || handled.Panicked?)
            && (handled.Rejected? ==> answer == Refused(handled.code, handled.message))
            && (handled.Panicked? ==> answer.code == ProviderError)
            && (handled.Done? ==> answer == Accepted(handled.seqNo, handled.session, handled.run, None))
            && (handled.Attached? ==>
                  answer == Accepted(handled.seqNo, Some(handled.attached), None, Some(handled.snapshot)))
            && (handled.Listed? ==> answer == Accepted(0, None, None, None))
            && outcome.payload == (if handled.Listed? then Listing(handled.entries) else NoPayload)
  {}

  /** The commands that are carried out once. Whatever their code does, and whichever of the
      two arrives first under an id, the first delivery executes; the second leaves the
      state alone and returns the outcome of the first. */
  lemma MutatingCommandsRunOnce<W>(handle: (W, Command, string) -> (W, Handled), st: State<W>, first: Command,
                                   consumer: string, again: Command, other: string)
    requires forall c: Command | c in [first, again] ::
               c.operation in {SessionCreate, SessionClose, RunStart, RunCancel, ApprovalAnswer, ModelSelect,
                               CheckpointRestore}
    requires again.id == first.id && first.id !in st.recorded
    requires var handled := handle(st.world, first, consumer).1;
             handled.Done? || handled.Rejected? || handled.Panicked?
    ensures var (st1, outcome) := Dispatched(handle, st, first, consumer, true, true);
            var (world, handled) := handle(st.world, first, consumer);
            && st1.world == world && outcome == Answered(first.id, handled)
            && st1.recorded.Keys == st.recorded.Keys + {first.id}
            && (forall id :: id in st.recorded ==> st1.recorded[id] == st.recorded[id])
            && Dispatched(handle, st1, again, other, true, true) == (st1, outcome)
  {
    assert first in [first, again] && again in [first, again];
    RecordRoundTrip(Answered(first.id, handle(st.world, first, consumer).1).receipt);
  }

  /** Attach and read commands execute on every delivery, with a record under their id or
      without, and leave none. */
  lemma ReadCommandsAlwaysRun<W>(handle: (W, Command, string) -> (W, Handled), st: State<W>, command: Command,
                                 consumer: string, readable: bool, writable: bool)
    requires command.operation in {SessionSubscribe, SessionList, IntegrationsList, ModelsList}
    ensures var (world, handled) := handle(st.world, command, consumer);
            Dispatched(handle, st, command, consumer, readable, writable) ==
            (State(world, st.recorded), Answered(command.id, handled))
  {}

  /** When the record cannot be read, decoded or written, the command executes each time and
      what is recorded under its id stays. */
  lemma UnrecordedCommandsRun<W>(handle: (W, Command, string) -> (W, Handled), st: State<W>, command: Command,
                                 consumer: string, readable: bool, writable: bool)
    requires command.id !in st.recorded || !readable || Decode(st.recorded[command.id]) == None
    ensures var (world, handled) := handle(st.world, command, consumer);
            var (st', outcome) := Dispatched(handle, st, command, consumer, readable, writable);
            && st'.world == world && outcome == Answered(command.id, handled)
            && (command.id in st.recorded || !writable ==> st'.recorded == st.recorded)
  {}

  // ----- Whole runs on a working store

  /** A delivered command, or anything else that changes the world between two. */
  datatype Item = Send(command: Command, consumer: string) | Elsewhere(change: nat)

  function Step<W>(handle: (W, Command, string) -> (W, Handled), elsewhere: (W, nat) -> W, st: State<W>, item: Item)
    : (State<W>, Option<Outcome>)
  {
    match item
    case Send(command, consumer) =>
      var (st', outcome) := Dispatched(handle, st, command, consumer, true, true);
      (st', Some(outcome))
    case Elsewhere(change) => (st.(world := elsewhere(st.world, change)), None)
  }

  function Final<W>(handle: (W, Command, string) -> (W, Handled), elsewhere: (W, nat) -> W, st: State<W>,
                    items: seq<Item>): State<W>
    decreases |items|
  {
    if items == [] then st
    else Final(handle, elsewhere, Step(handle, elsewhere, st, items[0]).0, items[1..])
  }

  /** The commands that carry out side effects end without snapshot or payload. */
  ghost predicate Plain<W(!new)>(handle: (W, Command, string) -> (W, Handled)) {
    forall w, command, consumer | Deduplicated(command) ::
      var handled := handle(w, command, consumer).1;
      handled.Done? || handled.Rejected? || handled.Panicked?
  }

  predicate Repeats(item: Item, seen: set<string>) {
    item.Send? && Deduplicated(item.command) && item.command.id in seen
  }

  function Marked(item: Item, seen: set<string>): set<string> {
    if item.Send? && Deduplicated(item.command) then seen + {item.command.id} else seen
  }

  function WithoutRepeats(items: seq<Item>, seen: set<string>): seq<Item> {
    if items == [] then []
    else if Repeats(items[0], seen) then WithoutRepeats(items[1..], seen)
    else [items[0]] + WithoutRepeats(items[1..], Marked(items[0], seen))
  }

  predicate Readable(recorded: map<string, Value>) {
    forall id | id in recorded :: Decode(recorded[id]).Some?
  }

  lemma StepRecords<W(!new)>(handle: (W, Command, string) -> (W, Handled), elsewhere: (W, nat) -> W, st: State<W>,
                             item: Item)
    requires Plain(handle) && Readable(st.recorded)
    ensures var (st', outcome) := Step(handle, elsewhere, st, item);
            && Readable(st'.recorded)
            && st'.recorded.Keys == Marked(item, st.recorded.Keys)
            && (forall id | id in st.recorded :: st'.recorded[id] == st.recorded[id])
            && (Repeats(item, st.recorded.Keys) ==> st' == st)
            && (item.Send? && Deduplicated(item.command) ==>
                  && Decode(st'.recorded[item.command.id]) == Some(outcome.value.receipt)
                  && outcome.value.payload == NoPayload)
  {
    if item.Send? && Deduplicated(item.command) && item.command.id !in st.recorded {
      var handled := handle(st.world, item.command, item.consumer).1;
      RecordRoundTrip(Answered(item.command.id, handled).receipt);
    }
  }

  /** However often mutating commands are delivered again, and whatever happens in
      between, deleting every repeat leaves the same world and the same records. */
  lemma {:induction false} RepeatsChangeNothing<W(!new)>(
      handle: (W, Command, string) -> (W, Handled), elsewhere: (W, nat) -> W, st: State<W>, items: seq<Item>)
    requires Plain(handle) && Readable(st.recorded)
    ensures Final(handle, elsewhere, st, items) ==
            Final(handle, elsewhere, st, WithoutRepeats(items, st.recorded.Keys))
    decreases |items|
  {
    if items != [] {
      var st' := Step(handle, elsewhere, st, items[0]).0;
      StepRecords(handle, elsewhere, st, items[0]);
      RepeatsChangeNothing(handle, elsewhere, st', items[1..]);
      var kept := WithoutRepeats(items, st.recorded.Keys);
      if !Repeats(items[0], st.recorded.Keys) {
        assert kept[1..] == WithoutRepeats(items[1..], st'.recorded.Keys);
      }
    }
  }

  lemma {:induction false} RecordsPersist<W(!new)>(
      handle: (W, Command, string) -> (W, Handled), elsewhere: (W, nat) -> W, st: State<W>, items: seq<Item>)
    requires Plain(handle) && Readable(st.recorded)
    ensures var st' := Final(handle, elsewhere, st, items);
            && Readable(st'.recorded)
            && (forall id | id in st.recorded :: id in st'.recorded && st'.recorded[id] == st.recorded[id])
    decreases |items|
  {
    if items != [] {
      StepRecords(handle, elsewhere, st, items[0]);
      RecordsPersist(handle, elsewhere, Step(handle, elsewhere, st, items[0]).0, items[1..]);
    }
  }

  /** Each repeat answers exactly what the first delivery answered, whatever was
      dispatched and whatever changed in between. */
  lemma RepeatAnswersFirst<W(!new)>(
      handle: (W, Command, string) -> (W, Handled), elsewhere: (W, nat) -> W, st: State<W>,
      first: Item, between: seq<Item>, again: Item)
    requires Plain(handle) && Readable(st.recorded)
    requires first.Send? && again.Send? && Deduplicated(first.command) && Deduplicated(again.command)
    requires first.command.id == again.command.id
    ensures var (st1, outcome) := Step(handle, elsewhere, st, first);
            var st2 := Final(handle, elsewhere, st1, between);
            Step(handle, elsewhere, st2, again) == (st2, outcome)
  {
    StepRecords(handle, elsewhere, st, first);
    var st1 := Step(handle, elsewhere, st, first).0;
    RecordsPersist(handle, elsewhere, st1, between);
  }

  /** `n` deliveries of one command, each running its own code. */
  function Executed<W>(handle: (W, Command, string) -> (W, Handled), world: W, send: Item, n: nat): W
    requires send.Send?
    decreases n
  {
    if n == 0 then world else Executed(handle, handle(world, send.command, send.consumer).0, send, n - 1)
  }

  /** The guard that matters: a record that cannot be decoded is never replaced, so
      every delivery of that command executes, however many there are. */
  lemma {:induction false} MalformedRecordAlwaysReruns<W>(
      handle: (W, Command, string) -> (W, Handled), elsewhere: (W, nat) -> W, st: State<W>, send: Item, n: nat)
    requires send.Send? && send.command.id in st.recorded && Decode(st.recorded[send.command.id]).None?
    ensures Final(handle, elsewhere, st, seq(n, _ => send)) ==
            State(Executed(handle, st.world, send, n), st.recorded)
    decreases n
  {
    if n > 0 {
      var items := seq(n, _ => send);
      assert items[1..] == seq(n - 1, _ => send);
      MalformedRecordAlwaysReruns(handle, elsewhere, Step(handle, elsewhere, st, send).0, send, n - 1);
    }
  }
}
