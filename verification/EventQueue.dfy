/** The bounded outbound queue of one MCP HTTP session: any number of concurrent
    pushers spend byte credits without a lock, and one receiver is handed between
    reconnecting streams. A step is one atomic operation, one channel operation or
    one mutex-protected section. */
module EventQueue {
  import opened Prelude
  import Sse

  type Frame = seq<Sse.Byte>

  datatype PushError = Full | Closed

  /** Where one `push` call stands. `Reserved` has added its length and remembers
      the counter it saw; `Overfull` will give its length back; `Admitted` holds the
      credit as a queued frame not yet sent. */
  datatype Stage = Reserved(prior: int) | Overfull | Admitted | Done(result: Result<(), PushError>)

  datatype Push = Push(frame: Frame, stage: Stage)

  /** Where one attached stream stands; only `Turned` and `Gone` hold no receiver. */
  datatype Phase =
    | Turned                   // refused: another stream was attached
    | Opening
    | Waiting
    | Holding(frame: Frame)    // received, credit not yet returned
    | Writing(frame: Frame)    // credit returned, write in flight
    | Beating                  // keep-alive write in flight
    | Broken
    | Drained
    | Gone

  datatype Outcome = Outcome(frame: Frame, stream: nat, delivered: bool)

  datatype State = State(
    capacity: nat, used: int, open: bool, channel: seq<Frame>, slot: bool,
    pushes: seq<Push>, streams: seq<Phase>,
    accepted: seq<Frame>, outcomes: seq<Outcome>)

  datatype Step =
    | PushReserves(frame: Frame)
    | PushChecks(i: nat)
    | PushRefunds(i: nat)
    | PushSends(i: nat)
    | Close
    | Attach
    | HeadWritten(s: nat, ok: bool)
    | Receive(s: nat)
    | Release(s: nat)
    | FrameWritten(s: nat, ok: bool)
    | TimesOut(s: nat)
    | BeatWritten(s: nat, ok: bool)
    | Disconnects(s: nat)
    | Detach(s: nat)

  predicate OfPush(step: Step) {
    step.PushReserves? || step.PushChecks? || step.PushRefunds? || step.PushSends?
  }

  predicate OfStream(step: Step) {
    step.HeadWritten? || step.Receive? || step.Release? || step.FrameWritten? ||
    step.TimesOut? || step.BeatWritten? || step.Disconnects? || step.Detach?
  }

  predicate Enabled(st: State, step: Step) {
    match step
    case PushReserves(_) => true
    case PushChecks(i) => i < |st.pushes| && st.pushes[i].stage.Reserved?
    case PushRefunds(i) => i < |st.pushes| && st.pushes[i].stage.Overfull?
    case PushSends(i) => i < |st.pushes| && st.pushes[i].stage.Admitted?
    case Close => true
    case Attach => true
    case HeadWritten(s, _) => s < |st.streams| && st.streams[s].Opening?
    case Receive(s) => s < |st.streams| && st.streams[s].Waiting? && st.channel != []
    case Release(s) => s < |st.streams| && st.streams[s].Holding?
    case FrameWritten(s, _) => s < |st.streams| && st.streams[s].Writing?
    case TimesOut(s) => s < |st.streams| && st.streams[s].Waiting? && st.channel == [] && st.open
    case BeatWritten(s, _) => s < |st.streams| && st.streams[s].Beating?
    case Disconnects(s) => s < |st.streams| && st.streams[s].Waiting? && st.channel == [] && !st.open
    case Detach(s) => s < |st.streams| && (st.streams[s].Broken? || st.streams[s].Drained?)
  }

  function Next(st: State, step: Step): State
    requires Enabled(st, step)
  {
    match step
    case PushReserves(frame) =>
      st.(used := st.used + |frame|, pushes := st.pushes + [Push(frame, Reserved(st.used))])
    case PushChecks(i) =>
      var p := st.pushes[i];
      st.(pushes := st.pushes[i := p.(stage :=
            if st.capacity > 0 && p.stage.prior + |p.frame| > st.capacity then Overfull else Admitted)])
    case PushRefunds(i) =>
      st.(used := st.used - |st.pushes[i].frame|, pushes := st.pushes[i := st.pushes[i].(stage := Done(Err(Full)))])
    case PushSends(i) =>
      var p := st.pushes[i];
      if st.open then
        st.(channel := st.channel + [p.frame], accepted := st.accepted + [p.frame],
            pushes := st.pushes[i := p.(stage := Done(Ok(())))])
      else
        st.(used := st.used - |p.frame|, pushes := st.pushes[i := p.(stage := Done(Err(Closed)))])
    case Close => st.(open := false)
    case Attach =>
      if st.slot then st.(slot := false, streams := st.streams + [Opening])
      else st.(streams := st.streams + [Turned])
    case HeadWritten(s, ok) => st.(streams := st.streams[s := if ok then Waiting else Broken])
    case Receive(s) =>
      st.(channel := st.channel[1..], streams := st.streams[s := Holding(st.channel[0])])
    case Release(s) =>
      st.(used := st.used - |st.streams[s].frame|, streams := st.streams[s := Writing(st.streams[s].frame)])
    case FrameWritten(s, ok) =>
      st.(outcomes := st.outcomes + [Outcome(st.streams[s].frame, s, ok)],
          streams := st.streams[s := if ok then Waiting else Broken])
    case TimesOut(s) => st.(streams := st.streams[s := Beating])
    case BeatWritten(s, ok) => st.(streams := st.streams[s := if ok then Waiting else Broken])
    case Disconnects(s) => st.(streams := st.streams[s := Drained])
    case Detach(s) => st.(slot := true, streams := st.streams[s := Gone])
  }

  ghost predicate Reaches(st: State, steps: seq<Step>, st': State)
    decreases |steps|
  {
    if steps == [] then st' == st
    else Enabled(st, steps[0]) && Reaches(Next(st, steps[0]), steps[1..], st')
  }

  function Initial(capacity: nat): State {
    State(capacity, 0, true, [], true, [], [], [], [])
  }

  // ----- Byte credits

  /** Credit one push holds in the counter. */
  function Owed(p: Push): nat { if p.stage.Done? then 0 else |p.frame| }

  /** Credit of a push that passed, or will pass, its capacity check. */
  function Admittable(p: Push, capacity: nat): nat {
    match p.stage
    case Reserved(prior) => if capacity > 0 && prior + |p.frame| > capacity then 0 else |p.frame|
    case Admitted => |p.frame|
    case _ => 0
  }

  function AllOwed(pushes: seq<Push>): seq<nat> {
    seq(|pushes|, i requires 0 <= i < |pushes| => Owed(pushes[i]))
  }

  function AllAdmittable(pushes: seq<Push>, capacity: nat): seq<nat> {
    seq(|pushes|, i requires 0 <= i < |pushes| => Admittable(pushes[i], capacity))
  }

  function Lengths(frames: seq<Frame>): seq<nat> {
    seq(|frames|, i requires 0 <= i < |frames| => |frames[i]|)
  }

  function AllHeld(streams: seq<Phase>): seq<nat> {
    seq(|streams|, i requires 0 <= i < |streams| => if streams[i].Holding? then |streams[i].frame| else 0)
  }

  /** Bytes accepted into the queue and not yet released by a reader. */
  function Buffered(st: State): nat { Sum(Lengths(st.channel)) + Sum(AllHeld(st.streams)) }

  ghost predicate CreditInv(st: State) {
    && st.used == Sum(AllOwed(st.pushes)) + Buffered(st)
    && (st.capacity > 0 ==> Sum(AllAdmittable(st.pushes, st.capacity)) + Buffered(st) <= st.capacity)
    && Sum(AllAdmittable(st.pushes, st.capacity)) <= Sum(AllOwed(st.pushes))
  }

  lemma {:induction false} SumBelow(a: seq<nat>, b: seq<nat>)
    requires |a| == |b| && forall i :: 0 <= i < |a| ==> a[i] <= b[i]
    ensures Sum(a) <= Sum(b)
  {
    if a != [] {
      SumBelow(a[1..], b[1..]);
    }
  }

  lemma PushMoves(pushes: seq<Push>, i: nat, p: Push, capacity: nat)
    requires i < |pushes|
    ensures Sum(AllOwed(pushes[i := p])) == Sum(AllOwed(pushes)) - Owed(pushes[i]) + Owed(p)
    ensures Sum(AllAdmittable(pushes[i := p], capacity)) ==
            Sum(AllAdmittable(pushes, capacity)) - Admittable(pushes[i], capacity) + Admittable(p, capacity)
    ensures Sum(AllAdmittable(pushes[i := p], capacity)) <= Sum(AllOwed(pushes[i := p]))
  {
    SumUpdate(AllOwed(pushes), i, Owed(p));
    SumUpdate(AllAdmittable(pushes, capacity), i, Admittable(p, capacity));
    assert AllOwed(pushes[i := p]) == AllOwed(pushes)[i := Owed(p)];
    assert AllAdmittable(pushes[i := p], capacity) == AllAdmittable(pushes, capacity)[i := Admittable(p, capacity)];
    SumBelow(AllAdmittable(pushes[i := p], capacity), AllOwed(pushes[i := p]));
  }

  lemma SumOne(n: nat)
    ensures Sum([n]) == n
  {
    assert Sum([n][1..]) == 0;
  }

  lemma PushJoins(pushes: seq<Push>, p: Push, capacity: nat)
    ensures Sum(AllOwed(pushes + [p])) == Sum(AllOwed(pushes)) + Owed(p)
    ensures Sum(AllAdmittable(pushes + [p], capacity)) == Sum(AllAdmittable(pushes, capacity)) + Admittable(p, capacity)
    ensures Sum(AllAdmittable(pushes + [p], capacity)) <= Sum(AllOwed(pushes + [p]))
  {
    assert AllOwed(pushes + [p]) == AllOwed(pushes) + [Owed(p)];
    assert AllAdmittable(pushes + [p], capacity) == AllAdmittable(pushes, capacity) + [Admittable(p, capacity)];
    SumConcat(AllOwed(pushes), [Owed(p)]);
    SumConcat(AllAdmittable(pushes, capacity), [Admittable(p, capacity)]);
    SumOne(Owed(p));
    SumOne(Admittable(p, capacity));
    SumBelow(AllAdmittable(pushes + [p], capacity), AllOwed(pushes + [p]));
  }

  lemma StreamMoves(streams: seq<Phase>, s: nat, phase: Phase)
    requires s < |streams|
    ensures Sum(AllHeld(streams[s := phase])) ==
            Sum(AllHeld(streams)) - (if streams[s].Holding? then |streams[s].frame| else 0)
                                  + (if phase.Holding? then |phase.frame| else 0)
  {
    var held := if phase.Holding? then |phase.frame| else 0;
    SumUpdate(AllHeld(streams), s, held);
    assert AllHeld(streams[s := phase]) == AllHeld(streams)[s := held];
  }

  lemma FrameJoins(frames: seq<Frame>, frame: Frame)
    ensures Sum(Lengths(frames + [frame])) == Sum(Lengths(frames)) + |frame|
  {
    assert Lengths(frames + [frame]) == Lengths(frames) + [|frame|];
    SumConcat(Lengths(frames), [|frame|]);
    SumOne(|frame|);
  }

  lemma PushStepKeepsCredit(st: State, step: Step)
    requires CreditInv(st) && Enabled(st, step)
    requires OfPush(step)
    ensures CreditInv(Next(st, step))
  {
    var st' := Next(st, step);
    if step.PushReserves? {
      PushJoins(st.pushes, Push(step.frame, Reserved(st.used)), st.capacity);
    } else {
      PushMoves(st.pushes, step.i, st'.pushes[step.i], st.capacity);
      if step.PushSends? {
        FrameJoins(st.channel, st.pushes[step.i].frame);
      }
    }
  }

  lemma AttachKeepsCredit(st: State)
    requires CreditInv(st)
    ensures CreditInv(Next(st, Attach))
  {
    var st' := Next(st, Attach);
    assert AllHeld(st'.streams) == AllHeld(st.streams) + [0];
    SumConcat(AllHeld(st.streams), [0]);
    SumOne(0);
  }

  /** A stream takes the front frame: its bytes move from the channel to its hand. */
  lemma ReceiveKeepsCredit(st: State, s: nat)
    requires CreditInv(st) && Enabled(st, Receive(s))
    ensures CreditInv(Next(st, Receive(s)))
  {
    StreamMoves(st.streams, s, Holding(st.channel[0]));
    assert Lengths(st.channel)[1..] == Lengths(st.channel[1..]);
  }

  lemma StreamStepKeepsCredit(st: State, step: Step)
    requires CreditInv(st) && Enabled(st, step)
    requires !OfPush(step)
    ensures CreditInv(Next(st, step))
  {
    if step.Attach? {
      AttachKeepsCredit(st);
    } else if step.Receive? {
      ReceiveKeepsCredit(st, step.s);
    } else if OfStream(step) {
      StreamMoves(st.streams, step.s, Next(st, step).streams[step.s]);
    }
  }

  // ----- The receiver and the order of frames

  predicate HoldsReceiver(phase: Phase) { !phase.Turned? && !phase.Gone? }

  function InHand(phase: Phase): seq<Frame> {
    if phase.Holding? || phase.Writing? then [phase.frame] else []
  }

  function Frames(outcomes: seq<Outcome>): seq<Frame> {
    seq(|outcomes|, i requires 0 <= i < |outcomes| => outcomes[i].frame)
  }

  /** At most one stream holds the receiver, exactly when it is out of its slot. */
  ghost predicate ReceiverInv(st: State) {
    && (forall s :: 0 <= s < |st.streams| && HoldsReceiver(st.streams[s]) ==> !st.slot)
    && (forall s, t | 0 <= s < |st.streams| && 0 <= t < |st.streams| && HoldsReceiver(st.streams[s])
                      && HoldsReceiver(st.streams[t]) :: s == t)
    && (!st.slot ==> exists s :: 0 <= s < |st.streams| && HoldsReceiver(st.streams[s]))
  }

  /** What the streams took: every outcome in order, then the frame in hand. */
  ghost predicate TakenIs(st: State, taken: seq<Frame>) {
    && (st.slot ==> taken == Frames(st.outcomes))
    && (forall s :: 0 <= s < |st.streams| && HoldsReceiver(st.streams[s]) ==>
          taken == Frames(st.outcomes) + InHand(st.streams[s]))
  }

  ghost predicate OrderInv(st: State) {
    exists taken :: TakenIs(st, taken) && st.accepted == taken + st.channel
  }

  /** A stream's undelivered frame is its last, and the stream is finished. */
  ghost predicate LossInv(st: State) {
    && (forall i :: 0 <= i < |st.outcomes| ==> st.outcomes[i].stream < |st.streams|)
    && (forall i :: 0 <= i < |st.outcomes| && !st.outcomes[i].delivered ==>
          st.streams[st.outcomes[i].stream].Broken? || st.streams[st.outcomes[i].stream].Gone?)
    && (forall i, j :: 0 <= i < j < |st.outcomes| && !st.outcomes[i].delivered ==>
          st.outcomes[j].stream != st.outcomes[i].stream)
  }

  /** A stream that ended by disconnection left nothing behind, for good. */
  ghost predicate DrainInv(st: State) {
    forall s :: 0 <= s < |st.streams| && st.streams[s].Drained? ==> !st.open && st.channel == []
  }

  lemma StepKeepsReceiver(st: State, step: Step)
    requires ReceiverInv(st) && Enabled(st, step)
    ensures ReceiverInv(Next(st, step))
  {
    var st' := Next(st, step);
    if step.Attach? {
      if st.slot {
        assert HoldsReceiver(st'.streams[|st.streams|]);
      } else {
        var s :| 0 <= s < |st.streams| && HoldsReceiver(st.streams[s]);
        assert st'.streams[s] == st.streams[s];
      }
    } else if OfStream(step) {
      assert HoldsReceiver(st.streams[step.s]);
      assert step.Detach? || HoldsReceiver(st'.streams[step.s]);
    }
  }

  /** Every step but a receive and a frame write leaves what was taken alone. */
  lemma TakenKept(st: State, step: Step, taken: seq<Frame>)
    requires ReceiverInv(st) && TakenIs(st, taken) && Enabled(st, step)
    requires !step.Receive? && !step.FrameWritten?
    ensures TakenIs(Next(st, step), taken)
  {
    if OfStream(step) {
      assert HoldsReceiver(st.streams[step.s]);
    }
  }

  lemma ReceiveTakes(st: State, s: nat, taken: seq<Frame>)
    requires ReceiverInv(st) && TakenIs(st, taken) && Enabled(st, Receive(s))
    ensures TakenIs(Next(st, Receive(s)), taken + [st.channel[0]])
  {
    assert HoldsReceiver(st.streams[s]);
  }

  lemma WriteTakesNothing(st: State, s: nat, ok: bool, taken: seq<Frame>)
    requires ReceiverInv(st) && TakenIs(st, taken) && Enabled(st, FrameWritten(s, ok))
    ensures TakenIs(Next(st, FrameWritten(s, ok)), taken)
  {
    assert HoldsReceiver(st.streams[s]);
    assert Frames(Next(st, FrameWritten(s, ok)).outcomes) == Frames(st.outcomes) + [st.streams[s].frame];
  }

  lemma StepKeepsOrder(st: State, step: Step)
    requires ReceiverInv(st) && OrderInv(st) && Enabled(st, step)
    ensures OrderInv(Next(st, step))
  {
    var st' := Next(st, step);
    var taken :| TakenIs(st, taken) && st.accepted == taken + st.channel;
    if step.Receive? {
      ReceiveTakes(st, step.s, taken);
      Associates(taken, [st.channel[0]], st.channel[1..]);
      assert st.channel == [st.channel[0]] + st.channel[1..];
    } else if step.FrameWritten? {
      WriteTakesNothing(st, step.s, step.ok, taken);
    } else {
      TakenKept(st, step, taken);
      if step.PushSends? && st.open {
        Associates(taken, st.channel, [st.pushes[step.i].frame]);
      }
      assert st'.accepted == taken + st'.channel;
    }
  }

  lemma StepKeepsLoss(st: State, step: Step)
    requires LossInv(st) && Enabled(st, step)
    ensures LossInv(Next(st, step))
  {}

  lemma StepKeepsDrain(st: State, step: Step)
    requires ReceiverInv(st) && DrainInv(st) && Enabled(st, step)
    ensures DrainInv(Next(st, step))
  {}

  ghost predicate Inv(st: State) {
    CreditInv(st) && ReceiverInv(st) && OrderInv(st) && LossInv(st) && DrainInv(st)
  }

  lemma {:induction false} RunKeepsInv(st: State, steps: seq<Step>, st': State)
    requires Inv(st) && Reaches(st, steps, st')
    ensures Inv(st') && st'.capacity == st.capacity
    decreases |steps|
  {
    if steps != [] {
      var step := steps[0];
      if OfPush(step) {
        PushStepKeepsCredit(st, step);
      } else {
        StreamStepKeepsCredit(st, step);
      }
      StepKeepsReceiver(st, step);
      StepKeepsOrder(st, step);
      StepKeepsLoss(st, step);
      StepKeepsDrain(st, step);
      RunKeepsInv(Next(st, step), steps[1..], st');
    }
  }

  lemma InitialInv(capacity: nat)
    ensures Inv(Initial(capacity))
  {
    var st := Initial(capacity);
    assert TakenIs(st, []) && st.accepted == [] + st.channel;
  }

  /** Bytes never exceed a non-zero capacity, transient reservations included in the
      counter but not in the queue; with no push in progress the counter is exactly
      the buffered bytes, so refused pushes returned all their credit. */
  lemma CreditsAreConserved(capacity: nat, steps: seq<Step>, st: State)
    requires Reaches(Initial(capacity), steps, st)
    ensures capacity > 0 ==> Buffered(st) <= capacity
    ensures st.used >= Buffered(st)
    ensures (forall p :: p in st.pushes ==> p.stage.Done?) ==> st.used == Buffered(st)
  {
    InitialInv(capacity);
    RunKeepsInv(Initial(capacity), steps, st);
    if forall p :: p in st.pushes ==> p.stage.Done? {
      AllZero(AllOwed(st.pushes));
    }
  }

  lemma {:induction false} AllZero(xs: seq<nat>)
    requires forall i :: 0 <= i < |xs| ==> xs[i] == 0
    ensures Sum(xs) == 0
  {
    if xs != [] {
      AllZero(xs[1..]);
    }
  }

  /** Frames leave in the order they were accepted, none invented and none skipped;
      each stream loses at most its last frame; a stream ended by disconnection
      leaves an empty backlog. */
  lemma FramesInOrder(capacity: nat, steps: seq<Step>, st: State)
    requires Reaches(Initial(capacity), steps, st)
    ensures Frames(st.outcomes) <= st.accepted
    ensures st.slot ==> st.accepted == Frames(st.outcomes) + st.channel
    ensures |st.accepted| - |st.outcomes| - |st.channel| <= 1
    ensures forall i, j :: 0 <= i < j < |st.outcomes| && !st.outcomes[i].delivered ==>
              st.outcomes[j].stream != st.outcomes[i].stream
    ensures forall s, t | 0 <= s < |st.streams| && 0 <= t < |st.streams| && HoldsReceiver(st.streams[s])
                          && HoldsReceiver(st.streams[t]) :: s == t
    ensures forall s :: 0 <= s < |st.streams| && st.streams[s].Drained? ==> !st.open && st.channel == []
  {
    InitialInv(capacity);
    RunKeepsInv(Initial(capacity), steps, st);
    var taken :| TakenIs(st, taken) && st.accepted == taken + st.channel;
    if !st.slot {
      var s :| 0 <= s < |st.streams| && HoldsReceiver(st.streams[s]);
      assert taken == Frames(st.outcomes) + InHand(st.streams[s]);
    }
  }

  // ----- The queue object, one call at a time

  /** The `i`-th chunk of a stream over a backlog that nothing joins: its frames in
      order, then keep-alives. */
  function ChunkAt(backlog: seq<Frame>, i: nat): Sse.Chunk {
    if i < |backlog| then Sse.Message(backlog[i]) else Sse.KeepAlive
  }

  predicate Streams(backlog: seq<Frame>, writes: seq<bool>, chunks: seq<Sse.Chunk>) {
    |chunks| <= |writes| && forall i :: 0 <= i < |chunks| ==> writes[i] && chunks[i] == ChunkAt(backlog, i)
  }

  lemma {:induction false} BacklogStreams(backlog: seq<Frame>, writes: seq<bool>, chunks: seq<Sse.Chunk>)
    requires Streams(backlog, writes, chunks)
    ensures Sse.Payloads(chunks) == backlog[..Min(|chunks|, |backlog|)]
    decreases |chunks|
  {
    if chunks != [] {
      var last := |chunks| - 1;
      BacklogStreams(backlog, writes, chunks[..last]);
      LastApart(chunks);
      PayloadsJoin(chunks[..last], chunks[last]);
    }
  }

  /** What was sent, the frame lost to a broken write and what is left make up the backlog. */
  lemma BacklogSplits(backlog: seq<Frame>, writes: seq<bool>, chunks: seq<Sse.Chunk>, lost: seq<Frame>, taken: nat)
    requires Streams(backlog, writes, chunks) && (taken == |chunks| || taken == |chunks| + 1)
    requires lost == if taken > |chunks| && |chunks| < |backlog| then [backlog[|chunks|]] else []
    ensures backlog == Sse.Payloads(chunks) + lost + (if taken <= |backlog| then backlog[taken..] else [])
  {
    BacklogStreams(backlog, writes, chunks);
  }

  class Queue {
    var used: nat
    var open: bool
    var channel: seq<Frame>
    const capacity: nat

    ghost predicate Valid()
      reads this
    {
      used == Sum(Lengths(channel)) && (capacity > 0 ==> used <= capacity)
    }

    constructor (capacity: nat)
      ensures Valid() && open && channel == [] && this.capacity == capacity
    {
      used, open, channel, this.capacity := 0, true, [], capacity;
    }

    /** An uninterrupted push: refused without trace when the frame does not fit or
        the queue is closed, else last in the channel. */
    method Enqueue(frame: Frame) returns (result: Result<(), PushError>)
      requires Valid()
      modifies this`used, this`channel
      ensures Valid()
      ensures result ==
        if capacity > 0 && Sum(Lengths(old(channel) + [frame])) > capacity then Err(Full)
        else if open then Ok(()) else Err(Closed)
      ensures channel == if result.Ok? then old(channel) + [frame] else old(channel)
    {
      FrameJoins(channel, frame);
      var prior := used;
      used := used + |frame|;
      if capacity > 0 && prior + |frame| > capacity {
        used := used - |frame|;
        return Err(Full);
      }
      if open {
        channel := channel + [frame];
        result := Ok(());
      } else {
        used := used - |frame|;
        result := Err(Closed);
      }
    }

    /** One attached stream, given the outcome of each write it makes: frames leave
        from the front, an empty open queue is kept alive, and the stream ends at a
        broken write, at a drained closed queue, or with the script. While the queue is
        open every successful write is one chunk: the backlog's frames in order, then
        keep-alives. */
    method StreamEvents(writes: seq<bool>) returns (chunks: seq<Sse.Chunk>, lost: seq<Frame>, broke: bool)
      requires Valid()
      modifies this`used, this`channel
      ensures Valid()
      ensures old(channel) == Sse.Payloads(chunks) + lost + channel
      ensures |chunks| <= |writes|
      ensures forall i :: 0 <= i < |chunks| ==>
                writes[i] && chunks[i] == if i < |old(channel)| then Sse.Message(old(channel)[i]) else Sse.KeepAlive
      ensures broke ==> |chunks| < |writes| && !writes[|chunks|]
      ensures !broke ==> |chunks| == if open then |writes| else Min(|writes|, |old(channel)|)
      ensures lost == if broke && |chunks| < |old(channel)| then [old(channel)[|chunks|]] else []
    {
      chunks, lost, broke := [], [], false;
      ghost var backlog := channel;
      var k := 0;
      while k < |writes| && !broke && (channel != [] || open)
        invariant k <= |writes| && |chunks| + (if broke then 1 else 0) == k
        invariant Valid() && (open || k <= |backlog|)
        invariant Streams(backlog, writes, chunks) && (broke ==> !writes[|chunks|])
        invariant channel == if k <= |backlog| then backlog[k..] else []
        invariant lost == if broke && |chunks| < |backlog| then [backlog[|chunks|]] else []
        decreases |writes| - k
      {
        if channel != [] {
          var frame := TakeFront();
          if writes[k] {
            chunks := chunks + [Sse.Message(frame)];
          } else {
            lost, broke := [frame], true;
          }
        } else if writes[k] {
          chunks := chunks + [Sse.KeepAlive];
        } else {
          broke := true;
        }
        k := k + 1;
      }
      BacklogSplits(backlog, writes, chunks, lost, k);
    }

    /** Receive the front frame and return its credit. */
    method TakeFront() returns (frame: Frame)
      requires Valid() && channel != []
      modifies this`used, this`channel
      ensures Valid() && old(channel) == [frame] + channel
    {
      frame := channel[0];
      assert Lengths(channel)[1..] == Lengths(channel[1..]);
      channel := channel[1..];
      used := used - |frame|;
    }

    /** Refuse every later push; streams still drain the backlog. */
    method CloseQueue()
      requires Valid()
      modifies this`open
      ensures Valid() && !open
    {
      open := false;
    }

    /** A session's end with a stream attached: later pushes are refused, and the client
        gets exactly the backlog unless one of its writes breaks. */
    method CloseAndDrain(writes: seq<bool>) returns (chunks: seq<Sse.Chunk>, lost: seq<Frame>)
      requires Valid()
      modifies this
      ensures Valid() && !open && |lost| <= 1
      ensures old(channel) == Sse.Payloads(chunks) + lost + channel
      ensures false !in writes && |writes| > |old(channel)| ==> Sse.Payloads(chunks) == old(channel) && channel == []
    {
      CloseQueue();
      var broke;
      chunks, lost, broke := StreamEvents(writes);
      BacklogStreams(old(channel), writes, chunks);
    }
  }

  lemma {:induction false} PayloadsJoin(chunks: seq<Sse.Chunk>, chunk: Sse.Chunk)
    ensures Sse.Payloads(chunks + [chunk]) ==
            Sse.Payloads(chunks) + (if chunk.Message? then [chunk.payload] else [])
  {
    if chunks == [] {
      assert chunks + [chunk] == [chunk];
      assert Sse.Payloads([chunk][1..]) == [];
    } else {
      assert (chunks + [chunk])[1..] == chunks[1..] + [chunk];
      PayloadsJoin(chunks[1..], chunk);
      Associates(match chunks[0] case Message(payload) => [payload] case KeepAlive => [], Sse.Payloads(chunks[1..]),
                 if chunk.Message? then [chunk.payload] else []);
    }
  }

  lemma ReachesCons(st: State, step: Step, rest: seq<Step>, st': State)
    requires Enabled(st, step) && Reaches(Next(st, step), rest, st')
    ensures Reaches(st, [step] + rest, st')
  {
    assert ([step] + rest)[1..] == rest;
  }

  /** The last of the three steps, once the check has been made. */
  lemma PushEnds(st: State, frame: Frame, n: nat) returns (step: Step, st': State)
    requires n < |st.pushes| && st.pushes[n].frame == frame
    requires st.pushes[n].stage.Overfull? || st.pushes[n].stage.Admitted?
    ensures Enabled(st, step) && st' == Next(st, step) && OfPush(step)
    ensures var refused := st.pushes[n].stage.Overfull?;
            && st'.channel == (if !refused && st.open then st.channel + [frame] else st.channel)
            && st'.pushes == st.pushes[n := Push(frame, Done(if refused then Err(Full)
                                                             else if st.open then Ok(()) else Err(Closed)))]
            && st'.used == st.used - (if !refused && st.open then 0 else |frame|)
  {
    step := if st.pushes[n].stage.Overfull? then PushRefunds(n) else PushSends(n);
    st' := Next(st, step);
  }

  /** The first two of the three: the length is added and checked. */
  lemma PushStarts(st: State, frame: Frame) returns (st1: State, st2: State)
    requires CreditInv(st) && forall p :: p in st.pushes ==> p.stage.Done?
    ensures Enabled(st, PushReserves(frame)) && st1 == Next(st, PushReserves(frame))
    ensures Enabled(st1, PushChecks(|st.pushes|)) && st2 == Next(st1, PushChecks(|st.pushes|))
    ensures var fits := st.capacity == 0 || Buffered(st) + |frame| <= st.capacity;
            && st2.pushes == st.pushes + [Push(frame, if fits then Admitted else Overfull)]
            && st2.used == st.used + |frame| && st2.channel == st.channel && st2.open == st.open
  {
    AllZero(AllOwed(st.pushes));
    st1 := Next(st, PushReserves(frame));
    st2 := Next(st1, PushChecks(|st.pushes|));
  }

  lemma ReachesThree(st: State, a: Step, b: Step, c: Step)
    requires Enabled(st, a) && Enabled(Next(st, a), b) && Enabled(Next(Next(st, a), b), c)
    ensures Reaches(st, [a] + ([b] + [c]), Next(Next(Next(st, a), b), c))
  {
    var st1 := Next(st, a);
    var st2 := Next(st1, b);
    var st3 := Next(st2, c);
    assert [c][1..] == [] && Reaches(st3, [], st3);
    ReachesCons(st1, b, [c], st3);
    ReachesCons(st, a, [b] + [c], st3);
  }

  /** The uninterrupted push is three steps of the concurrent queue. */
  lemma EnqueueIsAPush(st: State, frame: Frame) returns (steps: seq<Step>, st': State)
    requires CreditInv(st) && forall p :: p in st.pushes ==> p.stage.Done?
    ensures Reaches(st, steps, st')
    ensures var fits := st.capacity == 0 || Buffered(st) + |frame| <= st.capacity;
            && st'.channel == (if fits && st.open then st.channel + [frame] else st.channel)
            && st'.pushes == st.pushes + [Push(frame, Done(if !fits then Err(Full)
                                                           else if st.open then Ok(()) else Err(Closed)))]
            && st'.used == st.used + (if fits && st.open then |frame| else 0)
  {
    var n := |st.pushes|;
    var st1, st2 := PushStarts(st, frame);
    var last;
    last, st' := PushEnds(st2, frame, n);
    ReachesThree(st, PushReserves(frame), PushChecks(n), last);
    steps := [PushReserves(frame)] + ([PushChecks(n)] + [last]);
  }

  /** A new queue takes its first frame, within the capacity or without one. */
  lemma NewQueueIsOpen(capacity: nat, frame: Frame)
    requires capacity == 0 || |frame| <= capacity
    ensures var checked := Next(Next(Initial(capacity), PushReserves(frame)), PushChecks(0));
            && Enabled(checked, PushSends(0)) && Next(checked, PushSends(0)).channel == [frame]
            && Next(checked, PushSends(0)).pushes == [Push(frame, Done(Ok(())))]
  {}

  /** A queue can be closed in any state; from then on it takes no frame, whatever stage a
      push had reached, and keeps what it holds. */
  lemma ClosedQueueRefuses(st: State, i: nat)
    ensures Enabled(st, Close) && Next(st, Close) == st.(open := false)
    ensures Enabled(Next(st, Close), PushSends(i)) ==>
              var sent := Next(Next(st, Close), PushSends(i));
              sent.channel == st.channel && sent.pushes[i].stage == Done(Err(Closed))
  {}

  // ----- What an attached stream gets done

  lemma {:induction false} ReachesTrans(st: State, first: seq<Step>, mid: State, rest: seq<Step>, st': State)
    requires Reaches(st, first, mid) && Reaches(mid, rest, st')
    ensures Reaches(st, first + rest, st')
    decreases |first|
  {
    if first == [] {
      assert first + rest == rest;
    } else {
      assert (first + rest)[1..] == first[1..] + rest;
      ReachesTrans(Next(st, first[0]), first[1..], mid, rest, st');
    }
  }

  /** A stream that found the receiver in its slot holds it and, once its head is written,
      waits for frames; any other is turned away and changes nothing. */
  lemma AttachTakesReceiver(st: State)
    ensures var s := |st.streams|;
            if st.slot then
              && Enabled(Next(st, Attach), HeadWritten(s, true))
              && Next(Next(st, Attach), HeadWritten(s, true)) == st.(slot := false, streams := st.streams + [Waiting])
            else Next(st, Attach) == st.(streams := st.streams + [Turned])
  {
    var s := |st.streams|;
    assert (st.streams + [Opening])[s := Waiting] == st.streams + [Waiting];
  }

  /** A waiting stream takes the front frame, returns its credit and writes it; when the
      write breaks, the receiver goes back for the next stream and the rest stays queued. */
  lemma FrontIsWritten(st: State, s: nat, ok: bool)
    requires s < |st.streams| && st.streams[s].Waiting? && st.channel != []
    ensures var written := Next(Next(Next(st, Receive(s)), Release(s)), FrameWritten(s, ok));
            && Reaches(st, [Receive(s)] + ([Release(s)] + [FrameWritten(s, ok)]), written)
            && written == st.(channel := st.channel[1..], used := st.used - |st.channel[0]|,
                              outcomes := st.outcomes + [Outcome(st.channel[0], s, ok)],
                              streams := st.streams[s := if ok then Waiting else Broken])
            && (!ok ==> Enabled(written, Detach(s)) &&
                        Next(written, Detach(s)) == written.(slot := true, streams := st.streams[s := Gone]))
  {
    ReachesThree(st, Receive(s), Release(s), FrameWritten(s, ok));
    var frame := st.channel[0];
    assert st.streams[s := Holding(frame)][s := Writing(frame)] == st.streams[s := Writing(frame)];
    assert st.streams[s := Writing(frame)][s := if ok then Waiting else Broken] ==
           st.streams[s := if ok then Waiting else Broken];
    assert st.streams[s := Broken][s := Gone] == st.streams[s := Gone];
  }

  function Delivered(frames: seq<Frame>, s: nat): seq<Outcome> {
    if frames == [] then [] else [Outcome(frames[0], s, true)] + Delivered(frames[1..], s)
  }

  /** From every state a waiting stream whose writes succeed delivers the whole backlog, in
      order, and returns all its credit. */
  lemma {:induction false} StreamDrains(st: State, s: nat) returns (steps: seq<Step>, st': State)
    requires s < |st.streams| && st.streams[s].Waiting?
    ensures Reaches(st, steps, st')
    ensures st' == st.(channel := [], used := st.used - Sum(Lengths(st.channel)),
                       outcomes := st.outcomes + Delivered(st.channel, s))
    decreases |st.channel|
  {
    if st.channel == [] {
      steps, st' := [], st;
      assert st.outcomes + [] == st.outcomes && Lengths([]) == [];
    } else {
      FrontIsWritten(st, s, true);
      var first := [Receive(s)] + ([Release(s)] + [FrameWritten(s, true)]);
      var mid := Next(Next(Next(st, Receive(s)), Release(s)), FrameWritten(s, true));
      assert st.streams[s := Waiting] == st.streams;
      var rest;
      rest, st' := StreamDrains(mid, s);
      assert Lengths(st.channel)[1..] == Lengths(st.channel[1..]);
      Associates(st.outcomes, [Outcome(st.channel[0], s, true)], Delivered(st.channel[1..], s));
      ReachesTrans(st, first, mid, rest, st');
      steps := first + rest;
    }
  }

  /** With nothing queued a waiting stream of an open queue writes a keep-alive and waits on;
      that of a closed one ends and hands the receiver back. */
  lemma IdleStreamBeatsOrEnds(st: State, s: nat)
    requires s < |st.streams| && st.streams[s].Waiting? && st.channel == []
    ensures st.open ==> Enabled(st, TimesOut(s)) && Enabled(Next(st, TimesOut(s)), BeatWritten(s, true)) &&
                        Next(Next(st, TimesOut(s)), BeatWritten(s, true)) == st
    ensures !st.open ==> Enabled(st, Disconnects(s)) && Enabled(Next(st, Disconnects(s)), Detach(s)) &&
                         Next(Next(st, Disconnects(s)), Detach(s)) ==
                         st.(slot := true, streams := st.streams[s := Gone])
  {
    assert st.streams[s := Beating][s := Waiting] == st.streams;
    assert st.streams[s := Drained][s := Gone] == st.streams[s := Gone];
  }
}
