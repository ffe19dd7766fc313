/** What a subscribed consumer's channel carries, over every interleaving of
    SessionProtocol. */
module SessionSubscribe {
  import opened Prelude
  import opened SessionLog
  import opened SessionProtocol

  /** The session's facts a channel carried, as the log would store them. */
  function Seen(sent: seq<Delivery>, s: SessionId): seq<Event> {
    if sent == [] then []
    else (if sent[0].session == s then [Stored(sent[0].event)] else []) + Seen(sent[1..], s)
  }

  lemma {:induction false} SeenConcat(a: seq<Delivery>, b: seq<Delivery>, s: SessionId)
    ensures Seen(a + b, s) == Seen(a, s) + Seen(b, s)
  {
    if a == [] {
      assert a + b == b;
    } else {
      assert (a + b)[1..] == a[1..] + b;
      SeenConcat(a[1..], b, s);
      Associates(if a[0].session == s then [Stored(a[0].event)] else [], Seen(a[1..], s), Seen(b, s));
    }
  }

  lemma {:induction false} SeenDeliveries(t: SessionId, events: seq<Event>, s: SessionId)
    requires forall i :: 0 <= i < |events| ==> Stored(events[i]) == events[i]
    ensures Seen(Deliveries(t, events), s) == if t == s then events else []
  {
    if events != [] {
      assert Deliveries(t, events)[1..] == Deliveries(t, events[1..]);
      SeenDeliveries(t, events[1..], s);
    }
  }

  lemma SeenSnoc(sent: seq<Delivery>, d: Delivery, s: SessionId)
    ensures Seen(sent + [d], s) == Seen(sent, s) + if d.session == s then [Stored(d.event)] else []
  {
    SeenConcat(sent, [d], s);
    assert Seen([d], s) == (if d.session == s then [Stored(d.event)] else []) + Seen([], s);
  }

  /** One session's log beside what one consumer has seen of it. */
  datatype View = View(log: seq<Event>, seen: seq<Event>)

  function ViewOf(sh: Shared, c: ConsumerId, s: SessionId): View {
    View(sh.Log(s), Seen(sh.Channel(c), s))
  }

  /** The log and the consumer grow by the same facts, except for `missed` facts
      the consumer never receives. */
  predicate Advances(v: View, w: View, missed: nat) {
    && v.log <= w.log
    && v.seen <= w.seen
    && |w.log| - |v.log| == |w.seen| - |v.seen| + missed
    && (missed == 0 ==> w.seen == v.seen + w.log[|v.log|..])
  }

  lemma AdvancesTrans(u: View, v: View, w: View, m: nat, n: nat)
    requires Advances(u, v, m) && Advances(v, w, n)
    ensures Advances(u, w, m + n)
  {
    assert w.log[|u.log|..] == v.log[|u.log|..] + w.log[|v.log|..];
  }

  predicate Following(sh: Shared, c: ConsumerId, s: SessionId) {
    s in sh.live && c in sh.live[s].subscribers && c in sh.channels
  }

  /** A locked append to any session keeps every follower in step. */
  lemma LockedAppend(sh: Shared, t: SessionId, kind: Kind, size: nat, c: ConsumerId, s: SessionId)
    requires Following(sh, c, s)
    ensures var sh' := AppendFact(sh, t, kind, size, true);
            Following(sh', c, s) && Advances(ViewOf(sh, c, s), ViewOf(sh', c, s), 0)
  {
    var sh' := AppendFact(sh, t, kind, size, true);
    var event := Stamp(sh, t, kind, size);
    SeenSnoc(sh.Channel(c), Delivery(t, event), s);
    assert t != s ==> sh'.Log(s) == sh.Log(s);
    assert t == s ==> sh'.Log(s) == sh.Log(s) + [Stored(event)];
    assert sh'.Channel(c) == sh.Channel(c) ||
           sh'.Channel(c) == sh.Channel(c) + [Delivery(t, event)];
  }

  lemma DrainAdvances(sh: Shared, t: SessionId, skipIdle: bool, kind: Kind, size: nat, stored: bool,
                      c: ConsumerId, s: SessionId)
    requires Following(sh, c, s)
    ensures var sh' := Drain(sh, t, skipIdle, kind, size, stored).0;
            Following(sh', c, s) && Advances(ViewOf(sh, c, s), ViewOf(sh', c, s), 0)
  {
    var (marked, fact) := Accepted(sh, t, kind);
    assert Following(marked, c, s) && ViewOf(marked, c, s) == ViewOf(sh, c, s);
    if !Dropped(sh, t, skipIdle, kind) && stored {
      LockedAppend(marked, t, fact, size, c, s);
    }
  }

  /** A subscribe by another consumer, or to another session, shows this consumer nothing
      of this session. */
  lemma OtherSubscribeUnseen(sh: Shared, d: ConsumerId, t: SessionId, lastSeen: nat, c: ConsumerId, s: SessionId)
    requires Durable(sh.Log(t)) && (d != c || t != s)
    ensures Seen(Subscribe(sh, d, t, lastSeen).Channel(c), s) == Seen(sh.Channel(c), s)
  {
    ReplayIsPrefix(sh.Log(t), lastSeen);
    var replayed := if Truncated(sh.Log(t), lastSeen) then [] else Replay(sh.Log(t), lastSeen);
    SeenConcat(sh.Channel(c), Deliveries(t, replayed), s);
    SeenDeliveries(t, replayed, s);
    if d == c {
      assert Seen(sh.Channel(c), s) + [] == Seen(sh.Channel(c), s);
    }
  }

  lemma SubscribeAdvances(sh: Shared, d: ConsumerId, t: SessionId, lastSeen: nat, c: ConsumerId, s: SessionId)
    requires Following(sh, c, s) && Durable(sh.Log(t)) && (d != c || t != s)
    ensures var sh' := Subscribe(sh, d, t, lastSeen);
            Following(sh', c, s) && ViewOf(sh', c, s) == ViewOf(sh, c, s)
  {
    OtherSubscribeUnseen(sh, d, t, lastSeen, c, s);
  }

  /** The step leaves the subscription alone: it neither takes the session out of `live`
      nor replaces its entry by that of another create, nor subscribes the consumer again,
      nor restores a checkpoint of the session. */
  predicate Undisturbed(st: State, step: Step, c: ConsumerId, s: SessionId) {
    && (step.CloseTake? ==> step.session != s)
    && (step.CreateInsert? && st.command.Creating? ==> st.command.session != s)
    && (step.Subscribes? ==> step.consumer != c || step.session != s)
    && (step.RestoreAppend? ==> step.session != s)
    && (step.RestoreBroadcast? && st.command.Restoring? ==> st.command.session != s)
  }

  ghost predicate UndisturbedRun(st: State, steps: seq<Step>, c: ConsumerId, s: SessionId)
    decreases |steps|
  {
    steps != [] && Enabled(st, steps[0]) ==>
      Undisturbed(st, steps[0], c, s) && UndisturbedRun(Next(st, steps[0]), steps[1..], c, s)
  }

  /** A fact written without delivering it: a shutdown mark, or the `session.created` of
      a further create that gets the session's id. */
  predicate Silent(st: State, step: Step, s: SessionId) {
    || (step.ShutdownMark? && step.session == s)
    || (step.CreateFact? && step.stored && st.command.Creating? && st.command.session == s)
  }

  function Undelivered(st: State, steps: seq<Step>, s: SessionId): nat
    decreases |steps|
  {
    if steps == [] || !Enabled(st, steps[0]) then 0
    else (if Silent(st, steps[0], s) then 1 else 0) + Undelivered(Next(st, steps[0]), steps[1..], s)
  }

  lemma StartAdvances(st: State, step: Step, c: ConsumerId, s: SessionId)
    requires CommandInv(st) && Following(st.shared, c, s) && Enabled(st, step) && Undisturbed(st, step, c, s)
    requires Starts(step)
    ensures Following(Next(st, step).shared, c, s)
    ensures Advances(ViewOf(st.shared, c, s), ViewOf(Next(st, step).shared, c, s),
                     if Silent(st, step, s) then 1 else 0)
  {
    StartWrites(st, step);
    var sh' := Next(st, step).shared;
    assert sh'.channels == st.shared.channels;
    assert !Silent(st, step, s) ==> sh'.Log(s) == st.shared.Log(s);
    assert Silent(st, step, s) ==> |sh'.Log(s)| == |st.shared.Log(s)| + 1;
  }

  lemma CommandStepAdvances(st: State, step: Step, c: ConsumerId, s: SessionId)
    requires CommandInv(st) && Following(st.shared, c, s) && Enabled(st, step) && Undisturbed(st, step, c, s)
    requires (!Pumps(step) || step.PumpEnds?) && !Starts(step) && !step.Subscribes?
    requires !step.ShutdownMark? && !step.RestoreBroadcast?
    ensures Following(Next(st, step).shared, c, s)
    ensures ViewOf(Next(st, step).shared, c, s) == ViewOf(st.shared, c, s)
  {}

  lemma FollowUpAdvances(st: State, step: Step, c: ConsumerId, s: SessionId)
    requires Following(st.shared, c, s) && Enabled(st, step) && (step.PumpCheckpoint? || step.PumpQuota?)
    ensures Following(Next(st, step).shared, c, s)
    ensures Advances(ViewOf(st.shared, c, s), ViewOf(Next(st, step).shared, c, s), 0)
  {
    var thread := st.pumps[step.thread];
    var fact := if step.PumpCheckpoint? then CheckpointCreated(thread.pump.run) else QuotaObserved;
    LockedAppend(st.shared, thread.session, fact, step.size, c, s);
  }

  lemma ShutdownAdvances(st: State, t: SessionId, size: nat, c: ConsumerId, s: SessionId)
    requires Following(st.shared, c, s) && Enabled(st, ShutdownMark(t, size))
    ensures var sh' := Next(st, ShutdownMark(t, size)).shared;
            && Following(sh', c, s)
            && Advances(ViewOf(st.shared, c, s), ViewOf(sh', c, s), if t == s then 1 else 0)
  {
    assert t != s ==> Next(st, ShutdownMark(t, size)).shared.Log(s) == st.shared.Log(s);
  }

  lemma StepAdvances(st: State, step: Step, c: ConsumerId, s: SessionId)
    requires Inv(st) && Following(st.shared, c, s) && Enabled(st, step) && Undisturbed(st, step, c, s)
    ensures Following(Next(st, step).shared, c, s)
    ensures Advances(ViewOf(st.shared, c, s), ViewOf(Next(st, step).shared, c, s),
                     if Silent(st, step, s) then 1 else 0)
  {
    if Starts(step) {
      StartAdvances(st, step, c, s);
    } else if step.PumpTakes? {
      var thread := st.pumps[step.thread];
      DrainAdvances(st.shared, thread.session, thread.pump.skipIdle, step.kind, step.size, step.stored, c, s);
    } else if step.PumpCheckpoint? || step.PumpQuota? {
      FollowUpAdvances(st, step, c, s);
    } else if step.Subscribes? {
      assert LogInv(st, step.session);
      SubscribeAdvances(st.shared, step.consumer, step.session, step.lastSeen, c, s);
    } else if step.RestoreBroadcast? {
      SeenSnoc(st.shared.Channel(c), Delivery(st.command.session, st.command.event), s);
    } else if step.ShutdownMark? {
      ShutdownAdvances(st, step.session, step.size, c, s);
    } else {
      CommandStepAdvances(st, step, c, s);
    }
  }

  lemma {:induction false} RunAdvances(st: State, steps: seq<Step>, st': State, c: ConsumerId, s: SessionId)
    requires Inv(st) && Following(st.shared, c, s) && Reaches(st, steps, st') && UndisturbedRun(st, steps, c, s)
    ensures Advances(ViewOf(st.shared, c, s), ViewOf(st'.shared, c, s), Undelivered(st, steps, s))
    decreases |steps|
  {
    if steps != [] {
      var mid := Next(st, steps[0]);
      StepAdvances(st, steps[0], c, s);
      StepKeepsInv(st, steps[0]);
      RunAdvances(mid, steps[1..], st', c, s);
      AdvancesTrans(ViewOf(st.shared, c, s), ViewOf(mid.shared, c, s), ViewOf(st'.shared, c, s),
                    if Silent(st, steps[0], s) then 1 else 0, Undelivered(mid, steps[1..], s));
    }
  }

  /** The subscribe itself replays exactly the log from the stream base on, whether the
      session is live or not; a live one the consumer then follows. */
  lemma SubscribeReplays(sh: Shared, c: ConsumerId, s: SessionId, lastSeen: nat)
    requires Durable(sh.Log(s))
    ensures var sh' := Subscribe(sh, c, s, lastSeen);
            && Seen(sh'.Channel(c), s) == Seen(sh.Channel(c), s) + sh.Log(s)[StreamBase(sh.Log(s), lastSeen)..]
            && (Following(sh', c, s) <==> s in sh.live)
            && sh'.log == sh.log && sh'.rows == sh.rows && sh'.answers == sh.answers
            && sh'.live == (if s in sh.live
                            then sh.live[s := sh.live[s].(subscribers := sh.live[s].subscribers + {c})] else sh.live)
  {
    SubscribeSends(sh, c, s, lastSeen);
    var events := sh.Log(s);
    var replayed := events[StreamBase(events, lastSeen)..];
    SeenConcat(sh.Channel(c), Deliveries(s, replayed), s);
    SeenDeliveries(s, replayed, s);
  }

  /** From a subscription's replay on, seeing the log's suffix means missing nothing. */
  lemma SuffixSeen(u: View, v: View, w: View, base: nat, missed: nat)
    requires base <= |u.log| && v.log == u.log && v.seen == u.seen + u.log[base..]
    requires Advances(v, w, missed)
    ensures missed == 0 <==> w.seen == u.seen + w.log[base..]
  {
    assert w.log[base..] == u.log[base..] + w.log[|u.log|..];
  }

  /** What a consumer receives from a subscription on, over every interleaving, is
      the contiguous, duplicate-free run of the log from the stream base to the
      head, exactly when no fact was written silently meanwhile: no shutdown mark and no
      further creation of the same id. */
  lemma SubscriberSeesContiguousRun(st: State, c: ConsumerId, s: SessionId, lastSeen: nat,
                                    steps: seq<Step>, st': State)
    requires Inv(st) && s in st.shared.live
    requires Enabled(st, Subscribes(c, s, lastSeen))
    requires Reaches(Next(st, Subscribes(c, s, lastSeen)), steps, st')
    requires UndisturbedRun(Next(st, Subscribes(c, s, lastSeen)), steps, c, s)
    ensures var base := StreamBase(st.shared.Log(s), lastSeen);
            var events := st'.shared.Log(s);
            && base <= |events| && Contiguous(events)
            && (Undelivered(Next(st, Subscribes(c, s, lastSeen)), steps, s) == 0 <==>
                Seen(st'.shared.Channel(c), s) == Seen(st.shared.Channel(c), s) + events[base..])
  {
    var subscribed := Next(st, Subscribes(c, s, lastSeen));
    assert LogInv(st, s);
    SubscribeReplays(st.shared, c, s, lastSeen);
    StepKeepsInv(st, Subscribes(c, s, lastSeen));
    RunAdvances(subscribed, steps, st', c, s);
    SuffixSeen(ViewOf(st.shared, c, s), ViewOf(subscribed.shared, c, s), ViewOf(st'.shared, c, s),
               StreamBase(st.shared.Log(s), lastSeen), Undelivered(subscribed, steps, s));
    RunKeepsInv(subscribed, steps, st');
    assert LogInv(st', s);
  }

  // ----- Where a subscription ends

  /** The session's live entry, if any, does not list the consumer. */
  predicate Deaf(sh: Shared, c: ConsumerId, s: SessionId) {
    s in sh.live ==> c !in sh.live[s].subscribers
  }

  /** Same live entry as far as the consumer is concerned, and nothing new of the session. */
  predicate HearsNothing(sh: Shared, sh': Shared, c: ConsumerId, s: SessionId) {
    Deaf(sh', c, s) && Seen(sh'.Channel(c), s) == Seen(sh.Channel(c), s)
  }

  lemma BroadcastPasses(sh: Shared, t: SessionId, e: Event, c: ConsumerId, s: SessionId)
    requires Deaf(sh, c, s)
    ensures HearsNothing(sh, Broadcast(sh, t, e), c, s)
  {
    SeenSnoc(sh.Channel(c), Delivery(t, e), s);
  }

  lemma DrainPasses(sh: Shared, t: SessionId, skipIdle: bool, kind: Kind, size: nat, stored: bool,
                    c: ConsumerId, s: SessionId)
    requires Deaf(sh, c, s)
    ensures HearsNothing(sh, Drain(sh, t, skipIdle, kind, size, stored).0, c, s)
  {
    var (marked, fact) := Accepted(sh, t, kind);
    assert HearsNothing(sh, marked, c, s);
    if !Dropped(sh, t, skipIdle, kind) && stored {
      BroadcastPasses(Append(marked, t, fact, size), t, Stamp(marked, t, fact, size), c, s);
    }
  }

  lemma SubscribePasses(sh: Shared, d: ConsumerId, t: SessionId, lastSeen: nat, c: ConsumerId, s: SessionId)
    requires Deaf(sh, c, s) && Durable(sh.Log(t)) && (d != c || t != s)
    ensures HearsNothing(sh, Subscribe(sh, d, t, lastSeen), c, s)
  {
    OtherSubscribeUnseen(sh, d, t, lastSeen, c, s);
  }

  lemma FollowUpPasses(st: State, step: Step, c: ConsumerId, s: SessionId)
    requires Deaf(st.shared, c, s) && Enabled(st, step) && (step.PumpCheckpoint? || step.PumpQuota?)
    ensures HearsNothing(st.shared, Next(st, step).shared, c, s)
  {
    var thread := st.pumps[step.thread];
    var fact := if step.PumpCheckpoint? then CheckpointCreated(thread.pump.run) else QuotaObserved;
    BroadcastPasses(Append(st.shared, thread.session, fact, step.size), thread.session,
                    Stamp(st.shared, thread.session, fact, step.size), c, s);
  }

  lemma CommandPasses(st: State, step: Step, c: ConsumerId, s: SessionId)
    requires Deaf(st.shared, c, s) && Enabled(st, step) && (!Pumps(step) || step.PumpEnds?)
    requires !step.Subscribes? && !step.RestoreBroadcast?
    ensures HearsNothing(st.shared, Next(st, step).shared, c, s)
  {}

  predicate Resubscribes(step: Step, c: ConsumerId, s: SessionId) {
    step.Subscribes? && step.consumer == c && step.session == s
  }

  lemma StepPasses(st: State, step: Step, c: ConsumerId, s: SessionId)
    requires Inv(st) && Deaf(st.shared, c, s) && Enabled(st, step) && !Resubscribes(step, c, s)
    ensures HearsNothing(st.shared, Next(st, step).shared, c, s)
  {
    if step.PumpTakes? {
      var thread := st.pumps[step.thread];
      DrainPasses(st.shared, thread.session, thread.pump.skipIdle, step.kind, step.size, step.stored, c, s);
    } else if step.PumpCheckpoint? || step.PumpQuota? {
      FollowUpPasses(st, step, c, s);
    } else if step.Subscribes? {
      assert LogInv(st, step.session);
      SubscribePasses(st.shared, step.consumer, step.session, step.lastSeen, c, s);
    } else if step.RestoreBroadcast? {
      BroadcastPasses(st.shared, st.command.session, st.command.event, c, s);
    } else {
      CommandPasses(st, step, c, s);
    }
  }

  lemma {:induction false} RunPasses(st: State, steps: seq<Step>, st': State, c: ConsumerId, s: SessionId)
    requires Inv(st) && Deaf(st.shared, c, s) && Reaches(st, steps, st')
    requires forall step :: step in steps ==> !Resubscribes(step, c, s)
    ensures HearsNothing(st.shared, st'.shared, c, s)
    decreases |steps|
  {
    if steps != [] {
      StepPasses(st, steps[0], c, s);
      StepKeepsInv(st, steps[0]);
      RunPasses(Next(st, steps[0]), steps[1..], st', c, s);
    }
  }

  /** A subscription ends where `session.close` takes the session or where a further create
      of the same id replaces its entry: whatever the log gains afterwards, and however
      long the session stays live, the consumer hears nothing of it until it subscribes
      again. */
  lemma SubscriptionEnds(st: State, step: Step, steps: seq<Step>, st': State, c: ConsumerId, s: SessionId)
    requires Inv(st) && Enabled(st, step)
    requires step == CloseTake(s) || (step.CreateInsert? && st.command.session == s)
    requires Reaches(Next(st, step), steps, st') && forall step :: step in steps ==> !Resubscribes(step, c, s)
    ensures Seen(st'.shared.Channel(c), s) == Seen(st.shared.Channel(c), s)
  {
    StepKeepsInv(st, step);
    RunPasses(Next(st, step), steps, st', c, s);
  }

  /** The consumer's own session then goes on without it: from every state in which it
      follows a session and the command side is free, a further create of the id leaves the
      session live, with two more facts in the log and nothing on the channel. */
  lemma SecondCreateIsMissed(st: State, c: ConsumerId, s: SessionId, writes: bool, monitoring: bool)
    returns (steps: seq<Step>, st': State)
    requires Inv(st) && st.command.Ready? && Following(st.shared, c, s)
    ensures Reaches(st, steps, st') && s in st'.shared.live
    ensures |st'.shared.Log(s)| == |st.shared.Log(s)| + 2
    ensures st'.shared.Channel(c) == st.shared.Channel(c)
  {
    var first, mid := CreatesAndSpawns(st, s, writes, monitoring);
    var inserted := Next(mid, CreateInsert);
    var output := PumpTakes(st.next, RunOutput(""), 0, true);
    st' := Next(inserted, output);
    ReachesOne(inserted, output);
    ReachesCons(mid, CreateInsert, [output], st');
    ReachesTrans(st, first, mid, [CreateInsert] + [output], st');
    steps := first + ([CreateInsert] + [output]);
  }

  // ----- A subscribe during a checkpoint restore

  lemma BroadcastReachesFollower(sh: Shared, c: ConsumerId, s: SessionId, e: Event)
    requires Following(sh, c, s)
    ensures Broadcast(sh, s, e).Log(s) == sh.Log(s)
    ensures Seen(Broadcast(sh, s, e).Channel(c), s) == Seen(sh.Channel(c), s) + [Stored(e)]
  {
    SeenSnoc(sh.Channel(c), Delivery(s, e), s);
  }

  /** A cursor one behind the head replays the last event. */
  lemma OneBehind(events: seq<Event>)
    requires Durable(events) && 0 < |events| <= I64_LIMIT
    ensures StreamBase(events, |events| - 1) == |events| - 1
  {
    ReplayIsPrefix(events, |events| - 1);
    assert |events[|events| - 1..]| == 1;
  }

  /** After an undelivered append, subscribing from the old head follows and sees it. */
  lemma SubscribeOneBehind(sh: Shared, c: ConsumerId, s: SessionId, prefix: seq<Event>, e: Event)
    requires Durable(sh.Log(s)) && s in sh.live && sh.Log(s) == prefix + [e] && |prefix| < I64_LIMIT
    ensures var sh' := Subscribe(sh, c, s, |prefix|);
            && Following(sh', c, s) && sh'.Log(s) == prefix + [e]
            && Seen(sh'.Channel(c), s) == Seen(sh.Channel(c), s) + [e]
  {
    OneBehind(sh.Log(s));
    SubscribeReplays(sh, c, s, |prefix|);
    assert sh.Log(s)[|prefix|..] == [e];
  }

  /** Left alone, a checkpoint restore reaches a subscriber once. */
  lemma RestoreReachesFollower(st: State, c: ConsumerId, s: SessionId, size: nat)
    requires LogInv(st, s) && Enabled(st, RestoreAppend(s, size)) && Following(st.shared, c, s)
    ensures var st' := Next(Next(st, RestoreAppend(s, size)), RestoreBroadcast);
            var e := Event(|st.shared.Log(s)| + 1, CheckpointRestored, size);
            && st'.command.Ready? && st'.shared.Log(s) == st.shared.Log(s) + [e]
            && st'.shared.rows == st.shared.rows && Following(st'.shared, c, s)
            && Seen(st'.shared.Channel(c), s) == Seen(st.shared.Channel(c), s) + [e]
  {
    AppendDurable(st.shared, s, CheckpointRestored, size);
    var appended := Append(st.shared, s, CheckpointRestored, size);
    BroadcastReachesFollower(appended, c, s, Stamp(st.shared, s, CheckpointRestored, size));
  }

  /** A subscribe between a checkpoint restore's append and its broadcast. */
  lemma SubscribeDuringRestore(st: State, c: ConsumerId, s: SessionId, size: nat)
    returns (subscribe: Step, st1: State, st2: State)
    requires LogInv(st, s) && Enabled(st, RestoreAppend(s, size)) && s in st.shared.live
    requires |st.shared.Log(s)| < I64_LIMIT
    ensures st1 == Next(st, RestoreAppend(s, size)) && Enabled(st1, subscribe) && st2 == Next(st1, subscribe)
    ensures var e := Event(|st.shared.Log(s)| + 1, CheckpointRestored, size);
            && st2.command == Restoring(s, e) && Following(st2.shared, c, s)
            && st2.shared.Log(s) == st.shared.Log(s) + [e]
            && Seen(st2.shared.Channel(c), s) == Seen(st.shared.Channel(c), s) + [e]
  {
    var head := |st.shared.Log(s)|;
    var e := Stamp(st.shared, s, CheckpointRestored, size);
    AppendDurable(st.shared, s, CheckpointRestored, size);
    subscribe := Subscribes(c, s, head);
    st1 := Next(st, RestoreAppend(s, size));
    SubscribeOneBehind(st1.shared, c, s, st.shared.Log(s), e);
    st2 := Next(st1, subscribe);
  }

  lemma ThreeSteps(st: State, a: Step, b: Step, c: Step)
    requires Enabled(st, a) && Enabled(Next(st, a), b) && Enabled(Next(Next(st, a), b), c)
    ensures Reaches(st, [a] + ([b] + [c]), Next(Next(Next(st, a), b), c))
  {
    var st1 := Next(st, a);
    var st2 := Next(st1, b);
    ReachesOne(st2, c);
    ReachesCons(st1, b, [c], Next(st2, c));
    ReachesCons(st, a, [b] + [c], Next(st2, c));
  }

  /** A checkpoint restore appends outside the lock and broadcasts later, so a
      subscribe in between receives the fact twice. */
  lemma RestoreDeliversTwice(st: State, c: ConsumerId, s: SessionId, size: nat) returns (steps: seq<Step>, st': State)
    requires LogInv(st, s) && Enabled(st, RestoreAppend(s, size)) && s in st.shared.live
    requires |st.shared.Log(s)| < I64_LIMIT
    ensures Reaches(st, steps, st')
    ensures var e := Event(|st.shared.Log(s)| + 1, CheckpointRestored, size);
            && st'.shared.Log(s) == st.shared.Log(s) + [e]
            && Seen(st'.shared.Channel(c), s) == Seen(st.shared.Channel(c), s) + [e, e]
  {
    var subscribe, st1, st2 := SubscribeDuringRestore(st, c, s, size);
    var e := st2.command.event;
    ThreeSteps(st, RestoreAppend(s, size), subscribe, RestoreBroadcast);
    st' := Next(st2, RestoreBroadcast);
    BroadcastReachesFollower(st2.shared, c, s, e);
    Associates(Seen(st.shared.Channel(c), s), [e], [e]);
    steps := [RestoreAppend(s, size)] + ([subscribe] + [RestoreBroadcast]);
  }
}
