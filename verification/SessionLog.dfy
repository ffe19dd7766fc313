/** The durable Session Event Log and the state one runtime shares under its
    `inner` lock: the log, the projected session rows, the live sessions, the
    consumer channels and the pending approval attributions. Every function here
    is one critical section; SessionProtocol interleaves them. */
module SessionLog {
  import opened Prelude
  import Paging

  type SessionId = string
  type ConsumerId = string
  type RequestId = string
  type RunId = string

  const MAX_REPLAY_EVENTS: nat := 256
  const MAX_REPLAY_BYTES: nat := 1024 * 1024

  datatype Status = Idle | Working | WaitingApproval | Compacting | Interrupted | Closed

  predicate InFlight(status: Status) { status in {Working, WaitingApproval, Compacting} }

  datatype Decision =
    | OptionId(id: string)
    | Text(text: string)
    | Answers(answers: map<string, seq<string>>)
    | Elicitation(content: Option<string>)  // None is JSON null

  /** The event kinds the runtime distinguishes; `RunOutput` stands for every
      message, tool, todo and error fact, which it only forwards. */
  datatype Kind =
    | SessionCreated
    | SessionStatus(status: Status)
    | SessionClosed
    | RunStarted(run: RunId)
    | RunCompleted(run: RunId)
    | ApprovalRequested(run: RunId, request: RequestId)
    | ApprovalResolved(request: RequestId, decision: Decision, answeredBy: ConsumerId)
    | CheckpointCreated(run: RunId)
    | CheckpointRestored
    | QuotaObserved
    | RunOutput(run: RunId)

  /** `size` is the length of the serialized payload the replay bound counts. */
  datatype Event = Event(seqNo: nat, kind: Kind, size: nat)

  datatype Delivery = Delivery(session: SessionId, event: Event)

  /** `pump` is the thread whose join handle the entry holds. */
  datatype LiveSession = LiveSession(
    subscribers: set<ConsumerId>, closed: bool, writes: bool, monitoring: bool, pump: nat)

  /** A pump thread between lock acquisitions: draining the adapter's stream, or
      carrying one completed run's follow-ups outside the lock. */
  datatype Pump = Draining(skipIdle: bool) | AfterRun(run: RunId, checkpoint: bool, quota: bool)

  datatype Shared = Shared(
    log: map<SessionId, seq<Event>>,
    rows: map<SessionId, Status>,
    live: map<SessionId, LiveSession>,
    channels: map<ConsumerId, seq<Delivery>>,
    answers: map<(SessionId, RequestId), ConsumerId>)
  {
    function Log(s: SessionId): seq<Event> { if s in log then log[s] else [] }

    function Channel(c: ConsumerId): seq<Delivery> { if c in channels then channels[c] else [] }
  }

  /** What an approval answer keeps of itself in a durable row. */
  function Scrub(kind: Kind): Kind {
    match kind
    case ApprovalResolved(request, decision, answeredBy) =>
      ApprovalResolved(request,
                       match decision {
                         case OptionId(id) => OptionId(id)
                         case Text(_) => Text("")
                         case Answers(answers) => Answers(map key | key in answers :: [])
                         case Elicitation(_) => Elicitation(None)
                       },
                       answeredBy)
    case _ => kind
  }

  function Stored(event: Event): Event { event.(kind := Scrub(event.kind)) }

  /** `COALESCE(MAX(seq), 0)`. */
  function MaxSeq(events: seq<Event>): nat {
    if events == [] then 0
    else
      var rest := MaxSeq(events[..|events| - 1]);
      var last := events[|events| - 1].seqNo;
      if rest < last then last else rest
  }

  /** The projection each appended fact makes on the session's row; a session
      without a row stays without one unless the fact creates it. */
  function Project(rows: map<SessionId, Status>, s: SessionId, kind: Kind): map<SessionId, Status> {
    match kind
    case SessionCreated => if s in rows then rows else rows[s := Idle]
    case SessionStatus(status) => if s in rows then rows[s := status] else rows
    case SessionClosed => if s in rows then rows[s := Closed] else rows
    case _ => rows
  }

  /** The event the store stamps: the next sequence number of the session. */
  function Stamp(sh: Shared, s: SessionId, kind: Kind, size: nat): Event {
    Event(MaxSeq(sh.Log(s)) + 1, kind, size)
  }

  function Append(sh: Shared, s: SessionId, kind: Kind, size: nat): Shared {
    sh.(log := sh.log[s := sh.Log(s) + [Stored(Stamp(sh, s, kind, size))]],
        rows := Project(sh.rows, s, kind))
  }

  /** Sends reach exactly the subscribers that have a channel. */
  function Broadcast(sh: Shared, s: SessionId, event: Event): Shared {
    if s !in sh.live then sh
    else sh.(channels := map c | c in sh.channels ::
               if c in sh.live[s].subscribers then sh.channels[c] + [Delivery(s, event)]
               else sh.channels[c])
  }

  /** Append under the `inner` lock and deliver before releasing it. */
  function AppendFact(sh: Shared, s: SessionId, kind: Kind, size: nat, stored: bool): Shared {
    if stored then Broadcast(Append(sh, s, kind, size), s, Stamp(sh, s, kind, size)) else sh
  }

  /** Whether the pump drops the adapter's fact without recording it. */
  predicate Dropped(sh: Shared, s: SessionId, skipIdle: bool, kind: Kind) {
    || kind.SessionCreated?
    || (kind == SessionStatus(Idle) && skipIdle)
    || (kind.SessionClosed? && (s !in sh.live || sh.live[s].closed))
  }

  /** What the pump changes before it appends: an adapter-initiated close marks
      the live entry; a resolved approval takes its registered consumer. */
  function Accepted(sh: Shared, s: SessionId, kind: Kind): (Shared, Kind) {
    match kind
    case SessionClosed =>
      (if s in sh.live then sh.(live := sh.live[s := sh.live[s].(closed := true)]) else sh, kind)
    case ApprovalResolved(request, decision, _) =>
      if (s, request) in sh.answers
      then (sh.(answers := sh.answers - {(s, request)}), kind.(answeredBy := sh.answers[(s, request)]))
      else (sh, kind)
    case _ => (sh, kind)
  }

  /** One iteration of the drain loop under the lock. `stored` is false when the
      append failed: the fact is lost but the loop goes on. */
  function Drain(sh: Shared, s: SessionId, skipIdle: bool, kind: Kind, size: nat, stored: bool): (Shared, Pump)
  {
    if Dropped(sh, s, skipIdle, kind) then
      (sh, Draining(skipIdle && kind != SessionStatus(Idle)))
    else
      var (marked, fact) := Accepted(sh, s, kind);
      (AppendFact(marked, s, fact, size, stored),
       if fact.RunCompleted? && s in marked.live
       then AfterRun(fact.run, marked.live[s].writes, marked.live[s].monitoring)
       else Draining(false))
  }

  /** The rows a cursor selects; the query casts it to a signed 64-bit number. */
  function EventsAfter(events: seq<Event>, after: nat): seq<Event> {
    Filter(events, (e: Event) => e.seqNo > AsI64(after))
  }

  function Sizes(events: seq<Event>): (sizes: seq<nat>)
    ensures |sizes| == |events|
  {
    seq(|events|, i requires 0 <= i < |events| => events[i].size)
  }

  function ReplayLength(events: seq<Event>, after: nat): (n: nat)
    ensures n <= |EventsAfter(events, after)|
  {
    Paging.PageLength(Sizes(EventsAfter(events, after)), MAX_REPLAY_EVENTS, MAX_REPLAY_BYTES)
  }

  function Replay(events: seq<Event>, after: nat): seq<Event> {
    EventsAfter(events, after)[..ReplayLength(events, after)]
  }

  predicate Truncated(events: seq<Event>, after: nat) {
    ReplayLength(events, after) < |EventsAfter(events, after)|
  }

  function Deliveries(s: SessionId, events: seq<Event>): (r: seq<Delivery>)
    ensures |r| == |events|
  {
    seq(|events|, i requires 0 <= i < |events| => Delivery(s, events[i]))
  }

  /** The consumer's channel, created on first use. */
  function Opened(sh: Shared, c: ConsumerId): Shared { sh.(channels := sh.channels[c := sh.Channel(c)]) }

  /** `session.subscribe` under the lock: open the channel, replay unless the lag
      exceeds the bounds, register with the live session. */
  function Subscribe(sh: Shared, c: ConsumerId, s: SessionId, lastSeen: nat): Shared {
    var replayed := if Truncated(sh.Log(s), lastSeen) then [] else Replay(sh.Log(s), lastSeen);
    sh.(channels := sh.channels[c := sh.Channel(c) + Deliveries(s, replayed)],
        live := if s in sh.live
                then sh.live[s := sh.live[s].(subscribers := sh.live[s].subscribers + {c})]
                else sh.live)
  }

  /** The first critical section of `session.close`: forget the session's pending
      attributions and take its live entry. */
  function TakeLive(sh: Shared, s: SessionId): Shared {
    sh.(answers := map key | key in sh.answers && key.0 != s :: sh.answers[key],
        live := sh.live - {s})
  }

  /** The runtime's shared object. Each method is one critical section, proved to
      make exactly the transition the functions above define. */
  class Runtime {
    var log: map<SessionId, seq<Event>>
    var rows: map<SessionId, Status>
    var live: map<SessionId, LiveSession>
    var channels: map<ConsumerId, seq<Delivery>>
    var answers: map<(SessionId, RequestId), ConsumerId>

    ghost function State(): Shared
      reads this
    {
      Shared(log, rows, live, channels, answers)
    }

    constructor ()
      ensures State() == Shared(map[], map[], map[], map[], map[])
    {
      log, rows, live, channels, answers := map[], map[], map[], map[], map[];
    }

    /** Insert the next event and keep the session row in step. */
    method AppendEvent(s: SessionId, kind: Kind, size: nat) returns (event: Event)
      modifies this`log, this`rows
      ensures State() == Append(old(State()), s, kind, size)
      ensures event == Stamp(old(State()), s, kind, size)
    {
      var events := if s in log then log[s] else [];
      var head: nat := 0;
      for i := 0 to |events|
        invariant head == MaxSeq(events[..i])
      {
        assert events[..i + 1][..i] == events[..i];
        if head < events[i].seqNo {
          head := events[i].seqNo;
        }
      }
      assert events[..|events|] == events;
      event := Event(head + 1, kind, size);
      log := log[s := events + [Stored(event)]];
      match kind {
        case SessionCreated =>
          if s !in rows {
            rows := rows[s := Idle];
          }
        case SessionStatus(status) =>
          if s in rows {
            rows := rows[s := status];
          }
        case SessionClosed =>
          if s in rows {
            rows := rows[s := Closed];
          }
        case _ =>
      }
    }

    /** Deliver one stamped event to every subscriber of the session. */
    method BroadcastEvent(s: SessionId, event: Event)
      modifies this`channels
      ensures State() == Broadcast(old(State()), s, event)
    {
      if s !in live {
        return;
      }
      var todo := live[s].subscribers;
      while todo != {}
        invariant todo <= live[s].subscribers
        invariant channels.Keys == old(channels).Keys
        invariant forall c :: c in channels ==>
          channels[c] == if c in live[s].subscribers - todo
                         then old(channels)[c] + [Delivery(s, event)] else old(channels)[c]
      {
        var c :| c in todo;
        if c in channels {
          channels := channels[c := channels[c] + [Delivery(s, event)]];
        }
        todo := todo - {c};
      }
    }

    /** The pump's locked append, also used for post-run facts. */
    method AppendAndBroadcast(s: SessionId, kind: Kind, size: nat, stored: bool)
      modifies this`log, this`rows, this`channels
      ensures State() == AppendFact(old(State()), s, kind, size, stored)
    {
      if stored {
        var event := AppendEvent(s, kind, size);
        BroadcastEvent(s, event);
      }
    }

    /** One drain-loop iteration; `scope` is the follow-up work carried out of the
        lock when the fact completed a run of a still-live session. */
    method DrainOne(s: SessionId, skipIdle: bool, kind: Kind, size: nat, stored: bool)
      returns (next: Pump)
      modifies this
      ensures (State(), next) == Drain(old(State()), s, skipIdle, kind, size, stored)
    {
      var fact := kind;
      match kind {
        case SessionCreated =>
          return Draining(skipIdle);
        case SessionStatus(status) =>
          if status == Idle && skipIdle {
            return Draining(false);
          }
        case SessionClosed =>
          if s !in live || live[s].closed {
            return Draining(skipIdle);
          }
          live := live[s := live[s].(closed := true)];
        case ApprovalResolved(request, decision, _) =>
          if (s, request) in answers {
            fact := ApprovalResolved(request, decision, answers[(s, request)]);
            answers := answers - {(s, request)};
          }
        case _ =>
      }
      AppendAndBroadcast(s, fact, size, stored);
      next := if fact.RunCompleted? && s in live
      then AfterRun(fact.run, live[s].writes, live[s].monitoring) else Draining(false);
    }

    /** Send each replayed event on the consumer's channel, in order. */
    method SendAll(c: ConsumerId, s: SessionId, events: seq<Event>)
      requires c in channels
      modifies this`channels
      ensures channels == old(channels)[c := old(channels)[c] + Deliveries(s, events)]
    {
      for i := 0 to |events|
        invariant c in channels && channels[c] == old(channels)[c] + Deliveries(s, events[..i])
        invariant channels == old(channels)[c := channels[c]]
      {
        channels := channels[c := channels[c] + [Delivery(s, events[i])]];
      }
      assert events[..|events|] == events;
    }

    /** The store's bounded replay of one session. */
    static method ReplayPage(events: seq<Event>, lastSeen: nat) returns (replayed: seq<Event>, truncated: bool)
      ensures replayed == Replay(events, lastSeen) && truncated == Truncated(events, lastSeen)
    {
      var found := EventsAfter(events, lastSeen);
      var n;
      n, truncated := Paging.TakePage(Sizes(found), MAX_REPLAY_EVENTS, MAX_REPLAY_BYTES);
      replayed := found[..n];
    }

    /** Open the consumer's channel and replay onto it, unless the lag is too large. */
    method ReplayTo(c: ConsumerId, s: SessionId, lastSeen: nat) returns (truncated: bool)
      modifies this`channels
      ensures var events := State().Log(s);
              && truncated == Truncated(events, lastSeen)
              && channels == old(channels)[c := (if c in old(channels) then old(channels)[c] else []) +
                                                Deliveries(s, if truncated then [] else Replay(events, lastSeen))]
    {
      if c !in channels {
        channels := channels[c := []];
      }
      var replayed;
      replayed, truncated := ReplayPage(if s in log then log[s] else [], lastSeen);
      SendAll(c, s, if truncated then [] else replayed);
    }

    /** Replay and registration under one lock acquisition; when the log cannot be
        read, only the consumer's channel has been opened. */
    method SubscribeConsumer(c: ConsumerId, s: SessionId, lastSeen: nat, readable: bool) returns (truncated: bool)
      modifies this`channels, this`live
      ensures State() == if readable then Subscribe(old(State()), c, s, lastSeen) else Opened(old(State()), c)
      ensures readable && Contiguous(old(State()).Log(s)) ==>
                var events := old(State()).Log(s);
                channels == old(channels)[c := old(State()).Channel(c) +
                                               Deliveries(s, events[StreamBase(events, lastSeen)..])]
      ensures readable ==> truncated == Truncated(old(State()).Log(s), lastSeen)
    {
      if !readable {
        channels := channels[c := if c in channels then channels[c] else []];
        return false;
      }
      truncated := ReplayTo(c, s, lastSeen);
      if Contiguous(old(State()).Log(s)) {
        SubscribeSends(old(State()), c, s, lastSeen);
      }
      if s in live {
        live := live[s := live[s].(subscribers := live[s].subscribers + {c})];
      }
    }

    /** Remove the live entry for `session.close`. */
    method TakeForClose(s: SessionId) returns (taken: Option<LiveSession>)
      modifies this`answers, this`live
      ensures State() == TakeLive(old(State()), s)
      ensures taken == if s in old(live) then Some(old(live)[s]) else None
    {
      answers := map key | key in answers && key.0 != s :: answers[key];
      taken := if s in live then Some(live[s]) else None;
      live := live - {s};
    }

    /** `session.close` while the session's pump has nothing left to record: a live session
        gets the fact when its adapter stops and did not close it itself, a session that is
        not live when its row is there and not closed. Its entry and its pending
        attributions are gone in any case. */
    method CloseSession(s: SessionId, stops: bool, size: nat, stored: bool) returns (closed: Option<Event>)
      modifies this
      ensures closed.Some? <==> stored && (if s in old(live) then stops && !old(live)[s].closed
                                           else s in old(rows) && old(rows)[s] != Closed)
      ensures var taken := TakeLive(old(State()), s);
              State() == if closed.Some? then Append(taken, s, SessionClosed, size) else taken
      ensures closed.Some? ==> closed.value == Stamp(old(State()), s, SessionClosed, size)
      ensures s !in live && forall key :: key in answers ==> key.0 != s
      ensures closed.Some? && s in rows ==> rows[s] == Closed
    {
      var taken := TakeForClose(s);
      var authors := match taken
        case Some(entry) => stops && !entry.closed
        case None => s in rows && rows[s] != Closed;
      closed := None;
      if authors && stored {
        var event := AppendEvent(s, SessionClosed, size);
        closed := Some(event);
      }
    }
  }

  // ----- The log on its own

  /** Sequence numbers are 1, 2, 3, ... without gap or repeat. */
  predicate Contiguous(events: seq<Event>) {
    forall i :: 0 <= i < |events| ==> events[i].seqNo == i + 1
  }

  lemma {:induction false} ContiguousHead(events: seq<Event>)
    requires Contiguous(events)
    ensures MaxSeq(events) == |events|
  {
    if events != [] {
      ContiguousHead(events[..|events| - 1]);
    }
  }

  lemma StoredTwice(event: Event)
    ensures Stored(Stored(event)) == Stored(event)
  {
    match event.kind {
      case ApprovalResolved(_, Answers(answers), _) =>
        var once: map<string, seq<string>> := map key | key in answers :: [];
        var twice: map<string, seq<string>> := map key | key in once :: [];
        assert once == twice;
      case _ =>
    }
  }

  /** What the log table always holds: contiguous sequence numbers and scrubbed facts. */
  predicate Durable(events: seq<Event>) {
    Contiguous(events) && forall i :: 0 <= i < |events| ==> Stored(events[i]) == events[i]
  }

  /** Appending keeps the log contiguous and scrubbed, whoever appends. */
  lemma AppendDurable(sh: Shared, s: SessionId, kind: Kind, size: nat)
    requires Durable(sh.Log(s))
    ensures Durable(Append(sh, s, kind, size).Log(s))
    ensures Stamp(sh, s, kind, size).seqNo == |sh.Log(s)| + 1
  {
    ContiguousHead(sh.Log(s));
    StoredTwice(Stamp(sh, s, kind, size));
  }

  /** Where a cursor falls in a log of `n` events: a cursor of 2^63 or more wraps to
      before the first event. */
  function Position(cursor: nat, n: nat): (at: nat)
    ensures at <= n
  {
    if AsI64(cursor) < 0 then 0 else Min(AsI64(cursor), n)
  }

  /** On a contiguous log, the events after a cursor are the suffix past it. */
  lemma EventsAfterSuffix(events: seq<Event>, cursor: nat)
    requires Contiguous(events)
    ensures EventsAfter(events, cursor) == events[Position(cursor, |events|)..]
  {
    var keep := (e: Event) => e.seqNo > AsI64(cursor);
    var cut := Position(cursor, |events|);
    assert events == events[..cut] + events[cut..];
    FilterConcat(events[..cut], events[cut..], keep);
    FilterNone(events[..cut], keep);
    FilterAll(events[cut..], keep);
  }

  /** The replay page is the whole suffix or is marked truncated, which it is exactly when
      the suffix is over a bound; the page stays within both, and when anything follows the
      cursor it is never empty. */
  lemma ReplayIsPrefix(events: seq<Event>, cursor: nat)
    requires Contiguous(events)
    ensures Replay(events, cursor) <= events[Position(cursor, |events|)..]
    ensures !Truncated(events, cursor) <==> Replay(events, cursor) == events[Position(cursor, |events|)..]
    ensures Position(cursor, |events|) < |events| ==> Replay(events, cursor) != []
    ensures |Replay(events, cursor)| <= MAX_REPLAY_EVENTS
    ensures |Replay(events, cursor)| <= 1 || Sum(Sizes(Replay(events, cursor))) <= MAX_REPLAY_BYTES
    ensures Truncated(events, cursor) <==>
              var rest := events[Position(cursor, |events|)..];
              |rest| > MAX_REPLAY_EVENTS || (|rest| > 1 && Sum(Sizes(rest)) > MAX_REPLAY_BYTES)
  {
    EventsAfterSuffix(events, cursor);
    var sizes := Sizes(EventsAfter(events, cursor));
    assert Sizes(Replay(events, cursor)) == sizes[..ReplayLength(events, cursor)];
    assert sizes != [] ==> Paging.Fits(sizes, 1, MAX_REPLAY_EVENTS, MAX_REPLAY_BYTES);
    assert sizes[..|sizes|] == sizes;
    if Truncated(events, cursor) {
      Paging.SumPrefixMonotone(sizes, ReplayLength(events, cursor) + 1, |sizes|);
    }
  }

  /** Where a subscription's stream starts: after the consumer's cursor, or after
      the receipt's head when the lag was too large to replay. */
  function StreamBase(events: seq<Event>, lastSeen: nat): (base: nat)
    ensures base <= |events|
  {
    if Truncated(events, lastSeen) then |events| else Position(lastSeen, |events|)
  }

  /** A subscribe sends the consumer the session's log from the stream base on and touches
      no other channel, whether or not the session is live. */
  lemma SubscribeSends(sh: Shared, c: ConsumerId, s: SessionId, lastSeen: nat)
    requires Contiguous(sh.Log(s))
    ensures Subscribe(sh, c, s, lastSeen).channels ==
            sh.channels[c := sh.Channel(c) + Deliveries(s, sh.Log(s)[StreamBase(sh.Log(s), lastSeen)..])]
  {
    ReplayIsPrefix(sh.Log(s), lastSeen);
  }

  /** A stored append is one event at the end of one log and of its subscribers' channels. */
  lemma AppendFactSends(sh: Shared, s: SessionId, kind: Kind, size: nat, t: SessionId, c: ConsumerId)
    requires t != s
    ensures var sh' := AppendFact(sh, s, kind, size, true);
            var event := Event(MaxSeq(sh.Log(s)) + 1, kind, size);
            && sh'.Log(s) == sh.Log(s) + [Stored(event)] && sh'.Log(t) == sh.Log(t)
            && sh'.channels.Keys == sh.channels.Keys
            && (c in sh.channels ==>
                  sh'.channels[c] ==
                  sh.channels[c] + (if s in sh.live && c in sh.live[s].subscribers then [Delivery(s, event)] else []))
  {}

  /** What the pump changes before it appends. */
  lemma AcceptedMarks(sh: Shared, s: SessionId, kind: Kind)
    ensures var (marked, fact) := Accepted(sh, s, kind);
            && marked.log == sh.log && marked.rows == sh.rows && marked.channels == sh.channels
            && marked.live == (if kind.SessionClosed? && s in sh.live
                               then sh.live[s := sh.live[s].(closed := true)] else sh.live)
            && marked.answers == sh.answers - (if kind.ApprovalResolved? then {(s, kind.request)} else {})
            && fact == (if kind.ApprovalResolved? && (s, kind.request) in sh.answers
                        then ApprovalResolved(kind.request, kind.decision, sh.answers[(s, kind.request)]) else kind)
  {
    assert sh.answers - {} == sh.answers;
    assert kind.ApprovalResolved? && (s, kind.request) !in sh.answers ==>
      sh.answers - {(s, kind.request)} == sh.answers;
  }

  /** Which facts the pump records, and what of them. All are recorded but the adapter's
      own `session.created`, the first `idle` of a continuation, and a close of a session
      that is gone or marked closed already. A recorded fact is one event, appended to this
      session's log without answer material and sent in full to its subscribers; an approval
      answer carries the consumer registered for it. When the write fails, neither. */
  lemma DrainRecords(sh: Shared, s: SessionId, skipIdle: bool, kind: Kind, size: nat, stored: bool, t: SessionId,
                     c: ConsumerId)
    requires t != s
    ensures var sh' := Drain(sh, s, skipIdle, kind, size, stored).0;
            var recorded := stored && !kind.SessionCreated? && !(kind == SessionStatus(Idle) && skipIdle)
                            && (kind.SessionClosed? ==> s in sh.live && !sh.live[s].closed);
            var fact := if kind.ApprovalResolved? && (s, kind.request) in sh.answers
                        then ApprovalResolved(kind.request, kind.decision, sh.answers[(s, kind.request)]) else kind;
            var event := Event(MaxSeq(sh.Log(s)) + 1, fact, size);
            && sh'.Log(s) == sh.Log(s) + (if recorded then [Stored(event)] else [])
            && sh'.Log(t) == sh.Log(t) && sh'.channels.Keys == sh.channels.Keys
            && (c in sh.channels ==>
                  sh'.channels[c] ==
                  sh.channels[c] + (if recorded && s in sh.live && c in sh.live[s].subscribers
                                    then [Delivery(s, event)] else []))
  {
    AcceptedMarks(sh, s, kind);
    var (marked, fact) := Accepted(sh, s, kind);
    AppendFactSends(marked, s, fact, size, t, c);
  }

  /** What else changes, and where the pump goes on: a recorded close marks the entry and an
      approval answer uses up its registration, whether or not the write works; the skip is
      spent by the `idle` it skips or by any fact that is not dropped; and follow-ups start
      exactly after a completed run of a live session. */
  lemma DrainGoesOn(sh: Shared, s: SessionId, skipIdle: bool, kind: Kind, size: nat, stored: bool)
    ensures var (sh', next) := Drain(sh, s, skipIdle, kind, size, stored);
            && sh'.live == (if kind.SessionClosed? && s in sh.live then sh.live[s := sh.live[s].(closed := true)]
                            else sh.live)
            && sh'.answers == sh.answers - (if kind.ApprovalResolved? then {(s, kind.request)} else {})
            && next == (if kind.RunCompleted? && s in sh.live
                        then AfterRun(kind.run, sh.live[s].writes, sh.live[s].monitoring)
                        else Draining(skipIdle && (kind.SessionCreated? ||
                                                   (kind.SessionClosed? && (s !in sh.live || sh.live[s].closed)))))
  {
    AcceptedMarks(sh, s, kind);
    if Dropped(sh, s, skipIdle, kind) {
      assert sh.answers - {} == sh.answers;
      assert kind.SessionClosed? && s in sh.live ==> sh.live[s := sh.live[s].(closed := true)] == sh.live;
    }
  }

  /** What an appended fact does to the session's row: a status or a close sets it, any other
      fact leaves it; a session without a row gets one from its creation alone, idle. */
  lemma RowFollowsFact(sh: Shared, s: SessionId, kind: Kind, size: nat)
    ensures Append(sh, s, kind, size).rows ==
            if s in sh.rows then
              sh.rows[s := if kind.SessionClosed? then Closed
                           else if kind.SessionStatus? then kind.status else sh.rows[s]]
            else if kind.SessionCreated? then sh.rows[s := Idle] else sh.rows
  {
    assert s in sh.rows ==> sh.rows[s := sh.rows[s]] == sh.rows;
  }

  /** What a durable row keeps of a fact: everything, except that the decision of an
      approval answer keeps its form, a chosen option, and the names of answered
      questions, and nothing a person typed. */
  lemma ScrubKeepsTheRest(kind: Kind)
    ensures !kind.ApprovalResolved? ==> Scrub(kind) == kind
    ensures kind.ApprovalResolved? ==>
              var row := Scrub(kind);
              && row.ApprovalResolved? && row.request == kind.request && row.answeredBy == kind.answeredBy
              && match kind.decision
                 case OptionId(_) => row.decision == kind.decision
                 case Text(_) => row.decision == Text("")
                 case Elicitation(_) => row.decision == Elicitation(None)
                 case Answers(answers) =>
                   row.decision.Answers? && row.decision.answers.Keys == answers.Keys
                   && forall key :: key in answers ==> row.decision.answers[key] == []
  {}

  /** Once `session.close` has taken the session: nothing recorded for it reaches any
      consumer, the adapter's own close is dropped, its answers are attributed to
      nobody; every other session is as before. */
  lemma TakenSessionIsSilent(sh: Shared, s: SessionId, skipIdle: bool, kind: Kind, size: nat, other: SessionId)
    requires other != s
    ensures var taken := TakeLive(sh, s);
            && AppendFact(taken, s, kind, size, true).channels == sh.channels
            && (kind.SessionClosed? ==> Drain(taken, s, skipIdle, kind, size, true).0 == taken)
            && Accepted(taken, s, kind).1 == kind
            && (other in sh.live ==> other in taken.live && taken.live[other] == sh.live[other])
            && Accepted(taken, other, kind).1 == Accepted(sh, other, kind).1
  {}

  /** No approval answer's material reaches a durable row: two answers of the same
      shape, to the same request, by the same consumer, leave the same row. */
  lemma ScrubForgetsAnswers(request: RequestId, consumer: ConsumerId, a: Decision, b: Decision)
    ensures a.Text? && b.Text? ==>
      Scrub(ApprovalResolved(request, a, consumer)) == Scrub(ApprovalResolved(request, b, consumer))
    ensures a.Elicitation? && b.Elicitation? ==>
      Scrub(ApprovalResolved(request, a, consumer)) == Scrub(ApprovalResolved(request, b, consumer))
    ensures a.Answers? && b.Answers? ==>
      (Scrub(ApprovalResolved(request, a, consumer)) == Scrub(ApprovalResolved(request, b, consumer)) <==>
       a.answers.Keys == b.answers.Keys)
  {
    if a.Answers? && b.Answers? {
      var l: map<string, seq<string>> := map key | key in a.answers :: [];
      var r: map<string, seq<string>> := map key | key in b.answers :: [];
      assert l.Keys == a.answers.Keys && r.Keys == b.answers.Keys;
      if a.answers.Keys == b.answers.Keys {
        assert l == r;
      }
    }
  }
}
