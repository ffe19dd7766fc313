/** Webhook notifications: the edge detector over quota reports, its persisted marks,
    and what each endpoint is told over any series of reports. */
module Webhooks {
  import opened Prelude

  const STATE_SCHEMA_VERSION := 1

  datatype EventKind = ThresholdCrossed | QuotaReset

  datatype Window = Window(name: string, periodRank: nat, used: Option<real>)

  datatype Provider = Provider(key: string, account: Option<string>, ok: bool, windows: seq<Window>)

  datatype Endpoint = Endpoint(threshold: real, events: set<EventKind>)

  datatype Payload = Payload(kind: EventKind, provider: string, account: Option<string>, name: string,
                             authoritative: bool, used: real, threshold: real)

  datatype Pending = Pending(endpoint: nat, payload: Payload)

  datatype StateFile = Absent | Corrupt | Stored(version: nat, windows: map<string, bool>)

  /** `show` is the decimal text of a threshold. */
  function StateKey(show: real -> string, provider: string, account: Option<string>, name: string, threshold: real)
    : string
  {
    provider + "|" + account.GetOr("") + "|" + name + "|" + show(threshold)
  }

  function Load(file: StateFile): map<string, bool> {
    if file.Stored? && file.version == STATE_SCHEMA_VERSION then file.windows else map[]
  }

  function Was(windows: map<string, bool>, key: string): bool { key in windows && windows[key] }

  function Edge(was: bool, above: bool): Option<EventKind> {
    if !was && above then Some(ThresholdCrossed) else if was && !above then Some(QuotaReset) else None
  }

  /** The rank of the longest period among a provider's windows. */
  function Anchor(windows: seq<Window>): nat {
    if windows == [] then 255
    else if |windows| == 1 then windows[0].periodRank
    else Min(windows[0].periodRank, Anchor(windows[1..]))
  }

  lemma {:induction false} AnchorIsLongest(windows: seq<Window>)
    requires windows != []
    ensures forall w | w in windows :: Anchor(windows) <= w.periodRank
    ensures exists w :: w in windows && w.periodRank == Anchor(windows)
  {
    if |windows| > 1 {
      AnchorIsLongest(windows[1..]);
      assert windows == [windows[0]] + windows[1..];
      var w :| w in windows[1..] && w.periodRank == Anchor(windows[1..]);
      assert w in windows && windows[0] in windows;
    } else {
      assert windows[0] in windows;
    }
  }

  // ----- One report

  /** The marks being updated, whether they changed, and the queued events. */
  datatype Tally = Tally(windows: map<string, bool>, dirty: bool, pending: seq<Pending>)

  function PayloadOf(kind: EventKind, p: Provider, w: Window, used: real, threshold: real): Payload {
    Payload(kind, p.key, p.account, w.name, w.periodRank == Anchor(p.windows), used, threshold)
  }

  /** One window measured for one endpoint. */
  function OnEndpoint(show: real -> string, t: Tally, p: Provider, w: Window, used: real, index: nat, e: Endpoint)
    : Tally
  {
    var key := StateKey(show, p.key, p.account, w.name, e.threshold);
    var above := used >= e.threshold;
    var kind := Edge(Was(t.windows, key), above);
    Tally(if kind.Some? then t.windows[key := above] else t.windows,
          t.dirty || kind.Some?,
          if kind.Some? && kind.value in e.events
          then t.pending + [Pending(index, PayloadOf(kind.value, p, w, used, e.threshold))] else t.pending)
  }

  function OnWindow(show: real -> string, endpoints: seq<Endpoint>, t: Tally, p: Provider, w: Window, from: nat): Tally
    requires from <= |endpoints|
    decreases |endpoints| - from
  {
    if w.used.None? || from == |endpoints| then t
    else OnWindow(show, endpoints, OnEndpoint(show, t, p, w, w.used.value, from, endpoints[from]), p, w, from + 1)
  }

  function OnProvider(show: real -> string, endpoints: seq<Endpoint>, t: Tally, p: Provider, from: nat): Tally
    requires from <= |p.windows|
    decreases |p.windows| - from
  {
    if !p.ok || from == |p.windows| then t
    else OnProvider(show, endpoints, OnWindow(show, endpoints, t, p, p.windows[from], 0), p, from + 1)
  }

  function OnReport(show: real -> string, endpoints: seq<Endpoint>, t: Tally, report: seq<Provider>): Tally
    decreases |report|
  {
    if report == [] then t
    else OnReport(show, endpoints, OnProvider(show, endpoints, t, report[0], 0), report[1..])
  }

  /** One delivery against the state file; `saves` says whether saving works. */
  function Delivered(show: real -> string, endpoints: seq<Endpoint>, file: StateFile, report: seq<Provider>,
                     saves: bool): (StateFile, seq<Pending>)
  {
    var t := OnReport(show, endpoints, Tally(Load(file), false, []), report);
    (if t.dirty && saves then Stored(STATE_SCHEMA_VERSION, t.windows) else file, t.pending)
  }

  class WebhookNotifier {
    var state: StateFile
    const endpoints: seq<Endpoint>
    const show: real -> string

    constructor (show: real -> string, endpoints: seq<Endpoint>, state: StateFile)
      ensures this.show == show && this.endpoints == endpoints && this.state == state
    {
      this.show, this.endpoints, this.state := show, endpoints, state;
    }

    /** The inner loop: one measured window against every endpoint. */
    method CheckWindow(p: Provider, w: Window, anchor: nat, before: map<string, bool>, changed: bool,
                       queued: seq<Pending>)
      returns (windows: map<string, bool>, dirty: bool, pending: seq<Pending>)
      requires w.used.Some? && anchor == Anchor(p.windows)
      ensures Tally(windows, dirty, pending) == OnWindow(show, endpoints, Tally(before, changed, queued), p, w, 0)
    {
      windows, dirty, pending := before, changed, queued;
      var used := w.used.value;
      var k := 0;
      while k < |endpoints|
        invariant 0 <= k <= |endpoints|
        invariant OnWindow(show, endpoints, Tally(windows, dirty, pending), p, w, k) ==
                  OnWindow(show, endpoints, Tally(before, changed, queued), p, w, 0)
      {
        var e := endpoints[k];
        var key := StateKey(show, p.key, p.account, w.name, e.threshold);
        var above := used >= e.threshold;
        var kind := Edge(Was(windows, key), above);
        if kind.Some? {
          windows := windows[key := above];
          dirty := true;
          if kind.value in e.events {
            var payload := Payload(kind.value, p.key, p.account, w.name, w.periodRank == anchor, used, e.threshold);
            pending := pending + [Pending(k, payload)];
          }
        }
        k := k + 1;
      }
    }

    /** The three nested loops over one report. */
    method Deliver(report: seq<Provider>, saves: bool) returns (pending: seq<Pending>)
      modifies this
      ensures (state, pending) == Delivered(show, endpoints, old(state), report, saves)
    {
      pending := [];
      if endpoints == [] {
        NoEndpoints(show, Tally(Load(state), false, []), report);
        return;
      }
      var windows := Load(state);
      var dirty := false;
      ghost var goal := OnReport(show, endpoints, Tally(windows, dirty, pending), report);
      var i := 0;
      while i < |report|
        invariant 0 <= i <= |report| && state == old(state)
        invariant OnReport(show, endpoints, Tally(windows, dirty, pending), report[i..]) == goal
      {
        var p := report[i];
        assert report[i..][1..] == report[i + 1..];
        ghost var after := OnProvider(show, endpoints, Tally(windows, dirty, pending), p, 0);
        if p.ok {
          var anchor := Anchor(p.windows);
          var j := 0;
          while j < |p.windows|
            invariant 0 <= j <= |p.windows| && state == old(state)
            invariant OnProvider(show, endpoints, Tally(windows, dirty, pending), p, j) == after
          {
            var w := p.windows[j];
            ghost var next := OnWindow(show, endpoints, Tally(windows, dirty, pending), p, w, 0);
            if w.used.Some? {
              windows, dirty, pending := CheckWindow(p, w, anchor, windows, dirty, pending);
            }
            j := j + 1;
          }
        }
        i := i + 1;
      }
      if dirty && saves {
        state := Stored(STATE_SCHEMA_VERSION, windows);
      }
    }
  }

  lemma {:induction false} NoEndpoints(show: real -> string, t: Tally, report: seq<Provider>)
    ensures OnReport(show, [], t, report) == t
    decreases |report|
  {
    if report != [] {
      NoEndpointsProvider(show, t, report[0], 0);
      NoEndpoints(show, t, report[1..]);
    }
  }

  lemma {:induction false} NoEndpointsProvider(show: real -> string, t: Tally, p: Provider, from: nat)
    requires from <= |p.windows|
    ensures OnProvider(show, [], t, p, from) == t
    decreases |p.windows| - from
  {
    if from < |p.windows| {
      NoEndpointsProvider(show, t, p, from + 1);
    }
  }
}
