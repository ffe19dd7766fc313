/** What the webhook endpoints are told over a whole series of reports. */
module WebhookEdges {
  import opened Prelude
  import opened Webhooks

  // ----- Reloading between reports

  /** All reports in one pass over one set of marks. */
  function OnReports(show: real -> string, endpoints: seq<Endpoint>, t: Tally, reports: seq<seq<Provider>>): Tally
    decreases |reports|
  {
    if reports == [] then t
    else OnReports(show, endpoints, OnReport(show, endpoints, t, reports[0]), reports[1..])
  }

  /** Deliveries one after the other, each loading the state the last one saved. */
  function Series(show: real -> string, endpoints: seq<Endpoint>, file: StateFile, reports: seq<seq<Provider>>)
    : (StateFile, seq<Pending>)
    decreases |reports|
  {
    if reports == [] then (file, [])
    else
      var (saved, first) := Delivered(show, endpoints, file, reports[0], true);
      var (last, rest) := Series(show, endpoints, saved, reports[1..]);
      (last, first + rest)
  }

  function Clean(t: Tally): Tally { Tally(t.windows, false, []) }

  /** `b` is what `u` becomes when the run starts from `t`'s flag and queue: events only
      accumulate, and marks that did not change were not touched. */
  predicate Extends(t: Tally, u: Tally, b: Tally) {
    b == Tally(u.windows, t.dirty || u.dirty, t.pending + u.pending) && (!u.dirty ==> u.windows == t.windows)
  }

  lemma EndpointFrame(show: real -> string, t: Tally, p: Provider, w: Window, used: real, k: nat, e: Endpoint)
    ensures Extends(t, OnEndpoint(show, Clean(t), p, w, used, k, e), OnEndpoint(show, t, p, w, used, k, e))
  {}

  lemma ExtendsTwice(t: Tally, u1: Tally, b1: Tally, v: Tally, u2: Tally, b2: Tally)
    requires Extends(t, u1, b1) && Extends(u1, v, u2) && Extends(b1, v, b2)
    ensures Extends(t, u2, b2)
  {
    Associates(t.pending, u1.pending, v.pending);
  }

  lemma {:induction false} WindowFrame(show: real -> string, endpoints: seq<Endpoint>, t: Tally, p: Provider,
                                       w: Window, from: nat)
    requires from <= |endpoints|
    ensures Extends(t, OnWindow(show, endpoints, Clean(t), p, w, from), OnWindow(show, endpoints, t, p, w, from))
    decreases |endpoints| - from
  {
    if w.used.Some? && from < |endpoints| {
      var b := OnEndpoint(show, t, p, w, w.used.value, from, endpoints[from]);
      var u := OnEndpoint(show, Clean(t), p, w, w.used.value, from, endpoints[from]);
      EndpointFrame(show, t, p, w, w.used.value, from, endpoints[from]);
      WindowFrame(show, endpoints, b, p, w, from + 1);
      WindowFrame(show, endpoints, u, p, w, from + 1);
      assert Clean(b) == Clean(u);
      ExtendsTwice(t, u, b, OnWindow(show, endpoints, Clean(b), p, w, from + 1),
                   OnWindow(show, endpoints, u, p, w, from + 1), OnWindow(show, endpoints, b, p, w, from + 1));
    }
  }

  lemma {:induction false} ProviderFrame(show: real -> string, endpoints: seq<Endpoint>, t: Tally, p: Provider,
                                         from: nat)
    requires from <= |p.windows|
    ensures Extends(t, OnProvider(show, endpoints, Clean(t), p, from), OnProvider(show, endpoints, t, p, from))
    decreases |p.windows| - from
  {
    if p.ok && from < |p.windows| {
      var b := OnWindow(show, endpoints, t, p, p.windows[from], 0);
      var u := OnWindow(show, endpoints, Clean(t), p, p.windows[from], 0);
      WindowFrame(show, endpoints, t, p, p.windows[from], 0);
      ProviderFrame(show, endpoints, b, p, from + 1);
      ProviderFrame(show, endpoints, u, p, from + 1);
      assert Clean(b) == Clean(u);
      ExtendsTwice(t, u, b, OnProvider(show, endpoints, Clean(b), p, from + 1),
                   OnProvider(show, endpoints, u, p, from + 1), OnProvider(show, endpoints, b, p, from + 1));
    }
  }

  lemma {:induction false} ReportFrame(show: real -> string, endpoints: seq<Endpoint>, t: Tally, report: seq<Provider>)
    ensures Extends(t, OnReport(show, endpoints, Clean(t), report), OnReport(show, endpoints, t, report))
    decreases |report|
  {
    if report != [] {
      var b := OnProvider(show, endpoints, t, report[0], 0);
      var u := OnProvider(show, endpoints, Clean(t), report[0], 0);
      ProviderFrame(show, endpoints, t, report[0], 0);
      ReportFrame(show, endpoints, b, report[1..]);
      ReportFrame(show, endpoints, u, report[1..]);
      assert Clean(b) == Clean(u);
      ExtendsTwice(t, u, b, OnReport(show, endpoints, Clean(b), report[1..]),
                   OnReport(show, endpoints, u, report[1..]), OnReport(show, endpoints, b, report[1..]));
    }
  }

  lemma {:induction false} ReportsFrame(show: real -> string, endpoints: seq<Endpoint>, t: Tally,
                                        reports: seq<seq<Provider>>)
    ensures Extends(t, OnReports(show, endpoints, Clean(t), reports), OnReports(show, endpoints, t, reports))
    decreases |reports|
  {
    if reports != [] {
      var b := OnReport(show, endpoints, t, reports[0]);
      var u := OnReport(show, endpoints, Clean(t), reports[0]);
      ReportFrame(show, endpoints, t, reports[0]);
      ReportsFrame(show, endpoints, b, reports[1..]);
      ReportsFrame(show, endpoints, u, reports[1..]);
      assert Clean(b) == Clean(u);
      ExtendsTwice(t, u, b, OnReports(show, endpoints, Clean(b), reports[1..]),
                   OnReports(show, endpoints, u, reports[1..]), OnReports(show, endpoints, b, reports[1..]));
    }
  }

  function Fresh(file: StateFile): Tally { Tally(Load(file), false, []) }

  /** A series of deliveries over a reloaded file queues exactly what one pass over all
      the reports queues: reloading between reports changes nothing. */
  lemma {:induction false} ReloadingChangesNothing(show: real -> string, endpoints: seq<Endpoint>, file: StateFile,
                                                   reports: seq<seq<Provider>>)
    ensures var (last, pending) := Series(show, endpoints, file, reports);
            var t := OnReports(show, endpoints, Fresh(file), reports);
            pending == t.pending && Load(last) == t.windows
    decreases |reports|
  {
    if reports != [] {
      var t := OnReport(show, endpoints, Fresh(file), reports[0]);
      var saved := Delivered(show, endpoints, file, reports[0], true).0;
      ReportFrame(show, endpoints, Fresh(file), reports[0]);
      assert Fresh(saved) == Clean(t);
      ReloadingChangesNothing(show, endpoints, saved, reports[1..]);
      ReportsFrame(show, endpoints, t, reports[1..]);
    }
  }

  // ----- Windows and keys

  predicate Plain(text: string) { '|' !in text }

  lemma FirstBar(a: string, x: string, b: string, y: string)
    requires Plain(a) && Plain(b) && a + ['|'] + x == b + ['|'] + y
    ensures a == b && x == y
  {
    var left, right := a + ['|'] + x, b + ['|'] + y;
    assert left[|a|] == '|' && right[|b|] == '|';
    assert forall k | 0 <= k < |a| :: left[k] == a[k] && a[k] in a;
    assert forall k | 0 <= k < |b| :: right[k] == b[k] && b[k] in b;
    assert |a| == |b|;
    assert left[..|a|] == a && right[..|b|] == b && left[|a| + 1..] == x && right[|b| + 1..] == y;
  }

  lemma LastBar(x: string, a: string, y: string, b: string)
    requires Plain(a) && Plain(b) && x + ['|'] + a == y + ['|'] + b
    ensures a == b && x == y
  {
    var left, right := x + ['|'] + a, y + ['|'] + b;
    assert left[|x|] == '|' && right[|y|] == '|';
    assert forall k | |x| < k < |left| :: left[k] == a[k - |x| - 1] && left[k] in a;
    assert forall k | |y| < k < |right| :: right[k] == b[k - |y| - 1] && right[k] in b;
    assert |x| == |y|;
    assert left[..|x|] == x && right[..|y|] == y && left[|x| + 1..] == a && right[|y| + 1..] == b;
  }

  lemma Regroup(a: string, b: string, c: string, d: string)
    ensures a + "|" + b + "|" + c + "|" + d == a + ['|'] + (b + ['|'] + (c + ['|'] + d))
  {
    Associates(a + ['|'] + b + ['|'], c + ['|'], d);
    Associates(a + ['|'] + b + ['|'], c, ['|']);
    Associates(a + ['|'], b + ['|'], c + ['|'] + d);
    Associates(a + ['|'], b, ['|']);
  }

  /** Without a bar in provider and account a key identifies window and threshold,
      whatever the window is called: they end at the first two bars and the threshold
      begins at the last. */
  lemma KeyIdentifies(show: real -> string, p: string, a: Option<string>, n: string, t: real,
                      p': string, a': Option<string>, n': string, t': real)
    requires Plain(show(t)) && Plain(show(t'))
    requires Plain(p) && Plain(a.GetOr("")) && Plain(p') && Plain(a'.GetOr(""))
    ensures StateKey(show, p, a, n, t) == StateKey(show, p', a', n', t') <==>
            p == p' && a.GetOr("") == a'.GetOr("") && n == n' && show(t) == show(t')
  {
    Regroup(p, a.GetOr(""), n, show(t));
    Regroup(p', a'.GetOr(""), n', show(t'));
    if StateKey(show, p, a, n, t) == StateKey(show, p', a', n', t') {
      var rest, rest' := n + ['|'] + show(t), n' + ['|'] + show(t');
      FirstBar(p, a.GetOr("") + ['|'] + rest, p', a'.GetOr("") + ['|'] + rest');
      FirstBar(a.GetOr(""), rest, a'.GetOr(""), rest');
      LastBar(n, show(t), n', show(t'));
    }
  }

  /** An account with a bar always shares its mark with a window of another account. */
  lemma BarsCollide(show: real -> string, provider: string, account: string, name: string, t: real)
    returns (other: string, itsWindow: string)
    requires !Plain(account)
    ensures other != account
    ensures StateKey(show, provider, Some(account), name, t) == StateKey(show, provider, Some(other), itsWindow, t)
  {
    var k: nat :| k < |account| && account[k] == '|';
    other, itsWindow := account[..k], account[k + 1..] + ['|'] + name;
    assert account == other + ['|'] + account[k + 1..];
    Regroup(provider, account, name, show(t));
    Regroup(provider, other, itsWindow, show(t));
    Associates(other + ['|'], account[k + 1..], ['|'] + (name + ['|'] + show(t)));
    Associates(account, ['|'], name + ['|'] + show(t));
    Associates(account[k + 1..], ['|'] + name, ['|'] + show(t));
    Associates(account[k + 1..], ['|'], name);
    Associates(itsWindow, ['|'], show(t));
    Associates(['|'], name, ['|'] + show(t));
    Associates(name, ['|'], show(t));
  }

  // ----- Edges

  /** The rising and falling edges of a series of values. */
  function Edges(was: bool, values: seq<bool>): seq<EventKind>
    decreases |values|
  {
    if values == [] then []
    else (match Edge(was, values[0]) case Some(kind) => [kind] case None => []) + Edges(values[0], values[1..])
  }

  function Final(was: bool, values: seq<bool>): bool { if values == [] then was else values[|values| - 1] }

  lemma {:induction false} EdgesConcat(was: bool, a: seq<bool>, b: seq<bool>)
    ensures Edges(was, a + b) == Edges(was, a) + Edges(Final(was, a), b)
    decreases |a|
  {
    if a == [] {
      assert a + b == b;
    } else {
      assert (a + b)[1..] == a[1..] + b && (a + b)[0] == a[0];
      EdgesConcat(a[0], a[1..], b);
      Associates(match Edge(was, a[0]) case Some(kind) => [kind] case None => [],
                 Edges(a[0], a[1..]), Edges(Final(was, a), b));
    }
  }

  /** Edges alternate, beginning with the one that leaves the state it started in. */
  lemma {:induction false} EdgesAlternate(was: bool, values: seq<bool>)
    ensures forall i | 0 <= i < |Edges(was, values)| ::
              Edges(was, values)[i] == if (i % 2 == 0) != was then ThresholdCrossed else QuotaReset
    decreases |values|
  {
    if values != [] {
      EdgesAlternate(values[0], values[1..]);
      var rest := Edges(values[0], values[1..]);
      if Edge(was, values[0]).Some? {
        assert Edges(was, values) == [Edge(was, values[0]).value] + rest;
      } else {
        assert Edges(was, values) == rest;
      }
    }
  }

  function PayloadKey(show: real -> string, p: Payload): string {
    StateKey(show, p.provider, p.account, p.name, p.threshold)
  }

  function Subscribed(e: Endpoint): EventKind -> bool { kind => kind in e.events }

  /** What an endpoint is told under a key, in order. */
  function Kinds(show: real -> string, pending: seq<Pending>, endpoint: nat, key: string): seq<EventKind> {
    if pending == [] then []
    else
      var last := pending[|pending| - 1];
      Kinds(show, pending[..|pending| - 1], endpoint, key) +
      if last.endpoint == endpoint && PayloadKey(show, last.payload) == key then [last.payload.kind] else []
  }

  /** From `t` to `t'` the endpoint `i` is told exactly the subscribed edges of `values`
      under `key`, and the mark ends at the last value. */
  predicate Told(show: real -> string, t: Tally, t': Tally, e: Endpoint, i: nat, key: string, values: seq<bool>) {
    && Was(t'.windows, key) == Final(Was(t.windows, key), values)
    && Kinds(show, t'.pending, i, key) ==
       Kinds(show, t.pending, i, key) + Filter(Edges(Was(t.windows, key), values), Subscribed(e))
  }

  lemma ToldNothing(show: real -> string, t: Tally, t': Tally, e: Endpoint, i: nat, key: string)
    requires Was(t'.windows, key) == Was(t.windows, key)
    requires Kinds(show, t'.pending, i, key) == Kinds(show, t.pending, i, key)
    ensures Told(show, t, t', e, i, key, [])
  {}

  lemma ToldTwice(show: real -> string, t: Tally, t1: Tally, t2: Tally, e: Endpoint, i: nat, key: string,
                  a: seq<bool>, b: seq<bool>)
    requires Told(show, t, t1, e, i, key, a) && Told(show, t1, t2, e, i, key, b)
    ensures Told(show, t, t2, e, i, key, a + b)
  {
    var was := Was(t.windows, key);
    EdgesConcat(was, a, b);
    FilterConcat(Edges(was, a), Edges(Final(was, a), b), Subscribed(e));
    Associates(Kinds(show, t.pending, i, key), Filter(Edges(was, a), Subscribed(e)),
               Filter(Edges(Final(was, a), b), Subscribed(e)));
  }

  // ----- One endpoint and one window

  datatype Id = Id(provider: string, account: string, name: string)

  predicate Matches(p: Provider, w: Window, id: Id) {
    p.key == id.provider && p.account.GetOr("") == id.account && w.name == id.name
  }

  /** Whether each report that measured the window had it at or over the threshold. */
  function InWindow(p: Provider, w: Window, id: Id, threshold: real): seq<bool> {
    if w.used.Some? && Matches(p, w, id) then [w.used.value >= threshold] else []
  }

  function InProvider(p: Provider, from: nat, id: Id, threshold: real): seq<bool>
    requires from <= |p.windows|
    decreases |p.windows| - from
  {
    if !p.ok || from == |p.windows| then []
    else InWindow(p, p.windows[from], id, threshold) + InProvider(p, from + 1, id, threshold)
  }

  function InReport(report: seq<Provider>, id: Id, threshold: real): seq<bool> {
    if report == [] then [] else InProvider(report[0], 0, id, threshold) + InReport(report[1..], id, threshold)
  }

  function InReports(reports: seq<seq<Provider>>, id: Id, threshold: real): seq<bool> {
    if reports == [] then [] else InReport(reports[0], id, threshold) + InReports(reports[1..], id, threshold)
  }

  function IdKey(show: real -> string, id: Id, threshold: real): string {
    StateKey(show, id.provider, Some(id.account), id.name, threshold)
  }

  /** The text of a configured threshold is bar-free and tells it from the one at `i`. */
  predicate TextTells(show: real -> string, endpoints: seq<Endpoint>, j: nat, i: nat)
    requires i < |endpoints| && j < |endpoints|
  {
    && Plain(show(endpoints[j].threshold))
    && (show(endpoints[j].threshold) == show(endpoints[i].threshold) ==>
          endpoints[j].threshold == endpoints[i].threshold)
  }

  predicate TextsTell(show: real -> string, endpoints: seq<Endpoint>, i: nat)
    requires i < |endpoints|
  {
    forall j | 0 <= j < |endpoints| :: TextTells(show, endpoints, j, i)
  }

  /** No endpoint before `i` in configuration order has its threshold. */
  predicate First(endpoints: seq<Endpoint>, i: nat)
    requires i < |endpoints|
  {
    forall j | 0 <= j < i :: endpoints[j].threshold != endpoints[i].threshold
  }

  predicate PlainProvider(p: Provider) { Plain(p.key) && Plain(p.account.GetOr("")) }

  predicate PlainReport(report: seq<Provider>) { forall p | p in report :: PlainProvider(p) }

  ghost predicate Keyed(show: real -> string, endpoints: seq<Endpoint>, id: Id, i: nat) {
    i < |endpoints| && TextsTell(show, endpoints, i) && First(endpoints, i) && Plain(id.provider) && Plain(id.account)
  }

  /** An endpoint looking at a window under another key says nothing under this one. */
  lemma OtherKeyIsSilent(show: real -> string, t: Tally, p: Provider, w: Window, used: real, k: nat, e: Endpoint,
                         mine: Endpoint, i: nat, key: string)
    requires StateKey(show, p.key, p.account, w.name, e.threshold) != key
    ensures Told(show, t, OnEndpoint(show, t, p, w, used, k, e), mine, i, key, [])
  {
    var t' := OnEndpoint(show, t, p, w, used, k, e);
    if t'.pending != t.pending {
      assert t'.pending[..|t'.pending| - 1] == t.pending;
    }
    ToldNothing(show, t, t', mine, i, key);
  }

  lemma OwnKeyIsTold(show: real -> string, t: Tally, p: Provider, w: Window, used: real, i: nat, e: Endpoint,
                     key: string)
    requires StateKey(show, p.key, p.account, w.name, e.threshold) == key
    ensures Told(show, t, OnEndpoint(show, t, p, w, used, i, e), e, i, key, [used >= e.threshold])
  {
    var t' := OnEndpoint(show, t, p, w, used, i, e);
    assert [used >= e.threshold][1..] == [];
    if t'.pending != t.pending {
      assert t'.pending[..|t'.pending| - 1] == t.pending;
    }
  }

  lemma SettledKeyIsSilent(show: real -> string, t: Tally, p: Provider, w: Window, used: real, k: nat, e: Endpoint)
    requires Was(t.windows, StateKey(show, p.key, p.account, w.name, e.threshold)) == (used >= e.threshold)
    ensures OnEndpoint(show, t, p, w, used, k, e) == t
  {}

  /** One step of the inner loop, before, at or after the endpoint's own turn. */
  lemma TurnTells(show: real -> string, endpoints: seq<Endpoint>, t: Tally, p: Provider, w: Window, at: nat, id: Id,
                  i: nat)
    requires Keyed(show, endpoints, id, i) && PlainProvider(p) && w.used.Some? && at < |endpoints|
    requires var key := IdKey(show, id, endpoints[i].threshold);
             at > i && Matches(p, w, id) ==> Was(t.windows, key) == (w.used.value >= endpoints[i].threshold)
    ensures var t' := OnEndpoint(show, t, p, w, w.used.value, at, endpoints[at]);
            Told(show, t, t', endpoints[i], i, IdKey(show, id, endpoints[i].threshold),
                 if at == i then InWindow(p, w, id, endpoints[i].threshold) else [])
  {
    var key, own := IdKey(show, id, endpoints[i].threshold), endpoints[at].threshold;
    assert TextTells(show, endpoints, at, i) && TextTells(show, endpoints, i, i);
    KeyIdentifies(show, p.key, p.account, w.name, own, id.provider, Some(id.account), id.name, endpoints[i].threshold);
    if StateKey(show, p.key, p.account, w.name, own) != key {
      OtherKeyIsSilent(show, t, p, w, w.used.value, at, endpoints[at], endpoints[i], i, key);
    } else if at == i {
      OwnKeyIsTold(show, t, p, w, w.used.value, i, endpoints[i], key);
    } else {
      SettledKeyIsSilent(show, t, p, w, w.used.value, at, endpoints[at]);
      ToldNothing(show, t, t, endpoints[i], i, key);
    }
  }

  lemma Units(values: seq<bool>)
    ensures values + [] == values && [] + values == values
  {}

  lemma {:induction false} WindowTells(show: real -> string, endpoints: seq<Endpoint>, t: Tally, p: Provider, w: Window,
                                       from: nat, id: Id, i: nat)
    requires Keyed(show, endpoints, id, i) && PlainProvider(p) && from <= |endpoints|
    requires var key := IdKey(show, id, endpoints[i].threshold);
             from > i && InWindow(p, w, id, endpoints[i].threshold) != [] ==>
               Was(t.windows, key) == (w.used.value >= endpoints[i].threshold)
    ensures Told(show, t, OnWindow(show, endpoints, t, p, w, from), endpoints[i], i,
                 IdKey(show, id, endpoints[i].threshold),
                 if from <= i then InWindow(p, w, id, endpoints[i].threshold) else [])
    decreases |endpoints| - from
  {
    var key, values := IdKey(show, id, endpoints[i].threshold), InWindow(p, w, id, endpoints[i].threshold);
    if w.used.None? || from == |endpoints| {
      ToldNothing(show, t, t, endpoints[i], i, key);
    } else {
      var t' := OnEndpoint(show, t, p, w, w.used.value, from, endpoints[from]);
      var now, later := if from == i then values else [], if from + 1 <= i then values else [];
      TurnTells(show, endpoints, t, p, w, from, id, i);
      WindowTells(show, endpoints, t', p, w, from + 1, id, i);
      ToldTwice(show, t, t', OnWindow(show, endpoints, t', p, w, from + 1), endpoints[i], i, key, now, later);
      Units(values);
    }
  }

  lemma {:induction false} ProviderTells(show: real -> string, endpoints: seq<Endpoint>, t: Tally, p: Provider,
                                         from: nat, id: Id, i: nat)
    requires Keyed(show, endpoints, id, i) && PlainProvider(p) && from <= |p.windows|
    ensures Told(show, t, OnProvider(show, endpoints, t, p, from), endpoints[i], i,
                 IdKey(show, id, endpoints[i].threshold), InProvider(p, from, id, endpoints[i].threshold))
    decreases |p.windows| - from
  {
    var key := IdKey(show, id, endpoints[i].threshold);
    if !p.ok || from == |p.windows| {
      ToldNothing(show, t, t, endpoints[i], i, key);
    } else {
      var t' := OnWindow(show, endpoints, t, p, p.windows[from], 0);
      WindowTells(show, endpoints, t, p, p.windows[from], 0, id, i);
      ProviderTells(show, endpoints, t', p, from + 1, id, i);
      ToldTwice(show, t, t', OnProvider(show, endpoints, t', p, from + 1), endpoints[i], i, key,
                InWindow(p, p.windows[from], id, endpoints[i].threshold),
                InProvider(p, from + 1, id, endpoints[i].threshold));
    }
  }

  lemma {:induction false} ReportTells(show: real -> string, endpoints: seq<Endpoint>, t: Tally, report: seq<Provider>,
                                       id: Id, i: nat)
    requires Keyed(show, endpoints, id, i) && PlainReport(report)
    ensures Told(show, t, OnReport(show, endpoints, t, report), endpoints[i], i,
                 IdKey(show, id, endpoints[i].threshold), InReport(report, id, endpoints[i].threshold))
    decreases |report|
  {
    var key := IdKey(show, id, endpoints[i].threshold);
    if report == [] {
      ToldNothing(show, t, t, endpoints[i], i, key);
    } else {
      var t' := OnProvider(show, endpoints, t, report[0], 0);
      ProviderTells(show, endpoints, t, report[0], 0, id, i);
      ReportTells(show, endpoints, t', report[1..], id, i);
      ToldTwice(show, t, t', OnReport(show, endpoints, t', report[1..]), endpoints[i], i, key,
                InProvider(report[0], 0, id, endpoints[i].threshold),
                InReport(report[1..], id, endpoints[i].threshold));
    }
  }

  lemma {:induction false} ReportsTell(show: real -> string, endpoints: seq<Endpoint>, t: Tally,
                                       reports: seq<seq<Provider>>, id: Id, i: nat)
    requires Keyed(show, endpoints, id, i) && forall report | report in reports :: PlainReport(report)
    ensures Told(show, t, OnReports(show, endpoints, t, reports), endpoints[i], i,
                 IdKey(show, id, endpoints[i].threshold), InReports(reports, id, endpoints[i].threshold))
    decreases |reports|
  {
    var key := IdKey(show, id, endpoints[i].threshold);
    if reports == [] {
      ToldNothing(show, t, t, endpoints[i], i, key);
    } else {
      var t' := OnReport(show, endpoints, t, reports[0]);
      ReportTells(show, endpoints, t, reports[0], id, i);
      ReportsTell(show, endpoints, t', reports[1..], id, i);
      ToldTwice(show, t, t', OnReports(show, endpoints, t', reports[1..]), endpoints[i], i, key,
                InReport(reports[0], id, endpoints[i].threshold), InReports(reports[1..], id, endpoints[i].threshold));
    }
  }

  /** A payload tells of one measured window of one provider that answered: with its names,
      the endpoint's threshold, a crossing exactly when the measure reaches it, and marked
      authoritative exactly when none of the provider's windows has a longer period. */
  predicate Measured(x: Pending, endpoints: seq<Endpoint>, report: seq<Provider>) {
    exists i, j :: 0 <= i < |report| && 0 <= j < |report[i].windows| &&
      MeasuredAt(x, endpoints, report[i], report[i].windows[j])
  }

  predicate MeasuredAt(x: Pending, endpoints: seq<Endpoint>, p: Provider, w: Window) {
    && x.endpoint < |endpoints| && p.ok && w.used == Some(x.payload.used)
    && x.payload.provider == p.key && x.payload.account == p.account && x.payload.name == w.name
    && x.payload.threshold == endpoints[x.endpoint].threshold && x.payload.kind in endpoints[x.endpoint].events
    && (x.payload.kind.ThresholdCrossed? <==> x.payload.used >= x.payload.threshold)
    && (x.payload.authoritative <==> forall v | v in p.windows :: w.periodRank <= v.periodRank)
  }

  lemma EndpointPayload(show: real -> string, endpoints: seq<Endpoint>, t: Tally, p: Provider, j: nat, k: nat)
    requires p.ok && j < |p.windows| && p.windows[j].used.Some? && k < |endpoints|
    ensures var w := p.windows[j];
            var added := OnEndpoint(show, t, p, w, w.used.value, k, endpoints[k]).pending;
            t.pending <= added &&
            forall x | x in added[|t.pending|..] :: MeasuredAt(x, endpoints, p, w)
  {
    AnchorIsLongest(p.windows);
    assert p.windows[j] in p.windows;
  }

  lemma {:induction false} WindowPayloads(show: real -> string, endpoints: seq<Endpoint>, t: Tally, p: Provider, j: nat,
                                          from: nat)
    requires p.ok && j < |p.windows| && from <= |endpoints|
    ensures forall x | x in OnWindow(show, endpoints, t, p, p.windows[j], from).pending ::
              x in t.pending || MeasuredAt(x, endpoints, p, p.windows[j])
    decreases |endpoints| - from
  {
    if p.windows[j].used.Some? && from < |endpoints| {
      var t' := OnEndpoint(show, t, p, p.windows[j], p.windows[j].used.value, from, endpoints[from]);
      EndpointPayload(show, endpoints, t, p, j, from);
      WindowPayloads(show, endpoints, t', p, j, from + 1);
    }
  }

  lemma {:induction false} ProviderPayloads(show: real -> string, endpoints: seq<Endpoint>, t: Tally,
                                            report: seq<Provider>, i: nat, from: nat)
    requires i < |report| && from <= |report[i].windows|
    ensures forall x | x in OnProvider(show, endpoints, t, report[i], from).pending ::
              x in t.pending || Measured(x, endpoints, report)
    decreases |report[i].windows| - from
  {
    var p := report[i];
    if p.ok && from < |p.windows| {
      WindowPayloads(show, endpoints, t, p, from, 0);
      ProviderPayloads(show, endpoints, OnWindow(show, endpoints, t, p, p.windows[from], 0), report, i, from + 1);
    }
  }

  lemma {:induction false} ReportPayloads(show: real -> string, endpoints: seq<Endpoint>, t: Tally,
                                          report: seq<Provider>, i: nat)
    requires i <= |report|
    ensures forall x | x in OnReport(show, endpoints, t, report[i..]).pending ::
              x in t.pending || Measured(x, endpoints, report)
    decreases |report| - i
  {
    if i < |report| {
      assert report[i..][1..] == report[i + 1..];
      ProviderPayloads(show, endpoints, t, report, i, 0);
      ReportPayloads(show, endpoints, OnProvider(show, endpoints, t, report[i], 0), report, i + 1);
    }
  }

  /** Everything one report queues is measured in it, and saving has no part in what is
      queued. */
  lemma QueuedIsMeasured(show: real -> string, endpoints: seq<Endpoint>, file: StateFile, report: seq<Provider>,
                         saves: bool)
    ensures forall x | x in Delivered(show, endpoints, file, report, saves).1 :: Measured(x, endpoints, report)
    ensures Delivered(show, endpoints, file, report, saves).1 == Delivered(show, endpoints, file, report, !saves).1
    ensures !saves ==> Delivered(show, endpoints, file, report, saves).0 == file
  {
    assert report[0..] == report;
    ReportPayloads(show, endpoints, Fresh(file), report, 0);
  }

  /** Over any series of reports and saves, an endpoint whose threshold no earlier one
      has is told about a window exactly the edges of the reports that measured it,
      filtered by its subscription, starting from the mark of a file of this version. */
  lemma EndpointIsToldItsEdges(show: real -> string, endpoints: seq<Endpoint>, file: StateFile,
                               reports: seq<seq<Provider>>, id: Id, i: nat)
    requires Keyed(show, endpoints, id, i) && forall report | report in reports :: PlainReport(report)
    ensures var key := IdKey(show, id, endpoints[i].threshold);
            var crossed := file.Stored? && file.version == 1 && key in file.windows && file.windows[key];
            Kinds(show, Series(show, endpoints, file, reports).1, i, key) ==
            Filter(Edges(crossed, InReports(reports, id, endpoints[i].threshold)), Subscribed(endpoints[i]))
  {
    ReloadingChangesNothing(show, endpoints, file, reports);
    ReportsTell(show, endpoints, Fresh(file), reports, id, i);
  }

  // ----- Endpoints with one threshold

  predicate Silent(pending: seq<Pending>, endpoint: nat) { forall x | x in pending :: x.endpoint != endpoint }

  lemma {:induction false} TwinInWindow(show: real -> string, endpoints: seq<Endpoint>, t: Tally, p: Provider,
                                        w: Window, from: nat, i: nat, j: nat)
    requires i < j < |endpoints| && endpoints[i].threshold == endpoints[j].threshold && TextsTell(show, endpoints, i)
    requires from <= |endpoints| && w.used.Some? && Silent(t.pending, j)
    requires from > i ==> Was(t.windows, StateKey(show, p.key, p.account, w.name, endpoints[i].threshold)) ==
                          (w.used.value >= endpoints[i].threshold)
    ensures Silent(OnWindow(show, endpoints, t, p, w, from).pending, j)
    decreases |endpoints| - from
  {
    if from < |endpoints| {
      var e, head := endpoints[from], p.key + "|" + p.account.GetOr("") + "|" + w.name + "|";
      var t' := OnEndpoint(show, t, p, w, w.used.value, from, e);
      assert TextTells(show, endpoints, from, i);
      if head + show(e.threshold) == head + show(endpoints[i].threshold) {
        assert (head + show(e.threshold))[|head|..] == (head + show(endpoints[i].threshold))[|head|..];
      }
      TwinInWindow(show, endpoints, t', p, w, from + 1, i, j);
    }
  }

  lemma {:induction false} TwinInProvider(show: real -> string, endpoints: seq<Endpoint>, t: Tally, p: Provider,
                                          from: nat, i: nat, j: nat)
    requires i < j < |endpoints| && endpoints[i].threshold == endpoints[j].threshold && TextsTell(show, endpoints, i)
    requires from <= |p.windows| && Silent(t.pending, j)
    ensures Silent(OnProvider(show, endpoints, t, p, from).pending, j)
    decreases |p.windows| - from
  {
    if p.ok && from < |p.windows| {
      if p.windows[from].used.Some? {
        TwinInWindow(show, endpoints, t, p, p.windows[from], 0, i, j);
      }
      TwinInProvider(show, endpoints, OnWindow(show, endpoints, t, p, p.windows[from], 0), p, from + 1, i, j);
    }
  }

  lemma {:induction false} TwinInReport(show: real -> string, endpoints: seq<Endpoint>, t: Tally, report: seq<Provider>,
                                        i: nat, j: nat)
    requires i < j < |endpoints| && endpoints[i].threshold == endpoints[j].threshold && TextsTell(show, endpoints, i)
    requires Silent(t.pending, j)
    ensures Silent(OnReport(show, endpoints, t, report).pending, j)
    decreases |report|
  {
    if report != [] {
      TwinInProvider(show, endpoints, t, report[0], 0, i, j);
      TwinInReport(show, endpoints, OnProvider(show, endpoints, t, report[0], 0), report[1..], i, j);
    }
  }

  /** And an endpoint whose threshold an earlier one has is never told anything, over
      any series of reports. */
  lemma {:induction false} LaterTwinIsNeverTold(show: real -> string, endpoints: seq<Endpoint>, file: StateFile,
                                                reports: seq<seq<Provider>>, j: nat)
    requires j < |endpoints| && !First(endpoints, j) && TextsTell(show, endpoints, j)
    ensures Silent(Series(show, endpoints, file, reports).1, j)
    decreases |reports|
  {
    var i :| 0 <= i < j && endpoints[i].threshold == endpoints[j].threshold;
    forall k | 0 <= k < |endpoints| ensures TextTells(show, endpoints, k, i) {
      assert TextTells(show, endpoints, k, j);
    }
    if reports != [] {
      TwinInReport(show, endpoints, Fresh(file), reports[0], i, j);
      LaterTwinIsNeverTold(show, endpoints, Delivered(show, endpoints, file, reports[0], true).0, reports[1..], j);
    }
  }
}
