/** A worker's state reports, from the worker through the wire into the registry
    (internal/mockworker/worker.go:249-313, internal/gateway/server.go:184-225). */
module Reporting {
  import opened Model
  import opened MockWorker
  import Convert
  import Prefix
  import Registry

  // ---- One report --------------------------------------------------------

  /** Every report of a worker that caches sound fingerprints passes the wire conversion unchanged and
      the registry's validation. */
  lemma ReportIsValid(c: Config, m: Mock, now: Time)
    requires MockOk(c, m) && Sound(m.entries) && Convert.Representable(now) && m.state.statusVersion + 1 < U64
    ensures var report := ReportOf(m, now);
            && Convert.StateFromProto(Some(Convert.StateToProto(report))) == Ok(report)
            && Registry.ValidateState(report).None?
            && report.statusVersion == m.state.statusVersion + 1
  {
    Convert.StateRoundTrip(ReportOf(m, now));
  }

  /** What a worker caches comes from requests; the gateway's carry the fingerprints of token lists. */
  ghost predicate GatewayMade(hash: string -> string, fs: seq<PrefixFingerprint>) {
    exists tokens, request: Request, workerId ::
      && Prefix.Small(tokens) && request.prefixFingerprints == Prefix.FingerprintList(hash, tokens)
      && fs == Convert.DomainPrefixes(Convert.RequestToProto(request, workerId).prefixFingerprints)
  }

  lemma GatewayMadeIsSound(hash: string -> string, fs: seq<PrefixFingerprint>)
    requires GatewayMade(hash, fs) && forall s :: hash(s) != ""
    ensures Sound(fs)
  {
    var tokens, request: Request, workerId :|
      && Prefix.Small(tokens) && request.prefixFingerprints == Prefix.FingerprintList(hash, tokens)
      && fs == Convert.DomainPrefixes(Convert.RequestToProto(request, workerId).prefixFingerprints);
    Convert.PrefixesRoundTrip(request.prefixFingerprints);
    forall f | f in fs ensures f.tokenCount > 0 && f.sha256 != "" {
      var k := Prefix.FingerprintOf(hash, tokens, f);
    }
  }

  // ---- Whole runs --------------------------------------------------------

  /** How a report leaves the worker, if it does. */
  datatype Delivery = Dropped | AsRegistration(received: Time) | AsHeartbeat(received: Time)

  /** The worker acts, a report possibly reaching the registry; or some call about another worker arrives. */
  datatype Event = Own(act: Act, delivery: Delivery) | Foreign(op: Registry.Op)

  predicate Concerns(op: Registry.Op, id: string) {
    match op
    case RegisterOp(w, _) => w.id == id
    case HeartbeatOp(other, _, _) => other == id
  }

  /** The registry call an event amounts to, if any. */
  function Call(identity: Model.Worker, m: Mock, e: Event): Option<Registry.Op> {
    match e
    case Foreign(op) => Some(op)
    case Own(act, delivery) =>
      if !act.Report? then None
      else match delivery
           case Dropped => None
           case AsRegistration(received) =>
             Some(Registry.RegisterOp(identity.(state := ReportOf(m, act.now)), received))
           case AsHeartbeat(received) => Some(Registry.HeartbeatOp(identity.id, ReportOf(m, act.now), received))
  }

  function NextMock(c: Config, m: Mock, e: Event): Mock {
    if e.Own? then Acted(c, m, e.act) else m
  }

  function NextWorkers(identity: Model.Worker, m: Mock, ws: Registry.Workers, e: Event): Registry.Workers {
    match Call(identity, m, e)
    case None => ws
    case Some(op) => Registry.Apply(op, ws)
  }

  /** Every report of the worker is accepted. */
  predicate AllAccepted(c: Config, identity: Model.Worker, m: Mock, ws: Registry.Workers, es: seq<Event>)
    decreases |es|
  {
    es == [] ||
    (&& (es[0].Own? && Call(identity, m, es[0]).Some? ==> Registry.Reject(Call(identity, m, es[0]).value, ws).None?)
     && AllAccepted(c, identity, NextMock(c, m, es[0]), NextWorkers(identity, m, ws, es[0]), es[1..]))
  }

  /** Jobs come from the gateway, the clock is representable, other calls concern other workers. */
  ghost predicate EventOk(hash: string -> string, id: string, e: Event) {
    match e
    case Foreign(op) => !Concerns(op, id)
    case Own(Complete(fs), _) => GatewayMade(hash, fs)
    case Own(Report(now), _) => Convert.Representable(now)
    case Own(_, _) => true
  }

  /** The registry holds no later version than the worker's. */
  predicate Behind(id: string, m: Mock, ws: Registry.Workers) {
    id in ws && ws[id].state.statusVersion <= m.state.statusVersion
  }

  predicate Registrable(identity: Model.Worker) {
    && identity.id != "" && identity.dataAddress != "" && identity.model != ""
    && identity.protocolVersion == PROTOCOL_VERSION
  }

  lemma OthersUnaffected(op: Registry.Op, id: string, ws: Registry.Workers)
    requires !Concerns(op, id)
    ensures id in Registry.Apply(op, ws) <==> id in ws
    ensures id in ws ==> Registry.Apply(op, ws)[id] == ws[id]
  {
  }

  lemma ReportAccepted(c: Config, identity: Model.Worker, m: Mock, ws: Registry.Workers, e: Event)
    requires Registrable(identity) && MockOk(c, m) && Sound(m.entries) && m.state.statusVersion + 1 < U64
    requires e.Own? && e.act.Report? && Convert.Representable(e.act.now)
    requires Behind(identity.id, m, ws) || e.delivery.AsRegistration?
    ensures Call(identity, m, e).Some? ==> Registry.Reject(Call(identity, m, e).value, ws).None?
    ensures Behind(identity.id, NextMock(c, m, e), NextWorkers(identity, m, ws, e))
  {
    ReportIsValid(c, m, e.act.now);
  }

  lemma EventKeeps(hash: string -> string, c: Config, identity: Model.Worker, m: Mock, ws: Registry.Workers, e: Event)
    requires (forall s :: hash(s) != "") && EventOk(hash, identity.id, e)
    requires Registrable(identity) && MockOk(c, m) && Sound(m.entries) && m.state.statusVersion + 1 < U64
    requires Behind(identity.id, m, ws)
    ensures e.Own? && Call(identity, m, e).Some? ==> Registry.Reject(Call(identity, m, e).value, ws).None?
    ensures MockOk(c, NextMock(c, m, e)) && Sound(NextMock(c, m, e).entries)
    ensures NextMock(c, m, e).state.statusVersion <= m.state.statusVersion + 1
    ensures Behind(identity.id, NextMock(c, m, e), NextWorkers(identity, m, ws, e))
  {
    match e
    case Foreign(op) => OthersUnaffected(op, identity.id, ws);
    case Own(act, _) =>
      ActedOk(c, m, act);
      if act.Complete? {
        GatewayMadeIsSound(hash, act.fingerprints);
      }
      if act.Report? {
        ReportAccepted(c, identity, m, ws, e);
      }
  }

  lemma {:induction false} RunAccepted(hash: string -> string, c: Config, identity: Model.Worker, m: Mock,
                                       ws: Registry.Workers, 
                                       es: seq<Event>)
    requires (forall s :: hash(s) != "") && forall e | e in es :: EventOk(hash, identity.id, e)
    requires Registrable(identity) && MockOk(c, m) && Sound(m.entries) && m.state.statusVersion + |es| < U64
    requires Behind(identity.id, m, ws)
    ensures AllAccepted(c, identity, m, ws, es)
    decreases |es|
  {
    if es != [] {
      assert es[0] in es;
      EventKeeps(hash, c, identity, m, ws, es[0]);
      RunAccepted(hash, c, identity, NextMock(c, m, es[0]), NextWorkers(identity, m, ws, es[0]), es[1..]);
    }
  }

  lemma {:induction false} AfterOk(hash: string -> string, c: Config, acts: seq<Act>)
    requires ConfigOk(c) && (forall s :: hash(s) != "") && |acts| < U64
    requires forall a | a in acts && a.Complete? :: GatewayMade(hash, a.fingerprints)
    ensures var m := After(c, NewMock(c), acts);
            MockOk(c, m) && Sound(m.entries) && m.state.statusVersion <= |acts|
  {
    if acts != [] {
      var front, last := acts[..|acts| - 1], acts[|acts| - 1];
      AfterOk(hash, c, front);
      if last.Complete? {
        GatewayMadeIsSound(hash, last.fingerprints);
      }
      ActedOk(c, After(c, NewMock(c), front), last);
    }
  }

  /** A running worker is never turned away. A new worker that serves the gateway's requests, whatever
      it has done before it first registers and whatever the registry holds: its registration is
      accepted, and so is every later report, registration or heartbeat, however calls about other
      workers interleave and reports get lost; in particular none is a version regression. */
  lemma WorkerIsNeverTurnedAway(hash: string -> string, c: Config, identity: Model.Worker, before: seq<Act>,
                                ws: Registry.Workers, 
                                now: Time, received: Time, es: seq<Event>)
    requires ConfigOk(c) && Registrable(identity) && (forall s :: hash(s) != "") && |before| + 1 + |es| < U64
    requires forall a | a in before && a.Complete? :: GatewayMade(hash, a.fingerprints)
    requires Convert.Representable(now) && forall e | e in es :: EventOk(hash, identity.id, e)
    ensures AllAccepted(c, identity, After(c, NewMock(c), before), ws,
                        [Own(Report(now), AsRegistration(received))] + es)
  {
    var m := After(c, NewMock(c), before);
    var e := Own(Report(now), AsRegistration(received));
    AfterOk(hash, c, before);
    ReportAccepted(c, identity, m, ws, e);
    ActedOk(c, m, Report(now));
    RunAccepted(hash, c, identity, NextMock(c, m, e), NextWorkers(identity, m, ws, e), es);
    assert ([e] + es)[1..] == es;
  }
}
