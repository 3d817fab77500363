/** Any number of requests against one admission controller (internal/gateway/http.go:100-119,
    internal/admission/admission.go:51-100): every handler's protocol and the controller's ledger, with
    their steps in any order. */
module Sites {
  import opened Model
  import Admission
  import AdmissionProofs
  import Gateway
  import GatewayProofs
  import GatewayTheorems

  /** One protocol configuration per request, and the controller's limits. */
  datatype Setup = Setup(requests: seq<Gateway.Config>, admission: Admission.Config)

  ghost predicate SetupOk(p: Setup) {
    forall i | 0 <= i < |p.requests| :: Gateway.ConfigOk(p.requests[i])
  }

  /** `slots[i]` is the number of the lease that handler `i` was given, if any. */
  datatype Site = Site(handlers: seq<Gateway.State>, slots: seq<nat>, ledger: AdmissionProofs.State)

  /** Handler `i` takes a step; `now` is the clock reading of an admission. */
  datatype Act = Act(i: nat, step: Gateway.Label, now: Time)

  /** The sum wraps around at 64 bits. */
  function Cost(r: Request): uint64 {
    Wrap64(r.estimatedInputTokens + r.maxOutputTokens)
  }

  function Outcome(d: Admission.Decision): Gateway.AdmitOutcome {
    match d
    case Granted => Gateway.Admitted
    case InvalidCost => Gateway.AdmitFailed
    case _ => Gateway.LimitReached
  }

  function Opening(p: Setup): Site {
    Site(seq(|p.requests|, _ => Gateway.Init()), seq(|p.requests|, _ => 0), AdmissionProofs.Empty())
  }

  /** The call a step makes on the controller, if any. */
  function CallOf(p: Setup, s: Site, a: Act): Option<AdmissionProofs.Op>
    requires a.i < |p.requests| == |s.slots|
  {
    var r := p.requests[a.i].request;
    match a.step
    case Admit(_) => Some(AdmissionProofs.ReserveOp(r.tenantId, Cost(r), a.now))
    case Release => Some(AdmissionProofs.ReleaseOp(s.slots[a.i]))
    case _ => None
  }

  /** An admission has the outcome the controller decides on. */
  predicate Agrees(p: Setup, s: Site, a: Act)
    requires a.i < |p.requests| == |s.slots|
  {
    a.step.Admit? ==>
      a.step.outcome == Outcome(AdmissionProofs.DecisionOn(p.admission, s.ledger, CallOf(p, s, a).value))
  }

  function Step(p: Setup, s: Site, a: Act): Option<Site>
    requires SetupOk(p)
  {
    if !(a.i < |p.requests| == |s.handlers| == |s.slots|) || !Agrees(p, s, a) then None
    else
      var t := Gateway.Step(p.requests[a.i], s.handlers[a.i], a.step);
      if t.None? then None
      else
        var call := CallOf(p, s, a);
        Some(Site(s.handlers[a.i := t.value],
                  if a.step.Admit? then s.slots[a.i := |s.ledger.grants|] else s.slots,
                  if call.Some? then AdmissionProofs.Apply(p.admission, s.ledger, call.value) else s.ledger))
  }

  function Run(p: Setup, acts: seq<Act>): Option<Site>
    requires SetupOk(p)
  {
    if acts == [] then Some(Opening(p))
    else
      var s := Run(p, acts[..|acts| - 1]);
      if s.None? then None else Step(p, s.value, acts[|acts| - 1])
  }

  // ---- Each handler runs its protocol ------------------------------------

  /** The steps of handler `i`. */
  function StepsOf(acts: seq<Act>, i: nat): seq<Gateway.Label> {
    if acts == [] then []
    else
      var last := acts[|acts| - 1];
      StepsOf(acts[..|acts| - 1], i) + if last.i == i then [last.step] else []
  }

  predicate Shaped(p: Setup, s: Site) {
    |s.handlers| == |s.slots| == |p.requests|
  }

  /** Every handler's steps, taken alone, are a run of its protocol: whatever holds of all runs of one
      request holds of every request of a site. */
  lemma {:induction false} HandlersRunTheProtocol(p: Setup, acts: seq<Act>, i: nat)
    requires SetupOk(p) && Run(p, acts).Some? && i < |p.requests|
    ensures Shaped(p, Run(p, acts).value)
    ensures Gateway.Run(p.requests[i], StepsOf(acts, i)) == Some(Run(p, acts).value.handlers[i])
  {
    if acts != [] {
      var front, last := acts[..|acts| - 1], acts[|acts| - 1];
      HandlersRunTheProtocol(p, front, i);
      if last.i == i {
        GatewayTheorems.RunExtend(p.requests[i], StepsOf(front, i), last.step);
      } else {
        assert StepsOf(acts, i) == StepsOf(front, i);
      }
    }
  }

  // ---- The ledger is the sum of held leases ------------------------------

  function HeldCost(rs: seq<Gateway.Config>, hs: seq<Gateway.State>): nat
    requires |rs| == |hs|
  {
    if hs == [] then 0
    else (if hs[0].lease == Gateway.Held then Cost(rs[0].request) else 0) + HeldCost(rs[1..], hs[1..])
  }

  function ShareOf(r: Gateway.Config, h: Gateway.State): nat {
    if h.lease == Gateway.Held then Cost(r.request) else 0
  }

  lemma {:induction false} HeldCostUpdate(rs: seq<Gateway.Config>, hs: seq<Gateway.State>, i: nat, t: Gateway.State)
    requires |rs| == |hs| && i < |hs|
    ensures HeldCost(rs, hs[i := t]) == HeldCost(rs, hs) - ShareOf(rs[i], hs[i]) + ShareOf(rs[i], t)
  {
    if i > 0 {
      HeldCostUpdate(rs[1..], hs[1..], i - 1, t);
      assert hs[i := t][1..] == hs[1..][i - 1 := t];
    } else {
      assert hs[i := t][1..] == hs[1..];
    }
  }

  lemma {:induction false} NothingHeld(rs: seq<Gateway.Config>, hs: seq<Gateway.State>)
    requires |rs| == |hs| && forall i | 0 <= i < |hs| :: hs[i].lease != Gateway.Held
    ensures HeldCost(rs, hs) == 0
  {
    if hs != [] {
      NothingHeld(rs[1..], hs[1..]);
    }
  }

  /** A handler's lease is an unreleased grant of its cost. */
  predicate Backed(r: Gateway.Config, h: Gateway.State, slot: nat, grants: seq<AdmissionProofs.Grant>) {
    h.lease == Gateway.Held ==> slot < |grants| && grants[slot] == AdmissionProofs.Grant(Cost(r.request), false)
  }

  predicate AllBacked(p: Setup, s: Site)
    requires Shaped(p, s)
  {
    forall i | 0 <= i < |s.handlers| :: Backed(p.requests[i], s.handlers[i], s.slots[i], s.ledger.grants)
  }

  /** No two held leases are the same grant. */
  predicate Apart(s: Site)
    requires |s.slots| == |s.handlers|
  {
    forall i, j
      | 0 <= i < j < |s.handlers| && s.handlers[i].lease == Gateway.Held && s.handlers[j].lease == Gateway.Held ::
      s.slots[i] != s.slots[j]
  }

  ghost predicate SiteOk(p: Setup, s: Site) {
    && Shaped(p, s) && AllBacked(p, s) && Apart(s)
    && AdmissionProofs.UsageOk(p.admission, s.ledger) && s.ledger.used == HeldCost(p.requests, s.handlers)
    && forall i | 0 <= i < |s.handlers| :: GatewayProofs.Inv(p.requests[i], s.handlers[i])
  }

  /** How the steps of one protocol treat the lease. */
  lemma LeaseSteps(c: Gateway.Config, h: Gateway.State, l: Gateway.Label)
    requires Gateway.ConfigOk(c) && GatewayProofs.Inv(c, h) && Gateway.Step(c, h, l).Some?
    ensures var t := Gateway.Step(c, h, l).value;
            && (l.Admit? ==> h.lease == Gateway.NoLease
                             && t.lease == if l.outcome == Gateway.Admitted then Gateway.Held else Gateway.NoLease)
            && (l.Release? ==> h.lease == Gateway.Held && t.lease == Gateway.Released)
            && (!l.Admit? && !l.Release? ==> t.lease == h.lease)
  {
    if !l.ContextEnds? && Gateway.ReceiverOf(l).None? {
      LeaseHandlerSteps(c, h, l);
    }
  }

  lemma LeaseHandlerSteps(c: Gateway.Config, h: Gateway.State, l: Gateway.Label)
    requires Gateway.ConfigOk(c) && GatewayProofs.PcOk(c, h) && Gateway.HandlerStep(c, h, l).Some?
    ensures var t := Gateway.HandlerStep(c, h, l).value;
            && (l.Admit? ==> h.lease == Gateway.NoLease
                             && t.lease == if l.outcome == Gateway.Admitted then Gateway.Held else Gateway.NoLease)
            && (l.Release? ==> h.lease == Gateway.Held && t.lease == Gateway.Released)
            && (!l.Admit? && !l.Release? ==> t.lease == h.lease)
  {
  }

  lemma AdmitLedger(c: Admission.Config, ledger: AdmissionProofs.State, op: AdmissionProofs.Op)
    requires op.ReserveOp?
    ensures var after := AdmissionProofs.Apply(c, ledger, op);
            if AdmissionProofs.DecisionOn(c, ledger, op) == Admission.Granted
            then && after.used == ledger.used + op.cost
                 && after.grants == ledger.grants + [AdmissionProofs.Grant(op.cost, false)]
            else after.used == ledger.used && after.grants == ledger.grants
  {
  }

  lemma AdmitKeepsBacking(p: Setup, s: Site, t: Site, i: nat, h: Gateway.State)
    requires Shaped(p, s) && AllBacked(p, s) && Apart(s) && i < |s.handlers| && s.handlers[i].lease == Gateway.NoLease
    requires t == Site(s.handlers[i := h], s.slots[i := |s.ledger.grants|], t.ledger)
    requires if h.lease == Gateway.Held
             then t.ledger.grants == s.ledger.grants + [AdmissionProofs.Grant(Cost(p.requests[i].request), false)]
             else t.ledger.grants == s.ledger.grants
    ensures Shaped(p, t) && AllBacked(p, t) && Apart(t)
  {
    forall j | 0 <= j < |t.handlers| ensures Backed(p.requests[j], t.handlers[j], t.slots[j], t.ledger.grants) {
      assert Backed(p.requests[j], s.handlers[j], s.slots[j], s.ledger.grants);
    }
    forall j, k
      | 0 <= j < k < |t.handlers| && t.handlers[j].lease == Gateway.Held && t.handlers[k].lease == Gateway.Held
      ensures t.slots[j] != t.slots[k]
    {
      assert Backed(p.requests[j], s.handlers[j], s.slots[j], s.ledger.grants);
      assert Backed(p.requests[k], s.handlers[k], s.slots[k], s.ledger.grants);
    }
  }

  lemma AdmitOk(p: Setup, s: Site, a: Act)
    requires SetupOk(p) && SiteOk(p, s) && Step(p, s, a).Some? && a.step.Admit?
    ensures var t := Step(p, s, a).value;
            Shaped(p, t) && AllBacked(p, t) && Apart(t) && t.ledger.used == HeldCost(p.requests, t.handlers)
  {
    var t := Step(p, s, a).value;
    var h := t.handlers[a.i];
    LeaseSteps(p.requests[a.i], s.handlers[a.i], a.step);
    AdmitLedger(p.admission, s.ledger, CallOf(p, s, a).value);
    AdmitKeepsBacking(p, s, t, a.i, h);
    HeldCostUpdate(p.requests, s.handlers, a.i, h);
  }

  lemma ReleaseKeepsBacking(p: Setup, s: Site, t: Site, i: nat, h: Gateway.State)
    requires Shaped(p, s) && AllBacked(p, s) && Apart(s) && i < |s.handlers|
    requires s.handlers[i].lease == Gateway.Held && h.lease == Gateway.Released
    requires s.slots[i] < |s.ledger.grants|
    requires t == Site(s.handlers[i := h], s.slots, t.ledger)
    requires t.ledger.grants == s.ledger.grants[s.slots[i] := s.ledger.grants[s.slots[i]].(released := true)]
    ensures Shaped(p, t) && AllBacked(p, t) && Apart(t)
  {
    forall j | 0 <= j < |t.handlers| ensures Backed(p.requests[j], t.handlers[j], t.slots[j], t.ledger.grants) {
      assert Backed(p.requests[j], s.handlers[j], s.slots[j], s.ledger.grants);
    }
  }

  lemma ReleaseOk(p: Setup, s: Site, a: Act)
    requires SetupOk(p) && SiteOk(p, s) && Step(p, s, a).Some? && a.step.Release?
    ensures var t := Step(p, s, a).value;
            Shaped(p, t) && AllBacked(p, t) && Apart(t) && t.ledger.used == HeldCost(p.requests, t.handlers)
  {
    var t := Step(p, s, a).value;
    LeaseSteps(p.requests[a.i], s.handlers[a.i], a.step);
    assert Backed(p.requests[a.i], s.handlers[a.i], s.slots[a.i], s.ledger.grants);
    ReleaseKeepsBacking(p, s, t, a.i, t.handlers[a.i]);
    HeldCostUpdate(p.requests, s.handlers, a.i, t.handlers[a.i]);
  }

  lemma OtherOk(p: Setup, s: Site, a: Act)
    requires SetupOk(p) && SiteOk(p, s) && Step(p, s, a).Some? && !a.step.Admit? && !a.step.Release?
    ensures var t := Step(p, s, a).value;
            Shaped(p, t) && AllBacked(p, t) && Apart(t) && t.ledger.used == HeldCost(p.requests, t.handlers)
  {
    var t := Step(p, s, a).value;
    LeaseSteps(p.requests[a.i], s.handlers[a.i], a.step);
    forall j | 0 <= j < |t.handlers| ensures Backed(p.requests[j], t.handlers[j], t.slots[j], t.ledger.grants) {
      assert Backed(p.requests[j], s.handlers[j], s.slots[j], s.ledger.grants);
    }
    HeldCostUpdate(p.requests, s.handlers, a.i, t.handlers[a.i]);
  }

  lemma HandlersStayOk(p: Setup, s: Site, a: Act)
    requires SetupOk(p) && SiteOk(p, s) && Step(p, s, a).Some?
    ensures var t := Step(p, s, a).value;
            && AdmissionProofs.UsageOk(p.admission, t.ledger)
            && forall i | 0 <= i < |t.handlers| :: i < |p.requests| && GatewayProofs.Inv(p.requests[i], t.handlers[i])
  {
    GatewayProofs.StepOk(p.requests[a.i], s.handlers[a.i], a.step);
    if CallOf(p, s, a).Some? {
      AdmissionProofs.ApplyUsage(p.admission, s.ledger, CallOf(p, s, a).value);
    }
  }

  lemma StepOk(p: Setup, s: Site, a: Act)
    requires SetupOk(p) && SiteOk(p, s) && Step(p, s, a).Some?
    ensures SiteOk(p, Step(p, s, a).value)
  {
    HandlersStayOk(p, s, a);
    if a.step.Admit? {
      AdmitOk(p, s, a);
    } else if a.step.Release? {
      ReleaseOk(p, s, a);
    } else {
      OtherOk(p, s, a);
    }
  }

  lemma OpeningOk(p: Setup)
    requires SetupOk(p)
    ensures SiteOk(p, Opening(p))
  {
    var s := Opening(p);
    NothingHeld(p.requests, s.handlers);
    forall i | 0 <= i < |s.handlers| ensures GatewayProofs.Inv(p.requests[i], s.handlers[i]) {
      GatewayProofs.InitOk(p.requests[i]);
    }
  }

  lemma {:induction false} RunOk(p: Setup, acts: seq<Act>)
    requires SetupOk(p) && Run(p, acts).Some?
    ensures SiteOk(p, Run(p, acts).value)
  {
    if acts == [] {
      OpeningOk(p);
    } else {
      RunOk(p, acts[..|acts| - 1]);
      StepOk(p, Run(p, acts[..|acts| - 1]).value, acts[|acts| - 1]);
    }
  }

  /** Conservation across requests. In every interleaving of any number of handlers, the controller's
      usage is the total cost of the requests that hold a lease, within the global limit; and once every
      handler is gone, however each of them ended, it is zero. */
  lemma UsageIsHeldByHandlers(p: Setup, acts: seq<Act>)
    requires SetupOk(p) && Run(p, acts).Some?
    ensures var s := Run(p, acts).value;
            && |s.handlers| == |p.requests| && s.ledger.used == HeldCost(p.requests, s.handlers) <= p.admission.limit
            && ((forall i | 0 <= i < |s.handlers| :: s.handlers[i].pc == Gateway.Gone) ==> s.ledger.used == 0)
  {
    RunOk(p, acts);
    var s := Run(p, acts).value;
    if forall i | 0 <= i < |s.handlers| :: s.handlers[i].pc == Gateway.Gone {
      forall i | 0 <= i < |s.handlers| ensures s.handlers[i].lease != Gateway.Held {
        GatewayTheorems.PcNeeds(p.requests[i], s.handlers[i]);
      }
      NothingHeld(p.requests, s.handlers);
    }
  }

  /** The calls on the controller, in the order it serves them. */
  function Calls(p: Setup, acts: seq<Act>): seq<AdmissionProofs.Op>
    requires SetupOk(p) && Run(p, acts).Some?
  {
    if acts == [] then []
    else
      var front, last := acts[..|acts| - 1], acts[|acts| - 1];
      var call := CallOf(p, Run(p, front).value, last);
      Calls(p, front) + if call.Some? then [call.value] else []
  }

  /** The ledger is a run of the controller: what holds of all runs of the controller, the tenant rate
      bound included, holds of every site. */
  lemma {:induction false} LedgerRunsTheController(p: Setup, acts: seq<Act>)
    requires SetupOk(p) && Run(p, acts).Some?
    ensures Run(p, acts).value.ledger == AdmissionProofs.Run(p.admission, AdmissionProofs.Empty(), Calls(p, acts))
  {
    if acts != [] {
      var front := acts[..|acts| - 1];
      LedgerRunsTheController(p, front);
      var calls := Calls(p, acts);
      assert calls != Calls(p, front) ==> calls[..|calls| - 1] == Calls(p, front);
    }
  }
}
