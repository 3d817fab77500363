/** What admission guarantees over whole runs of calls (internal/admission/admission.go:51-94). The
    controller's lock makes every call atomic, so a run is a sequence of calls in lock order. */
module AdmissionProofs {
  import opened Model
  import opened Admission

  datatype Grant = Grant(cost: uint64, released: bool)

  /** `grants` lists every lease handed out, in order. */
  datatype State = State(used: int, buckets: Buckets, grants: seq<Grant>)

  /** `ReleaseOp(i)` releases the i-th lease handed out, if there is one. */
  datatype Op = ReserveOp(tenant: string, cost: uint64, now: Time) | ReleaseOp(i: nat)

  function Empty(): State {
    State(0, map[], [])
  }

  function DecisionOn(c: Config, s: State, op: Op): Decision
    requires op.ReserveOp?
  {
    Decide(c, s.used, Level(c, s.buckets, TenantKey(op.tenant), op.now), op.cost)
  }

  function Apply(c: Config, s: State, op: Op): State {
    match op
    case ReserveOp(tenant, cost, now) =>
      if cost == 0 then s
      else
        var granted := DecisionOn(c, s, op) == Granted;
        State(if granted then s.used + cost else s.used,
              Charged(c, s.buckets, TenantKey(tenant), cost, now, granted),
              if granted then s.grants + [Grant(cost, false)] else s.grants)
    case ReleaseOp(i) =>
      if i >= |s.grants| || s.grants[i].released then s
      else s.(used := s.used - s.grants[i].cost, grants := s.grants[i := s.grants[i].(released := true)])
  }

  function Run(c: Config, s: State, ops: seq<Op>): State {
    if ops == [] then s else Apply(c, Run(c, s, ops[..|ops| - 1]), ops[|ops| - 1])
  }

  // ---- In-flight accounting ----------------------------------------------

  function Outstanding(gs: seq<Grant>): nat {
    if gs == [] then 0
    else Outstanding(gs[..|gs| - 1]) + if gs[|gs| - 1].released then 0 else gs[|gs| - 1].cost
  }

  lemma {:induction false} ReleaseOne(gs: seq<Grant>, i: nat)
    requires i < |gs| && !gs[i].released
    ensures Outstanding(gs[i := gs[i].(released := true)]) == Outstanding(gs) - gs[i].cost
  {
    var n := |gs| - 1;
    var hs := gs[i := gs[i].(released := true)];
    if i == n {
      assert hs[..n] == gs[..n];
    } else {
      ReleaseOne(gs[..n], i);
      assert hs[..n] == gs[..n][i := gs[i].(released := true)];
    }
  }

  predicate UsageOk(c: Config, s: State) {
    s.used == Outstanding(s.grants) && s.used <= c.limit
  }

  lemma GrantUsage(s: State, cost: uint64)
    ensures Outstanding(s.grants + [Grant(cost, false)]) == Outstanding(s.grants) + cost
  {
  }

  lemma ApplyUsage(c: Config, s: State, op: Op)
    requires UsageOk(c, s)
    ensures UsageOk(c, Apply(c, s, op))
  {
    match op
    case ReserveOp(_, cost, _) => GrantUsage(s, cost);
    case ReleaseOp(i) =>
      if i < |s.grants| && !s.grants[i].released {
        ReleaseOne(s.grants, i);
      }
  }

  lemma {:induction false} RunUsage(c: Config, ops: seq<Op>)
    ensures UsageOk(c, Run(c, Empty(), ops))
  {
    if ops != [] {
      RunUsage(c, ops[..|ops| - 1]);
      ApplyUsage(c, Run(c, Empty(), ops[..|ops| - 1]), ops[|ops| - 1]);
    }
  }

  /** In every reachable state the usage is the total of the leases not yet released, within the
      limit, and covers each of them, so neither subtraction in the code can underflow. */
  lemma UsageIsOutstanding(c: Config, ops: seq<Op>)
    ensures var s := Run(c, Empty(), ops);
            && s.used == Outstanding(s.grants) && s.used <= c.limit
            && forall i | 0 <= i < |s.grants| && !s.grants[i].released :: s.grants[i].cost <= s.used
  {
    RunUsage(c, ops);
    var s := Run(c, Empty(), ops);
    forall i | 0 <= i < |s.grants| && !s.grants[i].released ensures s.grants[i].cost <= s.used {
      ReleaseOne(s.grants, i);
    }
  }

  // ---- The rate bound ----------------------------------------------------

  lemma AccruedAdds(c: Config, a: Time, b: Time)
    ensures Accrued(c, a - b) == Accrued(c, a) - Accrued(c, b)
    ensures Accrued(c, a + b) == Accrued(c, a) + Accrued(c, b)
  {
  }

  predicate CallBy(op: Op, key: string) {
    op.ReserveOp? && op.cost > 0 && TenantKey(op.tenant) == key
  }

  predicate GrantedTo(c: Config, s: State, op: Op, key: string) {
    CallBy(op, key) && DecisionOn(c, s, op) == Granted
  }

  /** Total cost admitted for a tenant during a run. */
  function Admitted(c: Config, s: State, ops: seq<Op>, key: string): nat {
    if ops == [] then 0 else
      var n := |ops| - 1;
      Admitted(c, s, ops[..n], key) + if GrantedTo(c, Run(c, s, ops[..n]), ops[n], key) then ops[n].cost else 0
  }

  /** Clock reading of the tenant's last admitted call, or `default` if it had none. */
  function LastAdmitted(c: Config, s: State, ops: seq<Op>, key: string, default: Time): Time {
    if ops == [] then default else
      var n := |ops| - 1;
      if GrantedTo(c, Run(c, s, ops[..n]), ops[n], key) then ops[n].now
      else LastAdmitted(c, s, ops[..n], key, default)
  }

  /** The clock never reads Go's zero time. */
  predicate RealClock(ops: seq<Op>) {
    forall i | 0 <= i < |ops| && ops[i].ReserveOp? :: ops[i].now != ZERO_TIME
  }

  function Potential(c: Config, b: Bucket): real {
    b.tokens - Accrued(c, b.last)
  }

  /** A refill never raises the potential, whichever way the clock has moved. */
  lemma RefillPotential(c: Config, b: Bucket, now: Time)
    requires ConfigOk(c)
    ensures Refill(c, b, now).tokens <= c.burst && Refill(c, b, now).last == now
    ensures b.last != ZERO_TIME ==> Potential(c, Refill(c, b, now)) <= Potential(c, b)
  {
  }

  /** One call: what is admitted is paid for out of the potential, and an admitted call leaves a
      non-negative level. */
  lemma ApplyPotential(c: Config, s: State, op: Op, key: string)
    requires ConfigOk(c)
    ensures var b, b' := Lookup(s.buckets, key), Lookup(Apply(c, s, op).buckets, key);
            var cost := if GrantedTo(c, s, op, key) then op.cost else 0;
            && (CallBy(op, key) ==>
                  b'.last == op.now && Potential(c, b') <= c.burst - Accrued(c, op.now) - cost as real)
            && (!CallBy(op, key) ==> b' == b)
            && (b.last != ZERO_TIME ==> Potential(c, b') <= Potential(c, b) - cost as real)
            && (GrantedTo(c, s, op, key) ==> Potential(c, b') >= -Accrued(c, op.now))
  {
    if op.ReserveOp? {
      RefillPotential(c, Lookup(s.buckets, key), op.now);
    }
  }

  lemma {:induction false} PotentialPays(c: Config, s: State, ops: seq<Op>, key: string)
    requires ConfigOk(c) && RealClock(ops) && ops != [] && CallBy(ops[0], key)
    ensures Lookup(Run(c, s, ops).buckets, key).last != ZERO_TIME
    ensures Admitted(c, s, ops, key) as real + Potential(c, Lookup(Run(c, s, ops).buckets, key))
            <= c.burst - Accrued(c, ops[0].now)
    ensures Admitted(c, s, ops, key) as real
            <= c.burst + Accrued(c, LastAdmitted(c, s, ops, key, ops[0].now) - ops[0].now)
  {
    var n := |ops| - 1;
    var before := Run(c, s, ops[..n]);
    ApplyPotential(c, before, ops[n], key);
    AccruedAdds(c, LastAdmitted(c, s, ops, key, ops[0].now), ops[0].now);
    if n == 0 {
      assert ops[..n] == [];
    } else {
      PotentialPays(c, s, ops[..n], key);
      assert ops[..n][0] == ops[0];
    }
  }

  /** Rate bound. In any window of calls that opens with a call of the tenant, however the clock
      readings run (they are taken before the lock, so they may even decrease), the cost admitted for
      the tenant is at most the burst plus the rate times the time from the first call of the window
      to its last admitted call. */
  lemma TenantRateBound(c: Config, history: seq<Op>, window: seq<Op>, key: string)
    requires ConfigOk(c) && RealClock(window) && window != [] && CallBy(window[0], key)
    ensures var s := Run(c, Empty(), history);
            Admitted(c, s, window, key) as real
            <= c.burst + Accrued(c, LastAdmitted(c, s, window, key, window[0].now) - window[0].now)
  {
    PotentialPays(c, Run(c, Empty(), history), window, key);
  }

  /** A clock that reads Go's zero time makes a used bucket look unused: two calls at the same
      instant are then both admitted against a full bucket. */
  lemma ZeroTimeBreaksBound(c: Config, cost: uint64)
    requires ConfigOk(c) && cost > 0 && cost as real == c.burst && 2 * cost <= c.limit
    ensures var call := ReserveOp("t", cost, ZERO_TIME);
            Admitted(c, Empty(), [call, call], "t") as real
            > c.burst + Accrued(c, LastAdmitted(c, Empty(), [call, call], "t", ZERO_TIME) - ZERO_TIME)
  {
  }

  // ---- Rejected calls leave no trace -------------------------------------

  /** Refilling twice is refilling once, on a clock that does not go back. */
  lemma RefillComposes(c: Config, b: Bucket, now: Time, later: Time)
    requires ConfigOk(c) && now != ZERO_TIME && now <= later
    ensures Refill(c, Refill(c, b, now), later) == Refill(c, b, later)
  {
  }

  /** From instant `clock` on, the two states cannot be told apart. */
  ghost predicate Alike(c: Config, s: State, t: State, clock: Time) {
    && s.used == t.used && s.grants == t.grants
    && forall key, now :: clock <= now ==> Level(c, s.buckets, key, now) == Level(c, t.buckets, key, now)
  }

  /** What a caller can see of a call: the decision, and the level it was taken at. */
  datatype Observation = Observation(decision: Decision, level: real) | Released(used: int)

  function Observe(c: Config, s: State, op: Op): Observation {
    match op
    case ReserveOp(tenant, _, now) => Observation(DecisionOn(c, s, op), Level(c, s.buckets, TenantKey(tenant), now))
    case ReleaseOp(_) => Released(Apply(c, s, op).used)
  }

  function Observations(c: Config, s: State, ops: seq<Op>): seq<Observation>
    decreases |ops|
  {
    if ops == [] then [] else [Observe(c, s, ops[0])] + Observations(c, Apply(c, s, ops[0]), ops[1..])
  }

  function Final(c: Config, s: State, ops: seq<Op>): State
    decreases |ops|
  {
    if ops == [] then s else Final(c, Apply(c, s, ops[0]), ops[1..])
  }

  function Keep<T>(xs: seq<T>, keep: seq<bool>): seq<T>
    requires |xs| == |keep|
  {
    if xs == [] then [] else (if keep[0] then [xs[0]] else []) + Keep(xs[1..], keep[1..])
  }

  /** Clock readings do not decrease, start at `clock` or later, and are never the zero time. */
  predicate SteadyClock(ops: seq<Op>, clock: Time) {
    if ops == [] then true
    else if ops[0].ReserveOp? then ops[0].now != ZERO_TIME && clock <= ops[0].now && SteadyClock(ops[1..], ops[0].now)
    else SteadyClock(ops[1..], clock)
  }

  /** Only rejected calls are dropped. */
  predicate DropsRejected(c: Config, s: State, ops: seq<Op>, keep: seq<bool>)
    requires |ops| == |keep|
    decreases |ops|
  {
    ops == [] ||
    ((keep[0] || (ops[0].ReserveOp? && DecisionOn(c, s, ops[0]) != Granted))
     && DropsRejected(c, Apply(c, s, ops[0]), ops[1..], keep[1..]))
  }

  lemma LevelAfterCall(c: Config, s: State, op: Op, key: string, later: Time)
    requires ConfigOk(c) && op.ReserveOp? && op.now != ZERO_TIME && op.now <= later
    ensures var granted := GrantedTo(c, s, op, key);
            Level(c, Apply(c, s, op).buckets, key, later) ==
            if granted
            then Min(c.burst, Level(c, s.buckets, key, op.now) - op.cost as real + Accrued(c, later - op.now))
            else Level(c, s.buckets, key, later)
  {
  }

  lemma DroppedCall(c: Config, s: State, t: State, op: Op, clock: Time)
    requires ConfigOk(c) && Alike(c, s, t, clock) && op.ReserveOp? && DecisionOn(c, s, op) != Granted
    requires op.now != ZERO_TIME && clock <= op.now
    ensures Alike(c, Apply(c, s, op), t, op.now)
  {
    forall key, now | op.now <= now
      ensures Level(c, Apply(c, s, op).buckets, key, now) == Level(c, t.buckets, key, now)
    {
      LevelAfterCall(c, s, op, key, now);
    }
  }

  lemma SameCall(c: Config, s: State, t: State, op: Op, clock: Time)
    requires ConfigOk(c) && Alike(c, s, t, clock) && op.ReserveOp? && op.now != ZERO_TIME && clock <= op.now
    ensures Observe(c, s, op) == Observe(c, t, op)
    ensures Alike(c, Apply(c, s, op), Apply(c, t, op), op.now)
  {
    assert DecisionOn(c, s, op) == DecisionOn(c, t, op);
    forall key, now | op.now <= now
      ensures Level(c, Apply(c, s, op).buckets, key, now) == Level(c, Apply(c, t, op).buckets, key, now)
    {
      LevelAfterCall(c, s, op, key, now);
      LevelAfterCall(c, t, op, key, now);
    }
  }

  lemma SameRelease(c: Config, s: State, t: State, op: Op, clock: Time)
    requires Alike(c, s, t, clock) && op.ReleaseOp?
    ensures Observe(c, s, op) == Observe(c, t, op)
    ensures Alike(c, Apply(c, s, op), Apply(c, t, op), clock)
  {
  }

  lemma {:induction false} DroppingIsUnobservable(c: Config, s: State, t: State, ops: seq<Op>, keep: seq<bool>,
                                                  clock: Time)
    requires ConfigOk(c) && Alike(c, s, t, clock) && |ops| == |keep|
    requires SteadyClock(ops, clock) && DropsRejected(c, s, ops, keep)
    ensures |Observations(c, s, ops)| == |keep|
    ensures Observations(c, t, Keep(ops, keep)) == Keep(Observations(c, s, ops), keep)
    ensures Final(c, t, Keep(ops, keep)).used == Final(c, s, ops).used
    ensures Final(c, t, Keep(ops, keep)).grants == Final(c, s, ops).grants
    decreases |ops|
  {
    if ops != [] {
      var op, s' := ops[0], Apply(c, s, ops[0]);
      var later := if op.ReserveOp? then op.now else clock;
      if keep[0] {
        if op.ReserveOp? {
          SameCall(c, s, t, op, clock);
        } else {
          SameRelease(c, s, t, op, clock);
        }
        DroppingIsUnobservable(c, s', Apply(c, t, op), ops[1..], keep[1..], later);
        assert Keep(ops, keep)[1..] == Keep(ops[1..], keep[1..]);
      } else {
        DroppedCall(c, s, t, op, clock);
        DroppingIsUnobservable(c, s', t, ops[1..], keep[1..], later);
        assert Keep(ops, keep) == Keep(ops[1..], keep[1..]);
      }
    }
  }

  /** On a clock that does not go back, rejected calls are unobservable: dropping any set of them from
      a run, even a tenant's first call, changes no other decision, no level at decision time, no
      in-flight total and no lease. */
  lemma RejectedCallsLeaveNoTrace(c: Config, ops: seq<Op>, keep: seq<bool>, clock: Time)
    requires ConfigOk(c) && |ops| == |keep| && SteadyClock(ops, clock) && DropsRejected(c, Empty(), ops, keep)
    ensures |Observations(c, Empty(), ops)| == |keep|
    ensures Observations(c, Empty(), Keep(ops, keep)) == Keep(Observations(c, Empty(), ops), keep)
    ensures Final(c, Empty(), Keep(ops, keep)).used == Final(c, Empty(), ops).used
    ensures Final(c, Empty(), Keep(ops, keep)).grants == Final(c, Empty(), ops).grants
  {
    DroppingIsUnobservable(c, Empty(), Empty(), ops, keep, clock);
  }
}
