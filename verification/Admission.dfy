/** Token-bucket and in-flight admission (internal/admission/admission.go). Bucket levels are exact
    reals; instants are nanoseconds counted from Go's zero time, which marks an unused bucket. */
module Admission {
  import opened Model

  const ZERO_TIME: Time := 0

  datatype Config = Config(limit: uint64, rate: real, burst: real)

  /** What `New` demands. */
  predicate ConfigOk(c: Config) {
    c.limit > 0 && c.rate > 0.0 && c.burst > 0.0
  }

  datatype Bucket = Bucket(tokens: real, last: Time)

  type Buckets = map<string, Bucket>

  datatype Decision = Granted | InvalidCost | TenantLimit | GlobalLimit

  function TenantKey(tenant: string): string {
    if tenant == "" then "public" else tenant
  }

  /** Go's map lookup: the zero bucket when the key is missing. */
  function Lookup(buckets: Buckets, key: string): Bucket {
    if key in buckets then buckets[key] else Bucket(0.0, ZERO_TIME)
  }

  /** Tokens earned in `d` nanoseconds. */
  function Accrued(c: Config, d: Time): real {
    d as real / 1000000000.0 * c.rate
  }

  function Min(a: real, b: real): real {
    if a < b then a else b
  }

  function Refill(c: Config, b: Bucket, now: Time): Bucket {
    if b.last == ZERO_TIME then Bucket(c.burst, now)
    else Bucket(Min(c.burst, b.tokens + Accrued(c, now - b.last)), now)
  }

  /** The tenant's level at instant `now`. */
  function Level(c: Config, buckets: Buckets, key: string, now: Time): real {
    Refill(c, Lookup(buckets, key), now).tokens
  }

  /** The decision on a call, given what is in flight and the tenant's level. */
  function Decide(c: Config, used: int, level: real, cost: uint64): Decision {
    if cost == 0 then InvalidCost
    else if level < cost as real then TenantLimit
    else if cost > c.limit - used then GlobalLimit
    else Granted
  }

  function Charged(c: Config, buckets: Buckets, key: string, cost: uint64, now: Time, granted: bool): Buckets {
    var b := Refill(c, Lookup(buckets, key), now);
    buckets[key := if granted then b.(tokens := b.tokens - cost as real) else b]
  }

  // ---- The controller and its leases -------------------------------------

  class Controller {
    const config: Config
    var used: uint64
    var buckets: Buckets
    ghost var outstanding: set<Lease>

    ghost predicate Valid()
      reads this, outstanding
    {
      && (forall l | l in outstanding :: l.controller == this && !l.released)
      && used == TotalCost(outstanding)
      && used <= config.limit
    }

    constructor (config: Config)
      requires ConfigOk(config)
      ensures Valid() && this.config == config && used == 0 && buckets == map[] && outstanding == {}
    {
      this.config := config;
      used := 0;
      buckets := map[];
      outstanding := {};
    }

    /** `now` is the clock reading taken before the lock. */
    method Reserve(tenant: string, cost: uint64, now: Time) returns (decision: Decision, lease: Lease?)
      requires Valid()
      modifies this
      ensures Valid()
      ensures decision == Decide(config, old(used), Level(config, old(buckets), TenantKey(tenant), now), cost)
      ensures decision == Granted <==> lease != null
      ensures lease != null ==> fresh(lease) && lease.controller == this && lease.cost == cost && !lease.released
                                && outstanding == old(outstanding) + {lease} && used == old(used) + cost
      ensures lease == null ==> outstanding == old(outstanding) && used == old(used)
      ensures buckets == if cost == 0 then old(buckets)
                         else Charged(config, old(buckets), TenantKey(tenant), cost, now, decision == Granted)
    {
      if cost == 0 {
        return InvalidCost, null;
      }
      var key := if tenant == "" then "public" else tenant;
      var b := Lookup(buckets, key);
      if b.last == ZERO_TIME {
        b := Bucket(config.burst, now);
      } else {
        b := b.(tokens := Min(config.burst, b.tokens + Accrued(config, now - b.last)));
        b := b.(last := now);
      }
      if b.tokens < cost as real {
        buckets := buckets[key := b];
        return TenantLimit, null;
      }
      if cost > config.limit - used {
        buckets := buckets[key := b];
        return GlobalLimit, null;
      }
      b := b.(tokens := b.tokens - cost as real);
      buckets := buckets[key := b];
      used := used + cost;
      var l := new Lease(this, cost);
      TotalCostAdd(outstanding, l);
      outstanding := outstanding + {l};
      return Granted, l;
    }

    method InFlight() returns (n: uint64)
      requires Valid()
      ensures n == TotalCost(outstanding)
    {
      n := used;
    }
  }

  class Lease {
    const controller: Controller
    const cost: uint64
    var released: bool

    ghost predicate Valid()
      reads this, controller, controller.outstanding
    {
      controller.Valid() && (released <==> this !in controller.outstanding)
    }

    constructor (controller: Controller, cost: uint64)
      ensures this.controller == controller && this.cost == cost && !released
    {
      this.controller := controller;
      this.cost := cost;
      released := false;
    }

    /** Gives the tokens back once; the underflow panic is unreachable. */
    method Release()
      requires Valid()
      modifies this, controller
      ensures Valid() && released
      ensures controller.outstanding == old(controller.outstanding) - {this}
      ensures controller.used == if old(released) then old(controller.used) else old(controller.used) - cost
      ensures controller.buckets == old(controller.buckets)
    {
      if released {
        return;
      }
      released := true;
      TotalCostRemove(controller.outstanding, this);
      if cost > controller.used {
        assert false;
      }
      controller.used := controller.used - cost;
      controller.outstanding := controller.outstanding - {this};
    }
  }

  ghost function TotalCost(ls: set<Lease>): nat {
    if ls == {} then 0 else
      var l :| l in ls;
      l.cost + TotalCost(ls - {l})
  }

  lemma {:induction false} TotalCostRemove(ls: set<Lease>, l: Lease)
    requires l in ls
    ensures TotalCost(ls) == l.cost + TotalCost(ls - {l})
  {
    var m :| m in ls && TotalCost(ls) == m.cost + TotalCost(ls - {m});
    if m != l {
      TotalCostRemove(ls - {m}, l);
      TotalCostRemove(ls - {l}, m);
      assert ls - {m} - {l} == ls - {l} - {m};
    }
  }

  lemma TotalCostAdd(ls: set<Lease>, l: Lease)
    requires l !in ls
    ensures TotalCost(ls + {l}) == l.cost + TotalCost(ls)
  {
    TotalCostRemove(ls + {l}, l);
    assert ls + {l} - {l} == ls;
  }
}
