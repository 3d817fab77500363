/** The mock worker's prefix cache as a list of fingerprints, oldest first
    (internal/mockworker/worker.go:363-385). */
module WorkerCache {
  import opened Model
  import Prefix

  function Total(es: seq<PrefixFingerprint>): nat {
    if es == [] then 0 else es[0].tokenCount + Total(es[1..])
  }

  predicate WithinBounds(es: seq<PrefixFingerprint>, limit: nat, capacity: nat) {
    |es| <= limit && Total(es) <= capacity
  }

  /** Drops entries from the front until both bounds hold. */
  function Evict(es: seq<PrefixFingerprint>, limit: nat, capacity: nat): (r: seq<PrefixFingerprint>)
    ensures WithinBounds(r, limit, capacity)
    ensures |r| <= |es| && r == es[|es| - |r|..]
  {
    if es == [] || WithinBounds(es, limit, capacity) then es else Evict(es[1..], limit, capacity)
  }

  predicate HasKey(es: seq<PrefixFingerprint>, key: string) {
    exists i :: 0 <= i < |es| && es[i].sha256 == key
  }

  predicate DistinctKeys(es: seq<PrefixFingerprint>) {
    forall i, j | 0 <= i < j < |es| :: es[i].sha256 != es[j].sha256
  }

  function Insert(es: seq<PrefixFingerprint>, f: PrefixFingerprint, limit: nat, capacity: nat): seq<PrefixFingerprint> {
    if HasKey(es, f.sha256) then es else Evict(es + [f], limit, capacity)
  }

  function InsertAll(es: seq<PrefixFingerprint>, fs: seq<PrefixFingerprint>, limit: nat,
                     capacity: nat): seq<PrefixFingerprint> {
    if fs == [] then es
    else Insert(InsertAll(es, fs[..|fs| - 1], limit, capacity), fs[|fs| - 1], limit, capacity)
  }

  /** Eviction is minimal: no longer suffix would have met both bounds. */
  lemma {:induction false} EvictKeepsLongestSuffix(es: seq<PrefixFingerprint>, limit: nat, capacity: nat, j: nat)
    requires j <= |es| && WithinBounds(es[j..], limit, capacity)
    ensures |es[j..]| <= |Evict(es, limit, capacity)|
  {
    if es != [] && !WithinBounds(es, limit, capacity) {
      assert es[0..] == es;
      assert j != 0;
      assert es[1..][j - 1..] == es[j..];
      EvictKeepsLongestSuffix(es[1..], limit, capacity, j - 1);
    }
  }

  predicate CacheOk(es: seq<PrefixFingerprint>, limit: nat, capacity: nat) {
    DistinctKeys(es) && WithinBounds(es, limit, capacity)
  }

  lemma SuffixDistinct(es: seq<PrefixFingerprint>, k: nat)
    requires DistinctKeys(es) && k <= |es|
    ensures DistinctKeys(es[k..])
  {
  }

  lemma AppendDistinct(es: seq<PrefixFingerprint>, f: PrefixFingerprint)
    requires DistinctKeys(es) && !HasKey(es, f.sha256)
    ensures DistinctKeys(es + [f])
  {
  }

  lemma InsertOk(es: seq<PrefixFingerprint>, f: PrefixFingerprint, limit: nat, capacity: nat)
    requires CacheOk(es, limit, capacity)
    ensures CacheOk(Insert(es, f, limit, capacity), limit, capacity)
  {
    if !HasKey(es, f.sha256) {
      var all := es + [f];
      AppendDistinct(es, f);
      SuffixDistinct(all, |all| - |Evict(all, limit, capacity)|);
    }
  }

  /** The cache never holds a key twice and never exceeds either bound. */
  lemma {:induction false} InsertAllOk(es: seq<PrefixFingerprint>, fs: seq<PrefixFingerprint>, limit: nat,
                                       capacity: nat)
    requires CacheOk(es, limit, capacity)
    ensures CacheOk(InsertAll(es, fs, limit, capacity), limit, capacity)
  {
    if fs != [] {
      InsertAllOk(es, fs[..|fs| - 1], limit, capacity);
      InsertOk(InsertAll(es, fs[..|fs| - 1], limit, capacity), fs[|fs| - 1], limit, capacity);
    }
  }

  lemma {:induction false} TotalSnoc(es: seq<PrefixFingerprint>, f: PrefixFingerprint)
    ensures Total(es + [f]) == Total(es) + f.tokenCount
  {
    if es == [] {
      assert [f][1..] == [];
    } else {
      TotalSnoc(es[1..], f);
      assert (es + [f])[1..] == es[1..] + [f];
    }
  }

  // ---- With the worker's own counter -------------------------------------

  /** The cache as the worker keeps it, with its 64-bit counter of used tokens. */
  datatype Cache = Cache(entries: seq<PrefixFingerprint>, used: uint64)

  /** Without the oldest entry; the subtraction saturates. */
  function WithoutOldest(c: Cache): Cache
    requires c.entries != []
  {
    var count := c.entries[0].tokenCount;
    Cache(c.entries[1..], if c.used >= count then c.used - count else 0)
  }

  function Shrunk(c: Cache, limit: nat, capacity: nat): Cache
    decreases |c.entries|
  {
    if c.entries != [] && (|c.entries| > limit || c.used > capacity) then Shrunk(WithoutOldest(c), limit, capacity)
    else c
  }

  /** The addition wraps around. */
  function Put(c: Cache, f: PrefixFingerprint, limit: nat, capacity: nat): Cache {
    if HasKey(c.entries, f.sha256) then c
    else Shrunk(Cache(c.entries + [f], Wrap64(c.used + f.tokenCount)), limit, capacity)
  }

  function PutAll(c: Cache, fs: seq<PrefixFingerprint>, limit: nat, capacity: nat): Cache {
    if fs == [] then c else Put(PutAll(c, fs[..|fs| - 1], limit, capacity), fs[|fs| - 1], limit, capacity)
  }

  /** Holds whatever the counter does: it never exceeds the cached total, nor the capacity. */
  predicate Bounded(c: Cache, limit: nat, capacity: nat) {
    DistinctKeys(c.entries) && |c.entries| <= limit && c.used <= capacity && c.used <= Total(c.entries)
  }

  lemma {:induction false} ShrunkBounded(c: Cache, limit: nat, capacity: nat)
    requires DistinctKeys(c.entries) && c.used <= Total(c.entries)
    ensures Bounded(Shrunk(c, limit, capacity), limit, capacity)
    ensures forall f | f in Shrunk(c, limit, capacity).entries :: f in c.entries
    decreases |c.entries|
  {
    if c.entries != [] && (|c.entries| > limit || c.used > capacity) {
      ShrunkBounded(WithoutOldest(c), limit, capacity);
    }
  }

  lemma PutBounded(c: Cache, f: PrefixFingerprint, limit: nat, capacity: nat)
    requires Bounded(c, limit, capacity)
    ensures Bounded(Put(c, f, limit, capacity), limit, capacity)
    ensures forall e | e in Put(c, f, limit, capacity).entries :: e in c.entries || e == f
  {
    if !HasKey(c.entries, f.sha256) {
      TotalSnoc(c.entries, f);
      AppendDistinct(c.entries, f);
      ShrunkBounded(Cache(c.entries + [f], Wrap64(c.used + f.tokenCount)), limit, capacity);
    }
  }

  /** Whatever is inserted, keys stay distinct, both bounds hold, and only what was inserted is cached. */
  lemma {:induction false} PutAllBounded(c: Cache, fs: seq<PrefixFingerprint>, limit: nat, capacity: nat)
    requires Bounded(c, limit, capacity)
    ensures Bounded(PutAll(c, fs, limit, capacity), limit, capacity)
    ensures forall e | e in PutAll(c, fs, limit, capacity).entries :: e in c.entries || e in fs
  {
    if fs != [] {
      PutAllBounded(c, fs[..|fs| - 1], limit, capacity);
      PutBounded(PutAll(c, fs[..|fs| - 1], limit, capacity), fs[|fs| - 1], limit, capacity);
    }
  }

  /** The newest entry is never evicted if it fits at all. */
  lemma {:induction false} ShrunkKeepsNewest(c: Cache, limit: nat, capacity: nat)
    requires c.entries != [] && c.used <= Total(c.entries)
    requires limit >= 1 && c.entries[|c.entries| - 1].tokenCount <= capacity
    ensures c.entries[|c.entries| - 1] in Shrunk(c, limit, capacity).entries
    decreases |c.entries|
  {
    if |c.entries| == 1 {
      assert c.entries[1..] == [];
    } else if |c.entries| > limit || c.used > capacity {
      ShrunkKeepsNewest(WithoutOldest(c), limit, capacity);
    }
  }

  lemma PutKeepsNewest(c: Cache, f: PrefixFingerprint, limit: nat, capacity: nat)
    requires c.used <= Total(c.entries) && limit >= 1 && f.tokenCount <= capacity && !HasKey(c.entries, f.sha256)
    ensures f in Put(c, f, limit, capacity).entries
  {
    TotalSnoc(c.entries, f);
    ShrunkKeepsNewest(Cache(c.entries + [f], Wrap64(c.used + f.tokenCount)), limit, capacity);
  }

  /** After a list has been inserted its last fingerprint's key is cached, if the fingerprint fits at all. */
  lemma LastIsCached(c: Cache, fs: seq<PrefixFingerprint>, limit: nat, capacity: nat)
    requires Bounded(c, limit, capacity) && limit >= 1 && fs != [] && fs[|fs| - 1].tokenCount <= capacity
    ensures HasKey(PutAll(c, fs, limit, capacity).entries, fs[|fs| - 1].sha256)
  {
    var front, last := fs[..|fs| - 1], fs[|fs| - 1];
    PutAllBounded(c, front, limit, capacity);
    if !HasKey(PutAll(c, front, limit, capacity).entries, last.sha256) {
      PutKeepsNewest(PutAll(c, front, limit, capacity), last, limit, capacity);
    }
  }

  // ---- When the counter is exact -----------------------------------------

  /** One entry too many still fits the counter. */
  predicate RoomToInsert(limit: nat, capacity: nat) {
    capacity + U32 <= U64 || limit <= U32
  }

  lemma {:induction false} TotalAtMost(es: seq<PrefixFingerprint>)
    ensures Total(es) <= |es| * (U32 - 1)
  {
    if es != [] {
      TotalAtMost(es[1..]);
    }
  }

  lemma NoWrap(es: seq<PrefixFingerprint>, f: PrefixFingerprint, limit: nat, capacity: nat)
    requires WithinBounds(es, limit, capacity) && RoomToInsert(limit, capacity)
    ensures Total(es) + f.tokenCount < U64
  {
    TotalAtMost(es);
  }

  lemma {:induction false} ShrunkExact(c: Cache, limit: nat, capacity: nat)
    requires c.used == Total(c.entries)
    ensures var r := Shrunk(c, limit, capacity);
            r.entries == Evict(c.entries, limit, capacity) && r.used == Total(r.entries)
    decreases |c.entries|
  {
    if c.entries != [] && (|c.entries| > limit || c.used > capacity) {
      ShrunkExact(WithoutOldest(c), limit, capacity);
    }
  }

  lemma ShrunkAppended(c: Cache, f: PrefixFingerprint, limit: nat, capacity: nat)
    requires c.used == Total(c.entries) && c.used + f.tokenCount < U64
    ensures var r := Shrunk(Cache(c.entries + [f], c.used + f.tokenCount), limit, capacity);
            r.entries == Evict(c.entries + [f], limit, capacity) && r.used == Total(r.entries)
  {
    TotalSnoc(c.entries, f);
    ShrunkExact(Cache(c.entries + [f], c.used + f.tokenCount), limit, capacity);
  }

  lemma PutExact(c: Cache, f: PrefixFingerprint, limit: nat, capacity: nat)
    requires c.used == Total(c.entries) && WithinBounds(c.entries, limit, capacity) && c.used + f.tokenCount < U64
    ensures var r := Put(c, f, limit, capacity);
            && r.entries == Insert(c.entries, f, limit, capacity)
            && r.used == Total(r.entries) && WithinBounds(r.entries, limit, capacity)
  {
    if !HasKey(c.entries, f.sha256) {
      ShrunkAppended(c, f, limit, capacity);
    }
  }

  /** With room for one entry too many the counter stays the cached total: it neither wraps around nor
      saturates, and the worker's cache is the ideal one. */
  lemma {:induction false} PutAllExact(c: Cache, fs: seq<PrefixFingerprint>, limit: nat, capacity: nat)
    requires WithinBounds(c.entries, limit, capacity) && c.used == Total(c.entries) && RoomToInsert(limit, capacity)
    ensures var r := PutAll(c, fs, limit, capacity);
            && r.entries == InsertAll(c.entries, fs, limit, capacity)
            && r.used == Total(r.entries) && WithinBounds(r.entries, limit, capacity)
  {
    if fs != [] {
      PutAllExact(c, fs[..|fs| - 1], limit, capacity);
      NoWrap(PutAll(c, fs[..|fs| - 1], limit, capacity).entries, fs[|fs| - 1], limit, capacity);
      PutExact(PutAll(c, fs[..|fs| - 1], limit, capacity), fs[|fs| - 1], limit, capacity);
    }
  }

  lemma AmplePut(c: Cache, f: PrefixFingerprint, limit: nat, capacity: nat)
    requires c.used == Total(c.entries) && |c.entries| + 1 <= limit && c.used + f.tokenCount <= capacity < U64
    ensures Put(c, f, limit, capacity)
            == if HasKey(c.entries, f.sha256) then c else Cache(c.entries + [f], c.used + f.tokenCount)
    ensures var r := Put(c, f, limit, capacity); r.used == Total(r.entries) && HasKey(r.entries, f.sha256)
  {
    TotalSnoc(c.entries, f);
    if !HasKey(c.entries, f.sha256) {
      assert (c.entries + [f])[|c.entries|] == f;
    }
  }

  /** Fingerprints with different keys that fit together are all kept. */
  lemma {:induction false} AmpleFill(fs: seq<PrefixFingerprint>, limit: nat, capacity: nat)
    requires DistinctKeys(fs) && |fs| <= limit && Total(fs) <= capacity < U64
    ensures PutAll(Cache([], 0), fs, limit, capacity) == Cache(fs, Total(fs))
  {
    if fs != [] {
      var front, last := fs[..|fs| - 1], fs[|fs| - 1];
      assert front + [last] == fs;
      TotalSnoc(front, last);
      AmpleFill(front, limit, capacity);
      AmplePut(Cache(front, Total(front)), last, limit, capacity);
    }
  }

  function Key(i: nat): (s: string)
    ensures |s| == i + 1
  {
    seq(i + 1, _ => 'k')
  }

  /** As many tokens as `n` entries can count. */
  function Filler(n: nat): (fs: seq<PrefixFingerprint>)
    ensures |fs| == n && forall i | 0 <= i < n :: fs[i] == PrefixFingerprint(U32 - 1, Key(i))
  {
    seq(n, i requires 0 <= i < n => PrefixFingerprint(U32 - 1, Key(i)))
  }

  lemma {:induction false} FillerTotal(n: nat)
    ensures Total(Filler(n)) == n * (U32 - 1)
  {
    if n > 0 {
      FillerTotal(n - 1);
      assert Filler(n) == Filler(n - 1) + [PrefixFingerprint(U32 - 1, Key(n - 1))];
      TotalSnoc(Filler(n - 1), PrefixFingerprint(U32 - 1, Key(n - 1)));
    }
  }

  /** Insertions that fill the cache to its capacity. */
  function Brimful(capacity: uint64): (fs: seq<PrefixFingerprint>)
    requires capacity + U32 > U64
    ensures |fs| == U32 + 1
  {
    Filler(U32) + [PrefixFingerprint(capacity - (U64 - U32), Key(U32))]
  }

  lemma BrimfulFills(limit: nat, capacity: uint64)
    requires !RoomToInsert(limit, capacity)
    ensures PutAll(Cache([], 0), Brimful(capacity), limit, capacity) == Cache(Brimful(capacity), capacity)
    ensures Total(Brimful(capacity)) == capacity
  {
    FillerTotal(U32);
    TotalSnoc(Filler(U32), PrefixFingerprint(capacity - (U64 - U32), Key(U32)));
    AmpleFill(Brimful(capacity), limit, capacity);
  }

  /** The entry that makes the counter of a full cache wrap around. */
  lemma LastStraw(fs: seq<PrefixFingerprint>, f: PrefixFingerprint, limit: nat, capacity: uint64)
    requires Total(fs) == capacity && capacity + U32 > U64 && f.tokenCount == U32 - 1 && !HasKey(fs, f.sha256)
    requires |fs| <= limit && fs != [] && fs[0].tokenCount == U32 - 1
    ensures var r := Put(Cache(fs, capacity), f, limit, capacity); r.used < U32 && Total(r.entries) >= capacity
  {
    var all := fs + [f];
    var c := Cache(all, Wrap64(capacity + f.tokenCount));
    TotalSnoc(fs, f);
    assert c.used == capacity + f.tokenCount - U64;
    if |all| > limit {
      assert Total(all) == all[0].tokenCount + Total(all[1..]);
      assert Shrunk(c, limit, capacity) == WithoutOldest(c);
    }
  }

  lemma BrimfulOverflows(limit: nat, capacity: uint64)
    requires !RoomToInsert(limit, capacity)
    ensures !ExactOn(Brimful(capacity) + [PrefixFingerprint(U32 - 1, Key(U32 + 1))], limit, capacity)
  {
    var fs, f := Brimful(capacity), PrefixFingerprint(U32 - 1, Key(U32 + 1));
    BrimfulFills(limit, capacity);
    assert (fs + [f])[..|fs|] == fs;
    LastStraw(fs, f, limit, capacity);
  }

  /** The counter is the cached total after these insertions into an empty cache. */
  predicate ExactOn(fs: seq<PrefixFingerprint>, limit: nat, capacity: nat) {
    var r := PutAll(Cache([], 0), fs, limit, capacity);
    r.used == Total(r.entries)
  }

  /** The counter always is the cached total, whatever is inserted, if and only if the capacity is at most
      2^64 - 2^32 or the cache holds at most 2^32 entries. */
  lemma CounterExactIffRoom(limit: nat, capacity: uint64)
    ensures (forall fs :: ExactOn(fs, limit, capacity)) <==> RoomToInsert(limit, capacity)
  {
    if RoomToInsert(limit, capacity) {
      forall fs ensures ExactOn(fs, limit, capacity) {
        PutAllExact(Cache([], 0), fs, limit, capacity);
      }
    } else {
      BrimfulOverflows(limit, capacity);
    }
  }
}
