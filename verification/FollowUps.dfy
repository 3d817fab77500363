/** Whether a follow-up turn finds the history its worker has just served
    (internal/mockworker/worker.go:234, 363-385; internal/prefix/prefix.go:14-40). */
module FollowUps {
  import opened Model
  import opened Joins
  import opened Prefix
  import opened Tokenizer
  import opened WorkerCache

  /** The cache of a worker that has completed requests with these token lists, in order. */
  function AfterRequests(hash: string -> string, histories: seq<seq<string>>, limit: nat, capacity: nat): Cache {
    if histories == [] then Cache([], 0)
    else
      PutAll(AfterRequests(hash, histories[..|histories| - 1], limit, capacity),
             FingerprintList(hash, histories[|histories| - 1]), limit, capacity)
  }

  lemma {:induction false} AfterRequestsOk(hash: string -> string, histories: seq<seq<string>>, limit: nat,
                                           capacity: nat)
    ensures Bounded(AfterRequests(hash, histories, limit, capacity), limit, capacity)
  {
    if histories != [] {
      var n := |histories| - 1;
      AfterRequestsOk(hash, histories[..n], limit, capacity);
      var before := AfterRequests(hash, histories[..n], limit, capacity);
      PutAllBounded(before, FingerprintList(hash, histories[n]), limit, capacity);
    }
  }

  lemma {:induction false} AfterRequestsOrigin(hash: string -> string, histories: seq<seq<string>>, limit: nat,
                                               capacity: nat, 
                                               f: PrefixFingerprint)
    requires f in AfterRequests(hash, histories, limit, capacity).entries
    ensures exists t :: t in histories && f in FingerprintList(hash, t)
  {
    var n := |histories| - 1;
    var fs := FingerprintList(hash, histories[n]);
    var before := AfterRequests(hash, histories[..n], limit, capacity);
    AfterRequestsOk(hash, histories[..n], limit, capacity);
    PutAllBounded(before, fs, limit, capacity);
    assert histories == histories[..n] + [histories[n]];
    if f in fs {
      assert histories[n] in histories;
    } else {
      AfterRequestsOrigin(hash, histories[..n], limit, capacity, f);
    }
  }

  lemma AfterOneMore(hash: string -> string, histories: seq<seq<string>>, a: seq<string>, limit: nat, capacity: nat)
    ensures AfterRequests(hash, histories + [a], limit, capacity)
            == PutAll(AfterRequests(hash, histories, limit, capacity), FingerprintList(hash, a), limit, capacity)
  {
    var all := histories + [a];
    assert all[..|all| - 1] == histories;
  }

  // ---- One request: the exact condition ----------------------------------

  /** Every continuation of `a` matches at least all complete blocks of `a`. */
  ghost predicate Finds(hash: string -> string, a: seq<string>, cache: seq<PrefixFingerprint>) {
    forall more | Small(a + more) :: Match(FingerprintList(hash, a + more), cache) >= 16 * (|a| / 16)
  }

  /** The key is taken by an entry with another count. */
  predicate Taken(cache: seq<PrefixFingerprint>, key: string, count: nat) {
    exists i :: 0 <= i < |cache| && cache[i].sha256 == key && cache[i].tokenCount != count
  }

  /** The key and the count of all complete blocks. */
  function WholeFingerprint(hash: string -> string, a: seq<string>): PrefixFingerprint
    requires Small(a)
  {
    PrefixFingerprint(16 * (|a| / 16), hash(Join(Whole(a))))
  }

  lemma LastFingerprint(hash: string -> string, a: seq<string>)
    requires |a| >= 16 && Small(a)
    ensures var fs := FingerprintList(hash, a);
            fs != [] && fs[|fs| - 1] == WholeFingerprint(hash, a)
  {
    var k := |a| / 16;
    assert FingerprintList(hash, a)[k - 1] == FingerprintAt(hash, a, k);
  }

  lemma HitWhenHeld(cache: seq<PrefixFingerprint>, f: PrefixFingerprint)
    requires DistinctKeys(cache) && f in cache && f.sha256 != ""
    ensures Hit(f, cache)
  {
    var i :| 0 <= i < |cache| && cache[i] == f;
    LargestHits(cache, f);
  }

  lemma ContinuationHolds(hash: string -> string, a: seq<string>, more: seq<string>)
    requires |a| >= 16 && Small(a + more)
    ensures WholeFingerprint(hash, a) in FingerprintList(hash, a + more)
  {
    var k := |a| / 16;
    assert (a + more)[..16 * k] == Whole(a);
    FingerprintIn(hash, a + more, k);
  }

  lemma HeldIsFound(hash: string -> string, a: seq<string>, cache: seq<PrefixFingerprint>)
    requires |a| >= 16 && Small(a) && hash(Join(Whole(a))) != "" && DistinctKeys(cache)
    requires WholeFingerprint(hash, a) in cache
    ensures Finds(hash, a, cache)
  {
    HitWhenHeld(cache, WholeFingerprint(hash, a));
    forall more | Small(a + more) ensures Match(FingerprintList(hash, a + more), cache) >= 16 * (|a| / 16) {
      ContinuationHolds(hash, a, more);
      MatchUpper(FingerprintList(hash, a + more), cache, WholeFingerprint(hash, a));
    }
  }

  lemma FullMatchHits(hash: string -> string, a: seq<string>, cache: seq<PrefixFingerprint>)
    requires |a| >= 16 && Small(a) && Match(FingerprintList(hash, a), cache) >= 16 * (|a| / 16)
    ensures Hit(WholeFingerprint(hash, a), cache)
  {
    var f := MatchWitness(FingerprintList(hash, a), cache);
    var k := FingerprintOf(hash, a, f);
    assert k == |a| / 16;
    assert f == WholeFingerprint(hash, a);
  }

  lemma TakenIsLost(hash: string -> string, a: seq<string>, cache: seq<PrefixFingerprint>)
    requires |a| >= 16 && Small(a) && DistinctKeys(cache)
    requires Taken(cache, hash(Join(Whole(a))), 16 * (|a| / 16))
    ensures !Finds(hash, a, cache)
  {
    var f := WholeFingerprint(hash, a);
    var i :| 0 <= i < |cache| && cache[i].sha256 == f.sha256 && cache[i].tokenCount != f.tokenCount;
    OnlyHolder(cache, i, f);
    if Match(FingerprintList(hash, a), cache) >= 16 * (|a| / 16) {
      FullMatchHits(hash, a, cache);
    }
    assert a + [] == a;
  }

  lemma OnlyHolder(cache: seq<PrefixFingerprint>, i: nat, f: PrefixFingerprint)
    requires DistinctKeys(cache) && i < |cache| && cache[i].sha256 == f.sha256 && cache[i].tokenCount != f.tokenCount
    requires f.tokenCount > 0
    ensures !Hit(f, cache)
  {
  }

  /** The exact condition, whatever the worker's cache: after the request for `a` completes, every
      continuation finds all of `a`'s blocks if and only if, when the last of its fingerprints was
      inserted, no entry with another count held that key. */
  lemma FindsIffKeyNotTaken(hash: string -> string, c: Cache, a: seq<string>, limit: nat, capacity: nat)
    requires Bounded(c, limit, capacity) && limit >= 1 && 16 * (|a| / 16) <= capacity
    requires |a| >= 16 && Small(a) && hash(Join(Whole(a))) != ""
    ensures var fs := FingerprintList(hash, a);
            Finds(hash, a, PutAll(c, fs, limit, capacity).entries)
            <==> !Taken(PutAll(c, fs[..|fs| - 1], limit, capacity).entries, hash(Join(Whole(a))), 16 * (|a| / 16))
  {
    var fs := FingerprintList(hash, a);
    var f := WholeFingerprint(hash, a);
    LastFingerprint(hash, a);
    var before := PutAll(c, fs[..|fs| - 1], limit, capacity);
    var after := PutAll(c, fs, limit, capacity);
    PutAllBounded(c, fs[..|fs| - 1], limit, capacity);
    PutBounded(before, f, limit, capacity);
    if HasKey(before.entries, f.sha256) {
      if Taken(before.entries, f.sha256, f.tokenCount) {
        TakenIsLost(hash, a, after.entries);
      } else {
        KeyHeldAsIs(before.entries, f);
        HeldIsFound(hash, a, after.entries);
      }
    } else {
      PutKeepsNewest(before, f, limit, capacity);
      HeldIsFound(hash, a, after.entries);
    }
  }

  lemma KeyHeldAsIs(cache: seq<PrefixFingerprint>, f: PrefixFingerprint)
    requires HasKey(cache, f.sha256) && !Taken(cache, f.sha256, f.tokenCount)
    ensures f in cache
  {
    var i :| 0 <= i < |cache| && cache[i].sha256 == f.sha256;
    assert cache[i] == f;
  }

  // ---- Whole pasts: rivals -----------------------------------------------

  /** Blocks of `t` with the join of all of `a`'s blocks, but not as many. */
  ghost predicate Rival(a: seq<string>, t: seq<string>) {
    exists m: nat :: 1 <= m && 16 * m <= |t| && m != |a| / 16 && Join(Block(t, m)) == Join(Whole(a))
  }

  lemma NoRivalOfItself(a: seq<string>)
    requires |a| >= 16
    ensures !Rival(a, a)
  {
    var k := |a| / 16;
    forall m: nat | 1 <= m && 16 * m <= |a| && m != k ensures Join(Block(a, m)) != Join(Whole(a)) {
      JoinGrows(a, 16 * m, 16 * k);
    }
  }

  lemma HolderIsWhole(hash: string -> string, a: seq<string>, t: seq<string>, e: PrefixFingerprint)
    requires |a| >= 16 && Small(t) && NoCollision(hash, {a, t}) && !Rival(a, t)
    requires e in FingerprintList(hash, t) && e.sha256 == hash(Join(Whole(a)))
    ensures e.tokenCount == 16 * (|a| / 16)
  {
    var m := FingerprintOf(hash, t, e);
    SameHash(hash, a, |a| / 16, t, m);
    assert Block(a, |a| / 16) == Whole(a);
  }

  lemma NotTakenWithoutRivals(hash: string -> string, lists: set<seq<string>>, cache: seq<PrefixFingerprint>,
                              a: seq<string>)
    requires |a| >= 16 && a in lists && AllSmall(lists) && NoCollision(hash, lists)
    requires forall t | t in lists :: !Rival(a, t)
    requires forall e | e in cache :: exists t :: t in lists && e in FingerprintList(hash, t)
    ensures !Taken(cache, hash(Join(Whole(a))), 16 * (|a| / 16))
  {
    forall i | 0 <= i < |cache| && cache[i].sha256 == hash(Join(Whole(a)))
      ensures cache[i].tokenCount == 16 * (|a| / 16)
    {
      var e := cache[i];
      assert e in cache;
      var t :| t in lists && e in FingerprintList(hash, t);
      NoCollisionPair(hash, lists, a, t);
      HolderIsWhole(hash, a, t, e);
    }
  }

  lemma NotTakenBefore(hash: string -> string, histories: seq<seq<string>>, a: seq<string>, limit: nat, capacity: nat)
    requires |a| >= 16 && Applicable(hash, a, histories)
    requires forall t | t in histories :: !Rival(a, t)
    ensures var fs := FingerprintList(hash, a);
            !Taken(PutAll(AfterRequests(hash, histories, limit, capacity), fs[..|fs| - 1], limit, capacity).entries,
                   hash(Join(Whole(a))), 16 * (|a| / 16))
  {
    var fs := FingerprintList(hash, a);
    var lists := Lists(a, histories);
    var before := PutAll(AfterRequests(hash, histories, limit, capacity), fs[..|fs| - 1], limit, capacity).entries;
    assert a in lists;
    NoRivalOfItself(a);
    forall e | e in before ensures exists t :: t in lists && e in FingerprintList(hash, t) {
      OriginBefore(hash, histories, a, limit, capacity, e);
    }
    NotTakenWithoutRivals(hash, lists, before, a);
  }

  /** A follow-up turn finds its history: right after a worker has completed a request with tokens `a`,
      every continuation of `a` matches all complete blocks of `a`, provided they fit the cache's
      token capacity and none of the lists it served before is a rival of `a`. */
  lemma FollowUpFindsHistory(hash: string -> string, histories: seq<seq<string>>, a: seq<string>, limit: nat,
                             capacity: nat)
    requires limit >= 1 && 16 * (|a| / 16) <= capacity && Applicable(hash, a, histories)
    requires forall t | t in histories :: !Rival(a, t)
    ensures Finds(hash, a, AfterRequests(hash, histories + [a], limit, capacity).entries)
  {
    if |a| >= 16 {
      assert a in Lists(a, histories);
      AfterOneMore(hash, histories, a, limit, capacity);
      AfterRequestsOk(hash, histories, limit, capacity);
      HashNotEmpty(hash, Lists(a, histories), Join(Whole(a)));
      FindsIffKeyNotTaken(hash, AfterRequests(hash, histories, limit, capacity), a, limit, capacity);
      NotTakenBefore(hash, histories, a, limit, capacity);
    }
  }

  lemma OriginBefore(hash: string -> string, histories: seq<seq<string>>, a: seq<string>, limit: nat, capacity: nat,
                     e: PrefixFingerprint)
    requires |a| >= 16
    requires var fs := FingerprintList(hash, a);
             e in PutAll(AfterRequests(hash, histories, limit, capacity), fs[..|fs| - 1], limit, capacity).entries
    ensures exists t :: t in Lists(a, histories) && e in FingerprintList(hash, t)
  {
    var fs := FingerprintList(hash, a);
    AfterRequestsOk(hash, histories, limit, capacity);
    PutAllBounded(AfterRequests(hash, histories, limit, capacity), fs[..|fs| - 1], limit, capacity);
    if e in fs[..|fs| - 1] {
      assert e in fs;
      assert a in Lists(a, histories);
    } else {
      AfterRequestsOrigin(hash, histories, limit, capacity, e);
      var t :| t in histories && e in FingerprintList(hash, t);
      assert t in Lists(a, histories);
    }
  }

  lemma HashNotEmpty(hash: string -> string, lists: set<seq<string>>, s: string)
    requires NoCollision(hash, lists)
    ensures hash(s) != ""
  {
  }

  // ---- A rival hides the history -----------------------------------------

  lemma {:induction false} AmpleKeeps(c: Cache, fs: seq<PrefixFingerprint>, limit: nat, capacity: nat)
    requires c.used == Total(c.entries) && |c.entries| + |fs| <= limit && c.used + Total(fs) <= capacity < U64
    ensures var r := PutAll(c, fs, limit, capacity);
            && c.entries <= r.entries && |r.entries| <= |c.entries| + |fs|
            && r.used == Total(r.entries) && r.used <= c.used + Total(fs)
            && forall f | f in fs :: HasKey(r.entries, f.sha256)
  {
    if fs != [] {
      var front, last := fs[..|fs| - 1], fs[|fs| - 1];
      TotalSnoc(front, last);
      assert front + [last] == fs;
      AmpleKeeps(c, front, limit, capacity);
      var before, after := PutAll(c, front, limit, capacity), PutAll(c, fs, limit, capacity);
      AmplePut(before, last, limit, capacity);
      forall f | f in fs ensures HasKey(after.entries, f.sha256) {
        if f in front {
          KeyStays(before.entries, after.entries, f.sha256);
        }
      }
    }
  }

  lemma KeyStays(es: seq<PrefixFingerprint>, r: seq<PrefixFingerprint>, key: string)
    requires es <= r && HasKey(es, key)
    ensures HasKey(r, key)
  {
    var i :| 0 <= i < |es| && es[i].sha256 == key;
    assert r[i].sha256 == key;
  }

  lemma RivalEntry(hash: string -> string, t: seq<string>, a: seq<string>, es: seq<PrefixFingerprint>) returns (i: nat)
    requires |a| >= 16 && Rival(a, t) && Applicable(hash, a, [t])
    requires forall f | f in FingerprintList(hash, t) :: HasKey(es, f.sha256)
    requires forall e | e in es :: e in FingerprintList(hash, t)
    ensures i < |es| && es[i].sha256 == hash(Join(Whole(a))) && es[i].tokenCount != 16 * (|a| / 16)
  {
    assert t in Lists(a, [t]);
    var m: nat :| 1 <= m && 16 * m <= |t| && m != |a| / 16 && Join(Block(t, m)) == Join(Whole(a));
    FingerprintIn(hash, t, m);
    var f := PrefixFingerprint(16 * m, hash(Join(Whole(a))));
    assert f in FingerprintList(hash, t);
    i :| 0 <= i < |es| && es[i].sha256 == f.sha256;
    assert es[i] in es;
    NoCollisionPair(hash, Lists(a, [t]), t, t);
    SameKeySameCount(hash, t, m, es[i]);
  }

  /** Within ample bounds a rival served before keeps the key under its own count. */
  lemma RivalHides(hash: string -> string, t: seq<string>, a: seq<string>, limit: nat, capacity: nat)
    requires |a| >= 16 && Rival(a, t) && Applicable(hash, a, [t])
    requires |t| / 16 + |a| / 16 <= limit
    requires Total(FingerprintList(hash, t)) + Total(FingerprintList(hash, a)) <= capacity < U64
    ensures !Finds(hash, a, AfterRequests(hash, [t, a], limit, capacity).entries)
  {
    var ft, fa := FingerprintList(hash, t), FingerprintList(hash, a);
    var c := PutAll(Cache([], 0), ft, limit, capacity);
    assert a in Lists(a, [t]);
    ServedAlone(hash, t, a, limit, capacity);
    AmpleKeeps(Cache([], 0), ft, limit, capacity);
    PutAllBounded(Cache([], 0), ft, limit, capacity);
    AfterRequestsOk(hash, [t, a], limit, capacity);
    AmpleKeeps(c, fa, limit, capacity);
    var i := RivalEntry(hash, t, a, c.entries);
    var after := PutAll(c, fa, limit, capacity);
    assert after.entries[i] == c.entries[i];
    TakenIsLost(hash, a, after.entries);
  }

  lemma ServedAlone(hash: string -> string, t: seq<string>, a: seq<string>, limit: nat, capacity: nat)
    ensures AfterRequests(hash, [t, a], limit, capacity)
            == PutAll(PutAll(Cache([], 0), FingerprintList(hash, t), limit, capacity),
                      FingerprintList(hash, a), limit, capacity)
  {
    AfterOneMore(hash, [], t, limit, capacity);
    AfterOneMore(hash, [t], a, limit, capacity);
    assert [] + [t] == [t] && [t] + [a] == [t, a];
  }

  lemma SameKeySameCount(hash: string -> string, t: seq<string>, m: nat, e: PrefixFingerprint)
    requires 1 <= m && 16 * m <= |t| && Small(t) && NoCollision(hash, {t, t})
    requires e in FingerprintList(hash, t) && e.sha256 == hash(Join(Block(t, m)))
    ensures e.tokenCount == 16 * m
  {
    var k := FingerprintOf(hash, t, e);
    SameHash(hash, t, m, t, k);
    if k < m {
      JoinGrows(t, 16 * k, 16 * m);
    } else if m < k {
      JoinGrows(t, 16 * m, 16 * k);
    }
  }

  /** Over every past drawn from `served` and every cache that can hold `a`'s blocks, the history is found. */
  ghost predicate AlwaysFinds(hash: string -> string, a: seq<string>, served: set<seq<string>>) {
    forall histories: seq<seq<string>>, limit: nat, capacity: uint64
      | DrawnFrom(histories, served) && limit >= 1 && 16 * (|a| / 16) <= capacity ::
      Finds(hash, a, AfterRequests(hash, histories + [a], limit, capacity).entries)
  }

  ghost predicate DrawnFrom(histories: seq<seq<string>>, served: set<seq<string>>) {
    forall t | t in histories :: t in served
  }

  lemma DrawnApplicable(hash: string -> string, a: seq<string>, served: set<seq<string>>, histories: seq<seq<string>>)
    requires AllSmall(served + {a}) && NoCollision(hash, served + {a}) && DrawnFrom(histories, served)
    ensures Applicable(hash, a, histories)
  {
    assert forall t | t in Lists(a, histories) :: t in served + {a};
  }

  lemma {:induction false} WholeFits(hash: string -> string, a: seq<string>)
    requires |a| >= 16 && Small(a)
    ensures Total(FingerprintList(hash, a)) >= 16 * (|a| / 16)
  {
    var fs := FingerprintList(hash, a);
    LastFingerprint(hash, a);
    TotalSnoc(fs[..|fs| - 1], fs[|fs| - 1]);
    assert fs[..|fs| - 1] + [fs[|fs| - 1]] == fs;
  }

  lemma SmallTotal(hash: string -> string, t: seq<string>)
    requires Small(t)
    ensures 2 * Total(FingerprintList(hash, t)) < U64
  {
    TotalAtMost(FingerprintList(hash, t));
  }

  lemma RivalBreaks(hash: string -> string, a: seq<string>, served: set<seq<string>>, t: seq<string>)
    requires |a| >= 16 && t in served && Rival(a, t) && Applicable(hash, a, [t])
    ensures !AlwaysFinds(hash, a, served)
  {
    var limit := |t| / 16 + |a| / 16;
    var capacity := Total(FingerprintList(hash, t)) + Total(FingerprintList(hash, a));
    assert a in Lists(a, [t]) && t in Lists(a, [t]);
    SmallTotal(hash, t);
    SmallTotal(hash, a);
    WholeFits(hash, a);
    RivalHides(hash, t, a, limit, capacity);
    assert DrawnFrom([t], served) && [t] + [a] == [t, a];
  }

  /** Exactly when a follow-up always finds its history: whatever a worker has served out of `served`
      before, and within whatever bounds, if and only if `served` holds no rival. */
  lemma AlwaysFindsIffNoRival(hash: string -> string, a: seq<string>, served: set<seq<string>>)
    requires |a| >= 16 && AllSmall(served + {a}) && NoCollision(hash, served + {a})
    ensures AlwaysFinds(hash, a, served) <==> forall t | t in served :: !Rival(a, t)
  {
    if t :| t in served && Rival(a, t) {
      assert DrawnFrom([t], served);
      DrawnApplicable(hash, a, served, [t]);
      RivalBreaks(hash, a, served, t);
    } else {
      forall histories: seq<seq<string>>, limit: nat, capacity: uint64
        | DrawnFrom(histories, served) && limit >= 1 && 16 * (|a| / 16) <= capacity
        ensures Finds(hash, a, AfterRequests(hash, histories + [a], limit, capacity).entries)
      {
        DrawnApplicable(hash, a, served, histories);
        FollowUpFindsHistory(hash, histories, a, limit, capacity);
      }
    }
  }

  // ---- Rivals among chats ------------------------------------------------

  lemma {:induction false} JoinIsWord(ws: seq<string>)
    requires ws != [] && WordList(ws)
    ensures IsWord(Join(ws))
  {
    if |ws| > 1 {
      JoinHead(ws);
      JoinIsWord(ws[1..]);
    }
  }

  lemma MergeKeepsJoin(a: string, mid: seq<string>, rest: seq<string>)
    requires mid != [] && rest != []
    ensures Join([a, Join(mid)] + rest) == Join([a] + mid + rest)
  {
    JoinConcat([a], mid + rest);
    JoinConcat(mid, rest);
    assert [a] + mid + rest == [a] + (mid + rest);
    JoinConcat([a, Join(mid)], rest);
    assert [a, Join(mid)] == [a] + [Join(mid)];
    JoinConcat([a], [Join(mid)]);
    assert a + [SEP] + (Join(mid) + [SEP] + Join(rest)) == a + [SEP] + Join(mid) + [SEP] + Join(rest);
  }

  /** Every chat of two or more blocks has a rival of one block: the chat in which a separator took
      the place of the white space between some of its words. */
  lemma LongChatsHaveRivals(a: seq<string>) returns (t: seq<string>)
    requires Chat(a) && |a| >= 32
    ensures Chat(t) && |t| == 16 && Rival(a, t)
  {
    var w := Whole(a);
    var n := |w|;
    var mid, rest := w[1..n - 14], w[n - 14..];
    t := [w[0], Join(mid)] + rest;
    JoinIsWord(mid);
    MergeKeepsJoin(w[0], mid, rest);
    assert w == [w[0]] + mid + rest;
    assert Block(t, 1) == t;
  }
}
