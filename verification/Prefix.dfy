/** Cumulative prefix fingerprints and their comparison (internal/prefix/prefix.go).
    SHA-256 in hexadecimal is a parameter `hash`; what is assumed of it is stated lemma by lemma. */
module Prefix {
  import opened Model
  import opened Joins
  import opened Tokenizer

  function FingerprintAt(hash: string -> string, tokens: seq<string>, k: nat): PrefixFingerprint
    requires 16 * k <= |tokens|
  {
    PrefixFingerprint(Wrap32(16 * k), hash(Join(tokens[..16 * k])))
  }

  /** One fingerprint per complete block, shortest first. */
  function FingerprintList(hash: string -> string, tokens: seq<string>): (r: seq<PrefixFingerprint>)
    ensures |r| == |tokens| / 16
    ensures forall i | 0 <= i < |r| :: r[i] == FingerprintAt(hash, tokens, i + 1)
  {
    seq(|tokens| / 16, i requires 0 <= i < |tokens| / 16 => FingerprintAt(hash, tokens, i + 1))
  }

  method Fingerprints(hash: string -> string, tokens: seq<string>) returns (result: seq<PrefixFingerprint>)
    ensures result == FingerprintList(hash, tokens)
  {
    result := [];
    var end := 16;
    while end <= |tokens|
      invariant end == 16 * (|result| + 1)
      invariant |result| <= |tokens| / 16
      invariant forall i | 0 <= i < |result| :: result[i] == FingerprintAt(hash, tokens, i + 1)
    {
      result := result + [PrefixFingerprint(Wrap32(end), hash(Join(tokens[..end])))];
      end := end + 16;
    }
  }

  /** The largest count cached under `h`; 0 when there is none. */
  function MaxCount(cached: seq<PrefixFingerprint>, h: string): (r: uint32)
    ensures forall f | f in cached && f.sha256 == h && h != "" :: f.tokenCount <= r
    ensures r == 0 || exists f :: f in cached && f.sha256 == h && h != "" && f.tokenCount == r
  {
    if cached == [] then 0
    else
      var n := |cached| - 1;
      var last := cached[n];
      var best := MaxCount(cached[..n], h);
      assert cached == cached[..n] + [last];
      if h != "" && last.sha256 == h && last.tokenCount > best then last.tokenCount else best
  }

  predicate Hit(f: PrefixFingerprint, cached: seq<PrefixFingerprint>) {
    MaxCount(cached, f.sha256) == f.tokenCount
  }

  /** The largest request count found in the cache; 0 when there is none. */
  function Match(request: seq<PrefixFingerprint>, cached: seq<PrefixFingerprint>): (r: uint32)
    ensures forall f | f in request && Hit(f, cached) :: f.tokenCount <= r
    ensures r == 0 || exists f :: f in request && Hit(f, cached) && f.tokenCount == r
  {
    if request == [] then 0
    else
      var n := |request| - 1;
      var last := request[n];
      var longest := Match(request[..n], cached);
      assert request == request[..n] + [last];
      if Hit(last, cached) && last.tokenCount > longest then last.tokenCount else longest
  }

  /** Go's map lookup: zero for a missing key. */
  function CountOf(cache: map<string, uint32>, h: string): uint32 {
    if h in cache then cache[h] else 0
  }

  method LongestMatch(request: seq<PrefixFingerprint>, cached: seq<PrefixFingerprint>) returns (longest: uint32)
    ensures longest == Match(request, cached)
  {
    var cache: map<string, uint32> := map[];
    for i := 0 to |cached|
      invariant forall h :: CountOf(cache, h) == MaxCount(cached[..i], h)
    {
      var f := cached[i];
      assert cached[..i + 1][..i] == cached[..i];
      if f.sha256 != "" && f.tokenCount > CountOf(cache, f.sha256) {
        cache := cache[f.sha256 := f.tokenCount];
      }
    }
    assert cached[..|cached|] == cached;
    longest := 0;
    for i := 0 to |request|
      invariant longest == Match(request[..i], cached)
    {
      var f := request[i];
      assert request[..i + 1][..i] == request[..i];
      if CountOf(cache, f.sha256) == f.tokenCount && f.tokenCount > longest {
        longest := f.tokenCount;
      }
    }
    assert request[..|request|] == request;
  }

  lemma MatchWitness(request: seq<PrefixFingerprint>, cached: seq<PrefixFingerprint>) returns (f: PrefixFingerprint)
    requires Match(request, cached) > 0
    ensures f in request && Hit(f, cached) && f.tokenCount == Match(request, cached)
  {
    f :| f in request && Hit(f, cached) && f.tokenCount == Match(request, cached);
  }

  lemma MatchUpper(request: seq<PrefixFingerprint>, cached: seq<PrefixFingerprint>, f: PrefixFingerprint)
    requires f in request && Hit(f, cached)
    ensures f.tokenCount <= Match(request, cached)
  {
  }

  lemma LargestHits(cached: seq<PrefixFingerprint>, f: PrefixFingerprint)
    requires f in cached && f.sha256 != ""
    requires forall e | e in cached && e.sha256 == f.sha256 :: e.tokenCount <= f.tokenCount
    ensures Hit(f, cached)
  {
  }

  // ---- The reference: direct comparison of token lists -------------------

  /** Length of the longest common prefix. */
  function Lcp(a: seq<string>, b: seq<string>): (n: nat)
    ensures n <= |a| && n <= |b| && a[..n] == b[..n]
    ensures n < |a| && n < |b| ==> a[n] != b[n]
  {
    if a == [] || b == [] || a[0] != b[0] then 0
    else
      var n := 1 + Lcp(a[1..], b[1..]);
      assert a[..n] == [a[0]] + a[1..][..n - 1] && b[..n] == [b[0]] + b[1..][..n - 1];
      n
  }

  lemma LcpAtLeast(a: seq<string>, b: seq<string>, n: nat)
    requires n <= |a| && n <= |b|
    ensures n <= Lcp(a, b) <==> a[..n] == b[..n]
  {
  }

  /** The common prefix, rounded down to complete blocks. */
  function Blocks(a: seq<string>, b: seq<string>): nat {
    16 * (Lcp(a, b) / 16)
  }

  /** The best rounded common prefix with any history. */
  function Best(a: seq<string>, histories: seq<seq<string>>): (r: nat)
    ensures forall t | t in histories :: Blocks(a, t) <= r
    ensures r == 0 || exists t :: t in histories && Blocks(a, t) == r
  {
    if histories == [] then 0
    else
      var rest := Best(a, histories[1..]);
      assert histories == [histories[0]] + histories[1..];
      if Blocks(a, histories[0]) > rest then Blocks(a, histories[0]) else rest
  }

  function AllFingerprints(hash: string -> string, histories: seq<seq<string>>): (r: seq<PrefixFingerprint>)
  {
    if histories == [] then []
    else FingerprintList(hash, histories[0]) + AllFingerprints(hash, histories[1..])
  }

  lemma {:induction false} AllFingerprintsMembers(hash: string -> string, histories: seq<seq<string>>,
                                                  f: PrefixFingerprint)
    ensures f in AllFingerprints(hash, histories)
            <==> exists t :: t in histories && f in FingerprintList(hash, t)
  {
    if histories != [] {
      AllFingerprintsMembers(hash, histories[1..], f);
      assert histories == [histories[0]] + histories[1..];
    }
  }

  // ---- Assumptions -------------------------------------------------------

  predicate Small(t: seq<string>) {
    |t| < U32
  }

  /** `p` is a run of complete blocks at the start of `t`. */
  predicate BlockPrefix(p: seq<string>, t: seq<string>) {
    |p| % 16 == 0 && p <= t
  }

  /** No two different joined block prefixes of these lists share a hash, and no hash is empty. */
  ghost predicate NoCollision(hash: string -> string, lists: set<seq<string>>) {
    && (forall s :: hash(s) != "")
    && forall x, y, p, q | x in lists && y in lists && BlockPrefix(p, x) && BlockPrefix(q, y) ::
         hash(Join(p)) == hash(Join(q)) ==> Join(p) == Join(q)
  }

  /** The tokens that make up complete blocks. */
  function Whole(a: seq<string>): (r: seq<string>) {
    a[..16 * (|a| / 16)]
  }

  ghost predicate AllSmall(lists: set<seq<string>>) {
    forall t | t in lists :: Small(t)
  }

  ghost function Lists(a: seq<string>, histories: seq<seq<string>>): set<seq<string>> {
    {a} + set t | t in histories
  }

  /** The hypothesis under which a hash index can be exact at all. */
  ghost predicate Applicable(hash: string -> string, a: seq<string>, histories: seq<seq<string>>) {
    AllSmall(Lists(a, histories)) && NoCollision(hash, Lists(a, histories))
  }

  // ---- The index agrees with the reference -------------------------------

  function Block(t: seq<string>, k: nat): (r: seq<string>)
    requires 16 * k <= |t|
    ensures |r| == 16 * k
  {
    t[..16 * k]
  }

  /** Blocks of `t` with the join of a block prefix of `a` are no longer, and the same if as long. */
  ghost predicate Unambiguous(a: seq<string>, t: seq<string>) {
    forall k: nat, m: nat
      | 1 <= k && 16 * k <= |a| && 1 <= m && 16 * m <= |t| && Join(Block(t, m)) == Join(Block(a, k)) ::
      m <= k && (m == k ==> Block(t, m) == Block(a, k))
  }

  ghost predicate AllUnambiguous(a: seq<string>, histories: seq<seq<string>>) {
    forall t | t in histories :: Unambiguous(a, t)
  }

  /** Equal hashes of block prefixes mean equal joins. */
  lemma SameHash(hash: string -> string, a: seq<string>, k: nat, t: seq<string>, m: nat)
    requires 16 * k <= |a| && 16 * m <= |t| && NoCollision(hash, {a, t})
    requires hash(Join(t[..16 * m])) == hash(Join(a[..16 * k]))
    ensures Join(Block(t, m)) == Join(Block(a, k))
  {
    assert BlockPrefix(a[..16 * k], a) && BlockPrefix(t[..16 * m], t);
  }

  lemma FingerprintOf(hash: string -> string, t: seq<string>, f: PrefixFingerprint) returns (k: nat)
    requires f in FingerprintList(hash, t) && Small(t)
    ensures 1 <= k && 16 * k <= |t| && f.tokenCount == 16 * k && f.sha256 == hash(Join(t[..16 * k]))
  {
    var i :| 0 <= i < |FingerprintList(hash, t)| && FingerprintList(hash, t)[i] == f;
    k := i + 1;
  }

  lemma FingerprintIn(hash: string -> string, t: seq<string>, k: nat)
    requires 1 <= k && 16 * k <= |t| && Small(t)
    ensures PrefixFingerprint(16 * k, hash(Join(t[..16 * k]))) in FingerprintList(hash, t)
  {
    assert FingerprintList(hash, t)[k - 1] == FingerprintAt(hash, t, k);
  }

  lemma NoCollisionPair(hash: string -> string, lists: set<seq<string>>, a: seq<string>, t: seq<string>)
    requires NoCollision(hash, lists) && a in lists && t in lists
    ensures NoCollision(hash, {a, t})
  {
  }

  /** Every indexed entry under the hash of a request block is a block prefix of some history. */
  lemma IndexedEntry(hash: string -> string, a: seq<string>, histories: seq<seq<string>>, k: nat, e: PrefixFingerprint)
    returns (t: seq<string>)
    requires 1 <= k && 16 * k <= |a|
    requires Applicable(hash, a, histories) && AllUnambiguous(a, histories)
    requires e in AllFingerprints(hash, histories) && e.sha256 == hash(Join(a[..16 * k]))
    ensures e.tokenCount <= 16 * k
    ensures e.tokenCount == 16 * k ==> t in histories && 16 * k <= Lcp(a, t)
  {
    AllFingerprintsMembers(hash, histories, e);
    t :| t in histories && e in FingerprintList(hash, t);
    assert t in Lists(a, histories) && a in Lists(a, histories);
    var m := FingerprintOf(hash, t, e);
    NoCollisionPair(hash, Lists(a, histories), a, t);
    SameHash(hash, a, k, t, m);
    if m == k {
      LcpAtLeast(a, t, 16 * k);
    }
  }

  /** A request block hits exactly when some history starts with the same tokens. */
  lemma HitIffShared(hash: string -> string, a: seq<string>, histories: seq<seq<string>>, k: nat)
    requires 1 <= k && 16 * k <= |a|
    requires Applicable(hash, a, histories) && AllUnambiguous(a, histories)
    ensures Hit(PrefixFingerprint(16 * k, hash(Join(a[..16 * k]))), AllFingerprints(hash, histories))
            <==> exists t :: t in histories && 16 * k <= Lcp(a, t)
  {
    var all := AllFingerprints(hash, histories);
    var f := PrefixFingerprint(16 * k, hash(Join(a[..16 * k])));
    var best := MaxCount(all, f.sha256);
    if best > 0 {
      var e :| e in all && e.sha256 == f.sha256 && e.tokenCount == best;
      var t := IndexedEntry(hash, a, histories, k, e);
    }
    if t :| t in histories && 16 * k <= Lcp(a, t) {
      assert t in Lists(a, histories);
      LcpAtLeast(a, t, 16 * k);
      FingerprintIn(hash, t, k);
      AllFingerprintsMembers(hash, histories, f);
      assert f in all;
    }
  }

  lemma BestUpper(a: seq<string>, histories: seq<seq<string>>, t: seq<string>, k: nat)
    requires t in histories && 16 * k <= Lcp(a, t)
    ensures 16 * k <= Best(a, histories)
  {
    assert Blocks(a, t) >= 16 * k;
  }

  lemma MatchAtMostBest(hash: string -> string, a: seq<string>, histories: seq<seq<string>>)
    requires Applicable(hash, a, histories) && AllUnambiguous(a, histories)
    ensures Match(FingerprintList(hash, a), AllFingerprints(hash, histories)) <= Best(a, histories)
  {
    var req, all := FingerprintList(hash, a), AllFingerprints(hash, histories);
    assert a in Lists(a, histories);
    var m := Match(req, all);
    if m > 0 {
      var f := MatchWitness(req, all);
      var k := FingerprintOf(hash, a, f);
      HitIffShared(hash, a, histories, k);
      var t :| t in histories && 16 * k <= Lcp(a, t);
      BestUpper(a, histories, t, k);
    }
  }

  lemma MatchAtLeastBest(hash: string -> string, a: seq<string>, histories: seq<seq<string>>)
    requires Applicable(hash, a, histories) && AllUnambiguous(a, histories)
    ensures Match(FingerprintList(hash, a), AllFingerprints(hash, histories)) >= Best(a, histories)
  {
    var best := Best(a, histories);
    assert a in Lists(a, histories);
    if best > 0 {
      var t :| t in histories && Blocks(a, t) == best;
      var k := Lcp(a, t) / 16;
      HitIffShared(hash, a, histories, k);
      FingerprintIn(hash, a, k);
    }
  }

  ghost predicate ExactFor(hash: string -> string, a: seq<string>, histories: seq<seq<string>>) {
    Match(FingerprintList(hash, a), AllFingerprints(hash, histories)) == Best(a, histories)
  }

  /** The hash index refines direct comparison of token lists: against unambiguous histories the match
      is the longest common prefix with any of them, in blocks. */
  lemma MatchIsLongestCommonPrefix(hash: string -> string, a: seq<string>, histories: seq<seq<string>>)
    requires Applicable(hash, a, histories) && AllUnambiguous(a, histories)
    ensures ExactFor(hash, a, histories)
  {
    MatchAtMostBest(hash, a, histories);
    MatchAtLeastBest(hash, a, histories);
  }

  lemma CountsAreBlocks(hash: string -> string, a: seq<string>, f: PrefixFingerprint)
    requires f in FingerprintList(hash, a) && Small(a)
    ensures f.tokenCount % 16 == 0 && f.tokenCount <= |a|
  {
  }

  /** Whatever a worker reports, a match is whole blocks of the request, so subtracting it from
      the token estimate never reaches below zero. */
  lemma MatchBounds(hash: string -> string, a: seq<string>, cached: seq<PrefixFingerprint>)
    requires Small(a)
    ensures Match(FingerprintList(hash, a), cached) % 16 == 0
    ensures Match(FingerprintList(hash, a), cached) <= |a|
  {
    if Match(FingerprintList(hash, a), cached) > 0 {
      var f := MatchWitness(FingerprintList(hash, a), cached);
      CountsAreBlocks(hash, a, f);
    }
  }

  lemma CountsUpTo(hash: string -> string, t: seq<string>, e: PrefixFingerprint)
    requires e in AllFingerprints(hash, [t]) && Small(t)
    ensures e.tokenCount <= |t|
  {
  }

  lemma WholeListIndexed(hash: string -> string, t: seq<string>, n: nat)
    requires Small(t) && 1 <= n && |t| == 16 * n
    ensures PrefixFingerprint(16 * n, hash(Join(t))) in AllFingerprints(hash, [t])
  {
    assert t[..16 * n] == t;
    FingerprintIn(hash, t, n);
    AllFingerprintsMembers(hash, [t], PrefixFingerprint(16 * n, hash(Join(t))));
  }

  /** Two lists of `n` whole blocks with the same join match in full, whatever the hash. */
  lemma SameJoinMatches(hash: string -> string, a: seq<string>, t: seq<string>, n: nat)
    requires Small(a) && Small(t) && 1 <= n && n == |a| / 16 && |t| == 16 * n
    requires Join(a[..16 * n]) == Join(t) && (forall s :: hash(s) != "")
    ensures Match(FingerprintList(hash, a), AllFingerprints(hash, [t])) == 16 * n
  {
    var req, cached := FingerprintList(hash, a), AllFingerprints(hash, [t]);
    var f := PrefixFingerprint(16 * n, hash(Join(t)));
    WholeListIndexed(hash, t, n);
    FingerprintIn(hash, a, n);
    forall e | e in cached ensures e.tokenCount <= 16 * n {
      CountsUpTo(hash, t, e);
    }
    LargestHits(cached, f);
    MatchUpper(req, cached, f);
    MatchBounds(hash, a, cached);
  }

  // ---- When the index is exact -------------------------------------------

  /** Exact against all histories of a kind, under every hash without collisions on the lists involved. */
  ghost predicate AlwaysExact(a: seq<string>, receivable: seq<string> -> bool) {
    forall hash: string -> string, histories: seq<seq<string>>
      | Applicable(hash, a, histories) && AllReceivable(receivable, histories) ::
      ExactFor(hash, a, histories)
  }

  ghost predicate AllReceivable(receivable: seq<string> -> bool, histories: seq<seq<string>>) {
    forall t | t in histories :: receivable(t)
  }

  /** Another list with the join of all of `a`'s blocks is taken for them. */
  lemma RegroupedIsTaken(hash: string -> string, a: seq<string>, t: seq<string>)
    requires Small(a) && |a| >= 16 && |t| == |Whole(a)| && t != Whole(a) && Join(t) == Join(Whole(a))
    requires forall s :: hash(s) != ""
    ensures Match(FingerprintList(hash, a), AllFingerprints(hash, [t])) == |Whole(a)| > Best(a, [t])
  {
    var n := |a| / 16;
    assert t[..16 * n] == t;
    LcpAtLeast(a, t, 16 * n);
    assert Best(a, [t]) == Blocks(a, t) < 16 * n;
    SameJoinMatches(hash, a, t, n);
  }

  lemma NotExactFor(hash: string -> string, a: seq<string>, t: seq<string>)
    requires Small(a) && |a| >= 16 && |t| == |Whole(a)| && t != Whole(a) && Join(t) == Join(Whole(a))
    requires NoCollision(hash, Lists(a, [t]))
    ensures !ExactFor(hash, a, [t])
  {
    RegroupedIsTaken(hash, a, t);
  }

  /** A hash without collisions or empty values. */
  ghost function Tagged(): string -> string {
    s => "#" + s
  }

  lemma TaggedInjective(hash: string -> string, lists: set<seq<string>>)
    requires forall s :: hash(s) == "#" + s
    ensures NoCollision(hash, lists)
  {
    forall s, r | hash(s) == hash(r) ensures s == r {
      assert hash(s)[1..] == s && hash(r)[1..] == r;
    }
  }

  lemma TaggedApplicable(a: seq<string>, t: seq<string>)
    requires Small(a) && Small(t)
    ensures Applicable(Tagged(), a, [t])
  {
    TaggedInjective(Tagged(), Lists(a, [t]));
  }

  lemma NotAlwaysExact(hash: string -> string, a: seq<string>, histories: seq<seq<string>>,
                       receivable: seq<string> -> bool)
    requires Applicable(hash, a, histories) && AllReceivable(receivable, histories) && !ExactFor(hash, a, histories)
    ensures !AlwaysExact(a, receivable)
  {
  }

  lemma RegroupedBreaks(a: seq<string>, t: seq<string>, receivable: seq<string> -> bool)
    requires Small(a) && |a| >= 16 && |t| == |Whole(a)| && t != Whole(a) && Join(t) == Join(Whole(a)) && receivable(t)
    ensures !AlwaysExact(a, receivable)
  {
    TaggedApplicable(a, t);
    NotExactFor(Tagged(), a, t);
    NotAlwaysExact(Tagged(), a, [t], receivable);
  }

  lemma UnambiguousIsExact(a: seq<string>, receivable: seq<string> -> bool)
    requires forall t | receivable(t) :: Unambiguous(a, t)
    ensures AlwaysExact(a, receivable)
  {
    forall hash: string -> string, histories: seq<seq<string>>
      | Applicable(hash, a, histories) && AllReceivable(receivable, histories)
      ensures ExactFor(hash, a, histories)
    {
      MatchIsLongestCommonPrefix(hash, a, histories);
    }
  }

  lemma SettledBlock(w: seq<string>, n: nat)
    requires Settled(w) && n < |w|
    ensures Settled(w[..n])
  {
  }

  lemma WordsUnambiguous(a: seq<string>, t: seq<string>)
    requires WordList(a) && WordList(t) && Settled(Whole(a))
    ensures Unambiguous(a, t)
  {
    forall k: nat, m: nat | 1 <= k && 16 * k <= |a| && 1 <= m && 16 * m <= |t| && Join(Block(t, m)) == Join(Block(a, k))
      ensures m <= k && (m == k ==> Block(t, m) == Block(a, k))
    {
      BlockOfWhole(a, k);
      if 16 * k < |Whole(a)| {
        SettledBlock(Whole(a), 16 * k);
      }
      SettledUnique(Block(a, k), Block(t, m));
    }
  }

  lemma BlockOfWhole(a: seq<string>, k: nat)
    requires 16 * k <= |a|
    ensures 16 * k <= |Whole(a)| && Whole(a)[..16 * k] == Block(a, k)
    ensures 16 * k == |Whole(a)| ==> Block(a, k) == Whole(a)
  {
  }

  /** Among lists of words, the index is always exact for `a` if and only if the words of its complete
      blocks are settled: free of separators or nothing but one, except that the first may start with
      its only separator and the last may end in its only one. */
  lemma ExactIffSettled(a: seq<string>)
    requires Small(a) && WordList(a)
    ensures AlwaysExact(a, WordList) <==> Settled(Whole(a))
  {
    if Settled(Whole(a)) {
      forall t | WordList(t) ensures Unambiguous(a, t) {
        WordsUnambiguous(a, t);
      }
      UnambiguousIsExact(a, WordList);
    } else {
      var t := UnsettledRegroups(Whole(a));
      RegroupedBreaks(a, t, WordList);
    }
  }

  // ---- Chats: every list starts with a role ------------------------------

  /** The words of the complete blocks after the first role. */
  function Contents(a: seq<string>): seq<string> {
    if Whole(a) == [] then [] else Whole(a)[1..]
  }

  lemma SameRole(p: seq<string>, q: seq<string>)
    requires |p| >= 2 && |q| >= 2 && IsRole(p[0]) && IsRole(q[0]) && Join(p) == Join(q)
    ensures p[0] == q[0] && Join(p[1..]) == Join(q[1..])
  {
    JoinHead(p);
    JoinHead(q);
    FirstSeparator(p[0], Join(p[1..]), q[0], Join(q[1..]));
    FirstSeparator(q[0], Join(q[1..]), p[0], Join(p[1..]));
  }

  lemma ChatsUnambiguous(a: seq<string>, t: seq<string>)
    requires Chat(a) && Chat(t) && Settled(Contents(a))
    ensures Unambiguous(a, t)
  {
    forall k: nat, m: nat | 1 <= k && 16 * k <= |a| && 1 <= m && 16 * m <= |t| && Join(Block(t, m)) == Join(Block(a, k))
      ensures m <= k && (m == k ==> Block(t, m) == Block(a, k))
    {
      var p, q := Block(a, k), Block(t, m);
      BlockOfWhole(a, k);
      SameRole(p, q);
      assert p[1..] == Contents(a)[..16 * k - 1];
      if 16 * k < |Whole(a)| {
        SettledBlock(Contents(a), 16 * k - 1);
      } else {
        assert p[1..] == Contents(a);
      }
      SettledUnique(p[1..], q[1..]);
      assert p == [p[0]] + p[1..] && q == [q[0]] + q[1..];
    }
  }

  /** Among the token lists of chats, the index is always exact for `a` if and only if the words of its
      complete blocks after the first role are settled. */
  lemma ChatExactIffSettled(a: seq<string>)
    requires Small(a) && Chat(a)
    ensures AlwaysExact(a, Chat) <==> Settled(Contents(a))
  {
    if Settled(Contents(a)) {
      forall t | Chat(t) ensures Unambiguous(a, t) {
        ChatsUnambiguous(a, t);
      }
      UnambiguousIsExact(a, Chat);
    } else {
      var w := Whole(a);
      var c := UnsettledRegroups(w[1..]);
      var t := [w[0]] + c;
      assert t[1..] == c;
      JoinHead(w);
      JoinHead(t);
      RegroupedBreaks(a, t, Chat);
    }
  }
}
