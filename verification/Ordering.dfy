/** Go's `<` on strings, and what sorting workers by ID yields
    (internal/registry/registry.go:81, internal/routing/routing.go:51). */
module Ordering {
  import opened Model

  /** Lexicographic order by code point, which is also the byte order of UTF-8. */
  predicate Less(a: string, b: string) {
    b != [] && (a == [] || a[0] < b[0] || (a[0] == b[0] && Less(a[1..], b[1..])))
  }

  lemma {:induction false} LessTotal(a: string, b: string)
    ensures !(Less(a, b) && Less(b, a))
    ensures a == b ==> !Less(a, b)
    ensures a != b ==> Less(a, b) || Less(b, a)
  {
    if a != [] && b != [] && a[0] == b[0] {
      LessTotal(a[1..], b[1..]);
      assert a == [a[0]] + a[1..] && b == [b[0]] + b[1..];
    }
  }

  lemma {:induction false} LessTransitive(a: string, b: string, c: string)
    requires Less(a, b) && Less(b, c)
    ensures Less(a, c)
  {
    if a != [] && a[0] == b[0] && b[0] == c[0] {
      LessTransitive(a[1..], b[1..], c[1..]);
    }
  }

  ghost predicate StrictlySorted(ws: seq<Worker>) {
    forall i, j | 0 <= i < j < |ws| :: Less(ws[i].id, ws[j].id)
  }

  ghost predicate DistinctIds(ws: seq<Worker>) {
    forall i, j | 0 <= i < j < |ws| :: ws[i].id != ws[j].id
  }

  /** Position at which `w` goes into the sorted list: before the first larger ID. */
  function Insert(w: Worker, ws: seq<Worker>): (r: seq<Worker>)
    ensures multiset(r) == multiset(ws) + multiset{w}
  {
    if ws == [] then [w]
    else if Less(w.id, ws[0].id) then [w] + ws
    else
      assert ws == [ws[0]] + ws[1..];
      [ws[0]] + Insert(w, ws[1..])
  }

  /** The list `sort.Slice` leaves behind, when IDs are distinct. */
  function SortById(ws: seq<Worker>): (r: seq<Worker>)
    ensures multiset(r) == multiset(ws)
    ensures |r| == |ws|
  {
    if ws == [] then []
    else
      assert ws == [ws[0]] + ws[1..];
      var r := Insert(ws[0], SortById(ws[1..]));
      assert |multiset(r)| == |multiset(ws)|;
      r
  }

  lemma MultisetMember(ws: seq<Worker>, w: Worker)
    ensures w in multiset(ws) <==> w in ws
  {
  }

  lemma {:induction false} InsertSorted(w: Worker, ws: seq<Worker>)
    requires StrictlySorted(ws)
    requires forall i | 0 <= i < |ws| :: ws[i].id != w.id
    ensures StrictlySorted(Insert(w, ws))
  {
    if ws != [] {
      LessTotal(w.id, ws[0].id);
      if Less(w.id, ws[0].id) {
        forall j | 0 < j < |ws| ensures Less(w.id, ws[j].id) {
          LessTransitive(w.id, ws[0].id, ws[j].id);
        }
      } else {
        var rest := Insert(w, ws[1..]);
        InsertSorted(w, ws[1..]);
        forall j | 0 <= j < |rest| ensures Less(ws[0].id, rest[j].id) {
          assert rest[j] in multiset(rest);
          assert rest[j] in multiset(ws[1..]) + multiset{w};
          if rest[j] != w {
            assert rest[j] in ws[1..];
          }
        }
      }
    }
  }

  lemma {:induction false} SortSorted(ws: seq<Worker>)
    requires DistinctIds(ws)
    ensures StrictlySorted(SortById(ws))
  {
    if ws != [] {
      var rest := SortById(ws[1..]);
      SortSorted(ws[1..]);
      forall i | 0 <= i < |rest| ensures rest[i].id != ws[0].id {
        assert rest[i] in multiset(rest);
        assert rest[i] in ws[1..];
      }
      InsertSorted(ws[0], rest);
    }
  }

  lemma TailMembers(ws: seq<Worker>)
    requires StrictlySorted(ws) && ws != []
    ensures forall w :: w in ws[1..] <==> w in ws && w != ws[0]
  {
    LessTotal(ws[0].id, ws[0].id);
    assert ws == [ws[0]] + ws[1..];
  }

  lemma NoMembers(a: seq<Worker>, b: seq<Worker>)
    requires forall w :: w in b ==> w in a
    ensures a == [] ==> b == []
  {
    if b != [] {
      assert b[0] in a;
    }
  }

  /** A strictly sorted list is determined by its members. */
  lemma {:induction false} SortedUnique(a: seq<Worker>, b: seq<Worker>)
    requires StrictlySorted(a) && StrictlySorted(b)
    requires forall w :: w in a <==> w in b
    ensures a == b
  {
    NoMembers(a, b);
    if a != [] {
      assert a[0] in b;
      assert b[0] in a;
      var i :| 0 <= i < |b| && b[i] == a[0];
      var j :| 0 <= j < |a| && a[j] == b[0];
      LessTotal(a[0].id, b[0].id);
      assert a[0] == b[0];
      TailMembers(a);
      TailMembers(b);
      SortedUnique(a[1..], b[1..]);
      assert a == [a[0]] + a[1..] && b == [b[0]] + b[1..];
    }
  }

  /** Sorting forgets the order in which the workers were listed. */
  lemma SortPermutation(a: seq<Worker>, b: seq<Worker>)
    requires DistinctIds(a) && DistinctIds(b) && multiset(a) == multiset(b)
    ensures SortById(a) == SortById(b)
  {
    SortSorted(a);
    SortSorted(b);
    forall w ensures w in SortById(a) <==> w in SortById(b) {
      MultisetMember(SortById(a), w);
      MultisetMember(SortById(b), w);
    }
    SortedUnique(SortById(a), SortById(b));
  }

  lemma SortMembers(ws: seq<Worker>, w: Worker)
    ensures w in SortById(ws) <==> w in ws
  {
    MultisetMember(SortById(ws), w);
    MultisetMember(ws, w);
  }
}
