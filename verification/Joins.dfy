/** Token lists joined by a separator, as fingerprints hash them (internal/prefix/prefix.go:17): which
    lists of words can be told from their join. */
module Joins {
  import opened Tokenizer

  const SEP: char := '\U{001F}'

  /** Go's `strings.Join(tokens, "\x1f")`. */
  function Join(tokens: seq<string>): string {
    if tokens == [] then ""
    else if |tokens| == 1 then tokens[0]
    else tokens[0] + [SEP] + Join(tokens[1..])
  }

  lemma {:induction false} JoinConcat(p: seq<string>, q: seq<string>)
    requires p != [] && q != []
    ensures Join(p + q) == Join(p) + [SEP] + Join(q)
  {
    assert (p + q)[1..] == p[1..] + q;
    if |p| > 1 {
      JoinConcat(p[1..], q);
      assert p[0] + [SEP] + (Join(p[1..]) + [SEP] + Join(q)) == p[0] + [SEP] + Join(p[1..]) + [SEP] + Join(q);
    } else {
      assert p[1..] + q == q;
    }
  }

  /** A longer prefix has a longer join. */
  lemma JoinGrows(t: seq<string>, i: nat, j: nat)
    requires 0 < i < j <= |t|
    ensures |Join(t[..i])| < |Join(t[..j])|
  {
    JoinConcat(t[..i], t[i..j]);
    assert t[..i] + t[i..j] == t[..j];
  }

  // ---- When a join determines its words ----------------------------------

  /** Free of separators, or nothing but one. */
  predicate Plain(t: string) {
    SEP !in t || t == [SEP]
  }

  predicate EndsInSeparator(t: string) {
    t != "" && t[|t| - 1] == SEP && SEP !in t[..|t| - 1]
  }

  predicate StartsWithSeparator(t: string) {
    t != "" && t[0] == SEP && SEP !in t[1..]
  }

  /** Every word is plain, except that the last one may end in its only separator. */
  predicate Inner(w: seq<string>) {
    forall i | 0 <= i < |w| :: Plain(w[i]) || (i == |w| - 1 && EndsInSeparator(w[i]))
  }

  /** Every word is plain, except that the first may start with its only separator and the last may
      end in its only one. */
  predicate Settled(w: seq<string>) {
    forall i | 0 <= i < |w| ::
      Plain(w[i]) || (i == 0 && StartsWithSeparator(w[i])) || (i == |w| - 1 && EndsInSeparator(w[i]))
  }

  lemma JoinHead(p: seq<string>)
    requires |p| >= 2
    ensures Join(p) == p[0] + [SEP] + Join(p[1..]) && p == [p[0]] + p[1..]
  {
  }

  lemma JoinNotEmpty(p: seq<string>)
    requires p != [] && WordList(p)
    ensures Join(p) != "" && Join(p)[0] == p[0][0]
  {
  }

  /** A first word that starts with a separator can do without it. */
  lemma DropSeparator(p: seq<string>) returns (q: seq<string>)
    requires p != [] && WordList(p) && p[0][0] == SEP && p[0] != [SEP]
    ensures q == [p[0][1..]] + p[1..] && WordList(q) && Join(p) == [SEP] + Join(q)
  {
    q := [p[0][1..]] + p[1..];
    assert p[0] == [SEP] + p[0][1..];
    if |p| >= 2 {
      JoinHead(p);
      JoinHead(q);
      assert q[1..] == p[1..];
      assert [SEP] + p[0][1..] + [SEP] + Join(p[1..]) == [SEP] + (p[0][1..] + [SEP] + Join(p[1..]));
    }
  }

  lemma DoubleSeparator(p: seq<string>)
    requires |p| >= 2 && p[0] == [SEP]
    ensures Join(p) == [SEP] + ([SEP] + Join(p[1..]))
  {
  }

  lemma InteriorSeparator(x: string, y: string)
    requires x != "" && y != ""
    ensures !Plain(x + [SEP] + y) && !EndsInSeparator(x + [SEP] + y)
  {
    var u := x + [SEP] + y;
    assert u[..|u| - 1][|x|] == SEP;
  }

  /** A single word of an inner list is not the join of two words. */
  lemma LoneWord(p: seq<string>)
    requires p != [] && WordList(p)
    ensures Plain(Join(p)) || EndsInSeparator(Join(p)) ==> |p| == 1
  {
    if |p| > 1 {
      JoinHead(p);
      JoinNotEmpty(p[1..]);
      InteriorSeparator(p[0], Join(p[1..]));
    }
  }

  /** The first separator outside a separator-free `x` ends `y`, or lies inside it. */
  lemma FirstSeparator(x: string, r: string, y: string, q: string)
    requires SEP !in x && x + [SEP] + r == y + [SEP] + q
    ensures y == x ==> r == q
    ensures y != x ==> |y| > |x| && y == x + [SEP] + y[|x| + 1..] && r == y[|x| + 1..] + [SEP] + q
  {
    var s := x + [SEP] + r;
    assert s[|y|] == SEP by { assert (y + [SEP] + q)[|y|] == SEP; }
    assert |y| >= |x|;
    assert s[..|y|] == y by { assert (y + [SEP] + q)[..|y|] == y; }
    assert s[..|x|] == x;
    assert s[|x| + 1..] == r && (y + [SEP] + q)[|y| + 1..] == q;
    if |y| > |x| {
      assert y == x + [SEP] + y[|x| + 1..];
      assert s[|x| + 1..] == y[|x| + 1..] + [SEP] + q by {
        assert (y + [SEP] + q)[|x| + 1..] == y[|x| + 1..] + [SEP] + q;
      }
    }
  }

  lemma OnlySeparator(u: string)
    ensures u != "" && u[0] == SEP && (Plain(u) || EndsInSeparator(u)) ==> u == [SEP]
  {
    if |u| >= 2 {
      assert u[..|u| - 1][0] == u[0];
    }
  }

  lemma LeadingSeparator(w: seq<string>, r: string)
    requires w != [] && WordList(w) && Inner(w) && Join(w) == [SEP] + r && r != ""
    ensures |w| >= 2 && w[0] == [SEP] && r == [SEP] + Join(w[1..])
  {
    JoinNotEmpty(w);
    OnlySeparator(w[0]);
    if |w| >= 2 {
      DoubleSeparator(w);
      assert ([SEP] + r)[1..] == r;
    }
  }

  lemma SameAfter(x: string, r: string, q: string)
    requires x + r == x + q
    ensures r == q
  {
    assert (x + r)[|x|..] == r && (x + q)[|x|..] == q;
  }

  /** The words of an inner list cannot be regrouped into as many or more words. */
  lemma {:induction false} InnerUnique(w: seq<string>, p: seq<string>)
    requires w != [] && p != [] && WordList(w) && WordList(p) && Inner(w) && Join(w) == Join(p)
    ensures |p| <= |w| && (|p| == |w| ==> p == w)
    decreases |w|, 0
  {
    if |w| == 1 {
      LoneWord(p);
    } else if |p| >= 2 {
      JoinHead(w);
      JoinHead(p);
      var rest := w[1..];
      if p[0] == w[0] {
        SameAfter(w[0] + [SEP], Join(rest), Join(p[1..]));
        InnerUnique(rest, p[1..]);
      } else if w[0] == [SEP] {
        DoubleSeparator(w);
        JoinNotEmpty(p);
        var q := DropSeparator(p);
        SameAfter([SEP], [SEP] + Join(rest), Join(q));
        InnerShifted(rest, q);
      } else {
        FirstSeparator(w[0], Join(rest), p[0], Join(p[1..]));
        RegroupedTail(w, p, p[0][|w[0]| + 1..]);
      }
    }
  }

  lemma {:induction false} RegroupedTail(w: seq<string>, p: seq<string>, z: string)
    requires |w| >= 2 && |p| >= 2 && WordList(w) && WordList(p) && Inner(w)
    requires p[0] == w[0] + [SEP] + z && Join(w[1..]) == z + [SEP] + Join(p[1..])
    ensures |p| < |w|
    decreases |w| - 1, 2
  {
    var rest := w[1..];
    if z == "" {
      JoinNotEmpty(p[1..]);
      assert Join(rest) == [SEP] + Join(p[1..]);
      LeadingSeparator(rest, Join(p[1..]));
      InnerShifted(rest[1..], p[1..]);
    } else {
      var q := [z] + p[1..];
      assert q[1..] == p[1..];
      JoinHead(q);
      SuffixIsWord(p[0], |w[0]| + 1);
      assert p[0][|w[0]| + 1..] == z;
      InnerUnique(rest, q);
    }
  }

  lemma SuffixIsWord(t: string, i: nat)
    requires IsWord(t) && i < |t|
    ensures IsWord(t[i..])
  {
  }

  /** Nor can they with a separator put in front of them. */
  lemma {:induction false} InnerShifted(w: seq<string>, p: seq<string>)
    requires w != [] && p != [] && WordList(w) && WordList(p) && Inner(w) && Join(p) == [SEP] + Join(w)
    ensures |p| <= |w|
    decreases |w|, 1
  {
    JoinNotEmpty(p);
    if |p| >= 2 {
      if p[0] == [SEP] {
        DoubleSeparator(p);
        SameAfter([SEP], Join(w), [SEP] + Join(p[1..]));
        JoinNotEmpty(p[1..]);
        LeadingSeparator(w, Join(p[1..]));
        InnerShifted(w[1..], p[1..]);
      } else {
        var q := DropSeparator(p);
        SameAfter([SEP], Join(w), Join(q));
        InnerUnique(w, q);
      }
    }
  }

  lemma InnerWithoutFirst(w: seq<string>, v: seq<string>)
    requires w != [] && Settled(w) && StartsWithSeparator(w[0]) && v == [w[0][1..]] + w[1..]
    ensures Inner(v)
  {
    assert SEP !in v[0];
    assert forall i | 1 <= i < |v| :: v[i] == w[i];
  }

  lemma StartsUnique(w: seq<string>, p: seq<string>)
    requires w != [] && p != [] && WordList(w) && WordList(p) && Settled(w) && Join(w) == Join(p)
    requires StartsWithSeparator(w[0]) && w[0] != [SEP]
    ensures |p| <= |w| && (|p| == |w| ==> p == w)
  {
    JoinNotEmpty(w);
    JoinNotEmpty(p);
    var v := DropSeparator(w);
    InnerWithoutFirst(w, v);
    JoinNotEmpty(v);
    StartNotAlone(p, Join(v));
    var q := DropSeparator(p);
    SameAfter([SEP], Join(v), Join(q));
    InnerUnique(v, q);
    if |p| == |w| {
      assert p[0] == [SEP] + q[0] && w[0] == [SEP] + v[0];
      assert p == [p[0]] + q[1..] && w == [w[0]] + v[1..];
    }
  }

  lemma StartNotAlone(p: seq<string>, r: string)
    requires p != [] && WordList(p) && Join(p) == [SEP] + r && r != "" && r[0] != SEP
    ensures p[0] != [SEP]
  {
    if |p| >= 2 && p[0] == [SEP] {
      DoubleSeparator(p);
      SameAfter([SEP], r, [SEP] + Join(p[1..]));
    }
  }

  /** An equal join means at most as many words, and the same words when the number agrees. */
  lemma SettledUnique(w: seq<string>, p: seq<string>)
    requires w != [] && p != [] && WordList(w) && WordList(p) && Settled(w) && Join(w) == Join(p)
    ensures |p| <= |w| && (|p| == |w| ==> p == w)
  {
    if Inner(w) {
      InnerUnique(w, p);
    } else {
      StartsUnique(w, p);
    }
  }

  // ---- When it does not: words regrouped at a separator ------------------

  lemma JoinPair(x: string, y: string, rest: seq<string>)
    ensures Join([x, y] + rest) == if rest == [] then x + [SEP] + y else x + [SEP] + y + [SEP] + Join(rest)
  {
  }

  /** Moving the boundary between two neighbours across a separator leaves the join alone. */
  lemma {:induction false} ShiftBoundary(pre: seq<string>, x: string, y: string, z: string, rest: seq<string>)
    ensures Join(pre + [x + [SEP] + y, z] + rest) == Join(pre + [x, y + [SEP] + z] + rest)
  {
    var l, r := [x + [SEP] + y, z] + rest, [x, y + [SEP] + z] + rest;
    if pre == [] {
      JoinPair(x + [SEP] + y, z, rest);
      JoinPair(x, y + [SEP] + z, rest);
      assert x + [SEP] + y + [SEP] + z == x + [SEP] + (y + [SEP] + z);
      assert pre + [x + [SEP] + y, z] + rest == l && pre + [x, y + [SEP] + z] + rest == r;
    } else {
      ShiftBoundary(pre[1..], x, y, z, rest);
      assert (pre + [x + [SEP] + y, z] + rest)[1..] == pre[1..] + [x + [SEP] + y, z] + rest;
      assert (pre + [x, y + [SEP] + z] + rest)[1..] == pre[1..] + [x, y + [SEP] + z] + rest;
    }
  }

  lemma ReplacePair(a: seq<string>, j: nat, x: string, y: string)
    requires j + 1 < |a|
    ensures a[j := x][j + 1 := y] == a[..j] + [x, y] + a[j + 2..]
  {
  }

  lemma RegroupRight(w: seq<string>, j: nat, x: string, y: string) returns (t: seq<string>)
    requires j + 1 < |w| && WordList(w) && w[j] == x + [SEP] + y && x != ""
    ensures WordList(t) && |t| == |w| && t != w && Join(t) == Join(w)
  {
    var z := w[j + 1];
    t := w[j := x][j + 1 := y + [SEP] + z];
    ShiftBoundary(w[..j], x, y, z, w[j + 2..]);
    ReplacePair(w, j, w[j], z);
    ReplacePair(w, j, x, y + [SEP] + z);
    assert w[j := w[j]][j + 1 := z] == w;
    assert |t[j]| < |w[j]|;
    PiecesAreWords(w[j], x, y);
  }

  lemma RegroupLeft(w: seq<string>, j: nat, y: string, z: string) returns (t: seq<string>)
    requires j + 1 < |w| && WordList(w) && w[j + 1] == y + [SEP] + z && z != ""
    ensures WordList(t) && |t| == |w| && t != w && Join(t) == Join(w)
  {
    var x := w[j];
    t := w[j := x + [SEP] + y][j + 1 := z];
    ShiftBoundary(w[..j], x, y, z, w[j + 2..]);
    ReplacePair(w, j, x, w[j + 1]);
    ReplacePair(w, j, x + [SEP] + y, z);
    assert w[j := x][j + 1 := w[j + 1]] == w;
    assert |t[j + 1]| < |w[j + 1]|;
    PiecesAreWords(w[j + 1], y, z);
  }

  lemma PiecesAreWords(u: string, x: string, y: string)
    requires IsWord(u) && u == x + [SEP] + y
    ensures forall i | 0 <= i < |x| :: !IsSpace(x[i])
    ensures forall i | 0 <= i < |y| :: !IsSpace(y[i])
  {
    assert forall i | 0 <= i < |x| :: u[i] == x[i];
    assert forall i | 0 <= i < |y| :: u[|x| + 1 + i] == y[i];
  }

  /** A list that is not settled has the join of another list of as many words. */
  lemma UnsettledRegroups(w: seq<string>) returns (t: seq<string>)
    requires |w| >= 2 && WordList(w) && !Settled(w)
    ensures WordList(t) && |t| == |w| && t != w && Join(t) == Join(w)
  {
    var i :| 0 <= i < |w| && !(Plain(w[i]) || (i == 0 && StartsWithSeparator(w[i]))
                               || (i == |w| - 1 && EndsInSeparator(w[i])));
    var u := w[i];
    var n := |u|;
    if c :| 0 < c < n - 1 && u[c] == SEP {
      assert u == u[..c] + [SEP] + u[c + 1..];
      if i + 1 < |w| {
        t := RegroupRight(w, i, u[..c], u[c + 1..]);
      } else {
        t := RegroupLeft(w, i - 1, u[..c], u[c + 1..]);
      }
    } else if u[0] == SEP && i > 0 {
      assert u == "" + [SEP] + u[1..];
      t := RegroupLeft(w, i - 1, "", u[1..]);
    } else if u[n - 1] == SEP && i + 1 < |w| {
      assert u == u[..n - 1] + [SEP] + "";
      t := RegroupRight(w, i, u[..n - 1], "");
    } else {
      EdgesOnly(u);
      assert false;
    }
  }

  lemma EdgesOnly(u: string)
    requires u != "" && SEP in u && forall c | 0 < c < |u| - 1 :: u[c] != SEP
    ensures u[0] == SEP || u[|u| - 1] == SEP
    ensures u[|u| - 1] != SEP ==> StartsWithSeparator(u)
    ensures u[0] != SEP ==> EndsInSeparator(u)
    ensures |u| == 1 ==> u == [SEP]
  {
  }
}
