/** The whitespace tokenizer over role/content lines (internal/tokenizer/tokenizer.go). */
module Tokenizer {
  import opened Model

  /** Go's `unicode.IsSpace`. */
  predicate IsSpace(c: char) {
    || c == '\t' || c == '\n' || c == '\U{000B}' || c == '\U{000C}' || c == '\r' || c == ' '
    || c == '\U{0085}' || c == '\U{00A0}' || c == '\U{1680}' || '\U{2000}' <= c <= '\U{200A}'
    || c == '\U{2028}' || c == '\U{2029}' || c == '\U{202F}' || c == '\U{205F}' || c == '\U{3000}'
  }

  function Line(m: Message): string {
    m.role + "\n" + m.content + "\n"
  }

  function Canonical(ms: seq<Message>): string {
    if ms == [] then "" else Canonical(ms[..|ms| - 1]) + Line(ms[|ms| - 1])
  }

  method Canonicalize(messages: seq<Message>) returns (b: string)
    ensures b == Canonical(messages)
  {
    b := "";
    for i := 0 to |messages|
      invariant b == Canonical(messages[..i])
    {
      b := b + messages[i].role;
      b := b + "\n";
      b := b + messages[i].content;
      b := b + "\n";
      assert messages[..i + 1][..i] == messages[..i];
    }
    assert messages[..|messages|] == messages;
  }

  /** Length of the leading run of non-space characters. */
  function WordLength(s: string): (n: nat)
    ensures n <= |s|
    ensures forall i | 0 <= i < n :: !IsSpace(s[i])
    ensures n < |s| ==> IsSpace(s[n])
  {
    if s == "" || IsSpace(s[0]) then 0 else 1 + WordLength(s[1..])
  }

  /** Go's `strings.Fields`. */
  function Fields(s: string): seq<string> {
    if s == "" then []
    else if IsSpace(s[0]) then Fields(s[1..])
    else
      var n := WordLength(s);
      [s[..n]] + Fields(s[n..])
  }

  function Tokens(ms: seq<Message>): seq<string> {
    Fields(Canonical(ms))
  }

  function Estimate(ms: seq<Message>): nat {
    |Tokens(ms)|
  }

  predicate IsWord(t: string) {
    t != "" && forall i | 0 <= i < |t| :: !IsSpace(t[i])
  }

  predicate WordList(ts: seq<string>) {
    forall i | 0 <= i < |ts| :: IsWord(ts[i])
  }

  function Letters(s: string): string {
    if s == "" then "" else (if IsSpace(s[0]) then "" else [s[0]]) + Letters(s[1..])
  }

  function Flatten(ts: seq<string>): string {
    if ts == [] then "" else ts[0] + Flatten(ts[1..])
  }

  lemma {:induction false} LettersOfWord(s: string, n: nat)
    requires n <= |s| && forall i | 0 <= i < n :: !IsSpace(s[i])
    ensures Letters(s) == s[..n] + Letters(s[n..])
  {
    if n > 0 {
      LettersOfWord(s[1..], n - 1);
      assert s[1..][n - 1..] == s[n..];
      assert s[..n] == [s[0]] + s[1..][..n - 1];
    }
  }

  /** Every field is a non-empty word, and together they are the text without its spaces. */
  lemma {:induction false} FieldsAreWords(s: string)
    ensures forall t | t in Fields(s) :: IsWord(t)
    ensures Flatten(Fields(s)) == Letters(s)
    decreases |s|
  {
    if s != "" {
      if IsSpace(s[0]) {
        FieldsAreWords(s[1..]);
      } else {
        var n := WordLength(s);
        FieldsAreWords(s[n..]);
        LettersOfWord(s, n);
        assert Fields(s)[1..] == Fields(s[n..]);
      }
    }
  }

  predicate EndsInSpace(s: string) {
    s == "" || IsSpace(s[|s| - 1])
  }

  lemma {:induction false} WordLengthAppend(s: string, t: string)
    requires WordLength(s) < |s|
    ensures WordLength(s + t) == WordLength(s)
  {
    if !IsSpace(s[0]) {
      assert (s + t)[1..] == s[1..] + t;
      WordLengthAppend(s[1..], t);
    }
  }

  lemma WordThenRest(s: string)
    requires s != "" && !IsSpace(s[0])
    ensures WordLength(s) > 0
    ensures Fields(s) == [s[..WordLength(s)]] + Fields(s[WordLength(s)..])
    ensures EndsInSpace(s) ==> WordLength(s) < |s| && EndsInSpace(s[WordLength(s)..])
  {
  }

  lemma SpaceStep(s: string, t: string)
    requires s != "" && IsSpace(s[0])
    ensures (s + t)[1..] == s[1..] + t
    ensures Fields(s + t) == Fields(s[1..] + t)
    ensures EndsInSpace(s) ==> EndsInSpace(s[1..])
  {
  }

  lemma WordStep(s: string, t: string)
    requires s != "" && !IsSpace(s[0]) && EndsInSpace(s)
    ensures WordLength(s) > 0
    ensures Fields(s + t) == [s[..WordLength(s)]] + Fields(s[WordLength(s)..] + t)
  {
    WordThenRest(s);
    WordLengthAppend(s, t);
    WordThenRest(s + t);
    var n := WordLength(s);
    assert (s + t)[..n] == s[..n] && (s + t)[n..] == s[n..] + t;
  }

  /** No word straddles the seam after a trailing space. */
  lemma {:induction false} FieldsAppend(s: string, t: string)
    requires EndsInSpace(s)
    ensures Fields(s + t) == Fields(s) + Fields(t)
    decreases |s|
  {
    if s == "" {
      assert s + t == t;
    } else if IsSpace(s[0]) {
      SpaceStep(s, t);
      FieldsAppend(s[1..], t);
    } else {
      var rest := s[WordLength(s)..];
      WordThenRest(s);
      WordStep(s, t);
      FieldsAppend(rest, t);
    }
  }

  lemma CanonicalEnds(a: seq<Message>)
    ensures EndsInSpace(Canonical(a))
  {
  }

  lemma Associate(a: string, b: string, c: string)
    ensures a + (b + c) == a + b + c
  {
  }

  lemma {:induction false} CanonicalAppend(a: seq<Message>, b: seq<Message>)
    ensures Canonical(a + b) == Canonical(a) + Canonical(b)
  {
    if b == [] {
      assert a + b == a;
    } else {
      var front := b[..|b| - 1];
      CanonicalAppend(a, front);
      assert (a + b)[..|a + b| - 1] == a + front;
      Associate(Canonical(a), Canonical(front), Line(b[|b| - 1]));
    }
  }

  /** A longer conversation keeps the tokens of the shorter one. */
  lemma TokensAppend(a: seq<Message>, b: seq<Message>)
    ensures Tokens(a + b) == Tokens(a) + Tokens(b)
    ensures Estimate(a + b) == Estimate(a) + Estimate(b)
  {
    CanonicalAppend(a, b);
    CanonicalEnds(a);
    FieldsAppend(Canonical(a), Canonical(b));
  }

  // ---- Chats -------------------------------------------------------------

  predicate IsRole(t: string) {
    t == "system" || t == "user" || t == "assistant"
  }

  /** What request parsing demands of the messages (internal/gateway/http.go:230-241). */
  predicate ValidMessages(ms: seq<Message>) {
    ms != [] && forall m | m in ms :: IsRole(m.role) && m.content != ""
  }

  predicate Chat(ts: seq<string>) {
    ts != [] && IsRole(ts[0]) && WordList(ts)
  }

  lemma WordThenSpace(w: string, c: char, rest: string)
    requires IsWord(w) && IsSpace(c)
    ensures Fields(w + [c] + rest) == [w] + Fields(rest)
  {
    var s := w + [c] + rest;
    assert s[|w|] == c && forall i | 0 <= i < |w| :: s[i] == w[i];
    assert WordLength(s) == |w|;
    assert s[..|w|] == w && s[|w|..] == [c] + rest;
    assert s[0] == w[0];
    assert ([c] + rest)[1..] == rest;
  }

  lemma LineFields(m: Message)
    requires IsRole(m.role)
    ensures Fields(Line(m)) == [m.role] + Fields(m.content + "\n")
  {
    assert Line(m) == m.role + ['\n'] + (m.content + "\n");
    WordThenSpace(m.role, '\n', m.content + "\n");
  }

  lemma ValidIsChat(ms: seq<Message>)
    requires ValidMessages(ms)
    ensures Chat(Tokens(ms))
  {
    var m := ms[0];
    assert m in ms;
    FieldsAreWords(Canonical(ms));
    assert ms == [m] + ms[1..];
    TokensAppend([m], ms[1..]);
    assert Canonical([m]) == Line(m) by { assert [m][..0] == []; }
    LineFields(m);
  }

  /** The words, each after a space. */
  function Spaced(ws: seq<string>): string {
    if ws == [] then "" else " " + ws[0] + Spaced(ws[1..])
  }

  lemma OneMessage(role: string, ws: seq<string>)
    requires IsRole(role) && WordList(ws)
    ensures var ms := [Message(role, Spaced(ws) + " ")]; ValidMessages(ms) && Tokens(ms) == [role] + ws
  {
    var m := Message(role, Spaced(ws) + " ");
    assert Canonical([m]) == Line(m) by { assert [m][..0] == []; }
    LineFields(m);
    SpacedTrailing(ws);
  }

  lemma {:induction false} SpacedTrailing(ws: seq<string>)
    requires WordList(ws)
    ensures Fields(Spaced(ws) + " " + "\n") == ws
  {
    var rest := Spaced(ws) + " " + "\n";
    if ws == [] {
      assert rest[1..] == "\n" && "\n"[1..] == "";
    } else {
      var tail := Spaced(ws[1..]) + " " + "\n";
      SpacedTrailing(ws[1..]);
      assert tail != "" && IsSpace(tail[0]);
      assert rest[1..] == ws[0] + [tail[0]] + tail[1..];
      WordThenSpace(ws[0], tail[0], tail[1..]);
    }
  }

  /** The token lists of valid messages are exactly the chats. */
  lemma ChatsAreReceivable(ts: seq<string>)
    ensures Chat(ts) <==> exists ms :: ValidMessages(ms) && Tokens(ms) == ts
  {
    if Chat(ts) {
      OneMessage(ts[0], ts[1..]);
      assert ts == [ts[0]] + ts[1..];
      assert Tokens([Message(ts[0], Spaced(ts[1..]) + " ")]) == ts;
    }
    if ms :| ValidMessages(ms) && Tokens(ms) == ts {
      ValidIsChat(ms);
    }
  }
}
