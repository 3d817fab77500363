/** Server-sent events: the framing written by the gateway (internal/gateway/http.go:487-509) and the
    client's reading of it, following sections 9.2.5 and 9.2.6 of the WHATWG HTML Living Standard on
    the decoded character stream. */
module Sse {

  datatype Message = Message(event: string, data: string)

  // ---- Writing -----------------------------------------------------------

  function WriteEvent(event: string, data: string): string {
    "event: " + event + "\n" + "data: " + data + "\n" + "\n"
  }

  const DONE := "[DONE]"

  function WriteDone(): string {
    "data: " + DONE + "\n" + "\n"
  }

  // ---- Reading -----------------------------------------------------------

  /** `line` is the unfinished line; `event` and `data` are the standard's two buffers. */
  datatype Parser = Parser(line: string, afterCr: bool, event: string, data: string, out: seq<Message>)

  /** Position of the first colon, or the length of the line. */
  function Colon(line: string): (i: nat)
    ensures i <= |line|
  {
    if line == "" || line[0] == ':' then 0 else 1 + Colon(line[1..])
  }

  function FieldName(line: string): string {
    line[..Colon(line)]
  }

  /** What follows the colon, without one leading space. */
  function FieldValue(line: string): string {
    var i := Colon(line);
    if i == |line| then ""
    else if i + 1 < |line| && line[i + 1] == ' ' then line[i + 2..]
    else line[i + 1..]
  }

  /** An empty line dispatches the event, unless there is no data. */
  function Dispatch(p: Parser): Parser {
    var reset := p.(line := "", event := "", data := "");
    if p.data == "" then reset
    else
      var n := |p.data| - 1;
      var data := if p.data[n] == '\n' then p.data[..n] else p.data;
      reset.(out := p.out + [Message(if p.event == "" then "message" else p.event, data)])
  }

  /** Fields other than `event` and `data`, and comments, produce no message. */
  function EndLine(p: Parser): Parser {
    if p.line == "" then Dispatch(p)
    else if p.line[0] == ':' then p.(line := "")
    else if FieldName(p.line) == "event" then p.(line := "", event := FieldValue(p.line))
    else if FieldName(p.line) == "data" then p.(line := "", data := p.data + FieldValue(p.line) + "\n")
    else p.(line := "")
  }

  /** Lines end with CR LF, LF or CR. */
  function Feed(p: Parser, c: char): Parser {
    if c == '\n' then (if p.afterCr then p.(afterCr := false) else EndLine(p))
    else if c == '\r' then EndLine(p).(afterCr := true)
    else p.(line := p.line + [c], afterCr := false)
  }

  function FeedAll(p: Parser, s: string): Parser
    decreases |s|
  {
    if s == "" then p else FeedAll(Feed(p, s[0]), s[1..])
  }

  /** The messages a client has dispatched after reading `s`; an unfinished one is discarded. */
  function Parse(s: string): seq<Message> {
    FeedAll(Parser("", false, "", "", []), s).out
  }

  // ---- Reading is incremental --------------------------------------------

  lemma {:induction false} FeedAllConcat(p: Parser, s: string, t: string)
    ensures FeedAll(p, s + t) == FeedAll(FeedAll(p, s), t)
    decreases |s|
  {
    if s == "" {
      assert s + t == t;
    } else {
      FeedAllConcat(Feed(p, s[0]), s[1..], t);
      assert (s + t)[1..] == s[1..] + t;
    }
  }

  lemma {:induction false} FeedAllGrows(p: Parser, s: string)
    ensures p.out <= FeedAll(p, s).out
    decreases |s|
  {
    if s != "" {
      FeedAllGrows(Feed(p, s[0]), s[1..]);
    }
  }

  /** Cutting a stream short anywhere loses messages from its end but never invents one. */
  lemma TruncationOnlyLoses(s: string, n: nat)
    requires n <= |s|
    ensures Parse(s[..n]) <= Parse(s)
  {
    var p := Parser("", false, "", "", []);
    assert s == s[..n] + s[n..];
    FeedAllConcat(p, s[..n], s[n..]);
    FeedAllGrows(FeedAll(p, s[..n]), s[n..]);
  }

  // ---- Round trip --------------------------------------------------------

  predicate LineFree(s: string) {
    '\n' !in s && '\r' !in s
  }

  lemma {:induction false} FeedText(p: Parser, s: string)
    requires LineFree(s) && !p.afterCr
    ensures FeedAll(p, s) == p.(line := p.line + s)
    decreases |s|
  {
    if s == "" {
      assert p.line + s == p.line;
    } else {
      assert s[0] in s;
      FeedText(Feed(p, s[0]), s[1..]);
      assert p.line + [s[0]] + s[1..] == p.line + s;
    }
  }

  lemma FeedLine(p: Parser, s: string)
    requires LineFree(s) && !p.afterCr && p.line == ""
    ensures FeedAll(p, s + "\n") == EndLine(p.(line := s))
  {
    FeedAllConcat(p, s, "\n");
    FeedText(p, s);
    assert "" + s == s;
    assert FeedAll(p.(line := s), "\n") == FeedAll(Feed(p.(line := s), '\n'), "");
  }

  lemma {:induction false} ColonAfter(name: string, rest: string)
    requires ':' !in name
    ensures Colon(name + ":" + rest) == |name|
  {
    if name == "" {
      assert name + ":" + rest == ":" + rest;
    } else {
      assert name[0] in name;
      ColonAfter(name[1..], rest);
      assert (name + ":" + rest)[1..] == name[1..] + ":" + rest;
    }
  }

  lemma FieldOf(name: string, value: string)
    requires ':' !in name && name != ""
    ensures FieldName(name + ": " + value) == name && FieldValue(name + ": " + value) == value
    ensures name + ": " + value != "" && (name + ": " + value)[0] != ':'
  {
    var line := name + ": " + value;
    assert line == name + ":" + (" " + value);
    ColonAfter(name, " " + value);
    assert line[..|name|] == name && line[|name| + 2..] == value && line[|name| + 1] == ' ';
    assert name[0] in name;
  }

  /** Between messages the parser holds nothing. */
  predicate Rested(p: Parser) {
    p.line == "" && !p.afterCr && p.event == "" && p.data == ""
  }

  lemma EventLine(p: Parser, event: string)
    requires Rested(p) && LineFree(event)
    ensures FeedAll(p, "event: " + event + "\n") == p.(event := event)
  {
    FieldOf("event", event);
    assert "event" + ": " + event == "event: " + event;
    FeedLine(p, "event: " + event);
  }

  lemma DataLine(p: Parser, data: string)
    requires p.line == "" && !p.afterCr && p.data == "" && LineFree(data)
    ensures FeedAll(p, "data: " + data + "\n") == p.(data := data + "\n")
  {
    FieldOf("data", data);
    assert "data" + ": " + data == "data: " + data;
    FeedLine(p, "data: " + data);
    assert "" + data + "\n" == data + "\n";
  }

  lemma BlankLine(p: Parser, data: string)
    requires p.line == "" && !p.afterCr && p.data == data + "\n"
    ensures FeedAll(p, "\n") == p.(event := "", data := "",
                                   out := p.out + [Message(if p.event == "" then "message" else p.event, data)])
  {
  }

  /** One written event is read back as exactly that event. */
  lemma EventRoundTrip(p: Parser, event: string, data: string)
    requires Rested(p) && LineFree(event) && LineFree(data) && event != ""
    ensures FeedAll(p, WriteEvent(event, data)) == p.(out := p.out + [Message(event, data)])
  {
    var l1, l2 := "event: " + event + "\n", "data: " + data + "\n";
    assert WriteEvent(event, data) == l1 + (l2 + "\n");
    FeedAllConcat(p, l1, l2 + "\n");
    EventLine(p, event);
    var q := p.(event := event);
    FeedAllConcat(q, l2, "\n");
    DataLine(q, data);
    BlankLine(q.(data := data + "\n"), data);
  }

  lemma DataOnly(p: Parser, data: string)
    requires Rested(p) && LineFree(data)
    ensures FeedAll(p, "data: " + data + "\n" + "\n") == p.(out := p.out + [Message("message", data)])
  {
    FeedAllConcat(p, "data: " + data + "\n", "\n");
    DataLine(p, data);
    BlankLine(p.(data := data + "\n"), data);
  }

  lemma DoneRoundTrip(p: Parser)
    requires Rested(p)
    ensures FeedAll(p, WriteDone()) == p.(out := p.out + [Message("message", DONE)])
  {
    DataOnly(p, DONE);
  }
}
