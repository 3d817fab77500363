/** The gateway's frames as bytes on the event stream, and what a client makes of them
    (internal/gateway/http.go:466-509). `marshal` stands for
    `json.Marshal` of a frame's payload; it also takes the frame's position, since payloads carry the
    time at which they are made. */
module Framing {
  import opened Gateway
  import opened GatewayProofs
  import opened GatewayTheorems
  import opened Sse

  /** Frames written to the event stream, as opposed to HTTP responses and headers. */
  predicate IsBody(f: Frame) {
    f.Token? || f.Completion? || f.StreamError? || f.Done?
  }

  /** JSON objects: no line breaks, and they start with a brace. */
  ghost predicate JsonObjects(marshal: (nat, Frame) -> string) {
    forall i, f :: LineFree(marshal(i, f)) && marshal(i, f) != "" && marshal(i, f)[0] == '{'
  }

  function EventName(f: Frame): string {
    match f
    case Token(_) => "token"
    case Completion(_) => "completion"
    case StreamError(_) => "error"
    case _ => "message"
  }

  /** The bytes written for the i-th frame. */
  function Text(marshal: (nat, Frame) -> string, i: nat, f: Frame): string {
    if f.Done? then Sse.WriteDone() else WriteEvent(EventName(f), marshal(i, f))
  }

  /** The message a client should read for it. */
  function MessageOf(marshal: (nat, Frame) -> string, i: nat, f: Frame): Message {
    if f.Done? then Message("message", DONE) else Message(EventName(f), marshal(i, f))
  }

  /** The bytes of the frames from position `i` on. */
  function BodyFrom(marshal: (nat, Frame) -> string, i: nat, fs: seq<Frame>): string
    decreases |fs|
  {
    if fs == [] then "" else Text(marshal, i, fs[0]) + BodyFrom(marshal, i + 1, fs[1..])
  }

  function Body(marshal: (nat, Frame) -> string, fs: seq<Frame>): string {
    BodyFrom(marshal, 0, fs)
  }

  function MessagesFrom(marshal: (nat, Frame) -> string, i: nat, fs: seq<Frame>): (ms: seq<Message>)
    ensures |ms| == |fs| && forall k | 0 <= k < |fs| :: ms[k] == MessageOf(marshal, i + k, fs[k])
  {
    seq(|fs|, k requires 0 <= k < |fs| => MessageOf(marshal, i + k, fs[k]))
  }

  function Messages(marshal: (nat, Frame) -> string, fs: seq<Frame>): (ms: seq<Message>)
    ensures |ms| == |fs| && forall k | 0 <= k < |fs| :: ms[k] == MessageOf(marshal, k, fs[k])
  {
    MessagesFrom(marshal, 0, fs)
  }

  lemma EventNameOk(f: Frame)
    ensures EventName(f) != "" && LineFree(EventName(f))
  {
  }

  lemma TextRoundTrip(marshal: (nat, Frame) -> string, p: Parser, i: nat, f: Frame)
    requires JsonObjects(marshal) && Rested(p)
    ensures FeedAll(p, Text(marshal, i, f)) == p.(out := p.out + [MessageOf(marshal, i, f)])
  {
    if f.Done? {
      DoneRoundTrip(p);
    } else {
      EventNameOk(f);
      EventRoundTrip(p, EventName(f), marshal(i, f));
    }
  }

  lemma MessagesMove(marshal: (nat, Frame) -> string, out: seq<Message>, i: nat, fs: seq<Frame>)
    requires fs != []
    ensures out + [MessageOf(marshal, i, fs[0])] + MessagesFrom(marshal, i + 1, fs[1..])
            == out + MessagesFrom(marshal, i, fs)
  {
  }

  lemma {:induction false} BodyFeeds(marshal: (nat, Frame) -> string, p: Parser, i: nat, fs: seq<Frame>)
    requires JsonObjects(marshal) && Rested(p)
    ensures FeedAll(p, BodyFrom(marshal, i, fs)) == p.(out := p.out + MessagesFrom(marshal, i, fs))
    decreases |fs|
  {
    if fs == [] {
      assert p.out + MessagesFrom(marshal, i, fs) == p.out;
    } else {
      TextRoundTrip(marshal, p, i, fs[0]);
      var q := p.(out := p.out + [MessageOf(marshal, i, fs[0])]);
      FeedAllConcat(p, Text(marshal, i, fs[0]), BodyFrom(marshal, i + 1, fs[1..]));
      BodyFeeds(marshal, q, i + 1, fs[1..]);
      MessagesMove(marshal, p.out, i, fs);
    }
  }

  /** Round trip: the standard's parser recovers exactly the frames written. */
  lemma BodyRoundTrip(marshal: (nat, Frame) -> string, fs: seq<Frame>)
    requires JsonObjects(marshal)
    ensures Parse(Body(marshal, fs)) == Messages(marshal, fs)
  {
    BodyFeeds(marshal, Parser("", false, "", "", []), 0, fs);
    assert [] + Messages(marshal, fs) == Messages(marshal, fs);
  }

  /** A DONE is read exactly where a DONE was written: no token text can forge one. */
  lemma NoForgedDone(marshal: (nat, Frame) -> string, fs: seq<Frame>, i: nat)
    requires JsonObjects(marshal) && i < |fs|
    ensures Parse(Body(marshal, fs)) == Messages(marshal, fs)
    ensures Messages(marshal, fs)[i].data == DONE <==> fs[i].Done?
  {
    BodyRoundTrip(marshal, fs);
    assert DONE[0] == '[';
  }

  /** A client's reading of payloads: whatever else they carry, they tell the frame. */
  ghost predicate Decodes(read: string -> Frame, marshal: (nat, Frame) -> string) {
    forall i, f :: read(marshal(i, f)) == f
  }

  lemma MessageDeterminesFrame(marshal: (nat, Frame) -> string, other: (nat, Frame) -> string, read: string -> Frame,
                               i: nat, f: Frame, g: Frame)
    requires JsonObjects(marshal) && JsonObjects(other) && Decodes(read, marshal) && Decodes(read, other)
    requires MessageOf(marshal, i, f) == MessageOf(other, i, g)
    ensures f == g
  {
    assert DONE[0] == '[';
    if !f.Done? && !g.Done? {
      assert read(marshal(i, f)) == f && read(other(i, g)) == g;
    }
  }

  /** If payloads can be decoded, equal byte streams come from equal frame lists, even if different
      payload encodings (such as other creation times) were at work. */
  lemma BodyDeterminesFrames(marshal: (nat, Frame) -> string, other: (nat, Frame) -> string, read: string -> Frame,
                             fs: seq<Frame>, gs: seq<Frame>)
    requires JsonObjects(marshal) && JsonObjects(other) && Decodes(read, marshal) && Decodes(read, other)
    requires Body(marshal, fs) == Body(other, gs)
    ensures fs == gs
  {
    BodyRoundTrip(marshal, fs);
    BodyRoundTrip(other, gs);
    assert |fs| == |Messages(marshal, fs)| == |gs|;
    forall i | 0 <= i < |fs| ensures fs[i] == gs[i] {
      assert Messages(marshal, fs)[i] == Messages(other, gs)[i];
      MessageDeterminesFrame(marshal, other, read, i, fs[i], gs[i]);
    }
  }

  // ---- Whole runs --------------------------------------------------------

  lemma CommittedBody(s: State)
    requires |s.out| > 0 && s.out[0] == Headers && s.attempts != [] && CommittedTo(s, Current(s))
    ensures forall i | 1 <= i < |s.out| :: IsBody(s.out[i])
    ensures forall i | 1 <= i < |s.out| :: s.out[i] == Done ==> i == |s.out| - 1
  {
  }

  lemma PrefixMessages(marshal: (nat, Frame) -> string, fs: seq<Frame>, gs: seq<Frame>)
    requires fs <= gs
    ensures Messages(marshal, fs) <= Messages(marshal, gs)
  {
  }

  /** What a client reads, however the connection ends: from the bytes it received, cut off at any
      point, it reads the first messages of the committed response, and a DONE only if the whole
      response, with the frame that closes it, was written and delivered. */
  lemma ClientReadsResponse(c: Config, ls: seq<Label>, marshal: (nat, Frame) -> string, n: nat)
    requires ConfigOk(c) && Run(c, ls).Some? && Run(c, ls).value.pc == Gone && JsonObjects(marshal)
    requires var s := Run(c, ls).value;
             |s.delivered| > 0 && s.delivered[0] == Headers && n <= |Body(marshal, s.delivered[1..])|
    ensures var s := Run(c, ls).value;
            var read := Parse(Body(marshal, s.delivered[1..])[..n]);
            && s.out != []
            && read <= Messages(marshal, s.out[1..])
            && (forall i | 0 <= i < |read| && read[i].data == DONE ::
                  i == |read| - 1 && read == Messages(marshal, s.out[1..]) && s.delivered == s.out)
  {
    EveryRunEndsWell(c, ls);
    var s := Run(c, ls).value;
    var fs, gs := s.delivered[1..], s.out[1..];
    CommittedBody(s);
    BodyRoundTrip(marshal, fs);
    TruncationOnlyLoses(Body(marshal, fs), n);
    assert fs <= gs;
    PrefixMessages(marshal, fs, gs);
    var read := Parse(Body(marshal, fs)[..n]);
    forall i | 0 <= i < |read| && read[i].data == DONE
      ensures i == |read| - 1 && read == Messages(marshal, gs) && s.delivered == s.out
    {
      assert read[i] == Messages(marshal, gs)[i];
      NoForgedDone(marshal, gs, i);
      assert s.out[i + 1] == Done;
      assert |read| == |gs|;
    }
  }
}
