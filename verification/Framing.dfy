/** Length-prefixed frames: encoding one, and decoding a stream of them however
    it is cut into reads. */
module Framing {
  import opened Types
  import opened LittleEndian

  const MAX_FRAME_SIZE: nat := 10 * 1024 * 1024

  /** The length is cast to 32 bits before it is compared with the maximum. */
  function EncodeFrame(payload: Bytes): Result<Bytes>
  {
    var len := |payload| % U32;
    if len > MAX_FRAME_SIZE then Err else Ok(Le32(len) + payload)
  }

  // ----- The reference: one pass over the whole stream -----

  /** The payloads of a stream, what is left of it, and whether it stopped at a
      header over the maximum. */
  datatype Parsed = Parsed(payloads: seq<Bytes>, rest: Bytes, oversized: bool)

  /** A complete frame leads the bytes. */
  predicate Leads(b: Bytes)
  {
    |b| >= 4 && At32(b, 0) <= MAX_FRAME_SIZE && |b| >= 4 + At32(b, 0)
  }

  function Lead(b: Bytes): Bytes
    requires Leads(b)
  {
    b[4..4 + At32(b, 0)]
  }

  function Tail(b: Bytes): Bytes
    requires Leads(b)
  {
    b[4 + At32(b, 0)..]
  }

  lemma LeadStays(a: Bytes, b: Bytes)
    requires Leads(a)
    ensures Leads(a + b) && Lead(a + b) == Lead(a) && Tail(a + b) == Tail(a) + b
  {
    AtPrefix(a, b);
  }

  function Prepend(payload: Bytes, p: Parsed): Parsed
  {
    Parsed([payload] + p.payloads, p.rest, p.oversized)
  }

  function Parse(b: Bytes): Parsed
    decreases |b|
  {
    if Leads(b) then Prepend(Lead(b), Parse(Tail(b)))
    else Parsed([], b, |b| >= 4 && At32(b, 0) > MAX_FRAME_SIZE)
  }

  /** Going on with `b` after what `p` left. */
  function Then(p: Parsed, b: Bytes): Parsed
  {
    var q := Parse(p.rest + b);
    Parsed(p.payloads + q.payloads, q.rest, q.oversized)
  }

  lemma ThenPrepend(x: Bytes, p: Parsed, b: Bytes)
    ensures Then(Prepend(x, p), b) == Prepend(x, Then(p, b))
  {
    var q := Parse(p.rest + b);
    assert [x] + (p.payloads + q.payloads) == ([x] + p.payloads) + q.payloads;
  }

  lemma ParseLeadThen(a: Bytes, b: Bytes)
    requires Leads(a)
    ensures Parse(a) == Prepend(Lead(a), Parse(Tail(a)))
    ensures Parse(a + b) == Prepend(Lead(a), Parse(Tail(a) + b))
  {
    LeadStays(a, b);
  }

  /** Parsing may stop anywhere and go on with what was left. */
  lemma {:induction false} ParseGoesOn(a: Bytes, b: Bytes)
    requires !Parse(a).oversized
    ensures Parse(a + b) == Then(Parse(a), b)
    decreases |a|
  {
    if Leads(a) {
      ParseLeadThen(a, b);
      ParseGoesOn(Tail(a), b);
      ThenPrepend(Lead(a), Parse(Tail(a)), b);
    } else {
      var q := Parse(a + b);
      assert [] + q.payloads == q.payloads;
    }
  }

  /** Bytes after an oversized header change nothing. */
  lemma {:induction false} OversizedStays(a: Bytes, b: Bytes)
    requires Parse(a).oversized
    ensures Parse(a + b) == Parse(a).(rest := Parse(a).rest + b)
    decreases |a|
  {
    if Leads(a) {
      ParseLeadThen(a, b);
      OversizedStays(Tail(a), b);
    } else {
      AtPrefix(a, b);
    }
  }

  lemma {:induction false} RestHoldsNothing(a: Bytes)
    ensures Parse(Parse(a).rest) == Parsed([], Parse(a).rest, Parse(a).oversized)
    decreases |a|
  {
    if Leads(a) { RestHoldsNothing(Tail(a)); }
  }

  // ----- One push, and any number of them -----

  /** What a push answers, and the buffer it leaves: an oversized header drops
      the messages decoded before it in the same push. */
  function Push(buf: Bytes, data: Bytes): (Result<seq<Bytes>>, Bytes)
  {
    var p := Parse(buf + data);
    (if p.oversized then Err else Ok(p.payloads), p.rest)
  }

  /** The buffer after pushing `chunks` one by one. */
  function BufferAfter(chunks: seq<Bytes>): Bytes
  {
    if chunks == [] then []
    else Push(BufferAfter(chunks[..|chunks| - 1]), chunks[|chunks| - 1]).1
  }

  /** What the pushes answered, failures counting for nothing. */
  function Answered(chunks: seq<Bytes>): seq<Bytes>
  {
    if chunks == [] then []
    else
      var before := chunks[..|chunks| - 1];
      var (answer, _) := Push(BufferAfter(before), chunks[|chunks| - 1]);
      if answer.Ok? then Answered(before) + answer.value else Answered(before)
  }

  /** Whether the last push failed. */
  predicate Failed(chunks: seq<Bytes>)
    requires chunks != []
  {
    Push(BufferAfter(chunks[..|chunks| - 1]), chunks[|chunks| - 1]).0.Err?
  }

  /** However the stream is cut: without an oversized header, the answers
      together are the one-pass parse, the buffer is its unparsed tail and no
      push failed; with one, the answers are a prefix of the parse. */
  lemma {:induction false} ChunkingDoesNotMatter(chunks: seq<Bytes>)
    ensures var p := Parse(Flatten(chunks));
            if !p.oversized
            then Answered(chunks) == p.payloads && BufferAfter(chunks) == p.rest && (chunks != [] ==> !Failed(chunks))
            else Answered(chunks) <= p.payloads && BufferAfter(chunks) == p.rest && chunks != [] && Failed(chunks)
  {
    if chunks != [] {
      var before, last := chunks[..|chunks| - 1], chunks[|chunks| - 1];
      var a := Flatten(before);
      ChunkingDoesNotMatter(before);
      assert Flatten(chunks) == a + last;
      if Parse(a).oversized {
        OversizedStays(a, last);
        RestHoldsNothing(a);
        OversizedStays(Parse(a).rest, last);
      } else {
        ParseGoesOn(a, last);
      }
    }
  }

  /** After a push failed every later one fails. */
  lemma {:induction false} FailureIsFinal(chunks: seq<Bytes>, more: seq<Bytes>)
    requires chunks != [] && Failed(chunks)
    ensures Failed(chunks + more)
  {
    ChunkingDoesNotMatter(chunks);
    ChunkingDoesNotMatter(chunks + more);
    FlattenConcat(chunks, more);
    OversizedStays(Flatten(chunks), Flatten(more));
  }

  // ----- Encoded messages come back -----

  function EncodeAll(payloads: seq<Bytes>): Bytes
    requires forall i :: 0 <= i < |payloads| ==> |payloads[i]| <= MAX_FRAME_SIZE
  {
    if payloads == [] then []
    else EncodeFrame(payloads[0]).value + EncodeAll(payloads[1..])
  }

  lemma FirstFrame(payload: Bytes, rest: Bytes)
    requires EncodeFrame(payload).Ok? && |payload| < U32
    ensures var p := Parse(rest);
            Parse(EncodeFrame(payload).value + rest) == Parsed([payload] + p.payloads, p.rest, p.oversized)
  {
    var n := |payload|;
    Le32RoundTrip(n);
    var b := EncodeFrame(payload).value + rest;
    assert b == Le32(n) + (payload + rest);
    AtPrefix(Le32(n), payload + rest);
    assert Leads(b) && Lead(b) == payload && Tail(b) == rest;
  }

  lemma {:induction false} EncodedComeBack(payloads: seq<Bytes>)
    requires forall i :: 0 <= i < |payloads| ==> |payloads[i]| <= MAX_FRAME_SIZE
    ensures Parse(EncodeAll(payloads)) == Parsed(payloads, [], false)
  {
    if payloads != [] {
      EncodedComeBack(payloads[1..]);
      FirstFrame(payloads[0], EncodeAll(payloads[1..]));
      assert payloads == [payloads[0]] + payloads[1..];
    }
  }

  /** Messages sent as frames arrive as they were sent, in order, however the
      bytes are cut on the way. */
  lemma SentIsReceived(payloads: seq<Bytes>, chunks: seq<Bytes>)
    requires forall i :: 0 <= i < |payloads| ==> |payloads[i]| <= MAX_FRAME_SIZE
    requires Flatten(chunks) == EncodeAll(payloads)
    ensures Answered(chunks) == payloads && BufferAfter(chunks) == []
  {
    EncodedComeBack(payloads);
    ChunkingDoesNotMatter(chunks);
  }

  /** An encoded message comes back exactly when it is within the maximum.  A
      payload of 2^32 bytes or more can pass the comparison after the cast and
      is then sent under a length that is not its own. */
  lemma ComesBackIffWithinMaximum(payload: Bytes)
    ensures EncodeFrame(payload).Ok? && Parse(EncodeFrame(payload).value) == Parsed([payload], [], false)
            <==> |payload| <= MAX_FRAME_SIZE
  {
    if |payload| <= MAX_FRAME_SIZE {
      FirstFrame(payload, []);
      assert EncodeFrame(payload).value + [] == EncodeFrame(payload).value;
      assert [payload] + [] == [payload];
    } else if EncodeFrame(payload).Ok? {
      var b := EncodeFrame(payload).value;
      var len := |payload| % U32;
      Le32RoundTrip(len);
      AtPrefix(Le32(len), payload);
      assert Leads(b) && Lead(b) == b[4..4 + len];
      assert Parse(b).payloads[0] == Lead(b);
    }
  }

  /** The one payload of a stream that is exactly one frame. */
  function OnlyPayload(b: Bytes): Option<Bytes>
  {
    var p := Parse(b);
    if |p.payloads| == 1 && p.rest == [] && !p.oversized then Some(p.payloads[0]) else None
  }

  lemma ParsesToNothing(b: Bytes)
    requires Parse(b) == Parsed([], [], false)
    ensures b == []
  {
  }

  /** A payload over the maximum is refused, or sent as something that is not a
      frame of its own. */
  lemma OneFrameIffWithinMaximum(payload: Bytes)
    ensures var r := EncodeFrame(payload);
            if |payload| <= MAX_FRAME_SIZE then r.Ok? && OnlyPayload(r.value) == Some(payload)
            else r.Ok? ==> OnlyPayload(r.value) == None
  {
    ComesBackIffWithinMaximum(payload);
    if |payload| > MAX_FRAME_SIZE && EncodeFrame(payload).Ok? {
      var b := EncodeFrame(payload).value;
      var len := |payload| % U32;
      Le32RoundTrip(len);
      AtPrefix(Le32(len), payload);
      assert Leads(b) && Tail(b) != [];
      if OnlyPayload(b).Some? { ParsesToNothing(Tail(b)); }
    }
  }

  lemma CastLetsAHugePayloadThrough(payload: Bytes)
    requires |payload| == U32
    ensures EncodeFrame(payload).Ok? && Parse(EncodeFrame(payload).value) != Parsed([payload], [], false)
  {
    ComesBackIffWithinMaximum(payload);
  }

  // ----- The reader itself -----

  class FrameReader<M> {
    /** Decoding a payload; an undecodable one becomes an error message. */
    const decode: Bytes -> M
    var buf: Bytes

    constructor (decode: Bytes -> M)
      ensures this.decode == decode && buf == []
    {
      this.decode := decode;
      buf := [];
    }

    method PushBytes(data: Bytes) returns (r: Result<seq<M>>)
      modifies this
      ensures var (answer, rest) := Push(old(buf), data);
              buf == rest &&
              r == if answer.Ok? then Ok(Decoded(decode, answer.value)) else Err
    {
      buf := buf + data;
      ghost var whole := buf;
      ghost var done: seq<Bytes> := [];
      var messages: seq<M> := [];
      while true
        invariant messages == Decoded(decode, done)
        invariant var p, q := Parse(whole), Parse(buf);
                  p == Parsed(done + q.payloads, q.rest, q.oversized)
        decreases |buf|
      {
        if |buf| < 4 {
          break;
        }
        var len := At32(buf, 0);
        if len > MAX_FRAME_SIZE {
          return Err;
        }
        if |buf| < 4 + len {
          break;
        }
        ghost var payload := buf[4..4 + len];
        assert Leads(buf) && Lead(buf) == payload && Tail(buf) == buf[4 + len..];
        assert done + ([payload] + Parse(buf[4 + len..]).payloads) == (done + [payload]) + Parse(buf[4 + len..]).payloads;
        DecodedSnoc(decode, done, payload);
        messages := messages + [decode(buf[4..4 + len])];
        buf := buf[4 + len..];
        done := done + [payload];
      }
      assert Parse(whole).payloads == done;
      return Ok(messages);
    }
  }

  function Decoded<M>(decode: Bytes -> M, payloads: seq<Bytes>): (r: seq<M>)
    ensures |r| == |payloads|
  {
    seq(|payloads|, i requires 0 <= i < |payloads| => decode(payloads[i]))
  }

  lemma DecodedSnoc<M>(decode: Bytes -> M, payloads: seq<Bytes>, p: Bytes)
    ensures Decoded(decode, payloads + [p]) == Decoded(decode, payloads) + [decode(p)]
  {
  }
}
