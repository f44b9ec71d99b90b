/**
 Length-framed messages over a stream socket: a four-byte big-endian size and that many
 bytes. The bytes arrive in whatever chunks the socket delivers, with time-outs between.
 */
module Framing {
  type Byte = x: int | 0 <= x < 256

  const LIMIT := 65536

  /** One turn of the receive loop: the guard raises, the socket times out, or it offers up to `most` bytes. */
  datatype Event = Stop(code: string) | Timeout | Offer(most: nat)

  datatype ReadEnd = Bytes(data: seq<Byte>) | Failed(code: string)

  /** How a read or a receive ends, what is left in the stream, and the events still to come. */
  datatype Reading = Reading(end: ReadEnd, stream: seq<Byte>, events: seq<Event>)

  function Least(a: int, b: int): int {
    if a < b then a else b
  }

  /** How many bytes one `recv` returns: at least one of those there, and no more than asked for. */
  function Chunk(most: nat, wanted: int, present: nat): (n: nat)
    requires wanted > 0 && present > 0
    ensures 1 <= n <= wanted && n <= present
  {
    Least(Least(if most == 0 then 1 else most, wanted), present)
  }

  /** Read up to `count` bytes; the stream stands for all that will ever arrive, so its end is the peer's close. */
  function ReadRun(stream: seq<Byte>, events: seq<Event>, chunks: seq<Byte>, count: nat): Reading
    decreases |events|
  {
    if |chunks| >= count then Reading(Bytes(chunks), stream, events)
    else if events == [] then Reading(Failed("model_timeout"), stream, events)
    else
      match events[0]
      case Stop(code) => Reading(Failed(code), stream, events[1..])
      case Timeout => ReadRun(stream, events[1..], chunks, count)
      case Offer(most) =>
        if stream == [] then Reading(Failed("interrupted"), stream, events[1..])
        else
          var n := Chunk(most, count - |chunks|, |stream|);
          ReadRun(stream[n..], events[1..], chunks + stream[..n], count)
  }

  function Size(header: seq<Byte>): (size: nat)
    requires |header| == 4
    ensures size < 0x1_0000_0000
  {
    (((header[0] as int) * 256 + header[1] as int) * 256 + header[2] as int) * 256 + header[3] as int
  }

  /** Whether a payload is the JSON of an object without repeated keys; decoding itself is not modelled. */
  type Decoder = seq<Byte> -> bool

  function ReceiveRun(stream: seq<Byte>, events: seq<Event>, decodes: Decoder): Reading {
    var head := ReadRun(stream, events, [], 4);
    if head.end.Failed? then head
    else if |head.end.data| != 4 || !(1 <= Size(head.end.data) <= LIMIT)
    then head.(end := Failed("model_invalid_response"))
    else
      var body := ReadRun(head.stream, head.events, [], Size(head.end.data));
      if body.end.Bytes? && !decodes(body.end.data) then body.(end := Failed("model_invalid_response")) else body
  }

  function Header(size: nat): (header: seq<Byte>)
    requires size < 0x1_0000_0000
    ensures |header| == 4
  {
    [size / 0x100_0000, size / 0x1_0000 % 256, size / 256 % 256, size % 256]
  }

  function Frame(payload: seq<Byte>): seq<Byte>
    requires |payload| <= LIMIT
  {
    Header(|payload|) + payload
  }

  class Connection {
    var incoming: seq<Byte>
    var outgoing: seq<Byte>
    var events: seq<Event>

    constructor (incoming: seq<Byte>, events: seq<Event>)
      ensures this.incoming == incoming && this.events == events && outgoing == []
    {
      this.incoming, this.events, outgoing := incoming, events, [];
    }

    method Read(count: nat) returns (end: ReadEnd)
      modifies this`incoming, this`events
      ensures Reading(end, incoming, events) == ReadRun(old(incoming), old(events), [], count)
      ensures ReadRightly(old(incoming), old(events), count, Reading(end, incoming, events))
    {
      ReadIsRight(incoming, events, count);
      var chunks: seq<Byte> := [];
      while |chunks| < count
        invariant ReadRun(incoming, events, chunks, count) == ReadRun(old(incoming), old(events), [], count)
        decreases |events|
      {
        if events == [] {
          return Failed("model_timeout");
        }
        var event := events[0];
        events := events[1..];
        match event {
          case Stop(code) => return Failed(code);
          case Timeout =>
          case Offer(most) =>
            if incoming == [] {
              return Failed("interrupted");
            }
            var n := Chunk(most, count - |chunks|, |incoming|);
            chunks, incoming := chunks + incoming[..n], incoming[n..];
        }
      }
      end := Bytes(chunks);
    }

    method Receive(decodes: Decoder) returns (end: ReadEnd)
      modifies this`incoming, this`events
      ensures Reading(end, incoming, events) == ReceiveRun(old(incoming), old(events), decodes)
      ensures ReceivedRightly(old(incoming), old(events), decodes, Reading(end, incoming, events))
    {
      ReceiveIsRight(incoming, events, decodes);
      end := Read(4);
      if end.Bytes? {
        ReadTakes(old(incoming), old(events), [], 4);
        var size := Size(end.data);
        if !(1 <= size <= LIMIT) {
          return Failed("model_invalid_response");
        }
        end := Read(size);
        if end.Bytes? && !decodes(end.data) {
          end := Failed("model_invalid_response");
        }
      }
    }

    method Send(payload: seq<Byte>) returns (refused: bool)
      modifies this`outgoing
      ensures refused <==> |payload| > 65536
      ensures refused ==> outgoing == old(outgoing)
      ensures !refused ==> outgoing == old(outgoing) + Frame(payload)
      ensures !refused ==>
        exists header :: Spells(header, |payload|) && outgoing == old(outgoing) + header + payload
    {
      refused := |payload| > LIMIT;
      if !refused {
        HeaderSpells(|payload|);
        outgoing := outgoing + Header(|payload|) + payload;
        assert old(outgoing) + Header(|payload|) + payload == old(outgoing) + Frame(payload);
      }
    }
  }

  // ----- one read

  predicate Unstopped(events: seq<Event>) {
    forall i :: 0 <= i < |events| ==> !events[i].Stop?
  }

  function Offers(events: seq<Event>): nat {
    if events == [] then 0 else (if events[0].Offer? then 1 else 0) + Offers(events[1..])
  }

  /** Whatever the chunks, a read takes exactly the next bytes; short of them it yields none. */
  lemma {:induction false} ReadTakes(stream: seq<Byte>, events: seq<Event>, chunks: seq<Byte>, count: nat)
    requires |chunks| <= count
    ensures var r := ReadRun(stream, events, chunks, count);
      && (r.end.Bytes? ==> |r.end.data| == count && chunks + stream == r.end.data + r.stream)
      && (r.end.Bytes? ==> |chunks| + |stream| >= count)
    decreases |events|
  {
    if |chunks| < count && events != [] && !events[0].Stop? {
      if events[0].Timeout? {
        ReadTakes(stream, events[1..], chunks, count);
      } else if stream != [] {
        var n := Chunk(events[0].most, count - |chunks|, |stream|);
        ReadTakes(stream[n..], events[1..], chunks + stream[..n], count);
        assert chunks + stream == (chunks + stream[..n]) + stream[n..];
      }
    }
  }

  /** A socket that keeps offering bytes and a guard that never raises bring a read to its end. */
  lemma {:induction false} ReadEnds(stream: seq<Byte>, events: seq<Event>, chunks: seq<Byte>, count: nat)
    requires |chunks| <= count && Unstopped(events) && Offers(events) > |stream|
    ensures var r := ReadRun(stream, events, chunks, count);
      && (r.end.Bytes? <==> |chunks| + |stream| >= count)
      && (r.end.Failed? ==> r.end.code == "interrupted")
      && (r.end.Bytes? ==> Unstopped(r.events) && Offers(r.events) > |r.stream|)
    decreases |events|
  {
    if |chunks| < count {
      if events[0].Timeout? {
        ReadEnds(stream, events[1..], chunks, count);
      } else if stream != [] {
        var n := Chunk(events[0].most, count - |chunks|, |stream|);
        ReadEnds(stream[n..], events[1..], chunks + stream[..n], count);
      }
    }
  }

  /** Why a read failed. */
  predicate FailedFor(stream: seq<Byte>, events: seq<Event>, count: nat, r: Reading)
    requires r.end.Failed?
  {
    || Stop(r.end.code) in events
    || (r.end.code == "interrupted" && |stream| < count && r.stream == [])
    || (r.end.code == "model_timeout" && r.events == [])
  }

  /** A read yields the next bytes, or fails because the guard raised, the stream ended or nothing more happened. */
  predicate ReadRightly(stream: seq<Byte>, events: seq<Event>, count: nat, r: Reading) {
    && |r.events| <= |events| && r.events == events[|events| - |r.events|..]
    && (r.end.Bytes? ==> |r.end.data| == count && stream == r.end.data + r.stream)
    && (r.end.Failed? ==> FailedFor(stream, events, count, r))
  }

  lemma {:induction false} ReadFails(stream: seq<Byte>, events: seq<Event>, chunks: seq<Byte>, count: nat)
    requires |chunks| <= count
    ensures var r := ReadRun(stream, events, chunks, count);
      && |r.events| <= |events| && r.events == events[|events| - |r.events|..]
      && (r.end.Failed? ==> FailedFor(chunks + stream, events, count, r))
    decreases |events|
  {
    if |chunks| < count && events != [] && !events[0].Stop? {
      if events[0].Timeout? {
        ReadFails(stream, events[1..], chunks, count);
      } else if stream != [] {
        var n := Chunk(events[0].most, count - |chunks|, |stream|);
        ReadFails(stream[n..], events[1..], chunks + stream[..n], count);
        assert chunks + stream == (chunks + stream[..n]) + stream[n..];
      }
    }
  }

  lemma ReadIsRight(stream: seq<Byte>, events: seq<Event>, count: nat)
    ensures ReadRightly(stream, events, count, ReadRun(stream, events, [], count))
  {
    ReadTakes(stream, events, [], count);
    ReadFails(stream, events, [], count);
    assert [] + stream == stream;
    hide ReadRun;
  }

  /** The most significant byte comes first. */
  predicate Spells(header: seq<Byte>, size: nat) {
    && |header| == 4
    && size == header[0] as int * 16777216 + header[1] as int * 65536 + header[2] as int * 256 + header[3] as int
  }

  lemma HeaderSpells(size: nat)
    requires size < 0x1_0000_0000
    ensures Spells(Header(size), size)
  {
    SizeOfHeader(size);
    SizeSpells(Header(size));
    hide Header, Size;
  }

  lemma SizeSpells(header: seq<Byte>)
    requires |header| == 4
    ensures Spells(header, Size(header))
  {
  }

  /**
   A message is received only as a whole frame of 1 to 65536 bytes that decode, after their size; whatever else the
   stream begins with is a failure.
   */
  predicate ReceivedRightly(stream: seq<Byte>, events: seq<Event>, decodes: Decoder, r: Reading) {
    && (r.end.Bytes? ==>
          && 1 <= |r.end.data| <= 65536 && decodes(r.end.data)
          && 4 <= |stream| && Spells(stream[..4], |r.end.data|) && stream[4..] == r.end.data + r.stream)
    && (r.end.Failed? ==>
          || r.end.code == "model_invalid_response"
          || Stop(r.end.code) in events
          || (r.end.code == "interrupted" && r.stream == [])
          || (r.end.code == "model_timeout" && r.events == []))
  }

  lemma ReceiveIsRight(stream: seq<Byte>, events: seq<Event>, decodes: Decoder)
    ensures ReceivedRightly(stream, events, decodes, ReceiveRun(stream, events, decodes))
  {
    var head := ReadRun(stream, events, [], 4);
    ReadIsRight(stream, events, 4);
    if head.end.Bytes? {
      SizeSpells(head.end.data);
      assert stream[..4] == head.end.data && stream[4..] == head.stream;
      ReadIsRight(head.stream, head.events, Size(head.end.data));
      assert forall e :: e in head.events ==> e in events;
    }
    hide ReadRun, Size;
  }

  lemma SizeOfHeader(size: nat)
    requires size < 0x1_0000_0000
    ensures Size(Header(size)) == size
  {
    var a, b := size / 256, size / 0x1_0000;
    assert size == a * 256 + size % 256;
    assert a == b * 256 + a % 256 && b == a / 256;
    assert b == size / 0x100_0000 * 256 + b % 256;
  }

  // ----- one frame

  /** What `send` is given: the encoding of an object, within the limit. */
  predicate Sendable(payload: seq<Byte>, decodes: Decoder) {
    1 <= |payload| <= 65536 && decodes(payload)
  }

  lemma ReadExactly(wanted: seq<Byte>, rest: seq<Byte>, stream: seq<Byte>, events: seq<Event>)
    requires stream == wanted + rest
    ensures var r := ReadRun(stream, events, [], |wanted|); r.end.Bytes? ==> r.end.data == wanted && r.stream == rest
  {
    ReadTakes(stream, events, [], |wanted|);
    var r := ReadRun(stream, events, [], |wanted|);
    if r.end.Bytes? {
      assert [] + stream == stream;
      assert r.end.data == (r.end.data + r.stream)[..|wanted|] == wanted;
      assert r.stream == (r.end.data + r.stream)[|wanted|..] == rest;
    }
  }

  /** At the head of a stream, a frame is received whole or not at all. */
  lemma FrameIsWhole(payload: seq<Byte>, rest: seq<Byte>, events: seq<Event>, decodes: Decoder)
    requires Sendable(payload, decodes)
    ensures var r := ReceiveRun(Frame(payload) + rest, events, decodes);
      && (r.end.Bytes? ==> r.end.data == payload && r.stream == rest)
      && (Unstopped(events) && Offers(events) > |Frame(payload) + rest| ==>
            r.end.Bytes? && Unstopped(r.events) && Offers(r.events) > |r.stream|)
  {
    hide ReadRun, Size, Header, Offers;
    var stream := Frame(payload) + rest;
    assert stream == Header(|payload|) + (payload + rest);
    SizeOfHeader(|payload|);
    ReadExactly(Header(|payload|), payload + rest, stream, events);
    var head := ReadRun(stream, events, [], 4);
    ReadExactly(payload, rest, payload + rest, head.events);
    if Unstopped(events) && Offers(events) > |stream| {
      ReadEnds(stream, events, [], 4);
      ReadEnds(payload + rest, head.events, [], |payload|);
    }
  }

  /** A stream that ends inside a frame yields no message. */
  lemma CutFrame(payload: seq<Byte>, cut: nat, events: seq<Event>, decodes: Decoder)
    requires Sendable(payload, decodes) && cut < |Frame(payload)|
    ensures var r := ReceiveRun(Frame(payload)[..cut], events, decodes);
      && r.end.Failed?
      && (Unstopped(events) && Offers(events) > cut ==> r.end.code == "interrupted")
  {
    hide ReadRun, Size, Header, Offers;
    var stream := Frame(payload)[..cut];
    ReadTakes(stream, events, [], 4);
    var head := ReadRun(stream, events, [], 4);
    if cut >= 4 {
      assert stream == Header(|payload|) + payload[..cut - 4];
      SizeOfHeader(|payload|);
      ReadExactly(Header(|payload|), payload[..cut - 4], stream, events);
      if head.end.Bytes? { ReadTakes(payload[..cut - 4], head.events, [], |payload|); }
    }
    if Unstopped(events) && Offers(events) > cut {
      ReadEnds(stream, events, [], 4);
      if cut >= 4 { ReadEnds(payload[..cut - 4], head.events, [], |payload|); }
    }
  }

  // ----- conversations

  predicate AllFit(payloads: seq<seq<Byte>>) {
    forall i :: 0 <= i < |payloads| ==> |payloads[i]| <= LIMIT
  }

  predicate AllSendable(payloads: seq<seq<Byte>>, decodes: Decoder) {
    AllFit(payloads) && forall i :: 0 <= i < |payloads| ==> Sendable(payloads[i], decodes)
  }

  function Wire(payloads: seq<seq<Byte>>): seq<Byte>
    requires AllFit(payloads)
  {
    if payloads == [] then []
    else
      Frame(payloads[0]) + Wire(payloads[1..])
  }

  /** What `n` receives in a row yield, and the failure that stopped them early, if any. */
  datatype Heard = Heard(messages: seq<seq<Byte>>, failure: seq<string>)

  function Listen(stream: seq<Byte>, events: seq<Event>, n: nat, decodes: Decoder): Heard
    decreases n
  {
    if n == 0 then Heard([], [])
    else
      var r := ReceiveRun(stream, events, decodes);
      if r.end.Failed? then Heard([], [r.end.code])
      else
        var later := Listen(r.stream, r.events, n - 1, decodes);
        later.(messages := [r.end.data] + later.messages)
  }

  /**
   Frames arrive as they were sent, whatever the chunking. Nothing but what was sent is ever received, in order, and
   everything is when the guard does not raise and the socket keeps offering.
   */
  lemma {:induction false} FramesArrive(payloads: seq<seq<Byte>>, events: seq<Event>, decodes: Decoder)
    requires AllSendable(payloads, decodes)
    ensures var heard := Listen(Wire(payloads), events, |payloads|, decodes);
      && heard.messages <= payloads
      && (heard.failure == [] <==> heard.messages == payloads)
      && (Unstopped(events) && Offers(events) > |Wire(payloads)| ==> heard.messages == payloads)
    decreases |payloads|
  {
    hide ReceiveRun, Offers, Unstopped;
    if payloads != [] {
      FrameIsWhole(payloads[0], Wire(payloads[1..]), events, decodes);
      var r := ReceiveRun(Wire(payloads), events, decodes);
      if r.end.Bytes? {
        FramesArrive(payloads[1..], r.events, decodes);
        assert payloads == [payloads[0]] + payloads[1..];
      }
    }
  }

  /**
   A stream cut short yields only whole frames, and then a failure: `interrupted` after exactly the frames that fit,
   when the guard does not raise and the socket keeps offering.
   */
  lemma {:induction false} CutStream(payloads: seq<seq<Byte>>, cut: nat, events: seq<Event>, decodes: Decoder)
    requires AllSendable(payloads, decodes)
    requires cut < |Wire(payloads)|
    ensures var heard := Listen(Wire(payloads)[..cut], events, |payloads|, decodes);
      && heard.messages < payloads && |heard.failure| == 1
      && |Wire(payloads[..|heard.messages|])| <= cut
      && (Unstopped(events) && Offers(events) > cut ==>
            heard.failure == ["interrupted"] && cut < |Wire(payloads[..|heard.messages| + 1])|)
    decreases |payloads|
  {
    hide ReceiveRun, Offers, Unstopped, Frame;
    var first := Frame(payloads[0]);
    if cut < |first| {
      CutInTheFirst(payloads, cut, events, decodes);
    } else {
      var rest := Wire(payloads[1..])[..cut - |first|];
      assert Wire(payloads)[..cut] == first + rest;
      FrameIsWhole(payloads[0], rest, events, decodes);
      var r := ReceiveRun(first + rest, events, decodes);
      if r.end.Bytes? {
        CutStream(payloads[1..], cut - |first|, r.events, decodes);
        var k := |Listen(rest, r.events, |payloads| - 1, decodes).messages|;
        WireOfMore(payloads, k);
        WireOfMore(payloads, k + 1);
        assert payloads == [payloads[0]] + payloads[1..];
      }
    }
  }

  lemma CutInTheFirst(payloads: seq<seq<Byte>>, cut: nat, events: seq<Event>, decodes: Decoder)
    requires AllSendable(payloads, decodes) && payloads != [] && cut < |Frame(payloads[0])| <= |Wire(payloads)|
    ensures var heard := Listen(Wire(payloads)[..cut], events, |payloads|, decodes);
      && heard.messages == [] && |heard.failure| == 1
      && (Unstopped(events) && Offers(events) > cut ==> heard.failure == ["interrupted"])
    ensures payloads[..0] == [] && Wire(payloads[..0]) == [] && |Wire(payloads[..1])| == |Frame(payloads[0])|
  {
    hide ReceiveRun, Offers, Unstopped, Frame;
    assert Wire(payloads)[..cut] == Frame(payloads[0])[..cut];
    CutFrame(payloads[0], cut, events, decodes);
    assert payloads[..1] == [payloads[0]];
  }

  lemma WireOfMore(payloads: seq<seq<Byte>>, k: nat)
    requires AllFit(payloads) && k < |payloads|
    ensures |Wire(payloads[..k + 1])| == |Frame(payloads[0])| + |Wire(payloads[1..][..k])|
  {
    hide Frame;
    assert payloads[..k + 1][1..] == payloads[1..][..k];
  }
}
