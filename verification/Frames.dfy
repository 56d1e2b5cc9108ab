/** The two wire framings: session frames of frame.go and route-control frames of routecontrol.go,
    decoding included, and the loop that writes them through a partial writer. */
module Frames {
  import opened Common
  import opened Protocol
  import opened BigEndian

  const HEADER: nat := 12
  const VERSION: Byte := 1
  const MAX_PAYLOAD: nat := 0x10_0000          // MaxPayloadSize, 1 MiB
  const CONTROL_VERSION: Byte := 2
  const MAX_CONTROL: nat := 0x1_0000           // MaxRouteControlPayload, 64 KiB
  const MAGIC: seq<Byte> := [87, 68]           // "WD"
  const CONTROL_MAGIC: seq<Byte> := [87, 68, 82, 84]  // "WDRT"

  /** A session frame as it is framed: any type byte, the payload not interpreted. */
  datatype Raw = Raw(typ: Byte, streamId: nat, payload: seq<Byte>)
  {
    predicate Valid() { streamId < UINT32 && |payload| <= MAX_PAYLOAD }
  }

  datatype Decoded<T> = Got(value: T, rest: seq<Byte>) | Incomplete | Malformed

  function Encode(f: Raw): seq<Byte>
  {
    MAGIC + [VERSION, f.typ] + Put32(f.streamId) + Put32(|f.payload|) + f.payload
  }

  /** ReadFrame on the bytes received so far. */
  function Decode(b: seq<Byte>): Decoded<Raw>
  {
    if |b| < HEADER then Incomplete
    else if b[0] != MAGIC[0] || b[1] != MAGIC[1] || b[2] != VERSION then Malformed
    else
      var length := Get32(b[8..12]);
      if length > MAX_PAYLOAD then Malformed
      else if |b| < HEADER + length then Incomplete
      else Got(Raw(b[3], Get32(b[4..8]), b[12..12 + length]), b[12 + length..])
  }

  lemma EncodeLayout(f: Raw, rest: seq<Byte>)
    ensures var b := Encode(f) + rest;
      && |Encode(f)| == HEADER + |f.payload| && b[..4] == MAGIC + [VERSION, f.typ]
      && b[4..8] == Put32(f.streamId) && b[8..12] == Put32(|f.payload|)
      && b[12..12 + |f.payload|] == f.payload && b[12 + |f.payload|..] == rest
  {
  }

  /** Reading back what was written returns the frame and leaves the bytes behind it. */
  lemma DecodeEncode(f: Raw, rest: seq<Byte>)
    requires f.Valid()
    ensures Decode(Encode(f) + rest) == Got(f, rest)
  {
    var b := Encode(f) + rest;
    EncodeLayout(f, rest);
    GetPut(f.streamId);
    GetPut(|f.payload|);
    assert b[0] == b[..4][0] && b[1] == b[..4][1] && b[2] == b[..4][2] && b[3] == b[..4][3];
  }

  /** Every accepted byte string is the encoding of the frame it decodes to. */
  lemma EncodeDecode(b: seq<Byte>)
    requires Decode(b).Got?
    ensures var d := Decode(b); d.value.Valid() && Encode(d.value) + d.rest == b
  {
    var d := Decode(b);
    PutGet(b[4..8]);
    PutGet(b[8..12]);
    assert b == b[..4] + b[4..8] + b[8..12] + b[12..12 + |d.value.payload|] + d.rest;
    assert b[..4] == MAGIC + [VERSION, d.value.typ];
  }

  /** A truncated frame is never mistaken for a frame or for garbage. */
  lemma PrefixIsIncomplete(f: Raw, n: nat)
    requires f.Valid() && n < |Encode(f)|
    ensures Decode(Encode(f)[..n]).Incomplete?
  {
    EncodeLayout(f, []);
    assert Encode(f) + [] == Encode(f);
    GetPut(|f.payload|);
    var b := Encode(f);
    if n >= HEADER {
      assert b[..n][8..12] == b[8..12];
      assert b[0] == b[..4][0] && b[1] == b[..4][1] && b[2] == b[..4][2];
    }
  }

  function EncodeAll(fs: seq<Raw>): seq<Byte>
  {
    if fs == [] then [] else Encode(fs[0]) + EncodeAll(fs[1..])
  }

  /** The frames a reader gets from `b` before it would block or fail, and what is left. */
  function DecodeAll(b: seq<Byte>): (seq<Raw>, seq<Byte>)
    decreases |b|
  {
    var d := Decode(b);
    if !d.Got? then ([], b)
    else
      var (fs, rest) := DecodeAll(d.rest);
      ([d.value] + fs, rest)
  }

  lemma DecodeHead(b: seq<Byte>, f: Raw)
    requires f.Valid() && Encode(f) <= b
    ensures Decode(b) == Got(f, b[|Encode(f)|..])
  {
    DecodeEncode(f, b[|Encode(f)|..]);
    assert b == Encode(f) + b[|Encode(f)|..];
  }

  /** `b` starts with the encodings of `fs` and ends with `tail`. */
  predicate Parses(b: seq<Byte>, fs: seq<Raw>, tail: seq<Byte>)
  {
    if fs == [] then b == tail else Encode(fs[0]) <= b && Parses(b[|Encode(fs[0])|..], fs[1..], tail)
  }

  lemma {:induction false} EncodeAllParses(fs: seq<Raw>, tail: seq<Byte>)
    ensures Parses(EncodeAll(fs) + tail, fs, tail)
    decreases |fs|
  {
    var b := EncodeAll(fs) + tail;
    if fs != [] {
      EncodeAllParses(fs[1..], tail);
      assert b[|Encode(fs[0])|..] == EncodeAll(fs[1..]) + tail;
    }
  }

  lemma {:induction false} ParsesDecodes(b: seq<Byte>, fs: seq<Raw>, tail: seq<Byte>)
    requires (forall i :: 0 <= i < |fs| ==> fs[i].Valid()) && !Decode(tail).Got? && Parses(b, fs, tail)
    ensures DecodeAll(b).0 == fs && DecodeAll(b).1 == tail
    decreases |fs|
  {
    if fs != [] {
      DecodeHead(b, fs[0]);
      ParsesDecodes(b[|Encode(fs[0])|..], fs[1..], tail);
    }
  }

  /** A stream of frames cut anywhere inside the next one decodes to exactly those frames. */
  lemma StreamRoundTrip(fs: seq<Raw>, tail: seq<Byte>)
    requires (forall i :: 0 <= i < |fs| ==> fs[i].Valid()) && !Decode(tail).Got?
    ensures var d := DecodeAll(EncodeAll(fs) + tail); d.0 == fs && d.1 == tail
  {
    EncodeAllParses(fs, tail);
    ParsesDecodes(EncodeAll(fs) + tail, fs, tail);
  }

  // ----- route control -----

  function EncodeControl(typ: Byte, payload: seq<Byte>): seq<Byte>
  {
    CONTROL_MAGIC + [CONTROL_VERSION, typ, 0, 0] + Put32(|payload|) + payload
  }

  function DecodeControl(b: seq<Byte>, expected: Byte): Decoded<seq<Byte>>
  {
    if |b| < HEADER then Incomplete
    else if b[..4] != CONTROL_MAGIC || b[4] != CONTROL_VERSION || b[5] != expected ||
            b[6] != 0 || b[7] != 0 then Malformed
    else
      var length := Get32(b[8..12]);
      if length == 0 || length > MAX_CONTROL then Malformed
      else if |b| < HEADER + length then Incomplete
      else Got(b[12..12 + length], b[12 + length..])
  }

  lemma ControlRoundTrip(typ: Byte, payload: seq<Byte>, rest: seq<Byte>)
    requires 0 < |payload| <= MAX_CONTROL
    ensures DecodeControl(EncodeControl(typ, payload) + rest, typ) == Got(payload, rest)
    ensures forall other: Byte :: other != typ ==> DecodeControl(EncodeControl(typ, payload) + rest, other).Malformed?
  {
    var b := EncodeControl(typ, payload) + rest;
    GetPut(|payload|);
    assert b[..4] == CONTROL_MAGIC && b[4..8] == [CONTROL_VERSION, typ, 0, 0];
    assert b[4] == b[4..8][0] && b[5] == b[4..8][1] && b[6] == b[4..8][2] && b[7] == b[4..8][3];
    assert b[8..12] == Put32(|payload|) && b[12..12 + |payload|] == payload && b[12 + |payload|..] == rest;
  }

  lemma ControlReencodes(b: seq<Byte>, typ: Byte)
    requires DecodeControl(b, typ).Got?
    ensures var d := DecodeControl(b, typ); EncodeControl(typ, d.value) + d.rest == b
  {
    var d := DecodeControl(b, typ);
    PutGet(b[8..12]);
    assert b == b[..4] + b[4..8] + b[8..12] + b[12..12 + |d.value|] + d.rest;
    assert b[4..8] == [CONTROL_VERSION, typ, 0, 0];
  }

  // ----- writing -----

  /** The next Write accepts up to `n` bytes and returns an error if `fails`. */
  datatype Reply = Reply(n: nat, fails: bool)

  class Sink {
    var written: seq<Byte>
    var replies: seq<Reply>

    constructor (replies: seq<Reply>)
      ensures written == [] && this.replies == replies
    {
      written, this.replies := [], replies;
    }

    /** io.Writer: some prefix of `b` is taken. A sink with no replies left fails. */
    method Write(b: seq<Byte>) returns (n: nat, ok: bool)
      modifies this
      ensures n <= |b| && written == old(written) + b[..n]
      ensures |replies| <= |old(replies)| && (ok ==> |replies| < |old(replies)|)
    {
      if replies == [] {
        return 0, false;
      }
      n, ok := (if replies[0].n < |b| then replies[0].n else |b|), !replies[0].fails;
      replies := replies[1..];
      written := written + b[..n];
    }

    /** writeAll: success means exactly `data` was written, failure some prefix of it. */
    method WriteAll(data: seq<Byte>) returns (ok: bool)
      modifies this
      ensures old(written) <= written <= old(written) + data
      ensures ok ==> written == old(written) + data
    {
      var b := data;
      ghost var sent := [];
      while |b| > 0
        invariant data == sent + b && written == old(written) + sent
        decreases |b|
      {
        var n, good := Write(b);
        sent, b := sent + b[..n], b[n..];
        if !good || n == 0 {
          assert old(written) + data == written + b;
          return false;
        }
      }
      return true;
    }

    /** WriteFrame: refuses an oversized payload before writing; success puts exactly one frame on the
        wire, which the peer's ReadFrame returns. */
    method WriteFrame(f: Raw) returns (ok: bool)
      requires f.streamId < UINT32
      modifies this
      ensures |f.payload| > MAX_PAYLOAD ==> !ok && written == old(written)
      ensures old(written) <= written <= old(written) + Encode(f)
      ensures ok ==> written == old(written) + Encode(f) && Decode(written[|old(written)|..]) == Got(f, [])
    {
      if |f.payload| > MAX_PAYLOAD {
        return false;
      }
      var header := MAGIC + [VERSION, f.typ] + Put32(f.streamId) + Put32(|f.payload|);
      assert Encode(f) == header + f.payload;
      ok := WriteAll(header);
      if !ok {
        return;
      }
      ok := WriteAll(f.payload);
      DecodeEncode(f, []);
      assert Encode(f) + [] == Encode(f);
    }
  }
}
