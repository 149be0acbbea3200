/**
 The gRPC length-prefixed message: one flag byte, four length bytes most significant first,
 then the message.
 */
module Framing {
  import opened Results
  import opened ByteStrings

  const U32_MAX: nat := 0xFFFF_FFFF

  /** The four bytes of `n`, most significant first. */
  function BigEndian(n: nat): (bytes: Bytes)
    requires n <= U32_MAX
    ensures |bytes| == 4 && FromBigEndian(bytes) == n
  {
    var (a, b, c) := (n / 0x100, n / 0x100 / 0x100, n / 0x100 / 0x100 / 0x100);
    [c, b % 0x100, a % 0x100, n % 0x100]
  }

  function FromBigEndian(bytes: Bytes): (n: nat)
    requires |bytes| == 4
    ensures n <= U32_MAX
  {
    var high: int := bytes[0];
    ((high * 0x100 + bytes[1]) * 0x100 + bytes[2]) * 0x100 + bytes[3]
  }

  lemma BigEndianRoundTrip(bytes: Bytes)
    requires |bytes| == 4
    ensures BigEndian(FromBigEndian(bytes)) == bytes
  {
    var high: int := bytes[0];
    var upper := high * 0x100 + bytes[1];
    var most := upper * 0x100 + bytes[2];
    var n := FromBigEndian(bytes);
    assert n / 0x100 == most && n % 0x100 == bytes[3];
    assert most / 0x100 == upper && most % 0x100 == bytes[2];
    assert upper / 0x100 == high && upper % 0x100 == bytes[1];
  }

  /** The wire form of one message. A length that does not fit is written as the largest that does. */
  function Wire(compressed: bool, payload: Bytes): Bytes {
    [if compressed then 1 else 0] + BigEndian(if |payload| <= U32_MAX then |payload| else U32_MAX) + payload
  }

  /** A growing buffer. */
  class BytesMut {
    var contents: Bytes

    constructor ()
      ensures contents == []
    {
      contents := [];
    }

    method PutU8(b: Byte)
      modifies this
      ensures contents == old(contents) + [b]
    {
      contents := contents + [b];
    }

    method PutU32(n: nat)
      requires n <= U32_MAX
      modifies this
      ensures contents == old(contents) + BigEndian(n)
    {
      contents := contents + BigEndian(n);
    }

    method PutSlice(bytes: Bytes)
      modifies this
      ensures contents == old(contents) + bytes
    {
      contents := contents + bytes;
    }
  }

  /** A cursor that consumes a body from the front. */
  class Buf {
    var rest: Bytes

    constructor (bytes: Bytes)
      ensures rest == bytes
    {
      rest := bytes;
    }

    method GetU8() returns (b: Byte)
      requires |rest| >= 1
      modifies this
      ensures old(rest) == [b] + rest
    {
      b := rest[0];
      rest := rest[1..];
    }

    method GetU32() returns (n: nat)
      requires |rest| >= 4
      modifies this
      ensures n <= U32_MAX && old(rest) == BigEndian(n) + rest
    {
      BigEndianRoundTrip(rest[..4]);
      n := FromBigEndian(rest[..4]);
      rest := rest[4..];
    }
  }

  /** `frame`. */
  method Frame(compressed: bool, payload: Bytes) returns (out: Bytes)
    ensures out == Wire(compressed, payload)
  {
    var buffer := new BytesMut();
    buffer.PutU8(if compressed then 1 else 0);
    buffer.PutU32(if |payload| <= U32_MAX then |payload| else U32_MAX);
    buffer.PutSlice(payload);
    out := buffer.contents;
  }

  /** The message `bytes` is the wire form of, if it is the wire form of exactly one. */
  function Parsed(bytes: Bytes): Option<(bool, Bytes)> {
    if |bytes| >= 5 && bytes[0] <= 1 && FromBigEndian(bytes[1..5]) == |bytes| - 5
    then Some((bytes[0] == 1, bytes[5..]))
    else None
  }

  /** `unframe`: exactly one framed message, or nothing. */
  method Unframe(bytes: Bytes) returns (message: Option<(bool, Bytes)>)
    ensures message == Parsed(bytes)
    ensures forall compressed, payload ::
      message == Some((compressed, payload)) <==> |payload| <= U32_MAX && bytes == Wire(compressed, payload)
  {
    forall compressed, payload
      ensures Parsed(bytes) == Some((compressed, payload)) <==> |payload| <= U32_MAX && bytes == Wire(compressed, payload)
    {
      ParsedExactly(bytes, compressed, payload);
    }
    if |bytes| < 5 { return None; }
    var buf := new Buf(bytes);
    var flag := buf.GetU8();
    if flag > 1 { return None; }
    var len := buf.GetU32();
    assert BigEndian(len) == bytes[1..5];
    assert buf.rest == bytes[5..];
    message := if |buf.rest| == len then Some((flag == 1, buf.rest)) else None;
  }

  /** Framing and unframing are inverse on every message whose length fits. */
  lemma ParsedExactly(bytes: Bytes, compressed: bool, payload: Bytes)
    ensures Parsed(bytes) == Some((compressed, payload)) <==> |payload| <= U32_MAX && bytes == Wire(compressed, payload)
  {
    if |payload| <= U32_MAX && bytes == Wire(compressed, payload) {
      assert bytes[1..5] == BigEndian(|payload|);
      assert bytes[5..] == payload;
    }
    if Parsed(bytes) == Some((compressed, payload)) {
      BigEndianRoundTrip(bytes[1..5]);
      assert bytes == [bytes[0]] + bytes[1..5] + bytes[5..];
    }
  }

  /** A message comes back exactly when its length fits the prefix. */
  lemma RoundTripExactly(compressed: bool, payload: Bytes)
    ensures Parsed(Wire(compressed, payload)) == Some((compressed, payload)) <==> |payload| <= U32_MAX
    ensures |payload| > U32_MAX ==> Parsed(Wire(compressed, payload)).None?
  {
    var bytes := Wire(compressed, payload);
    ParsedExactly(bytes, compressed, payload);
    assert bytes[1..5] == BigEndian(if |payload| <= U32_MAX then |payload| else U32_MAX);
  }
}
