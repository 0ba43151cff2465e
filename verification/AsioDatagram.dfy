/**
 * The UDP transport: one datagram carries body, header and, at its end, the size of the header;
 * the receiver reads at most 65535 bytes and takes the buffer apart from the end. `w` is the
 * width of `std::size_t` in bytes.
 */
module AsioDatagram {
  import opened Wrappers
  import opened Bytes

  datatype Datagram = Datagram(header: Block, body: Block)

  const MAX_FRAME_SIZE := 0xFFFF

  /** What a UDP datagram can carry over IPv4, the protocol the socket is opened with. */
  const IPV4_PAYLOAD := 65507

  /** The three buffers of one send, gathered. */
  function Wire(d: Datagram, w: Width): Block {
    d.body + d.header + Encode(|d.header|, w)
  }

  /** What arrives of it in the receive buffer. */
  function Truncated(wire: Block): Block {
    if |wire| <= MAX_FRAME_SIZE then wire else wire[..MAX_FRAME_SIZE]
  }

  /** Undefined where the source computes an address outside the buffer. */
  datatype Outcome = Undefined | Received(datagram: Datagram)

  /** What arrives over a transport that refuses to send more than `limit` bytes at once. */
  function Transit(wire: Block, limit: nat): Option<Block> {
    if |wire| <= limit then Some(Truncated(wire)) else None
  }

  /** Sent, carried and taken apart; None where nothing is received. */
  function Carried(d: Datagram, w: Width, limit: nat): Option<Outcome> {
    match Transit(Wire(d, w), limit)
    case None => None
    case Some(buffer) => Some(Unwire(buffer, w))
  }

  function Unwire(buffer: Block, w: Width): Outcome {
    if |buffer| < w then Undefined
    else
      var headerSize := Decode(buffer[|buffer| - w..]);
      if |buffer| - w < headerSize then Undefined
      else
        var bodySize := |buffer| - headerSize - w;
        Received(Datagram(buffer[bodySize..|buffer| - w], buffer[..bodySize]))
  }

  /** The body comes first, the header behind it, and the header's size last. */
  lemma WireLayout(d: Datagram, w: Width)
    ensures |Wire(d, w)| == |d.body| + |d.header| + w
    ensures Wire(d, w)[..|d.body|] == d.body
    ensures Wire(d, w)[|d.body|..|d.body| + |d.header|] == d.header
    ensures Wire(d, w)[|d.body| + |d.header|..] == Encode(|d.header|, w)
  {
  }

  lemma UnwireWire(d: Datagram, w: Width)
    requires |d.header| < Pow256(w)
    ensures Unwire(Wire(d, w), w) == Received(d)
  {
    var b := Wire(d, w);
    assert b[|b| - w..] == Encode(|d.header|, w);
    DecodeEncode(|d.header|, w);
    assert b[|d.body|..|b| - w] == d.header;
    assert b[..|d.body|] == d.body;
  }

  lemma UnwireSize(buffer: Block, w: Width)
    requires Unwire(buffer, w).Received?
    ensures var d := Unwire(buffer, w).datagram; |d.header| + |d.body| + w == |buffer|
  {
  }

  /**
   * A datagram is received as it was sent if and only if body, header and size field together fit
   * into one datagram of the transport and into the receive buffer.
   */
  lemma RoundTripIff(d: Datagram, w: Width, limit: nat)
    requires |d.header| < Pow256(w)
    ensures Carried(d, w, limit) == Some(Received(d))
       <==> |d.body| + |d.header| + w <= limit && |d.body| + |d.header| + w <= 65535
  {
    UnwireWire(d, w);
    if Unwire(Truncated(Wire(d, w)), w).Received? {
      UnwireSize(Truncated(Wire(d, w)), w);
    }
  }

  /** Two datagrams that are received alike were alike. */
  lemma WireInjective(d: Datagram, e: Datagram, w: Width)
    requires |d.header| < Pow256(w) && |e.header| < Pow256(w) && Wire(d, w) == Wire(e, w)
    ensures d == e
  {
    UnwireWire(d, w);
    UnwireWire(e, w);
  }

  /** The advertised maximal body size, `MaxMessageSize::body`. */
  function MaxBody(w: Width): int {
    MAX_FRAME_SIZE - w
  }

  /**
   * A body of the advertised maximal size survives exactly when no header comes with it and the
   * transport carries 65535 bytes at once; so over IPv4 it never does.
   */
  lemma MaxBodyNeedsEmptyHeader(d: Datagram, w: Width, limit: nat)
    requires |d.header| < Pow256(w) && |d.body| == MaxBody(w)
    ensures Carried(d, w, limit) == Some(Received(d)) <==> d.header == [] && limit >= MAX_FRAME_SIZE
    ensures limit == IPV4_PAYLOAD ==> Carried(d, w, limit) != Some(Received(d))
  {
    RoundTripIff(d, w, limit);
  }

  /** The receive buffer, whose size can only shrink. */
  class Buffer {
    var buf: array<Byte>
    var count: nat

    ghost predicate Valid()
      reads this
    {
      count <= buf.Length
    }

    ghost function Contents(): Block
      requires Valid()
      reads this, buf
    {
      buf[..count]
    }

    constructor (size: nat)
      ensures Valid() && fresh(buf) && buf.Length == count == size
    {
      buf, count := new Byte[size], size;
    }

    /** False where the source throws. */
    method Shrink(size: nat) returns (ok: bool)
      requires Valid()
      modifies this`count
      ensures Valid()
      ensures ok <==> size <= old(count)
      ensures Contents() == if ok then old(Contents())[..size] else old(Contents())
    {
      ok := size <= count;
      if ok {
        count := size;
      }
    }
  }

  /** The copy of the header into a buffer of its own. */
  method CopyOut(source: array<Byte>, from: nat, size: nat) returns (copy: Buffer)
    requires from + size <= source.Length
    ensures fresh(copy) && fresh(copy.buf) && copy.Valid()
    ensures copy.Contents() == source[from..from + size]
  {
    copy := new Buffer(size);
    for i := 0 to size
      invariant copy.Valid() && copy.count == copy.buf.Length == size
      invariant copy.buf[..i] == source[from..from + i]
      modifies copy.buf
    {
      copy.buf[i] := source[from + i];
    }
  }

  /** Where the parts of a received buffer lie. */
  lemma PartsOf(bytes: Block, count: nat, w: Width)
    requires w <= count <= |bytes|
    ensures bytes[..count][count - w..] == bytes[count - w..count]
    ensures var headerSize := Decode(bytes[count - w..count]);
      Unwire(bytes[..count], w)
        == if count - w < headerSize then Undefined
           else Received(Datagram(bytes[count - w - headerSize..count - w], bytes[..count - w - headerSize]))
  {
    var all := bytes[..count];
    assert all[count - w..] == bytes[count - w..count];
    var headerSize := Decode(bytes[count - w..count]);
    if headerSize <= count - w {
      var bodySize := count - w - headerSize;
      assert all[bodySize..count - w] == bytes[bodySize..count - w];
      assert all[..bodySize] == bytes[..bodySize];
    }
  }

  /**
   * The receive handler: it throws on an error; else the header is copied out of the buffer, which
   * becomes the body.
   */
  method HandleReceive(buffer: Buffer, received: nat, w: Width, error: bool) returns (header: Buffer?, body: Buffer?)
    requires buffer.Valid() && received <= buffer.count
    modifies buffer`count
    ensures buffer.Valid()
    ensures header == null || body == null <==> error || Unwire(old(buffer.Contents())[..received], w) == Undefined
    ensures error ==> buffer.Contents() == old(buffer.Contents())
    ensures header != null && body != null ==>
              && header.Valid() && body.Valid() && fresh(header) && body == buffer
              && Unwire(old(buffer.Contents())[..received], w) == Received(Datagram(header.Contents(), body.Contents()))
  {
    header, body := null, null;
    if error {
      return;
    }
    ghost var bytes := buffer.buf[..];
    assert old(buffer.Contents())[..received] == bytes[..received];
    var ok := buffer.Shrink(received);
    if received < w {
      return;
    }
    PartsOf(bytes, received, w);
    var sizeField := buffer.buf[received - w..received];
    assert sizeField == bytes[received - w..received];
    var headerSize := Decode(sizeField);
    if received - w < headerSize {
      return;
    }
    header := CopyOut(buffer.buf, received - w - headerSize, headerSize);
    assert buffer.buf[..] == bytes && header.Contents() == bytes[received - w - headerSize..received - w];
    ok := buffer.Shrink(received - headerSize - w);
    body := buffer;
    assert body.Contents() == bytes[..received - w - headerSize];
  }
}
