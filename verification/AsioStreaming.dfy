/**
 * The TCP transport: every datagram is written to the stream as header size, header, body size
 * and body, and the reader takes the stream apart again frame by frame. `w` is the width of
 * `std::size_t` in bytes, 8 on the platforms the library is built for; nothing depends on it.
 */
module AsioStreaming {
  import opened Sequences
  import opened Bytes

  datatype Frame = Frame(header: Block, body: Block)

  predicate SizeRepresentable(b: Block, w: Width) {
    |b| < Pow256(w)
  }

  predicate Sendable(f: Frame, w: Width) {
    SizeRepresentable(f.header, w) && SizeRepresentable(f.body, w)
  }

  function WriteBlock(b: Block, w: Width): Block {
    Encode(|b|, w) + b
  }

  /** The four buffers of one write, gathered. */
  function WriteFrame(f: Frame, w: Width): Block {
    WriteBlock(f.header, w) + WriteBlock(f.body, w)
  }

  function WriteAll(fs: seq<Frame>, w: Width): Block {
    if fs == [] then [] else WriteFrame(fs[0], w) + WriteAll(fs[1..], w)
  }

  datatype Read<T> = Short | Got(value: T, rest: Block)

  /** A size and as many bytes; Short while not all of them have arrived. */
  function ReadBlock(s: Block, w: Width): (r: Read<Block>)
    ensures r.Got? ==> |r.rest| < |s|
  {
    if |s| < w then Short
    else
      var n := Decode(s[..w]);
      if |s| - w < n then Short else Got(s[w..w + n], s[w + n..])
  }

  function ReadFrame(s: Block, w: Width): (r: Read<Frame>)
    ensures r.Got? ==> |r.rest| < |s|
  {
    match ReadBlock(s, w)
    case Short => Short
    case Got(header, afterHeader) =>
      match ReadBlock(afterHeader, w)
      case Short => Short
      case Got(body, rest) => Got(Frame(header, body), rest)
  }

  datatype Stream = Stream(frames: seq<Frame>, rest: Block)

  /** All complete frames at the front of a stream, and what is left. */
  function ReadAll(s: Block, w: Width): Stream
    decreases |s|
  {
    match ReadFrame(s, w)
    case Short => Stream([], s)
    case Got(f, rest) =>
      var more := ReadAll(rest, w);
      Stream([f] + more.frames, more.rest)
  }

  // ---------------------------------------------------------------------------------------
  // Printer and parser
  // ---------------------------------------------------------------------------------------

  /** The size and the bytes of the header come first, then those of the body. */
  lemma FrameLayout(f: Frame, w: Width)
    ensures var b, h := WriteFrame(f, w), |f.header|;
      && |b| == w + h + w + |f.body|
      && b[..w] == Encode(h, w) && b[w..w + h] == f.header
      && b[w + h..w + h + w] == Encode(|f.body|, w) && b[w + h + w..] == f.body
  {
  }

  lemma BlockRoundTrip(b: Block, tail: Block, w: Width)
    requires SizeRepresentable(b, w)
    ensures ReadBlock(WriteBlock(b, w) + tail, w) == Got(b, tail)
  {
    var s := WriteBlock(b, w) + tail;
    assert s[..w] == Encode(|b|, w);
    DecodeEncode(|b|, w);
    assert s[w..w + |b|] == b;
    assert s[w + |b|..] == tail;
  }

  lemma FrameRoundTrip(f: Frame, tail: Block, w: Width)
    requires Sendable(f, w)
    ensures ReadFrame(WriteFrame(f, w) + tail, w) == Got(f, tail)
  {
    assert WriteFrame(f, w) + tail == WriteBlock(f.header, w) + (WriteBlock(f.body, w) + tail);
    BlockRoundTrip(f.header, WriteBlock(f.body, w) + tail, w);
    BlockRoundTrip(f.body, tail, w);
  }

  lemma ReadAllCons(f: Frame, tail: Block, w: Width)
    requires Sendable(f, w)
    ensures ReadAll(WriteFrame(f, w) + tail, w) == Stream([f] + ReadAll(tail, w).frames, ReadAll(tail, w).rest)
  {
    FrameRoundTrip(f, tail, w);
  }

  lemma WriteAllCons(fs: seq<Frame>, tail: Block, w: Width)
    requires fs != []
    ensures WriteAll(fs, w) + tail == WriteFrame(fs[0], w) + (WriteAll(fs[1..], w) + tail)
  {
  }

  /** Reading the concatenation of any frames yields exactly these frames, whatever follows them. */
  lemma {:induction false} StreamRoundTrip(fs: seq<Frame>, tail: Block, w: Width)
    requires forall i :: 0 <= i < |fs| ==> Sendable(fs[i], w)
    ensures ReadAll(WriteAll(fs, w) + tail, w) == Stream(fs + ReadAll(tail, w).frames, ReadAll(tail, w).rest)
  {
    var after := ReadAll(tail, w);
    if fs == [] {
      assert WriteAll(fs, w) + tail == tail;
      assert fs + after.frames == after.frames;
    } else {
      StreamRoundTrip(fs[1..], tail, w);
      WriteAllCons(fs, tail, w);
      ReadAllCons(fs[0], WriteAll(fs[1..], w) + tail, w);
      Concat3([fs[0]], fs[1..], after.frames);
      assert [fs[0]] + fs[1..] == fs;
    }
  }

  lemma BlockInverse(s: Block, w: Width)
    requires ReadBlock(s, w).Got?
    ensures SizeRepresentable(ReadBlock(s, w).value, w)
    ensures s == WriteBlock(ReadBlock(s, w).value, w) + ReadBlock(s, w).rest
  {
    var n := Decode(s[..w]);
    EncodeDecode(s[..w]);
    assert s == s[..w] + s[w..w + n] + s[w + n..];
  }

  lemma FrameInverse(s: Block, w: Width)
    requires ReadFrame(s, w).Got?
    ensures Sendable(ReadFrame(s, w).value, w)
    ensures s == WriteFrame(ReadFrame(s, w).value, w) + ReadFrame(s, w).rest
  {
    BlockInverse(s, w);
    BlockInverse(ReadBlock(s, w).rest, w);
    var f, rest := ReadFrame(s, w).value, ReadFrame(s, w).rest;
    assert WriteBlock(f.header, w) + (WriteBlock(f.body, w) + rest) == WriteFrame(f, w) + rest;
  }

  /** The other direction, for any bytes: what is read, written again, is what was there. */
  lemma {:induction false} StreamInverse(s: Block, w: Width)
    ensures s == WriteAll(ReadAll(s, w).frames, w) + ReadAll(s, w).rest
    ensures ReadFrame(ReadAll(s, w).rest, w).Short?
    ensures forall i :: 0 <= i < |ReadAll(s, w).frames| ==> Sendable(ReadAll(s, w).frames[i], w)
    decreases |s|
  {
    if ReadFrame(s, w).Got? {
      var f, rest := ReadFrame(s, w).value, ReadFrame(s, w).rest;
      StreamInverse(rest, w);
      FrameInverse(s, w);
      var more := ReadAll(rest, w);
      assert ([f] + more.frames)[1..] == more.frames;
      assert WriteFrame(f, w) + (WriteAll(more.frames, w) + more.rest) == WriteAll([f] + more.frames, w) + more.rest;
    }
  }

  /** No frame is a proper prefix of another, and no frame has two readings. */
  lemma PrefixFree(f: Frame, g: Frame, tail: Block, w: Width)
    requires Sendable(f, w) && Sendable(g, w) && WriteFrame(f, w) + tail == WriteFrame(g, w)
    ensures f == g && tail == []
  {
    FrameRoundTrip(f, tail, w);
    FrameRoundTrip(g, [], w);
    assert WriteFrame(g, w) + [] == WriteFrame(g, w);
  }

  lemma ReadAllWritten(fs: seq<Frame>, w: Width)
    requires forall i :: 0 <= i < |fs| ==> Sendable(fs[i], w)
    ensures ReadAll(WriteAll(fs, w), w) == Stream(fs, [])
  {
    StreamRoundTrip(fs, [], w);
    assert WriteAll(fs, w) + [] == WriteAll(fs, w);
    assert fs + [] == fs;
  }

  /**
   * However the stream is cut into pieces on its way: reading what has arrived, and later the
   * left-over with the next piece, gives the same frames as reading everything at once.
   */
  lemma Chunking(a: Block, b: Block, w: Width)
    ensures var first := ReadAll(a, w);
      ReadAll(a + b, w) == Stream(first.frames + ReadAll(first.rest + b, w).frames, ReadAll(first.rest + b, w).rest)
  {
    var first := ReadAll(a, w);
    StreamInverse(a, w);
    Concat3(WriteAll(first.frames, w), first.rest, b);
    assert a + b == WriteAll(first.frames, w) + (first.rest + b);
    StreamRoundTrip(first.frames, first.rest + b, w);
  }

  // ---------------------------------------------------------------------------------------
  // The receiving end of a socket
  // ---------------------------------------------------------------------------------------

  type PromiseId = nat

  datatype Resolved = Resolved(promise: PromiseId, frame: Frame)

  /**
   * Frames handed out one after the other: the i-th goes to the i-th waiting promise, and those
   * without a promise are posted again in their order.
   */
  ghost predicate HandedOut(waiting: seq<PromiseId>, log: seq<Resolved>, posted: seq<Frame>, fs: seq<Frame>,
                            waiting': seq<PromiseId>, log': seq<Resolved>, posted': seq<Frame>) {
    var k := if |waiting| <= |fs| then |waiting| else |fs|;
    && waiting' == waiting[k..] && posted' == posted + fs[k..]
    && log <= log' && |log'| == |log| + k
    && forall i :: 0 <= i < k ==> log'[|log| + i] == Resolved(waiting[i], fs[i])
  }

  lemma HandedOutNone(waiting: seq<PromiseId>, log: seq<Resolved>, posted: seq<Frame>)
    ensures HandedOut(waiting, log, posted, [], waiting, log, posted)
  {
  }

  lemma HandedOutSnoc(waiting: seq<PromiseId>, log: seq<Resolved>, posted: seq<Frame>, fs: seq<Frame>, f: Frame,
                      ps: seq<PromiseId>, rs: seq<Resolved>, posts: seq<Frame>,
                      ps': seq<PromiseId>, rs': seq<Resolved>, posts': seq<Frame>)
    requires HandedOut(waiting, log, posted, fs, ps, rs, posts)
    requires ps != [] ==> ps' == ps[1..] && posts' == posts && rs' == rs + [Resolved(ps[0], f)]
    requires ps == [] ==> ps' == [] && posts' == posts + [f] && rs' == rs
    ensures HandedOut(waiting, log, posted, fs + [f], ps', rs', posts')
  {
    var k := if |waiting| <= |fs| then |waiting| else |fs|;
    if ps == [] {
      assert (fs + [f])[k..] == fs[k..] + [f];
    } else {
      assert (fs + [f])[k + 1..] == [] && fs[k..] == [];
    }
  }

  lemma HandedOutConcat(waiting: seq<PromiseId>, log: seq<Resolved>, posted: seq<Frame>, fs: seq<Frame>, gs: seq<Frame>,
                        ps: seq<PromiseId>, rs: seq<Resolved>, posts: seq<Frame>,
                        ps': seq<PromiseId>, rs': seq<Resolved>, posts': seq<Frame>)
    requires HandedOut(waiting, log, posted, fs, ps, rs, posts) && HandedOut(ps, rs, posts, gs, ps', rs', posts')
    ensures HandedOut(waiting, log, posted, fs + gs, ps', rs', posts')
  {
    var k := if |waiting| <= |fs| then |waiting| else |fs|;
    var m := if |ps| <= |gs| then |ps| else |gs|;
    if |waiting| <= |fs| {
      assert (fs + gs)[k..] == fs[k..] + gs;
    } else {
      assert fs[k..] == [] && (fs + gs)[k + m..] == gs[m..];
    }
    forall i | 0 <= i < k + m
      ensures rs'[|log| + i] == Resolved(waiting[i], (fs + gs)[i])
    {
      if i < k {
        assert rs'[|log| + i] == rs[|log| + i];
      } else {
        assert rs'[|rs| + (i - k)] == Resolved(ps[i - k], gs[i - k]);
      }
    }
  }

  /** The bound of the promise queue. */
  const MAX_PROMISES := 200

  /**
   * What `handle_receive` and `handle_datagram` change: the unread bytes, whether another read is
   * posted, the promises waiting in the promise queue, the datagrams reposted to the io_service
   * because no promise was waiting, and what has been handed out.
   */
  class AsioStreamingSocket {
    const w: Width
    var unread: Block
    var reading: bool
    var promises: seq<PromiseId>
    var reposted: seq<Frame>
    var resolved: seq<Resolved>

    constructor (w: Width)
      ensures this.w == w && unread == [] && reading && promises == [] && reposted == [] && resolved == []
    {
      this.w := w;
      unread, reading, promises, reposted, resolved := [], true, [], [], [];
    }

    method Arrive(bytes: Block)
      modifies this`unread
      ensures unread == old(unread) + bytes
    {
      unread := unread + bytes;
    }

    /** False while the promise queue is full, where the source waits. */
    method AsyncReceiveFrom(p: PromiseId) returns (taken: bool)
      modifies this`promises
      ensures taken <==> |old(promises)| < MAX_PROMISES
      ensures promises == if taken then old(promises) + [p] else old(promises)
    {
      taken := |promises| < MAX_PROMISES;
      if taken {
        promises := promises + [p];
      }
    }

    /** Hands a datagram to the oldest promise, or posts it again behind everything posted. */
    method HandleDatagram(f: Frame)
      modifies this`promises, this`reposted, this`resolved
      ensures old(promises) != [] ==>
                && promises == old(promises)[1..] && reposted == old(reposted)
                && resolved == old(resolved) + [Resolved(old(promises)[0], f)]
      ensures old(promises) == [] ==>
                promises == [] && reposted == old(reposted) + [f] && resolved == old(resolved)
      ensures Held(resolved, reposted) == Held(old(resolved), old(reposted)) + multiset{f}
      ensures Promises(resolved) + promises == Promises(old(resolved)) + old(promises)
    {
      if promises != [] {
        FramesSnoc(resolved, Resolved(promises[0], f));
        PromisesSnoc(resolved, Resolved(promises[0], f));
        resolved := resolved + [Resolved(promises[0], f)];
        promises := promises[1..];
      } else {
        reposted := reposted + [f];
      }
    }

    /** The io_service runs the oldest reposted datagram. */
    method RunReposted()
      requires reposted != []
      modifies this`promises, this`reposted, this`resolved
      ensures Held(resolved, reposted) == Held(old(resolved), old(reposted))
      ensures Promises(resolved) + promises == Promises(old(resolved)) + old(promises)
      ensures |resolved| + |reposted| == |old(resolved)| + |old(reposted)|
      ensures old(promises) != [] ==>
                && promises == old(promises)[1..] && reposted == old(reposted)[1..]
                && resolved == old(resolved) + [Resolved(old(promises)[0], old(reposted)[0])]
      ensures old(promises) == [] ==>
                promises == [] && reposted == old(reposted)[1..] + [old(reposted)[0]] && resolved == old(resolved)
    {
      var f := reposted[0];
      assert reposted == [f] + reposted[1..];
      reposted := reposted[1..];
      HandleDatagram(f);
    }

    /** One pass of `handle_receive`, when a whole frame has arrived. */
    method ReceiveFrame() returns (f: Frame)
      requires ReadFrame(unread, w).Got?
      modifies this
      ensures old(ReadFrame(unread, w)) == Got(f, unread)
      ensures reading == old(reading)
      ensures old(promises) != [] ==>
                && promises == old(promises)[1..] && reposted == old(reposted)
                && resolved == old(resolved) + [Resolved(old(promises)[0], f)]
      ensures old(promises) == [] ==>
                promises == [] && reposted == old(reposted) + [f] && resolved == old(resolved)
      ensures Held(resolved, reposted) == Held(old(resolved), old(reposted)) + multiset{f}
      ensures Promises(resolved) + promises == Promises(old(resolved)) + old(promises)
    {
      var r := ReadFrame(unread, w);
      f := r.value;
      HandleDatagram(f);
      unread := r.rest;
    }

    /**
     * More bytes, or an error that ends the reading. Everything that can be read is read: the
     * frames at the front of the stream go to the waiting promises one by one, in the order of both,
     * and none is lost or invented.
     */
    method HandleReceive(bytes: Block, error: bool)
      requires reading
      modifies this
      ensures reading <==> !error
      ensures error ==> unread == old(unread) && promises == old(promises)
                        && reposted == old(reposted) && resolved == old(resolved)
      ensures !error ==> unread == ReadAll(old(unread) + bytes, w).rest
      ensures !error ==> HandedOut(old(promises), old(resolved), old(reposted), ReadAll(old(unread) + bytes, w).frames,
                                   promises, resolved, reposted)
      ensures !error ==> Held(resolved, reposted)
                         == Held(old(resolved), old(reposted)) + multiset(ReadAll(old(unread) + bytes, w).frames)
      ensures Promises(resolved) + promises == Promises(old(resolved)) + old(promises)
    {
      if error {
        reading := false;
        return;
      }
      Arrive(bytes);
      ghost var taken: seq<Frame> := [];
      ghost var all := ReadAll(unread, w);
      ghost var held := Held(resolved, reposted);
      assert [] + all.frames == all.frames;
      HandedOutNone(promises, resolved, reposted);
      while ReadFrame(unread, w).Got?
        invariant reading
        invariant taken + ReadAll(unread, w).frames == all.frames && ReadAll(unread, w).rest == all.rest
        invariant HandedOut(old(promises), old(resolved), old(reposted), taken, promises, resolved, reposted)
        invariant Held(resolved, reposted) == held + multiset(taken)
        invariant Promises(resolved) + promises == Promises(old(resolved)) + old(promises)
        decreases |unread|
      {
        ghost var ps, rs, posts := promises, resolved, reposted;
        var f := ReceiveFrame();
        HandedOutSnoc(old(promises), old(resolved), old(reposted), taken, f, ps, rs, posts,
                      promises, resolved, reposted);
        HeldMore(held, taken, f);
        Concat3(taken, [f], ReadAll(unread, w).frames);
        taken := taken + [f];
      }
      assert taken + [] == taken;
    }

    /** Successive reads, however the stream was cut: as if everything had arrived at once. */
    method HandleReads(pieces: seq<Block>)
      requires reading
      modifies this
      ensures reading && unread == ReadAll(old(unread) + Joined(pieces), w).rest
      ensures HandedOut(old(promises), old(resolved), old(reposted), ReadAll(old(unread) + Joined(pieces), w).frames,
                        promises, resolved, reposted)
      decreases |pieces|
    {
      if pieces == [] {
        assert unread + [] == unread;
        HandleReceive([], false);
      } else {
        ghost var start, ps, rs, posts := unread, promises, resolved, reposted;
        HandleReceive(pieces[0], false);
        ghost var ps1, rs1, posts1 := promises, resolved, reposted;
        ghost var fs := ReadAll(start + pieces[0], w).frames;
        ghost var gs := ReadAll(unread + Joined(pieces[1..]), w).frames;
        HandleReads(pieces[1..]);
        Chunking(start + pieces[0], Joined(pieces[1..]), w);
        Concat3(start, pieces[0], Joined(pieces[1..]));
        HandedOutConcat(ps, rs, posts, fs, gs, ps1, rs1, posts1, promises, resolved, reposted);
      }
    }
  }

  function Joined(pieces: seq<Block>): Block {
    if pieces == [] then [] else pieces[0] + Joined(pieces[1..])
  }

  ghost function Frames(log: seq<Resolved>): multiset<Frame> {
    if log == [] then multiset{} else Frames(log[..|log| - 1]) + multiset{log[|log| - 1].frame}
  }

  /** The datagrams handed out or waiting for a promise. */
  ghost function Held(log: seq<Resolved>, reposted: seq<Frame>): multiset<Frame> {
    Frames(log) + multiset(reposted)
  }

  lemma HeldMore(before: multiset<Frame>, taken: seq<Frame>, f: Frame)
    ensures before + multiset(taken) + multiset{f} == before + multiset(taken + [f])
  {
  }

  ghost function Promises(log: seq<Resolved>): seq<PromiseId> {
    seq(|log|, i requires 0 <= i < |log| => log[i].promise)
  }

  lemma FramesSnoc(log: seq<Resolved>, r: Resolved)
    ensures Frames(log + [r]) == Frames(log) + multiset{r.frame}
  {
    assert (log + [r])[..|log|] == log;
  }

  lemma PromisesSnoc(log: seq<Resolved>, r: Resolved)
    ensures Promises(log + [r]) == Promises(log) + [r.promise]
  {
  }
}
