/** Messages over a transport: the composition of typed messages with each socket's framing. */
module Communicator {
  import opened Wrappers
  import opened Bytes
  import opened Tuple
  import opened Message
  import Tcp = AsioStreaming
  import Udp = AsioDatagram
  import Mpi = BoostMpi
  import Steps = MpiSteps
  import MpiTheorems

  /** The width of the `Header` structure. */
  const HEADER_WIDTH: Width := 2

  /** The header bytes that go out with a message. */
  function HeaderBytes(m: Message): Block {
    Encode(m.typeId, HEADER_WIDTH)
  }

  /** A received header and body read as a message; None where the source reads past the header. */
  function Incoming(header: Block, body: Block): Option<Message> {
    if |header| < HEADER_WIDTH then None else Some(Message(Decode(header[..HEADER_WIDTH]), body))
  }

  /** One value handed to `sendTo`. */
  datatype Sent<T> = Sent(tag: T, body: Block)

  ghost predicate Listed<T>(tags: seq<T>, s: Sent<T>) {
    ContainsType(tags, s.tag)
  }

  ghost function MessageOf<T>(tags: seq<T>, s: Sent<T>): Message
    requires Listed(tags, s)
  {
    Make(tags, s.tag, s.body)
  }

  ghost function Expected<T, F, E>(added: seq<Functor<T, F>>, s: Sent<T>, remote: E): Visit<F, E> {
    match LastFor(added, s.tag)
    case Some(f) => Called(f, s.body, remote)
    case None => NoFunction
  }

  /** The header is two bytes that read as the position of the type. */
  lemma HeaderIsIndex<T>(tags: seq<T>, s: Sent<T>)
    requires TagList(tags) && Listed(tags, s)
    ensures |HeaderBytes(MessageOf(tags, s))| == 2
    ensures Decode(HeaderBytes(MessageOf(tags, s))) < |tags| && tags[Decode(HeaderBytes(MessageOf(tags, s)))] == s.tag
  {
    IdIsIndex(tags, s.tag);
    IndexIsFirst(tags, s.tag);
    assert Pow256(2) == 0x1_0000;
    DecodeEncode(MessageOf(tags, s).typeId, HEADER_WIDTH);
  }

  /** The two header bytes carry the type id, whatever follows them. */
  lemma HeaderRoundTrip<T>(tags: seq<T>, s: Sent<T>, overrun: Block)
    requires TagList(tags) && Listed(tags, s)
    ensures Incoming(HeaderBytes(MessageOf(tags, s)) + overrun, s.body) == Some(MessageOf(tags, s))
  {
    var m := MessageOf(tags, s);
    assert (HeaderBytes(m) + overrun)[..HEADER_WIDTH] == HeaderBytes(m);
    assert Pow256(2) == 0x1_0000;
    DecodeEncode(m.typeId, HEADER_WIDTH);
  }

  /** What the receiver does with a datagram: read the message and visit it. */
  ghost function Visited<F, E>(table: seq<Option<F>>, header: Block, body: Block, remote: E): Visit<F, E> {
    match Incoming(header, body)
    case None => Undefined
    case Some(m) => Look(table, m, remote)
  }

  /** Over any transport that keeps the body and at least the first two header bytes. */
  lemma EndToEnd<T, F, E>(tags: seq<T>, table: seq<Option<F>>, added: seq<Functor<T, F>>, s: Sent<T>, overrun: Block,
                          remote: E)
    requires TagList(tags) && Listed(tags, s) && Serves(tags, table, added)
    ensures Visited(table, HeaderBytes(MessageOf(tags, s)) + overrun, s.body, remote) == Expected(added, s, remote)
  {
    HeaderRoundTrip(tags, s, overrun);
    DispatchByType(tags, table, added, s.tag, s.body, remote);
  }

  ghost function FrameOf<T>(tags: seq<T>, s: Sent<T>): Tcp.Frame
    requires Listed(tags, s)
  {
    Tcp.Frame(HeaderBytes(MessageOf(tags, s)), s.body)
  }

  ghost function FramesOf<T>(tags: seq<T>, sent: seq<Sent<T>>): seq<Tcp.Frame>
    requires forall i :: 0 <= i < |sent| ==> Listed(tags, sent[i])
  {
    seq(|sent|, i requires 0 <= i < |sent| => FrameOf(tags, sent[i]))
  }

  lemma PowerGrows(w: nat)
    requires w > 0
    ensures Pow256(w) > 2
  {
    assert Pow256(w) == 256 * Pow256(w - 1);
  }

  /**
   * Over TCP: whatever is sent one after the other over a stream is received as as many
   * datagrams in the same order, and each calls the functor registered for its type with its bytes.
   */
  lemma EndToEndTcp<T, F, E>(tags: seq<T>, table: seq<Option<F>>, added: seq<Functor<T, F>>, sent: seq<Sent<T>>,
                             w: Width, remote: E)
    requires TagList(tags) && Serves(tags, table, added)
    requires forall i :: 0 <= i < |sent| ==> Listed(tags, sent[i]) && Tcp.SizeRepresentable(sent[i].body, w)
    ensures var received := Tcp.ReadAll(Tcp.WriteAll(FramesOf(tags, sent), w), w);
      && received.rest == [] && |received.frames| == |sent|
      && forall i :: 0 <= i < |sent| ==>
           Visited(table, received.frames[i].header, received.frames[i].body, remote)
             == Expected(added, sent[i], remote)
  {
    PowerGrows(w);
    Tcp.ReadAllWritten(FramesOf(tags, sent), w);
    forall i | 0 <= i < |sent|
      ensures Visited(table, FrameOf(tags, sent[i]).header, sent[i].body, remote) == Expected(added, sent[i], remote)
    {
      EndToEnd(tags, table, added, sent[i], [], remote);
      assert HeaderBytes(MessageOf(tags, sent[i])) + [] == HeaderBytes(MessageOf(tags, sent[i]));
    }
  }

  /**
   * And through the socket, in whatever pieces the stream arrives: with enough promises waiting, the
   * i-th promise gets the i-th value sent, and calls the functor registered for its type.
   */
  method ReceiveStream<T, F, E>(socket: Tcp.AsioStreamingSocket, pieces: seq<Block>, ghost tags: seq<T>,
                                ghost table: seq<Option<F>>, ghost added: seq<Functor<T, F>>,
                                ghost sent: seq<Sent<T>>, ghost remote: E)
    requires socket.reading && socket.unread == [] && |socket.promises| >= |sent|
    requires TagList(tags) && Serves(tags, table, added)
    requires forall i :: 0 <= i < |sent| ==> Listed(tags, sent[i]) && Tcp.SizeRepresentable(sent[i].body, socket.w)
    requires Tcp.Joined(pieces) == Tcp.WriteAll(FramesOf(tags, sent), socket.w)
    modifies socket
    ensures socket.unread == [] && socket.reposted == old(socket.reposted)
    ensures socket.promises == old(socket.promises)[|sent|..]
    ensures old(socket.resolved) <= socket.resolved
    ensures |socket.resolved| == |old(socket.resolved)| + |sent|
    ensures forall i :: 0 <= i < |sent| ==>
              var r := socket.resolved[|old(socket.resolved)| + i];
              && r.promise == old(socket.promises)[i]
              && Visited(table, r.frame.header, r.frame.body, remote) == Expected(added, sent[i], remote)
  {
    ghost var waiting, log, posted := socket.promises, socket.resolved, socket.reposted;
    EndToEndTcp(tags, table, added, sent, socket.w, remote);
    assert socket.unread + Tcp.Joined(pieces) == Tcp.Joined(pieces);
    ghost var fs := Tcp.ReadAll(Tcp.Joined(pieces), socket.w).frames;
    socket.HandleReads(pieces);
    StreamServed(waiting, log, posted, fs, socket.promises, socket.resolved, socket.reposted);
    forall i | 0 <= i < |sent|
      ensures var r := socket.resolved[|log| + i];
        && r.promise == waiting[i]
        && Visited(table, r.frame.header, r.frame.body, remote) == Expected(added, sent[i], remote)
    {
      assert socket.resolved[|log| + i] == Tcp.Resolved(waiting[i], fs[i]);
    }
  }

  /** With enough promises, every frame is handed out. */
  lemma StreamServed(waiting: seq<Tcp.PromiseId>, log: seq<Tcp.Resolved>, posted: seq<Tcp.Frame>, fs: seq<Tcp.Frame>,
                     waiting': seq<Tcp.PromiseId>, log': seq<Tcp.Resolved>, posted': seq<Tcp.Frame>)
    requires |waiting| >= |fs| && Tcp.HandedOut(waiting, log, posted, fs, waiting', log', posted')
    ensures waiting' == waiting[|fs|..] && posted' == posted && log <= log' && |log'| == |log| + |fs|
    ensures forall i :: 0 <= i < |fs| ==> log'[|log| + i] == Tcp.Resolved(waiting[i], fs[i])
  {
    assert fs[|fs|..] == [];
  }

  /** Over UDP: the same for a single datagram, as long as it fits the transport and the receive buffer. */
  lemma EndToEndUdp<T, F, E>(tags: seq<T>, table: seq<Option<F>>, added: seq<Functor<T, F>>, s: Sent<T>, w: Width,
                             limit: nat, remote: E)
    requires TagList(tags) && Listed(tags, s) && Serves(tags, table, added)
    requires |s.body| + HEADER_WIDTH + w <= Udp.MAX_FRAME_SIZE && |s.body| + HEADER_WIDTH + w <= limit
    ensures var r := Udp.Carried(Udp.Datagram(HeaderBytes(MessageOf(tags, s)), s.body), w, limit);
      && r.Some? && r.value.Received?
      && Visited(table, r.value.datagram.header, r.value.datagram.body, remote) == Expected(added, s, remote)
  {
    PowerGrows(w);
    Udp.RoundTripIff(Udp.Datagram(HeaderBytes(MessageOf(tags, s)), s.body), w, limit);
    EndToEnd(tags, table, added, s, [], remote);
    assert HeaderBytes(MessageOf(tags, s)) + [] == HeaderBytes(MessageOf(tags, s));
  }

  /** The letter an `asyncSendTo` of this value hands to MPI. */
  ghost function LetterOf<T>(tags: seq<T>, s: Sent<T>, sender: Mpi.Tag): Mpi.Letter
    requires Listed(tags, s)
  {
    Mpi.Letter(sender, HeaderBytes(MessageOf(tags, s)), s.body)
  }

  /** A header that is too long at its end still calls the right functor. */
  lemma LongHeader<T, F, E>(tags: seq<T>, table: seq<Option<F>>, added: seq<Functor<T, F>>, s: Sent<T>, header: Block,
                            remote: E)
    requires TagList(tags) && Listed(tags, s) && Serves(tags, table, added)
    requires HeaderBytes(MessageOf(tags, s)) <= header
    ensures Visited(table, header, s.body, remote) == Expected(added, s, remote)
  {
    var prefix := HeaderBytes(MessageOf(tags, s));
    EndToEnd(tags, table, added, s, header[|prefix|..], remote);
    assert prefix + header[|prefix|..] == header;
  }

  /**
   * Over MPI, in every reachable state of any number of processes: if the letters on a channel came
   * from listed values, sent by any sockets of its source, then the k-th datagram a process resolved,
   * unless it crosses two letters, calls the functor for the value sent in the same place, with that
   * value's bytes; it names the sending socket's tag, and the source's rank exactly if the header's
   * request did not complete in an earlier pass than the body's.
   */
  lemma EndToEndMpi<T, F>(tags: seq<T>, table: seq<Option<F>>, added: seq<Functor<T, F>>, world: Steps.World,
                          dst: Mpi.Rank, k: nat, sent: seq<Sent<T>>, senders: seq<Mpi.Tag>)
    requires TagList(tags) && Serves(tags, table, added)
    requires Steps.Reachable(world) && dst in world
    requires k < |world[dst].resolved| && world[dst].resolved[k].datagram.Some?
    requires MpiTheorems.Aligned(world[dst].resolved[k].pending.pair)
    requires |senders| == |sent| && forall i :: 0 <= i < |sent| ==> Listed(tags, sent[i])
    requires var c := world[dst].resolved[k].pending.pair.channel;
      c.source in world ==>
        Steps.LettersTo(world[c.source].asked, Mpi.Endpoint(dst, c.tag))
          == seq(|sent|, i requires 0 <= i < |sent| => LetterOf(tags, sent[i], senders[i]))
    ensures var r := world[dst].resolved[k];
      var d := r.datagram.value;
      var i := MpiTheorems.LetterIndex(world[dst], k);
      && i < |sent|
      && Visited(table, d.header, d.body, d.remote) == Expected(added, sent[i], d.remote)
      && d.remote.tag == senders[i]
      && Mpi.Complete(r.pending)
      && (d.remote.rank == r.pending.pair.channel.source <==> r.pending.bodyAt.value <= r.pending.headerAt.value)
  {
    MpiTheorems.ResolvedIsLetter(world, dst, k);
    MpiTheorems.RankIff(world, dst, k);
    var d := world[dst].resolved[k].datagram.value;
    LongHeader(tags, table, added, sent[MpiTheorems.LetterIndex(world[dst], k)], d.header, d.remote);
  }

  /** `receive<U>` returns the value exactly when `U` is the type that was sent. */
  lemma TypedReceiveIff<T>(tags: seq<T>, s: Sent<T>, u: T, overrun: Block)
    requires TagList(tags) && Listed(tags, s) && ContainsType(tags, u)
    ensures Incoming(HeaderBytes(MessageOf(tags, s)) + overrun, s.body).Some?
    ensures Cast(tags, Incoming(HeaderBytes(MessageOf(tags, s)) + overrun, s.body).value, u)
         == if u == s.tag then Some(s.body) else None
  {
    HeaderRoundTrip(tags, s, overrun);
    CastIff(tags, s.tag, u, s.body);
  }

  /** The receiving side with a visitor: notes the sender, then dispatches. */
  method Receive<T, F, E(0)>(visitor: Visitor<T, F, E>, header: Block, body: Block, remote: E) returns (r: Visit<F, E>)
    modifies visitor`remote
    ensures r == Visited(visitor.functions[..], header, body, remote)
    ensures visitor.remote == remote
    ensures |header| < 2 ==> r == Undefined
  {
    visitor.remote := remote;
    if |header| < HEADER_WIDTH {
      return Undefined;
    }
    r := visitor.VisitMessage(Message(Decode(header[..HEADER_WIDTH]), body));
  }
}
