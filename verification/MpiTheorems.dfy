/** What the MPI event loops guarantee, for any number of processes. */
module MpiTheorems {
  import opened Sequences
  import opened Bytes
  import opened BoostMpi
  import opened MpiSteps

  // ---------------------------------------------------------------------------------------
  // What the event loops guarantee
  // ---------------------------------------------------------------------------------------

  /** Each flag says exactly whether its tracker is posted, once, and whatever waits has its flag up. */
  lemma FlagsExact(w: World, r: Rank)
    requires Reachable(w) && r in w
    ensures var p := w[r];
      && multiset(p.tasks)[TrackAsyncSend] == (if p.sendRunning then 1 else 0)
      && multiset(p.tasks)[TrackAsyncReceive] == (if p.receiveRunning then 1 else 0)
      && multiset(p.tasks)[TrackAsyncProbe] == (if p.probeRunning then 1 else 0)
      && (p.sends != [] ==> p.sendRunning)
      && (p.receives != [] ==> p.receiveRunning)
      && (forall t :: t in p.probes ==> p.probes[t] != [] && p.probeRunning)
  {
    ReachableProc(w, r);
  }

  /** So an event loop with nothing posted has nothing pending, also after endpoints were closed. */
  lemma IdleMeansDone(w: World, r: Rank)
    requires Reachable(w) && r in w && w[r].tasks == []
    ensures w[r].sends == [] && w[r].receives == [] && w[r].probes == map[]
  {
    ReachableProc(w, r);
    assert multiset(w[r].tasks)[TrackAsyncProbe] == 0;
    assert multiset(w[r].tasks)[TrackAsyncSend] == 0;
    assert multiset(w[r].tasks)[TrackAsyncReceive] == 0;
  }

  /** In how many places a receive promise of a tag is: posted, probing, pending, resolved, failed or dropped. */
  function Places(p: Proc, t: Tag, id: PromiseId): nat {
    multiset(PostedIds(p.tasks, t))[id]
    + multiset(ProbesOf(p, t))[id]
    + multiset(MatchedIds(PendingPairs(p.receives), t))[id]
    + multiset(MatchedIds(ResolvedPairs(p.resolved), t))[id]
    + (if id in p.failed then 1 else 0)
    + if id in p.dropped then 1 else 0
  }

  lemma {:induction false} MatchedConcat(a: seq<Pair>, b: seq<Pair>, t: Tag)
    ensures MatchedIds(a + b, t) == MatchedIds(a, t) + MatchedIds(b, t)
  {
    if b == [] {
      assert a + b == a;
    } else {
      var n := |b| - 1;
      MatchedConcat(a, b[..n], t);
      assert a + b == (a + b[..n]) + [b[n]];
      MatchedSnoc(a + b[..n], b[n], t);
      Concat3(MatchedIds(a, t), MatchedIds(b[..n], t), if b[n].channel.tag == t then [b[n].promise] else []);
    }
  }

  lemma {:induction false} IncreasingOnce(s: seq<nat>, x: nat)
    requires Increasing(s)
    ensures multiset(s)[x] == if x in s then 1 else 0
  {
    if s != [] {
      var n := |s| - 1;
      IncreasingOnce(s[..n], x);
      MultisetLast(s);
      assert s == s[..n] + [s[n]];
    }
  }

  /**
   * Conservation: every receive promise is in exactly one place for the tag it was asked for,
   * and nowhere for any other tag; so it is resolved at most once.
   */
  lemma PromiseInOnePlace(w: World, r: Rank, t: Tag, id: PromiseId)
    requires Reachable(w) && r in w && id < |w[r].issued| && w[r].issued[id] == t
    ensures Places(w[r], t, id) == 1
  {
    var p := w[r];
    ReachableProc(w, r);
    assert LineInv(p, t);
    IncreasingOnce(Line(p, t), id);
    MatchedConcat(ResolvedPairs(p.resolved), PendingPairs(p.receives), t);
  }

  lemma NoForeignPromise(w: World, r: Rank, t: Tag, id: PromiseId)
    requires Reachable(w) && r in w && !(id < |w[r].issued| && w[r].issued[id] == t)
    ensures id !in PostedIds(w[r].tasks, t) && id !in ProbesOf(w[r], t)
    ensures id !in MatchedIds(PendingPairs(w[r].receives), t) && id !in MatchedIds(ResolvedPairs(w[r].resolved), t)
  {
    var p := w[r];
    ReachableProc(w, r);
    assert LineInv(p, t);
    MatchedConcat(ResolvedPairs(p.resolved), PendingPairs(p.receives), t);
    assert id !in Line(p, t);
  }

  /** Promises of one endpoint are resolved in the order they were made. */
  lemma PromiseOrder(w: World, r: Rank, t: Tag)
    requires Reachable(w) && r in w
    ensures Increasing(MatchedIds(ResolvedPairs(w[r].resolved), t))
  {
    var p := w[r];
    ReachableProc(w, r);
    assert LineInv(p, t);
    MatchedConcat(ResolvedPairs(p.resolved), PendingPairs(p.receives), t);
    var ids := MatchedIds(ResolvedPairs(p.resolved), t);
    assert forall i :: 0 <= i < |ids| ==> Line(p, t)[i] == ids[i];
  }

  /** Send promises are resolved in the order of posting, each at most once. */
  lemma SendOrder(w: World, r: Rank)
    requires Reachable(w) && r in w
    ensures |w[r].resolvedSends| <= |w[r].asked|
    ensures forall i :: 0 <= i < |w[r].resolvedSends| ==> w[r].resolvedSends[i].promise == i
    ensures forall i :: 0 <= i < |w[r].sends| ==> w[r].sends[i] == |w[r].resolvedSends| + i
  {
    var p := w[r];
    ReachableProc(w, r);
    var all := ResolvedSendIds(p.resolvedSends) + p.sends + PostedSendIds(p.tasks);
    assert forall i :: 0 <= i < |p.resolvedSends| ==> all[i] == p.resolvedSends[i].promise;
    assert forall i :: 0 <= i < |p.sends| ==> all[|p.resolvedSends| + i] == p.sends[i];
  }

  lemma {:induction false} LettersConcat(a: seq<Sent>, b: seq<Sent>, e: Endpoint)
    ensures LettersTo(a + b, e) == LettersTo(a, e) + LettersTo(b, e)
  {
    if b == [] {
      assert a + b == a;
    } else {
      var n := |b| - 1;
      LettersConcat(a, b[..n], e);
      assert a + b == (a + b[..n]) + [b[n]];
      LettersSnoc(a + b[..n], b[n], e);
      Concat3(LettersTo(a, e), LettersTo(b[..n], e), if b[n].remote == e then [b[n].letter] else []);
    }
  }

  /** The letters handed to MPI for an endpoint are, in order, the first of those `asyncSendTo` was called with. */
  lemma SentInCallOrder(w: World, src: Rank, e: Endpoint)
    requires Reachable(w) && src in w
    ensures w[src].sent + PostedLetters(w[src].tasks) == w[src].asked
    ensures LettersTo(w[src].sent, e) + LettersTo(PostedLetters(w[src].tasks), e) == LettersTo(w[src].asked, e)
  {
    ReachableProc(w, src);
    LettersConcat(w[src].sent, PostedLetters(w[src].tasks), e);
  }

  /** The pair is the header and the body of one letter, or crosses from one letter to the next. */
  predicate Aligned(m: Pair) {
    m.skipped % 2 == 0
  }

  predicate Crosses(m: Pair, l: Letter, next: Letter) {
    m.header == l.body && m.body == WireHeader(next)
  }

  /** A pair lies among the messages of one letter, or across two. */
  predicate Within(m: Pair, i: nat, letters: seq<Letter>) {
    && i < |letters|
    && (Aligned(m) ==> Carries(m, letters[i]))
    && (!Aligned(m) ==> i + 1 < |letters| && Crosses(m, letters[i], letters[i + 1]))
  }

  lemma PairAmong(m: Pair, j: nat, letters: seq<Letter>, strays: nat)
    requires PairAt(m, j, Messages(letters), strays)
    ensures Within(m, Position(m, j) / 2, letters)
  {
    var i := Position(m, j) / 2;
    Halves(m, j);
    MessagesLength(letters);
    PairFrom(m, j, i, Messages(letters), |letters|, strays);
    MessagesAt(letters, i);
    if !Aligned(m) {
      MessagesAt(letters, i + 1);
    }
  }

  lemma PairFrom(m: Pair, j: nat, i: nat, stream: seq<Block>, n: nat, strays: nat)
    requires PairAt(m, j, stream, strays) && |stream| == 2 * n
    requires Position(m, j) == 2 * i + if Aligned(m) then 0 else 1
    ensures i < n
    ensures Aligned(m) ==> m.header == stream[2 * i] && m.body == stream[2 * i + 1]
    ensures !Aligned(m) ==> i + 1 < n && m.header == stream[2 * i + 1] && m.body == stream[2 * (i + 1)]
  {
  }

  lemma Halves(m: Pair, j: nat)
    ensures Position(m, j) == 2 * (Position(m, j) / 2) + if Aligned(m) then 0 else 1
  {
  }

  /**
   * Pairing and order: on every channel the pairs are, one after the other, two messages in a row
   * of those its source sent, and what was not received is still to be matched. With an even number
   * of headers received for nothing before it, the j-th pair is one letter's header and body; with
   * an odd number it is a letter's body and the next letter's header.
   */
  lemma PairsInStream(w: World, src: Rank, dst: Rank, t: Tag)
    requires Reachable(w) && src in w && dst in w
    ensures var letters := LettersTo(w[src].sent, Endpoint(dst, t));
      var pairs := OnChannel(Matched(w[dst]), Channel(src, t));
      && TakenFrom(w[dst], Channel(src, t)) <= |Messages(letters)| == 2 * |letters|
      && InboxOf(w[dst], Channel(src, t)) == Messages(letters)[TakenFrom(w[dst], Channel(src, t))..]
      && forall j :: 0 <= j < |pairs| ==>
           Within(pairs[j], Position(pairs[j], j) / 2, letters)
  {
    ReachableProc(w, dst);
    assert LettersAt(w, src, dst, t);
    var c := Channel(src, t);
    assert ChannelInv(w[dst], c);
    var pairs, letters := OnChannel(Matched(w[dst]), c), ArrivedOn(w[dst], c);
    MessagesLength(letters);
    forall j | 0 <= j < |pairs|
      ensures Within(pairs[j], Position(pairs[j], j) / 2, letters)
    {
      assert PairAt(pairs[j], j, Messages(letters), StraysOn(w[dst], c));
      PairAmong(pairs[j], j, letters, StraysOn(w[dst], c));
    }
  }

  /**
   * So on a channel on which no probe failed after its header, the pairs are the letters its
   * source sent, one by one. An endpoint's datagrams are an interleaving of its sources' sequences.
   */
  lemma PairsAreLetters(w: World, src: Rank, dst: Rank, t: Tag)
    requires Reachable(w) && src in w && dst in w && StraysOn(w[dst], Channel(src, t)) == 0
    ensures var letters := LettersTo(w[src].sent, Endpoint(dst, t));
      var pairs := OnChannel(Matched(w[dst]), Channel(src, t));
      && |pairs| <= |letters|
      && (forall j :: 0 <= j < |pairs| ==> Carries(pairs[j], letters[j]))
      && InboxOf(w[dst], Channel(src, t)) == Messages(letters[|pairs|..])
  {
    ReachableProc(w, dst);
    var c := Channel(src, t);
    assert ChannelInv(w[dst], c);
    var pairs, letters := OnChannel(Matched(w[dst]), c), LettersTo(w[src].sent, Endpoint(dst, t));
    assert LettersAt(w, src, dst, t);
    forall j | 0 <= j < |pairs|
      ensures j < |letters| && Carries(pairs[j], letters[j])
    {
      assert PairAt(pairs[j], j, Messages(letters), 0);
      AlignedInStep(pairs[j], j);
      PairAmong(pairs[j], j, letters, 0);
    }
    MessagesLength(letters);
    MessagesFrom(letters, |pairs|);
  }

  lemma AlignedInStep(m: Pair, j: nat)
    requires m.skipped == 0
    ensures Aligned(m) && Position(m, j) / 2 == j
  {
  }

  lemma {:induction false} MessagesFrom(ls: seq<Letter>, k: nat)
    requires k <= |ls|
    ensures 2 * k <= |Messages(ls)| && Messages(ls)[2 * k..] == Messages(ls[k..])
  {
    if k > 0 {
      MessagesFrom(ls[1..], k - 1);
      assert ls[1..][k - 1..] == ls[k..];
      assert Messages(ls)[2 * k..] == Messages(ls[1..])[2 * (k - 1)..];
    } else {
      assert ls[0..] == ls;
    }
  }

  lemma {:induction false} OnChannelConcat(a: seq<Pair>, b: seq<Pair>, c: Channel)
    ensures OnChannel(a + b, c) == OnChannel(a, c) + OnChannel(b, c)
  {
    if b == [] {
      assert a + b == a;
    } else {
      var n := |b| - 1;
      OnChannelConcat(a, b[..n], c);
      assert a + b == (a + b[..n]) + [b[n]];
      OnChannelSnoc(a + b[..n], b[n], c);
      Concat3(OnChannel(a, c), OnChannel(b[..n], c), if b[n].channel == c then [b[n]] else []);
    }
  }

  lemma HeaderOfLetter(l: Letter)
    ensures Decode(WireHeader(l)[..TAG_WIDTH]) == l.sender && WireHeader(l)[TAG_WIDTH..] == l.custom
  {
    assert WireHeader(l)[..TAG_WIDTH] == Encode(l.sender, TAG_WIDTH);
    FourBytes();
    DecodeEncode(l.sender, TAG_WIDTH);
  }

  lemma FourBytes()
    ensures Pow256(TAG_WIDTH) == 0x1_0000_0000
  {
    assert Pow256(0) == 1;
    assert Pow256(1) == 0x100;
    assert Pow256(2) == 0x1_0000;
    assert Pow256(3) == 0x100_0000;
  }

  lemma FaithfulLetter(r: Resolution, l: Letter)
    requires Faithful(r) && Carries(r.pending.pair, l) && r.datagram.Some?
    ensures var d := r.datagram.value;
      && d.body == l.body && d.remote.tag == l.sender
      && l.custom <= d.header && |d.header| == |l.custom| + TAG_WIDTH
  {
    HeaderOfLetter(l);
  }

  /** A resolved pair is found among all pairs of its channel at the number of earlier ones. */
  lemma ResolvedPair(p: Proc, k: nat)
    requires k < |p.resolved|
    ensures var m := p.resolved[k].pending.pair;
      var j := |OnChannel(ResolvedPairs(p.resolved)[..k], m.channel)|;
      && j < |OnChannel(Matched(p), m.channel)|
      && OnChannel(Matched(p), m.channel)[j] == m
  {
    var m := p.resolved[k].pending.pair;
    var all := ResolvedPairs(p.resolved);
    assert all == all[..k] + [m] + all[k + 1..];
    OnChannelConcat(all[..k] + [m], all[k + 1..], m.channel);
    OnChannelSnoc(all[..k], m, m.channel);
    OnChannelConcat(all, PendingPairs(p.receives), m.channel);
  }

  /** Which letter of its channel's source a resolved pair belongs to. */
  function LetterIndex(p: Proc, k: nat): nat
    requires k < |p.resolved|
  {
    var m := p.resolved[k].pending.pair;
    Position(m, |OnChannel(ResolvedPairs(p.resolved)[..k], m.channel)|) / 2
  }

  /**
   * A datagram resolved in step with its channel is one letter its source was asked to send: the
   * body is the letter's, the tag is the sending endpoint's, and the header starts with the
   * letter's custom header; it is always four bytes too long.
   */
  lemma ResolvedIsLetter(w: World, dst: Rank, k: nat)
    requires Reachable(w) && dst in w && k < |w[dst].resolved| && w[dst].resolved[k].datagram.Some?
    requires Aligned(w[dst].resolved[k].pending.pair)
    ensures var c := w[dst].resolved[k].pending.pair.channel;
      var d := w[dst].resolved[k].datagram.value;
      c.source in w &&
      var letters := LettersTo(w[c.source].asked, Endpoint(dst, c.tag));
      var i := LetterIndex(w[dst], k);
      && i < |letters|
      && d.body == letters[i].body
      && d.remote.tag == letters[i].sender
      && letters[i].custom <= d.header && |d.header| == |letters[i].custom| + TAG_WIDTH
  {
    var p := w[dst];
    var m := p.resolved[k].pending.pair;
    ReachableProc(w, dst);
    assert LettersAt(w, m.channel.source, dst, m.channel.tag);
    assert ChannelInv(p, m.channel);
    ResolvedPair(p, k);
    var j := |OnChannel(ResolvedPairs(p.resolved)[..k], m.channel)|;
    var arrived := ArrivedOn(p, m.channel);
    assert PairAt(m, j, Messages(arrived), StraysOn(p, m.channel));
    PairAmong(m, j, arrived, StraysOn(p, m.channel));
    SentInCallOrder(w, m.channel.source, Endpoint(dst, m.channel.tag));
    FaithfulLetter(p.resolved[k], arrived[LetterIndex(p, k)]);
  }

  /**
   * A datagram resolved out of step with its channel mixes two letters its source was asked to send:
   * the body is the next letter's header, and the header is what follows four bytes of a letter's
   * body, with four bytes more.
   */
  lemma ResolvedCrosses(w: World, dst: Rank, k: nat)
    requires Reachable(w) && dst in w && k < |w[dst].resolved| && w[dst].resolved[k].datagram.Some?
    requires !Aligned(w[dst].resolved[k].pending.pair)
    ensures var c := w[dst].resolved[k].pending.pair.channel;
      var d := w[dst].resolved[k].datagram.value;
      c.source in w &&
      var letters := LettersTo(w[c.source].asked, Endpoint(dst, c.tag));
      var i := LetterIndex(w[dst], k);
      && i + 1 < |letters|
      && d.body == WireHeader(letters[i + 1])
      && |d.header| == |letters[i].body|
      && (|letters[i].body| >= TAG_WIDTH ==>
            && letters[i].body[TAG_WIDTH..] <= d.header
            && d.remote.tag == Signed(Decode(letters[i].body[..TAG_WIDTH])))
  {
    var p := w[dst];
    var m := p.resolved[k].pending.pair;
    ReachableProc(w, dst);
    assert LettersAt(w, m.channel.source, dst, m.channel.tag);
    assert ChannelInv(p, m.channel);
    ResolvedPair(p, k);
    var j := |OnChannel(ResolvedPairs(p.resolved)[..k], m.channel)|;
    var arrived := ArrivedOn(p, m.channel);
    assert PairAt(m, j, Messages(arrived), StraysOn(p, m.channel));
    PairAmong(m, j, arrived, StraysOn(p, m.channel));
    SentInCallOrder(w, m.channel.source, Endpoint(dst, m.channel.tag));
    assert Faithful(p.resolved[k]);
  }

  // ---------------------------------------------------------------------------------------
  // Every step does what MPI answered
  // ---------------------------------------------------------------------------------------

  /** A process that is not the one that moves keeps its promises and their outcomes. */
  ghost predicate SameOutcomes(p: Proc, q: Proc) {
    && q.sends == p.sends && q.resolvedSends == p.resolvedSends
    && q.receives == p.receives && q.resolved == p.resolved
    && q.probes == p.probes && q.failed == p.failed && q.dropped == p.dropped
  }

  lemma OthersUntouched(w: World, a: Action, r: Rank)
    requires Enabled(w, a) && r in w && r != a.rank
    ensures r in Apply(w, a) && SameOutcomes(w[r], Apply(w, a)[r])
  {
  }

  lemma SendsSettle(p: Proc, done: seq<bool>)
    ensures var q := TrackSends(p, done);
      SendOutcome(p.sends, p.resolvedSends, done, q.sends, q.resolvedSends)
  {
    SendOutcomes(p, done);
  }

  /** In a step of the send tracker each send promise gets what its own test said. */
  lemma SendStep(w: World, a: Action)
    requires Enabled(w, a) && a.Run? && w[a.rank].tasks[0] == TrackAsyncSend
    ensures var p, q := w[a.rank], Apply(w, a)[a.rank];
      SendOutcome(p.sends, p.resolvedSends, a.sends, q.sends, q.resolvedSends)
  {
    SendsSettle(w[a.rank].(tasks := w[a.rank].tasks[1..]), a.sends);
  }

  /** In no other step is a send settled. */
  lemma OtherStep(w: World, a: Action)
    requires Enabled(w, a) && !(a.Run? && w[a.rank].tasks[0] == TrackAsyncSend)
    ensures a.rank in Apply(w, a)
    ensures var p, q := w[a.rank], Apply(w, a)[a.rank];
      q.resolvedSends == p.resolvedSends && p.sends <= q.sends
  {
    if a.Run? {
      RunSettles(w[a.rank], a.sends, a.receives, a.answers);
    }
  }

  lemma RunSettles(p: Proc, sends: seq<bool>, receives: seq<Tested>, answers: seq<Answer>)
    requires p.tasks != [] && p.tasks[0] != TrackAsyncSend
    ensures var q := RunTask(p, sends, receives, answers);
      q.resolvedSends == p.resolvedSends && p.sends <= q.sends
  {
    var h := p.(tasks := p.tasks[1..]);
    if p.tasks[0].TrackAsyncReceive? {
      TrackReceivesSettled(h, receives);
    } else if p.tasks[0].TrackAsyncProbe? {
      TrackProbesSettled(h, answers);
    }
  }

  lemma TrackReceivesSettled(h: Proc, tests: seq<Tested>)
    ensures SameSettled(h, TrackReceives(h, tests))
  {
    ReceivesKeepSends(h, tests);
  }

  lemma TrackProbesSettled(h: Proc, answers: seq<Answer>)
    ensures SameSettled(h, TrackProbes(h, answers))
  {
    ProbesKeepSends(h, h.probes.Keys, answers);
  }

  lemma {:induction false} ReceivesKeepSends(p: Proc, tests: seq<Tested>)
    ensures SettleReceives(p, tests).sends == p.sends && SettleReceives(p, tests).resolvedSends == p.resolvedSends
    decreases |tests|
  {
    if p.receives != [] && tests != [] && Ends(p.receives[0], tests[0]) {
      FrontEnds(p, tests);
      ReceivesKeepSends(p.(receives := p.receives[1..], resolved := p.resolved + [EndOf(p, tests[0])]), tests[1..]);
    }
  }

  ghost predicate SameSettled(p: Proc, q: Proc) {
    q.sends == p.sends && q.resolvedSends == p.resolvedSends
  }

  lemma {:induction false} ProbeKeepsSends(p: Proc, t: Tag, answers: seq<Answer>)
    ensures SameSettled(p, ProbeTag(p, t, answers).proc)
    decreases |answers|
  {
    if ProbesOf(p, t) != [] && answers != [] && !Stops(p, t, answers[0]) {
      var m := if answers[0].Found? then Match(p, Channel(answers[0].source, t))
               else FailFront(if answers[0].Threw? then p else Stray(p, Channel(answers[0].source, t)), t);
      ProbeKeepsSends(m, t, answers[1..]);
    }
  }

  lemma {:induction false} ProbesKeepSends(p: Proc, tags: set<Tag>, answers: seq<Answer>)
    ensures SameSettled(p, ProbeTags(p, tags, answers))
    decreases tags
  {
    if tags != {} {
      var t: Tag := Least(tags);
      ProbeKeepsSends(p, t, answers);
      var r := ProbeTag(p, t, answers);
      ProbesKeepSends(r.proc, tags - {t}, r.answers);
    }
  }

  /** In a step of the receive tracker the front pairs end as their own tests said. */
  lemma ReceiveStep(w: World, a: Action) returns (ends: seq<Resolution>)
    requires Enabled(w, a) && a.Run? && w[a.rank].tasks[0] == TrackAsyncReceive
    ensures var p, q := w[a.rank], Apply(w, a)[a.rank];
      q.resolved == p.resolved + ends && PassOutcome(p.receives, a.receives, q.receives, ends)
  {
    ends := ReceiveOutcomes(w[a.rank].(tasks := w[a.rank].tasks[1..]), a.receives);
  }

  /** In a step of the probe tracker every tag has its turn, in key order, with its own answers. */
  lemma ProbeStep(w: World, a: Action) returns (vs: seq<Visit>, q: Proc)
    requires Enabled(w, a) && a.Run? && w[a.rank].tasks[0] == TrackAsyncProbe
    ensures var p, p' := w[a.rank], Apply(w, a)[a.rank];
      && Visits(vs, p.(tasks := p.tasks[1..]), q, p.probes.Keys, a.answers)
      && SameProbes(p', q)
  {
    vs, q := ProbesVisit(w[a.rank].(tasks := w[a.rank].tasks[1..]), a.answers);
  }

  /** What a process keeps of its probes when a pass is over. */
  ghost predicate SameProbes(p: Proc, q: Proc) {
    && p.receives == q.receives && p.failed == q.failed && p.inbox == q.inbox
    && forall t :: ProbesOf(p, t) == ProbesOf(q, t)
  }

  lemma ProbesVisit(h: Proc, answers: seq<Answer>) returns (vs: seq<Visit>, q: Proc)
    ensures Visits(vs, h, q, h.probes.Keys, answers)
    ensures SameProbes(TrackProbes(h, answers), q)
  {
    vs := PassVisits(h, h.probes.Keys, answers);
    q := ProbeTags(h, h.probes.Keys, answers);
    ProbesEnd(h, q, answers);
  }

  lemma ProbesEnd(h: Proc, q: Proc, answers: seq<Answer>)
    requires q == ProbeTags(h, h.probes.Keys, answers)
    ensures SameProbes(TrackProbes(h, answers), q)
  {
    var p := TrackProbes(h, answers);
    assert p.probes == WithoutEmpty(q.probes);
    assert p.receives == q.receives && p.failed == q.failed && p.inbox == q.inbox;
  }

  // ---------------------------------------------------------------------------------------
  // The rank a datagram names
  // ---------------------------------------------------------------------------------------

  /**
   * The source's rank is read from the status of the test in the pass that completes the pair. It
   * is the sender's if and only if the header's request did not complete in an earlier pass than
   * the body's; otherwise the status is that of a request completed before, and names nobody.
   */
  lemma RankIff(w: World, dst: Rank, k: nat)
    requires Reachable(w) && dst in w && k < |w[dst].resolved| && w[dst].resolved[k].datagram.Some?
    ensures var r := w[dst].resolved[k];
      && Complete(r.pending)
      && (r.datagram.value.remote.rank == r.pending.pair.channel.source
          <==> r.pending.bodyAt.value <= r.pending.headerAt.value)
      && r.datagram.value.remote.rank in {r.pending.pair.channel.source, ANY_SOURCE}
  {
    ReachableProc(w, dst);
    assert Faithful(w[dst].resolved[k]);
  }
}
