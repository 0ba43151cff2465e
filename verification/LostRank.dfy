/**
 * One run of an MPI event loop, from the start, for any letter: the header's request completes in
 * one pass of the receive tracker and the body's in the next, and the datagram names no sender.
 */
module LostRank {
  import opened Wrappers
  import opened Sequences
  import opened Bytes
  import opened BoostMpi
  import opened MpiSteps
  import opened OneProcess

  function AskedBoth(l: Letter): Proc {
    INITIAL.(tasks := [ReceiveTask(0, 5), SendTask(0, HERE, l)], issued := [5], asked := [Sent(HERE, l)])
  }

  lemma BothAsked(l: Letter)
    ensures Reached(AskedBoth(l))
  {
    Begin();
    ReceiveAsked(INITIAL);
    var p := INITIAL.(tasks := [ReceiveTask(0, 5)], issued := [5]);
    assert INITIAL.tasks + [ReceiveTask(0, 5)] == p.tasks && INITIAL.issued + [5] == p.issued;
    SendAsked(p, l);
    assert p.tasks + [SendTask(0, HERE, l)] == AskedBoth(l).tasks && p.asked + [Sent(HERE, l)] == [Sent(HERE, l)];
  }

  function ReceivePosted(l: Letter): Proc {
    AskedBoth(l).(
      tasks := [SendTask(0, HERE, l), TrackAsyncProbe], probes := map[5 := [0]], probeRunning := true)
  }

  function Delivered(l: Letter): Proc {
    AskedBoth(l).(
      tasks := [TrackAsyncProbe, TrackAsyncSend], probes := map[5 := [0]], sends := [0], probeRunning := true,
      sendRunning := true, sent := [Sent(HERE, l)], inbox := map[LINK := [WireHeader(l), l.body]],
      arrived := map[LINK := [l]])
  }

  lemma LetterDelivered(l: Letter)
    ensures Reached(Delivered(l))
  {
    BothAsked(l);
    TaskRun(AskedBoth(l), [], [], []);
    var p := ReceivePosted(l);
    assert ProbesOf(AskedBoth(l), 5) + [0] == [0];
    assert AskedBoth(l).tasks[1..] + [TrackAsyncProbe] == p.tasks;
    assert RunTask(AskedBoth(l), [], [], []) == p;
    SendRun(p, 0, l);
    var q := RunSend(p.(tasks := [TrackAsyncProbe]), 0, Sent(HERE, l));
    assert p.tasks[1..] == [TrackAsyncProbe];
    assert q.tasks == Delivered(l).tasks && q.sends == [0] && q.sent == [Sent(HERE, l)];
    assert InboxOf(q, LINK) + [WireHeader(l), l.body] == [WireHeader(l), l.body];
    assert ArrivedOn(q, LINK) + [l] == [l];
    assert Deliver(q, LINK, l) == Delivered(l);
  }

  function LetterPair(l: Letter): Pair {
    Pair(0, LINK, WireHeader(l), l.body, 0)
  }

  function Waiting(l: Letter): Proc {
    Delivered(l).(
      tasks := [TrackAsyncSend, TrackAsyncReceive], probes := map[], probeRunning := false, receiveRunning := true,
      inbox := map[LINK := []], receives := [PendingReceive(LetterPair(l), None, None)])
  }

  lemma LetterMatched(l: Letter)
    ensures Reached(Waiting(l))
  {
    LetterDelivered(l);
    TaskRun(Delivered(l), [], [], [Found(0)]);
    var h := Delivered(l).(tasks := [TrackAsyncSend]);
    assert Delivered(l).tasks[1..] == h.tasks;
    var m := Waiting(l).(probes := map[5 := []], probeRunning := true);
    assert Match(h, LINK) == m;
    assert ProbeTag(h, 5, [Found(0)]) == Probed(m, []) by {
      assert ProbeTag(m, 5, []) == Probed(m, []);
      assert [Found(0)][1..] == [];
    }
    LeastUnique({5}, 5);
    assert h.probes.Keys == {5} && {5} - {5} == {};
    assert ProbeTags(m, {}, []) == m;
    assert ProbeTags(h, {5}, [Found(0)]) == m;
    assert WithoutEmpty(m.probes) == map[];
    assert RunTask(Delivered(l), [], [], [Found(0)]) == Waiting(l);
  }

  function HeaderSeen(l: Letter): Proc {
    Waiting(l).(
      tasks := [TrackAsyncReceive], sends := [], resolvedSends := [SendResolution(0, true)], sendRunning := false,
      receives := [PendingReceive(LetterPair(l), Some(0), None)], passes := 1)
  }

  lemma HeaderFirst(l: Letter)
    ensures Reached(HeaderSeen(l))
  {
    LetterMatched(l);
    TaskRun(Waiting(l), [true], [], []);
    var p := HeaderSeen(l).(receives := Waiting(l).receives, passes := 0);
    var h := Waiting(l).(tasks := [TrackAsyncReceive]);
    assert Waiting(l).tasks[1..] == h.tasks;
    assert SettleSends(h, [true]) == p.(sendRunning := true);
    assert RunTask(Waiting(l), [true], [], []) == p;
    var t := Tested(true, false, BEYOND);
    TaskRun(p, [], [t], []);
    assert p.tasks[1..] == [];
    assert p.receives[1..] == [];
    assert SettleReceives(p.(tasks := []), [t]) == HeaderSeen(l).(tasks := [], passes := 0);
    assert RunTask(p, [], [t], []) == HeaderSeen(l);
  }

  /** A receive that was resolved with the rank of nobody, although a process sent the letter. */
  ghost predicate NamesNobody(w: World, l: Letter) {
    && Reachable(w) && 0 in w && |w[0].resolved| == 1
    && var r := w[0].resolved[0];
       && r.pending.pair == LetterPair(l)
       && r.datagram.Some? && r.datagram.value.body == l.body
       && r.datagram.value.remote.rank == ANY_SOURCE != r.pending.pair.channel.source
  }

  lemma WrongRankReachable(l: Letter)
    ensures exists w :: NamesNobody(w, l)
  {
    HeaderFirst(l);
    var p, t := HeaderSeen(l), Tested(false, true, BEYOND);
    TaskRun(p, [], [t], []);
    var q := RunTask(p, [], [t], []);
    var h := p.(tasks := p.tasks[1..]);
    var d := ReadPair(LetterPair(l), BEYOND, ANY_SOURCE);
    assert SettleReceives(h, [t]).resolved == [Resolution(PendingReceive(LetterPair(l), Some(0), Some(1)), Some(d))];
    assert NamesNobody(map[0 := q], l);
  }
}
