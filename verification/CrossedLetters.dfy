/**
 * One run of an MPI event loop, from the start, for any two letters: an exception comes after the
 * header of the first was received, and the next receive gets the body of the first as its header
 * and the header of the second as its body.
 */
module CrossedLetters {
  import opened Wrappers
  import opened Sequences
  import opened Bytes
  import opened BoostMpi
  import opened MpiSteps
  import opened OneProcess
  import opened MpiTheorems

  function Asked(l: Letter, m: Letter): Proc {
    INITIAL.(tasks := [ReceiveTask(0, 5), ReceiveTask(1, 5), SendTask(0, HERE, l), SendTask(1, HERE, m)],
             issued := [5, 5], asked := [Sent(HERE, l), Sent(HERE, m)])
  }

  lemma AllAsked(l: Letter, m: Letter)
    ensures Reached(Asked(l, m))
  {
    Begin();
    ReceiveAsked(INITIAL);
    var p1 := INITIAL.(tasks := [ReceiveTask(0, 5)], issued := [5]);
    assert INITIAL.tasks + [ReceiveTask(0, 5)] == p1.tasks && INITIAL.issued + [5] == p1.issued;
    ReceiveAsked(p1);
    var p2 := INITIAL.(tasks := [ReceiveTask(0, 5), ReceiveTask(1, 5)], issued := [5, 5]);
    assert p1.tasks + [ReceiveTask(1, 5)] == p2.tasks && p1.issued + [5] == p2.issued;
    SendAsked(p2, l);
    var p3 := p2.(tasks := p2.tasks + [SendTask(0, HERE, l)], asked := [Sent(HERE, l)]);
    assert p2.asked + [Sent(HERE, l)] == p3.asked;
    SendAsked(p3, m);
    assert p3.tasks + [SendTask(1, HERE, m)] == Asked(l, m).tasks;
    assert p3.asked + [Sent(HERE, m)] == Asked(l, m).asked;
  }

  function Probing(l: Letter, m: Letter): Proc {
    Asked(l, m).(tasks := [SendTask(0, HERE, l), SendTask(1, HERE, m), TrackAsyncProbe],
                 probes := map[5 := [0, 1]], probeRunning := true)
  }

  lemma BothProbing(l: Letter, m: Letter)
    ensures Reached(Probing(l, m))
  {
    AllAsked(l, m);
    var p := Asked(l, m);
    TaskRun(p, [], [], []);
    var q := p.(tasks := [ReceiveTask(1, 5), SendTask(0, HERE, l), SendTask(1, HERE, m), TrackAsyncProbe],
                probes := map[5 := [0]], probeRunning := true);
    assert ProbesOf(p, 5) + [0] == [0] && p.tasks[1..] + [TrackAsyncProbe] == q.tasks;
    assert RunTask(p, [], [], []) == q;
    TaskRun(q, [], [], []);
    assert ProbesOf(q, 5) + [1] == [0, 1] && q.tasks[1..] == Probing(l, m).tasks;
    assert RunTask(q, [], [], []) == Probing(l, m);
  }

  function FirstDelivered(l: Letter, m: Letter): Proc {
    Probing(l, m).(tasks := [SendTask(1, HERE, m), TrackAsyncProbe, TrackAsyncSend], sends := [0], sendRunning := true,
                   sent := [Sent(HERE, l)], inbox := map[LINK := [WireHeader(l), l.body]],
                   arrived := map[LINK := [l]])
  }

  lemma FirstLetter(l: Letter, m: Letter)
    ensures Reached(FirstDelivered(l, m))
  {
    BothProbing(l, m);
    var p := Probing(l, m);
    SendRun(p, 0, l);
    var q := RunSend(p.(tasks := p.tasks[1..]), 0, Sent(HERE, l));
    assert q.tasks == FirstDelivered(l, m).tasks && q.sends == [0] && q.sent == [Sent(HERE, l)];
    assert InboxOf(q, LINK) + [WireHeader(l), l.body] == [WireHeader(l), l.body];
    assert ArrivedOn(q, LINK) + [l] == [l];
    assert Deliver(q, LINK, l) == FirstDelivered(l, m);
  }

  function Delivered(l: Letter, m: Letter): Proc {
    FirstDelivered(l, m).(tasks := [TrackAsyncProbe, TrackAsyncSend], sends := [0, 1],
                          sent := [Sent(HERE, l), Sent(HERE, m)],
                          inbox := map[LINK := [WireHeader(l), l.body, WireHeader(m), m.body]],
                          arrived := map[LINK := [l, m]])
  }

  lemma BothLetters(l: Letter, m: Letter)
    ensures Reached(Delivered(l, m))
  {
    FirstLetter(l, m);
    var p := FirstDelivered(l, m);
    SendRun(p, 1, m);
    var q := RunSend(p.(tasks := p.tasks[1..]), 1, Sent(HERE, m));
    assert q.tasks == Delivered(l, m).tasks && q.sends == [0, 1] && q.sent == Delivered(l, m).sent;
    assert InboxOf(q, LINK) + [WireHeader(m), m.body] == [WireHeader(l), l.body, WireHeader(m), m.body];
    assert ArrivedOn(q, LINK) + [m] == [l, m];
    assert Deliver(q, LINK, m) == Delivered(l, m);
  }

  function CrossedPair(l: Letter, m: Letter): Pair {
    Pair(1, LINK, l.body, WireHeader(m), 1)
  }

  function Waiting(l: Letter, m: Letter): Proc {
    Delivered(l, m).(tasks := [TrackAsyncSend, TrackAsyncReceive], probes := map[], probeRunning := false,
                     receiveRunning := true, inbox := map[LINK := [m.body]], strays := map[LINK := 1], failed := {0},
                     receives := [PendingReceive(CrossedPair(l, m), None, None)])
  }

  /** The probe of the first promise throws after its header, and the probe of the second succeeds. */
  lemma ProbeCrosses(l: Letter, m: Letter)
    ensures ProbeTag(Delivered(l, m).(tasks := [TrackAsyncSend]), 5, [ThrewOnBody(0), Found(0)])
         == Probed(Waiting(l, m).(probes := map[5 := []], probeRunning := true), [])
  {
    var h := Delivered(l, m).(tasks := [TrackAsyncSend]);
    var s := h.(inbox := map[LINK := [l.body, WireHeader(m), m.body]], strays := map[LINK := 1]);
    assert Stray(h, LINK) == s;
    var f := s.(probes := map[5 := [1]], failed := {0});
    assert FailFront(s, 5) == f;
    var w := Waiting(l, m).(probes := map[5 := []], probeRunning := true);
    assert Match(f, LINK) == w;
    var answers := [ThrewOnBody(0), Found(0)];
    assert answers[1..] == [Found(0)] && answers[1..][1..] == [];
    assert ProbeTag(w, 5, []) == Probed(w, []);
    assert ProbeTag(f, 5, [Found(0)]) == Probed(w, []);
  }

  lemma SecondMatched(l: Letter, m: Letter)
    ensures Reached(Waiting(l, m))
  {
    BothLetters(l, m);
    var answers := [ThrewOnBody(0), Found(0)];
    TaskRun(Delivered(l, m), [], [], answers);
    var h := Delivered(l, m).(tasks := [TrackAsyncSend]);
    assert Delivered(l, m).tasks[1..] == h.tasks;
    ProbeCrosses(l, m);
    var w := Waiting(l, m).(probes := map[5 := []], probeRunning := true);
    LeastUnique({5}, 5);
    assert h.probes.Keys == {5} && {5} - {5} == {};
    assert ProbeTags(w, {}, []) == w;
    assert ProbeTags(h, {5}, answers) == w;
    assert WithoutEmpty(w.probes) == map[];
    assert RunTask(Delivered(l, m), [], [], answers) == Waiting(l, m);
  }

  function SendsSettled(l: Letter, m: Letter): Proc {
    Waiting(l, m).(tasks := [TrackAsyncReceive], sends := [], sendRunning := false,
                   resolvedSends := [SendResolution(0, true), SendResolution(1, true)])
  }

  lemma BothSent(l: Letter, m: Letter)
    ensures Reached(SendsSettled(l, m))
  {
    SecondMatched(l, m);
    var p, q := Waiting(l, m), SendsSettled(l, m);
    TaskRun(p, [true, true], [], []);
    var h := p.(tasks := [TrackAsyncReceive]);
    assert p.tasks[1..] == h.tasks;
    var h1 := h.(sends := [1], resolvedSends := [SendResolution(0, true)]);
    assert SettleSends(h1, [true]) == q.(sendRunning := true);
    assert [true, true][1..] == [true] && h.sends[1..] == [1];
    assert SettleSends(h, [true, true]) == q.(sendRunning := true);
    assert RunTask(p, [true, true], [], []) == q;
  }

  /** A datagram that crosses two letters; the promise before it failed, and nobody tells the receiver. */
  ghost predicate ShowsCrossing(w: World, l: Letter, m: Letter) {
    && Reachable(w) && 0 in w && |w[0].resolved| == 1
    && LettersTo(w[0].sent, HERE) == [l, m] && w[0].failed == {0}
    && var r := w[0].resolved[0];
       && !Aligned(r.pending.pair) && Crosses(r.pending.pair, l, m)
       && r.datagram.Some? && r.datagram.value.body == WireHeader(m)
       && |r.datagram.value.header| == |l.body|
  }

  function CrossedEnd(l: Letter, m: Letter): Resolution {
    Resolution(PendingReceive(CrossedPair(l, m), Some(0), Some(0)), Some(ReadPair(CrossedPair(l, m), BEYOND, 0)))
  }

  function Ended(l: Letter, m: Letter): Proc {
    SendsSettled(l, m).(tasks := [], receives := [], resolved := [CrossedEnd(l, m)], passes := 1,
                        receiveRunning := false)
  }

  lemma BothEnded(l: Letter, m: Letter)
    ensures Reached(Ended(l, m))
  {
    BothSent(l, m);
    var p, t := SendsSettled(l, m), Tested(true, true, BEYOND);
    TaskRun(p, [], [t], []);
    var h := p.(tasks := []);
    assert p.tasks[1..] == [] && h.receives[1..] == [];
    var q := h.(receives := [], resolved := [CrossedEnd(l, m)]);
    assert SettleReceives(h, [t]) == SettleReceives(q, []);
    assert RunTask(p, [], [t], []) == Ended(l, m);
  }

  lemma LettersHanded(l: Letter, m: Letter)
    ensures LettersTo([Sent(HERE, l), Sent(HERE, m)], HERE) == [l, m]
  {
    LettersSnoc([], Sent(HERE, l), HERE);
    LettersSnoc([Sent(HERE, l)], Sent(HERE, m), HERE);
    assert [] + [Sent(HERE, l)] == [Sent(HERE, l)];
    assert [Sent(HERE, l)] + [Sent(HERE, m)] == [Sent(HERE, l), Sent(HERE, m)];
  }

  lemma HeaderLength(l: Letter, m: Letter)
    ensures var d := CrossedEnd(l, m).datagram.value;
      d.body == WireHeader(m) && |d.header| == |l.body|
  {
  }

  lemma CrossingReachable(l: Letter, m: Letter)
    ensures exists w :: ShowsCrossing(w, l, m)
  {
    BothEnded(l, m);
    LettersHanded(l, m);
    HeaderLength(l, m);
    assert ShowsCrossing(map[0 := Ended(l, m)], l, m);
  }
}
