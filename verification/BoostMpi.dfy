/**
 * The MPI transport: one event loop per process with three work queues, three flags that say
 * whether a tracker is posted, and trackers that post themselves again. One task is one step.
 *
 * MPI delivers messages of one source and one tag in the order they were sent (section 3.5 of
 * the MPI 3.1 standard), so what has been sent and not yet been matched is one sequence per
 * source and tag. What MPI answers to a probe or a test comes in as a parameter.
 */
module BoostMpi {
  import opened Wrappers
  import opened Sequences
  import opened Bytes

  type Rank = nat
  type Tag = n: nat | n < 0x8000_0000
  type PromiseId = nat

  datatype Endpoint = Endpoint(rank: Rank, tag: Tag)

  /** The channel of one source and one tag, at one destination. */
  datatype Channel = Channel(source: Rank, tag: Tag)

  /** What one `asyncSendTo` sends: the sender's own tag and a custom header, and a body. */
  datatype Letter = Letter(sender: Tag, custom: Block, body: Block)

  const TAG_WIDTH: Width := 4

  /** `MPI_ANY_SOURCE`, the source in the empty status of a request that has completed before (section 3.7.3). */
  const ANY_SOURCE := -1

  function WireHeader(l: Letter): Block {
    Encode(l.sender, TAG_WIDTH) + l.custom
  }

  datatype Task =
    | SendTask(promise: PromiseId, remote: Endpoint, letter: Letter)
    | ReceiveTask(promise: PromiseId, tag: Tag)
    | CloseTask(tag: Tag)
    | TrackAsyncSend
    | TrackAsyncReceive
    | TrackAsyncProbe

  /**
   * Two matched messages, header and body, together with the promise that gets them. `skipped`
   * is history: the messages of the channel that failed probes had taken before.
   */
  datatype Pair = Pair(promise: PromiseId, channel: Channel, header: Block, body: Block, skipped: nat)

  /** A pair with its two requests: the pass of the tracker that saw each of them complete, if one has. */
  datatype PendingReceive = PendingReceive(pair: Pair, headerAt: Option<nat>, bodyAt: Option<nat>)

  /** What a received datagram names as its sender, read from a status and from four bytes. */
  datatype Remote = Remote(rank: int, tag: int)

  datatype Datagram = Datagram(header: Block, body: Block, remote: Remote)

  /** How a pair ended: with a datagram, or with an exception. */
  datatype Resolution = Resolution(pending: PendingReceive, datagram: Option<Datagram>)

  datatype SendResolution = SendResolution(promise: PromiseId, ok: bool)

  /** A letter and where it goes. */
  datatype Sent = Sent(remote: Endpoint, letter: Letter)

  /**
   * One process: the task queue, the three work queues with their flags, and the unmatched
   * messages per channel. The rest is history: the letters that arrived on each channel, how many
   * messages failed probes have taken from it, the passes of the receive tracker, the pairs
   * resolved, the promises failed by a probe or dropped, the tag each promise was asked for, and
   * the letters asked to be sent and handed to MPI.
   */
  datatype Proc = Proc(
    tasks: seq<Task>,
    probes: map<Tag, seq<PromiseId>>,
    receives: seq<PendingReceive>,
    sends: seq<PromiseId>,
    probeRunning: bool,
    receiveRunning: bool,
    sendRunning: bool,
    inbox: map<Channel, seq<Block>>,
    arrived: map<Channel, seq<Letter>>,
    strays: map<Channel, nat>,
    passes: nat,
    resolved: seq<Resolution>,
    resolvedSends: seq<SendResolution>,
    failed: set<PromiseId>,
    dropped: set<PromiseId>,
    issued: seq<Tag>,
    asked: seq<Sent>,
    sent: seq<Sent>)

  const INITIAL :=
    Proc([], map[], [], [], false, false, false, map[], map[], map[], 0, [], [], {}, {}, [], [], [])

  function InboxOf(p: Proc, c: Channel): seq<Block> {
    if c in p.inbox then p.inbox[c] else []
  }

  function ArrivedOn(p: Proc, c: Channel): seq<Letter> {
    if c in p.arrived then p.arrived[c] else []
  }

  function StraysOn(p: Proc, c: Channel): nat {
    if c in p.strays then p.strays[c] else 0
  }

  function ProbesOf(p: Proc, t: Tag): seq<PromiseId> {
    if t in p.probes then p.probes[t] else []
  }

  // ---------------------------------------------------------------------------------------
  // Tasks that do not track
  // ---------------------------------------------------------------------------------------

  function PostOnce(tasks: seq<Task>, running: bool, tracker: Task): seq<Task> {
    if running then tasks else tasks + [tracker]
  }

  /** Header and body are handed to MPI one right after the other. */
  function RunSend(p: Proc, promise: PromiseId, letter: Sent): Proc {
    p.(sends := p.sends + [promise], tasks := PostOnce(p.tasks, p.sendRunning, TrackAsyncSend), sendRunning := true,
       sent := p.sent + [letter])
  }

  function RunReceive(p: Proc, promise: PromiseId, t: Tag): Proc {
    p.(probes := p.probes[t := ProbesOf(p, t) + [promise]],
       tasks := PostOnce(p.tasks, p.probeRunning, TrackAsyncProbe), probeRunning := true)
  }

  function RunClose(p: Proc, t: Tag): Proc {
    p.(probes := p.probes - {t}, dropped := p.dropped + (set i | i in ProbesOf(p, t)))
  }

  // ---------------------------------------------------------------------------------------
  // The trackers
  // ---------------------------------------------------------------------------------------

  /**
   * The front sends whose two requests have both completed, in order; false stands for a test that
   * threw. A request that has completed before tests as complete again, and no status is read.
   */
  function SettleSends(p: Proc, done: seq<bool>): Proc
    decreases |done|
  {
    if p.sends == [] || done == [] then p
    else
      var r := SendResolution(p.sends[0], done[0]);
      SettleSends(p.(sends := p.sends[1..], resolvedSends := p.resolvedSends + [r]), done[1..])
  }

  function TrackSends(p: Proc, done: seq<bool>): Proc {
    var q := SettleSends(p, done);
    if q.sends == [] then q.(sendRunning := false) else q.(tasks := q.tasks + [TrackAsyncSend])
  }

  /**
   * Testing the front pair: whether its header request and its body request complete, and the
   * four bytes that lie behind its header in memory; or an exception.
   */
  datatype Tested = Tested(header: bool, body: bool, beyond: Block) | TestThrew

  function Seen(at: Option<nat>, completes: bool, now: nat): Option<nat> {
    if at.Some? then at else if completes then Some(now) else None
  }

  function Noted(r: PendingReceive, t: Tested, now: nat): PendingReceive
    requires t.Tested?
  {
    r.(headerAt := Seen(r.headerAt, t.header, now), bodyAt := Seen(r.bodyAt, t.body, now))
  }

  predicate Complete(r: PendingReceive) {
    r.headerAt.Some? && r.bodyAt.Some?
  }

  /** The source in the status of this test: only the test that completes the request names it. */
  function StatusSource(r: PendingReceive): int {
    if r.headerAt.Some? then ANY_SOURCE else r.pair.channel.source
  }

  /** Four bytes read as an `int`. */
  function Signed(n: nat): int {
    if n < 0x8000_0000 then n else n - 0x1_0000_0000
  }

  /** The sender's tag leads the header; as many bytes as the whole header has are copied from behind the tag. */
  function ReadPair(pair: Pair, beyond: Block, source: int): Datagram {
    var memory := pair.header + beyond;
    if |memory| < TAG_WIDTH then Datagram([], pair.body, Remote(source, 0))
    else Datagram(memory[TAG_WIDTH..], pair.body, Remote(source, Signed(Decode(memory[..TAG_WIDTH]))))
  }

  function SettleReceives(p: Proc, tests: seq<Tested>): Proc
    decreases |tests|
  {
    if p.receives == [] || tests == [] then p
    else
      var front, t := p.receives[0], tests[0];
      match t
      case TestThrew =>
        SettleReceives(p.(receives := p.receives[1..], resolved := p.resolved + [Resolution(front, None)]), tests[1..])
      case Tested(_, _, beyond) =>
        var noted := Noted(front, t, p.passes);
        if Complete(noted) then
          var d := ReadPair(front.pair, beyond, StatusSource(front));
          SettleReceives(p.(receives := p.receives[1..], resolved := p.resolved + [Resolution(noted, Some(d))]),
                         tests[1..])
        else p.(receives := [noted] + p.receives[1..])
  }

  function TrackReceives(p: Proc, tests: seq<Tested>): Proc {
    var q := SettleReceives(p, tests);
    var r := q.(passes := q.passes + 1);
    if r.receives == [] then r.(receiveRunning := false) else r.(tasks := r.tasks + [TrackAsyncReceive])
  }

  /** A header and a body wait on the channel, and a promise waits for the tag. */
  predicate Matchable(p: Proc, c: Channel) {
    |ProbesOf(p, c.tag)| > 0 && |InboxOf(p, c)| >= 2
  }

  /** One successful probe: the next two messages of the channel go with the oldest promise of the tag. */
  function Match(p: Proc, c: Channel): Proc
    requires Matchable(p, c)
  {
    var msgs := InboxOf(p, c);
    var pair := Pair(ProbesOf(p, c.tag)[0], c, msgs[0], msgs[1], StraysOn(p, c));
    p.(probes := p.probes[c.tag := ProbesOf(p, c.tag)[1..]],
       inbox := p.inbox[c := msgs[2..]],
       receives := p.receives + [PendingReceive(pair, None, None)],
       tasks := PostOnce(p.tasks, p.receiveRunning, TrackAsyncReceive),
       receiveRunning := true)
  }

  /** An exception while probing: the oldest promise of the tag gets it. */
  function FailFront(p: Proc, t: Tag): Proc
    requires ProbesOf(p, t) != []
  {
    p.(probes := p.probes[t := ProbesOf(p, t)[1..]], failed := p.failed + {ProbesOf(p, t)[0]})
  }

  /** A header that was received for nothing. */
  function Stray(p: Proc, c: Channel): Proc
    requires InboxOf(p, c) != []
  {
    p.(inbox := p.inbox[c := InboxOf(p, c)[1..]], strays := p.strays[c := StraysOn(p, c) + 1])
  }

  /**
   * What happens to one probe of a tag: nothing is there; a source has something; an exception
   * before anything was received; or an exception after the header of a source was.
   */
  datatype Answer = Nobody | Found(source: Rank) | Threw | ThrewOnBody(source: Rank)

  /** Probing one tag until a probe finds nothing or no promise is left. */
  datatype Probed = Probed(proc: Proc, answers: seq<Answer>)

  function ProbeTag(p: Proc, t: Tag, answers: seq<Answer>): Probed
    decreases |answers|
  {
    if ProbesOf(p, t) == [] then Probed(p, answers)
    else if answers == [] then Probed(p, [])
    else
      match answers[0]
      case Found(source) =>
        if Matchable(p, Channel(source, t)) then ProbeTag(Match(p, Channel(source, t)), t, answers[1..])
        else Probed(p, answers[1..])
      case Threw => ProbeTag(FailFront(p, t), t, answers[1..])
      case ThrewOnBody(source) =>
        if InboxOf(p, Channel(source, t)) != [] then
          ProbeTag(FailFront(Stray(p, Channel(source, t)), t), t, answers[1..])
        else Probed(p, answers[1..])
      case Nobody => Probed(p, answers[1..])
  }

  /** Probing every tag, in key order. */
  ghost function ProbeTags(p: Proc, tags: set<Tag>, answers: seq<Answer>): Proc
    decreases tags
  {
    if tags == {} then p
    else
      var t: Tag := Least(tags);
      var r := ProbeTag(p, t, answers);
      ProbeTags(r.proc, tags - {t}, r.answers)
  }

  function WithoutEmpty(probes: map<Tag, seq<PromiseId>>): map<Tag, seq<PromiseId>> {
    map t | t in probes && probes[t] != [] :: probes[t]
  }

  ghost function TrackProbes(p: Proc, answers: seq<Answer>): Proc {
    var q := ProbeTags(p, p.probes.Keys, answers);
    var rest := WithoutEmpty(q.probes);
    if rest != map[] then q.(probes := rest, tasks := q.tasks + [TrackAsyncProbe])
    else q.(probes := rest, probeRunning := false)
  }

  /** Some tag outside `tags` still has promises. */
  ghost predicate Left(probes: map<Tag, seq<PromiseId>>, tags: set<Tag>) {
    exists t :: t in probes && t !in tags && probes[t] != []
  }

  lemma LeftAfter(before: map<Tag, seq<PromiseId>>, after: map<Tag, seq<PromiseId>>, tags: set<Tag>, t: Tag)
    requires t in tags && t in before && t in after && after == before[t := after[t]]
    ensures Left(after, tags - {t}) <==> Left(before, tags) || after[t] != []
  {
    if Left(before, tags) {
      var u :| u in before && u !in tags && before[u] != [];
      assert after[u] == before[u];
    }
  }

  lemma LeftIff(probes: map<Tag, seq<PromiseId>>)
    ensures Left(probes, {}) <==> WithoutEmpty(probes) != map[]
  {
    if Left(probes, {}) {
      var t :| t in probes && probes[t] != [];
      assert t in WithoutEmpty(probes);
    }
    if WithoutEmpty(probes) != map[] {
      var t :| t in WithoutEmpty(probes).Keys;
    }
  }

  // ---------------------------------------------------------------------------------------
  // What the answers of MPI lead to
  // ---------------------------------------------------------------------------------------

  /**
   * The sends and resolutions before and after some tests: each send gets the outcome of its own
   * test, in order, until there are no sends or no more tests.
   */
  ghost predicate SendOutcome(sends: seq<PromiseId>, log: seq<SendResolution>, done: seq<bool>,
                              sends': seq<PromiseId>, log': seq<SendResolution>) {
    var n := if |sends| <= |done| then |sends| else |done|;
    && sends' == sends[n..]
    && log <= log' && |log'| == |log| + n
    && forall i :: 0 <= i < n ==> log'[|log| + i].promise == sends[i] && log'[|log| + i].ok == done[i]
  }

  lemma {:induction false} SendOutcomes(p: Proc, done: seq<bool>)
    ensures SendOutcome(p.sends, p.resolvedSends, done, SettleSends(p, done).sends, SettleSends(p, done).resolvedSends)
    decreases |done|
  {
    if p.sends != [] && done != [] {
      var r := SendResolution(p.sends[0], done[0]);
      var m := p.(sends := p.sends[1..], resolvedSends := p.resolvedSends + [r]);
      SendOutcomes(m, done[1..]);
      SendOutcomeCons(p.sends, p.resolvedSends, done, SettleSends(p, done).sends, SettleSends(p, done).resolvedSends);
    }
  }

  lemma SendOutcomeCons(sends: seq<PromiseId>, log: seq<SendResolution>, done: seq<bool>,
                        sends': seq<PromiseId>, log': seq<SendResolution>)
    requires sends != [] && done != []
    requires SendOutcome(sends[1..], log + [SendResolution(sends[0], done[0])], done[1..], sends', log')
    ensures SendOutcome(sends, log, done, sends', log')
  {
    var mid := log + [SendResolution(sends[0], done[0])];
    var n := if |sends| <= |done| then |sends| else |done|;
    forall i | 0 <= i < n
      ensures log'[|log| + i].promise == sends[i] && log'[|log| + i].ok == done[i]
    {
      if i > 0 {
        assert log'[|mid| + (i - 1)].promise == sends[1..][i - 1];
      } else {
        assert log'[|log|] == mid[|log|];
      }
    }
  }

  /** A test ends a pair if it throws, or if both requests have completed with it. */
  predicate Ends(r: PendingReceive, t: Tested) {
    t.TestThrew? || ((r.headerAt.Some? || t.header) && (r.bodyAt.Some? || t.body))
  }

  /** How many pairs one pass ends. */
  function Ended(rs: seq<PendingReceive>, tests: seq<Tested>): (n: nat)
    ensures n <= |rs| && n <= |tests|
    ensures forall i :: 0 <= i < n ==> Ends(rs[i], tests[i])
    ensures n < |rs| && n < |tests| ==> !Ends(rs[n], tests[n])
  {
    if rs == [] || tests == [] || !Ends(rs[0], tests[0]) then 0 else 1 + Ended(rs[1..], tests[1..])
  }

  /** A pair's end: with a datagram exactly if no test threw. */
  predicate EndsWith(r: Resolution, pending: PendingReceive, t: Tested) {
    && r.pending.pair == pending.pair
    && (r.datagram.Some? <==> t.Tested?)
    && (r.datagram.Some? ==> r.datagram.value.body == pending.pair.body)
  }

  /** One pass over the pairs: the first ones end, the next one is noted, and the others are left alone. */
  ghost predicate PassOutcome(rs: seq<PendingReceive>, tests: seq<Tested>, rs': seq<PendingReceive>,
                              ends: seq<Resolution>) {
    var n := Ended(rs, tests);
    && |ends| == n && |rs'| == |rs| - n
    && (forall i :: 0 <= i < n ==> EndsWith(ends[i], rs[i], tests[i]))
    && (forall i :: 0 < i < |rs'| ==> rs'[i] == rs[n + i])
    && (n < |rs| && n == |tests| ==> rs'[0] == rs[n])
    && (n < |rs| && n < |tests| ==>
          && rs'[0].pair == rs[n].pair
          && (rs'[0].headerAt.Some? <==> rs[n].headerAt.Some? || tests[n].header)
          && (rs'[0].bodyAt.Some? <==> rs[n].bodyAt.Some? || tests[n].body))
  }

  lemma PassOutcomeCons(rs: seq<PendingReceive>, tests: seq<Tested>, rs': seq<PendingReceive>, r: Resolution,
                        ends: seq<Resolution>)
    requires rs != [] && tests != [] && Ends(rs[0], tests[0]) && EndsWith(r, rs[0], tests[0])
    requires PassOutcome(rs[1..], tests[1..], rs', ends)
    ensures PassOutcome(rs, tests, rs', [r] + ends)
  {
    var n := Ended(rs, tests);
    forall i | 0 <= i < n
      ensures EndsWith(([r] + ends)[i], rs[i], tests[i])
    {
      if i > 0 {
        assert EndsWith(ends[i - 1], rs[1..][i - 1], tests[1..][i - 1]);
      }
    }
    forall i | 0 < i < |rs'|
      ensures rs'[i] == rs[n + i]
    {
      assert rs'[i] == rs[1..][n - 1 + i];
    }
  }

  lemma PassNothing(rs: seq<PendingReceive>, tests: seq<Tested>)
    requires rs == [] || tests == []
    ensures PassOutcome(rs, tests, rs, [])
  {
  }

  lemma PassNoted(rs: seq<PendingReceive>, tests: seq<Tested>, now: nat)
    requires rs != [] && tests != [] && !Ends(rs[0], tests[0])
    ensures PassOutcome(rs, tests, [Noted(rs[0], tests[0], now)] + rs[1..], [])
  {
    assert Ended(rs, tests) == 0;
  }

  /** Nothing more ends; the front pair notes what completed. */
  lemma PassOutcomeLast(p: Proc, tests: seq<Tested>)
    requires p.receives == [] || tests == [] || !Ends(p.receives[0], tests[0])
    ensures SettleReceives(p, tests).resolved == p.resolved
    ensures PassOutcome(p.receives, tests, SettleReceives(p, tests).receives, [])
  {
    if p.receives == [] || tests == [] {
      PassNothing(p.receives, tests);
    } else {
      PassNoted(p.receives, tests, p.passes);
      assert SettleReceives(p, tests) == p.(receives := [Noted(p.receives[0], tests[0], p.passes)] + p.receives[1..]);
    }
  }

  /** What ends the front pair, and with what. */
  function EndOf(p: Proc, t: Tested): Resolution
    requires p.receives != [] && Ends(p.receives[0], t)
  {
    var front := p.receives[0];
    match t
    case TestThrew => Resolution(front, None)
    case Tested(_, _, beyond) =>
      Resolution(Noted(front, t, p.passes), Some(ReadPair(front.pair, beyond, StatusSource(front))))
  }

  lemma FrontEnds(p: Proc, tests: seq<Tested>)
    requires p.receives != [] && tests != [] && Ends(p.receives[0], tests[0])
    ensures EndsWith(EndOf(p, tests[0]), p.receives[0], tests[0])
    ensures SettleReceives(p, tests)
         == SettleReceives(p.(receives := p.receives[1..], resolved := p.resolved + [EndOf(p, tests[0])]), tests[1..])
  {
  }

  lemma {:induction false} ReceiveOutcomes(p: Proc, tests: seq<Tested>) returns (ends: seq<Resolution>)
    ensures SettleReceives(p, tests).resolved == p.resolved + ends
    ensures PassOutcome(p.receives, tests, SettleReceives(p, tests).receives, ends)
    decreases |tests|
  {
    if p.receives != [] && tests != [] && Ends(p.receives[0], tests[0]) {
      FrontEnds(p, tests);
      var r := EndOf(p, tests[0]);
      var rest := ReceiveOutcomes(p.(receives := p.receives[1..], resolved := p.resolved + [r]), tests[1..]);
      PassOutcomeCons(p.receives, tests, SettleReceives(p, tests).receives, r, rest);
      Concat3(p.resolved, [r], rest);
      ends := [r] + rest;
    } else {
      PassOutcomeLast(p, tests);
      ends := [];
      assert p.resolved + [] == p.resolved;
    }
  }

  predicate Throws(a: Answer) {
    a.Threw? || a.ThrewOnBody?
  }

  /** The promises that get a pair, with its channel: those whose probe found something. */
  function Finds(ids: seq<PromiseId>, answers: seq<Answer>, t: Tag): seq<(PromiseId, Channel)>
    requires |ids| == |answers|
  {
    if ids == [] then []
    else if answers[0].Found? then [(ids[0], Channel(answers[0].source, t))] + Finds(ids[1..], answers[1..], t)
    else Finds(ids[1..], answers[1..], t)
  }

  /** The promises whose probe threw. */
  function Throwers(ids: seq<PromiseId>, answers: seq<Answer>): set<PromiseId>
    requires |ids| == |answers|
  {
    set i | 0 <= i < |ids| && Throws(answers[i]) :: ids[i]
  }

  function Claims(rs: seq<PendingReceive>): seq<(PromiseId, Channel)> {
    seq(|rs|, i requires 0 <= i < |rs| => (rs[i].pair.promise, rs[i].pair.channel))
  }

  /** Nothing to go on with: nothing was found, or not what was said to be there. */
  predicate Stops(q: Proc, t: Tag, a: Answer) {
    match a
    case Nobody => true
    case Found(source) => |InboxOf(q, Channel(source, t))| < 2
    case Threw => false
    case ThrewOnBody(source) => InboxOf(q, Channel(source, t)) == []
  }

  /**
   * Probing one tag: the oldest promises get one answer each, in order. Those whose probe found
   * something get a pair, those whose probe threw get the exception, and the first answer that leads
   * to nothing ends it.
   */
  ghost predicate ProbeOutcome(p: Proc, q: Proc, t: Tag, answers: seq<Answer>, n: nat) {
    var ids := ProbesOf(p, t);
    && n <= |ids| && n <= |answers|
    && ProbesOf(q, t) == ids[n..]
    && q.failed == p.failed + Throwers(ids[..n], answers[..n])
    && p.receives <= q.receives
    && Claims(q.receives[|p.receives|..]) == Finds(ids[..n], answers[..n], t)
    && (n < |ids| && n < |answers| ==> Stops(q, t, answers[n]))
  }

  /** One answer more at the front of what happened. */
  lemma OutcomeCons(p: Proc, m: Proc, q: Proc, t: Tag, answers: seq<Answer>, n: nat, more: seq<PendingReceive>)
    requires answers != [] && ProbesOf(p, t) != [] && ProbesOf(m, t) == ProbesOf(p, t)[1..]
    requires ProbeOutcome(m, q, t, answers[1..], n)
    requires m.receives == p.receives + more
    requires m.failed == if Throws(answers[0]) then p.failed + {ProbesOf(p, t)[0]} else p.failed
    requires Claims(more)
          == if answers[0].Found? then [(ProbesOf(p, t)[0], Channel(answers[0].source, t))] else []
    ensures ProbeOutcome(p, q, t, answers, n + 1)
  {
    var ids := ProbesOf(p, t);
    AnswersCons(ids, answers, t, n);
    var last := q.receives[|m.receives|..];
    assert q.receives[|p.receives|..] == more + last;
    ClaimsConcat(more, last);
  }

  lemma ClaimsConcat(a: seq<PendingReceive>, b: seq<PendingReceive>)
    ensures Claims(a + b) == Claims(a) + Claims(b)
  {
  }

  /** What the first answers found and threw, from the first answer and the others. */
  lemma AnswersCons(ids: seq<PromiseId>, answers: seq<Answer>, t: Tag, n: nat)
    requires n < |ids| && n < |answers|
    ensures Finds(ids[..n + 1], answers[..n + 1], t)
         == (if answers[0].Found? then [(ids[0], Channel(answers[0].source, t))] else [])
            + Finds(ids[1..][..n], answers[1..][..n], t)
    ensures Throwers(ids[..n + 1], answers[..n + 1])
         == Throwers(ids[1..][..n], answers[1..][..n]) + if Throws(answers[0]) then {ids[0]} else {}
  {
    var front, said := ids[..n + 1], answers[..n + 1];
    assert front[1..] == ids[1..][..n] && said[1..] == answers[1..][..n];
    ThrowersCons(front, said);
  }

  lemma ThrowersCons(ids: seq<PromiseId>, answers: seq<Answer>)
    requires |ids| == |answers| && ids != []
    ensures Throwers(ids, answers)
         == Throwers(ids[1..], answers[1..]) + if Throws(answers[0]) then {ids[0]} else {}
  {
    var rest := Throwers(ids[1..], answers[1..]);
    forall x | x in Throwers(ids, answers)
      ensures x in rest || (Throws(answers[0]) && x == ids[0])
    {
      var i :| 0 <= i < |ids| && Throws(answers[i]) && ids[i] == x;
      if i > 0 {
        assert ids[1..][i - 1] == x && answers[1..][i - 1] == answers[i];
      }
    }
    forall x | x in rest
      ensures x in Throwers(ids, answers)
    {
      var i :| 0 <= i < |ids[1..]| && Throws(answers[1..][i]) && ids[1..][i] == x;
      assert ids[i + 1] == x && Throws(answers[i + 1]);
    }
  }

  lemma OutcomeNone(p: Proc, t: Tag, answers: seq<Answer>)
    requires ProbesOf(p, t) != [] && answers != [] ==> Stops(p, t, answers[0])
    ensures ProbeOutcome(p, p, t, answers, 0)
  {
    assert Claims([]) == [];
  }

  lemma FoundOutcome(p: Proc, q: Proc, source: Rank, t: Tag, answers: seq<Answer>, n: nat)
    requires answers != [] && answers[0] == Found(source) && Matchable(p, Channel(source, t))
    requires ProbeOutcome(Match(p, Channel(source, t)), q, t, answers[1..], n)
    ensures ProbeOutcome(p, q, t, answers, n + 1)
  {
    var m := Match(p, Channel(source, t));
    var r := m.receives[|p.receives|];
    assert m.receives == p.receives + [r];
    assert Claims([r]) == [(ProbesOf(p, t)[0], Channel(source, t))];
    OutcomeCons(p, m, q, t, answers, n, [r]);
  }

  lemma FailedOutcome(p: Proc, s: Proc, q: Proc, t: Tag, answers: seq<Answer>, n: nat)
    requires answers != [] && Throws(answers[0]) && ProbesOf(p, t) != []
    requires s.probes == p.probes && s.receives == p.receives && s.failed == p.failed
    requires ProbeOutcome(FailFront(s, t), q, t, answers[1..], n)
    ensures ProbeOutcome(p, q, t, answers, n + 1)
  {
    assert p.receives + [] == p.receives && Claims([]) == [];
    OutcomeCons(p, FailFront(s, t), q, t, answers, n, []);
  }

  /** How many answers probing a tag takes when the first `n` get somewhere: also the one that ends it. */
  function Used(promises: nat, answers: nat, n: nat): nat {
    if n == promises || n >= answers then n else n + 1
  }

  lemma {:induction false} ProbeOutcomes(p: Proc, t: Tag, answers: seq<Answer>) returns (n: nat)
    ensures ProbeOutcome(p, ProbeTag(p, t, answers).proc, t, answers, n)
    decreases |answers|
  {
    var q := ProbeTag(p, t, answers).proc;
    if ProbesOf(p, t) == [] || answers == [] || Stops(p, t, answers[0]) {
      OutcomeNone(p, t, answers);
      n := 0;
    } else if answers[0].Found? {
      n := ProbeOutcomes(Match(p, Channel(answers[0].source, t)), t, answers[1..]);
      FoundOutcome(p, q, answers[0].source, t, answers, n);
      n := n + 1;
    } else {
      var s := if answers[0].Threw? then p else Stray(p, Channel(answers[0].source, t));
      n := ProbeOutcomes(FailFront(s, t), t, answers[1..]);
      FailedOutcome(p, s, q, t, answers, n);
      n := n + 1;
    }
  }

  /** The answers that are left. */
  ghost predicate LeavesRest(p: Proc, r: Probed, t: Tag, answers: seq<Answer>) {
    |ProbesOf(r.proc, t)| <= |ProbesOf(p, t)| &&
    var used := Used(|ProbesOf(p, t)|, |answers|, |ProbesOf(p, t)| - |ProbesOf(r.proc, t)|);
    used <= |answers| && r.answers == answers[used..]
  }

  lemma LeavesRestCons(p: Proc, m: Proc, r: Probed, t: Tag, answers: seq<Answer>)
    requires answers != [] && |ProbesOf(p, t)| == |ProbesOf(m, t)| + 1 && LeavesRest(m, r, t, answers[1..])
    ensures LeavesRest(p, r, t, answers)
  {
    var used := Used(|ProbesOf(m, t)|, |answers[1..]|, |ProbesOf(m, t)| - |ProbesOf(r.proc, t)|);
    assert answers[1..][used..] == answers[used + 1..];
  }

  lemma {:induction false} ProbeRest(p: Proc, t: Tag, answers: seq<Answer>)
    ensures LeavesRest(p, ProbeTag(p, t, answers), t, answers)
    decreases |answers|
  {
    var r := ProbeTag(p, t, answers);
    if ProbesOf(p, t) == [] || answers == [] || Stops(p, t, answers[0]) {
      assert answers[0..] == answers;
    } else if answers[0].Found? {
      var m := Match(p, Channel(answers[0].source, t));
      ProbeRest(m, t, answers[1..]);
      LeavesRestCons(p, m, r, t, answers);
    } else {
      var m := FailFront(if answers[0].Threw? then p else Stray(p, Channel(answers[0].source, t)), t);
      ProbeRest(m, t, answers[1..]);
      LeavesRestCons(p, m, r, t, answers);
    }
  }

  /** One tag's turn in a pass of the probe tracker: its answers, how many get somewhere, and the answers left. */
  datatype Visit = Visit(tag: Tag, before: Proc, after: Proc, answers: seq<Answer>, n: nat, rest: seq<Answer>)

  ghost predicate VisitOk(v: Visit) {
    && ProbeOutcome(v.before, v.after, v.tag, v.answers, v.n)
    && LeavesRest(v.before, Probed(v.after, v.rest), v.tag, v.answers)
  }

  /** A pass visits every tag once, in key order, each with the answers the earlier ones left. */
  ghost predicate Visits(vs: seq<Visit>, p: Proc, q: Proc, tags: set<Tag>, answers: seq<Answer>) {
    if vs == [] then tags == {} && q == p
    else
      var v := vs[0];
      && v.before == p && v.answers == answers && VisitOk(v)
      && v.tag in tags && (forall t :: t in tags ==> v.tag <= t)
      && Visits(vs[1..], v.after, q, tags - {v.tag}, v.rest)
  }

  lemma VisitOf(p: Proc, t: Tag, answers: seq<Answer>) returns (v: Visit)
    ensures v.tag == t && v.before == p && v.answers == answers
    ensures Probed(v.after, v.rest) == ProbeTag(p, t, answers)
    ensures VisitOk(v)
  {
    var n := ProbeOutcomes(p, t, answers);
    ProbeRest(p, t, answers);
    v := Visit(t, p, ProbeTag(p, t, answers).proc, answers, n, ProbeTag(p, t, answers).answers);
  }

  lemma {:induction false} PassVisits(p: Proc, tags: set<Tag>, answers: seq<Answer>) returns (vs: seq<Visit>)
    ensures Visits(vs, p, ProbeTags(p, tags, answers), tags, answers)
    decreases tags
  {
    vs := [];
    if tags != {} {
      var t: Tag := Least(tags);
      var v := VisitOf(p, t, answers);
      var more := PassVisits(v.after, tags - {t}, v.rest);
      vs := [v] + more;
      assert vs[1..] == more;
    }
  }

  // ---------------------------------------------------------------------------------------
  // The object
  // ---------------------------------------------------------------------------------------

  class EventLoop {
    var tasks: seq<Task>
    var probes: map<Tag, seq<PromiseId>>
    var receives: seq<PendingReceive>
    var sends: seq<PromiseId>
    var probeRunning: bool
    var receiveRunning: bool
    var sendRunning: bool
    var inbox: map<Channel, seq<Block>>
    ghost var arrived: map<Channel, seq<Letter>>
    var strays: map<Channel, nat>
    var passes: nat
    var resolved: seq<Resolution>
    var resolvedSends: seq<SendResolution>
    var failed: set<PromiseId>
    var dropped: set<PromiseId>
    ghost var issued: seq<Tag>
    ghost var asked: seq<Sent>
    ghost var sent: seq<Sent>

    ghost function Snapshot(): Proc
      reads this
    {
      Proc(tasks, probes, receives, sends, probeRunning, receiveRunning, sendRunning, inbox, arrived, strays, passes,
           resolved, resolvedSends, failed, dropped, issued, asked, sent)
    }

    constructor ()
      ensures Snapshot() == INITIAL
    {
      tasks, probes, receives, sends := [], map[], [], [];
      probeRunning, receiveRunning, sendRunning := false, false, false;
      inbox, arrived, strays, passes := map[], map[], map[], 0;
      resolved, resolvedSends, failed, dropped, issued, asked, sent := [], [], {}, {}, [], [], [];
    }

    /** The two messages it sends, in this order. */
    method SendPosted(promise: PromiseId, letter: Sent) returns (out: seq<Block>)
      modifies this
      ensures Snapshot() == RunSend(old(Snapshot()), promise, letter)
      ensures out == [WireHeader(letter.letter), letter.letter.body]
    {
      out := [WireHeader(letter.letter)];
      out := out + [letter.letter.body];
      sent := sent + [letter];
      sends := sends + [promise];
      if !sendRunning {
        sendRunning := true;
        tasks := tasks + [TrackAsyncSend];
      }
    }

    method ReceivePosted(promise: PromiseId, t: Tag)
      modifies this
      ensures Snapshot() == RunReceive(old(Snapshot()), promise, t)
    {
      probes := probes[t := (if t in probes then probes[t] else []) + [promise]];
      if !probeRunning {
        probeRunning := true;
        tasks := tasks + [TrackAsyncProbe];
      }
    }

    method ClosePosted(t: Tag)
      modifies this
      ensures Snapshot() == RunClose(old(Snapshot()), t)
    {
      var broken := if t in probes then probes[t] else [];
      dropped := dropped + set i | i in broken;
      probes := probes - {t};
    }

    method SettleFrontSend(ok: bool)
      requires sends != []
      modifies this`sends, this`resolvedSends
      ensures sends == old(sends)[1..]
      ensures resolvedSends == old(resolvedSends) + [SendResolution(old(sends)[0], ok)]
    {
      resolvedSends := resolvedSends + [SendResolution(sends[0], ok)];
      sends := sends[1..];
    }

    /** The loop of the send tracker: it ends at the first send that is not complete. */
    method SettleFrontSends(done: seq<bool>)
      modifies this`sends, this`resolvedSends
      ensures Snapshot() == SettleSends(old(Snapshot()), done)
      ensures SendOutcome(old(sends), old(resolvedSends), done, sends, resolvedSends)
    {
      SendOutcomes(Snapshot(), done);
      var i := 0;
      assert done[0..] == done;
      while |sends| > 0 && i < |done|
        invariant i <= |done|
        invariant SettleSends(Snapshot(), done[i..]) == SettleSends(old(Snapshot()), done)
      {
        assert done[i..][1..] == done[i + 1..];
        SettleFrontSend(done[i]);
        i := i + 1;
      }
    }

    method TrackSend(done: seq<bool>)
      modifies this
      ensures Snapshot() == TrackSends(old(Snapshot()), done)
      ensures SendOutcome(old(sends), old(resolvedSends), done, sends, resolvedSends)
      ensures sends == [] ==> !sendRunning
      ensures sends != [] ==> sendRunning == old(sendRunning)
      ensures tasks == if sends == [] then old(tasks) else old(tasks) + [TrackAsyncSend]
    {
      SettleFrontSends(done);
      if |sends| == 0 {
        sendRunning := false;
      } else {
        tasks := tasks + [TrackAsyncSend];
      }
    }

    /** One test of the front pair; `done` says that it left the queue. */
    method TestFront(t: Tested) returns (done: bool)
      requires receives != []
      modifies this`receives, this`resolved
      ensures t.TestThrew? || Complete(Noted(old(receives)[0], t, passes)) <==> done
      ensures done ==> receives == old(receives)[1..]
      ensures !done ==> receives == [Noted(old(receives)[0], t, passes)] + old(receives)[1..]
      ensures !done ==> resolved == old(resolved)
      ensures t.TestThrew? ==> resolved == old(resolved) + [Resolution(old(receives)[0], None)]
      ensures t.Tested? && done ==>
                var front := old(receives)[0];
                var d := ReadPair(front.pair, t.beyond, StatusSource(front));
                resolved == old(resolved) + [Resolution(Noted(front, t, passes), Some(d))]
    {
      var front := receives[0];
      if t.TestThrew? {
        resolved := resolved + [Resolution(front, None)];
        receives := receives[1..];
        return true;
      }
      var source := StatusSource(front);
      var noted := Noted(front, t, passes);
      done := Complete(noted);
      if done {
        resolved := resolved + [Resolution(noted, Some(ReadPair(front.pair, t.beyond, source)))];
        receives := receives[1..];
      } else {
        receives := [noted] + receives[1..];
      }
    }

    /** The loop of the receive tracker: it ends at the first pair that is not complete. */
    method SettlePairs(tests: seq<Tested>)
      modifies this`receives, this`resolved
      ensures Snapshot() == SettleReceives(old(Snapshot()), tests)
    {
      var i, going := 0, true;
      assert tests[0..] == tests;
      while going && |receives| > 0 && i < |tests|
        invariant i <= |tests|
        invariant SettleReceives(old(Snapshot()), tests)
               == if going then SettleReceives(Snapshot(), tests[i..]) else Snapshot()
      {
        assert tests[i..][1..] == tests[i + 1..];
        going := TestFront(tests[i]);
        i := i + 1;
      }
    }

    method TrackReceive(tests: seq<Tested>)
      modifies this
      ensures Snapshot() == TrackReceives(old(Snapshot()), tests)
      ensures old(resolved) <= resolved
      ensures PassOutcome(old(receives), tests, receives, resolved[|old(resolved)|..])
      ensures receives == [] ==> !receiveRunning
      ensures receives != [] ==> receiveRunning == old(receiveRunning)
      ensures tasks == if receives == [] then old(tasks) else old(tasks) + [TrackAsyncReceive]
    {
      ghost var before := Snapshot();
      SettlePairs(tests);
      ghost var ends := ReceiveOutcomes(before, tests);
      assert resolved == old(resolved) + ends && resolved[|old(resolved)|..] == ends;
      passes := passes + 1;
      if |receives| == 0 {
        receiveRunning := false;
      } else {
        tasks := tasks + [TrackAsyncReceive];
      }
    }

    /** The two receives of a successful probe, for the oldest promise of the tag. */
    method TakePair(c: Channel) returns (r: PendingReceive)
      requires Matchable(Snapshot(), c)
      modifies this`probes, this`inbox
      ensures probes == old(probes)[c.tag := ProbesOf(old(Snapshot()), c.tag)[1..]]
      ensures inbox == old(inbox)[c := InboxOf(old(Snapshot()), c)[2..]]
      ensures r == PendingReceive(Pair(ProbesOf(old(Snapshot()), c.tag)[0], c, InboxOf(old(Snapshot()), c)[0],
                                       InboxOf(old(Snapshot()), c)[1], StraysOn(old(Snapshot()), c)), None, None)
    {
      var pair := Pair(probes[c.tag][0], c, inbox[c][0], inbox[c][1], if c in strays then strays[c] else 0);
      r := PendingReceive(pair, None, None);
      probes := probes[c.tag := probes[c.tag][1..]];
      inbox := inbox[c := inbox[c][2..]];
    }

    /** The handler of an exception inside the probe loop, after a header of `stray` was received or none was. */
    method FailOldest(t: Tag, stray: Option<Channel>)
      requires ProbesOf(Snapshot(), t) != []
      requires stray.Some? ==> InboxOf(Snapshot(), stray.value) != []
      modifies this`probes, this`inbox, this`strays, this`failed
      ensures Snapshot() == FailFront(if stray.Some? then Stray(old(Snapshot()), stray.value) else old(Snapshot()), t)
    {
      if stray.Some? {
        var c := stray.value;
        inbox := inbox[c := inbox[c][1..]];
        strays := strays[c := (if c in strays then strays[c] else 0) + 1];
      }
      failed := failed + {probes[t][0]};
      probes := probes[t := probes[t][1..]];
    }

    method PushReceive(r: PendingReceive)
      modifies this`receives, this`tasks, this`receiveRunning
      ensures receives == old(receives) + [r] && receiveRunning
      ensures tasks == PostOnce(old(tasks), old(receiveRunning), TrackAsyncReceive)
    {
      receives := receives + [r];
      if !receiveRunning {
        receiveRunning := true;
        tasks := tasks + [TrackAsyncReceive];
      }
    }

    method MatchOne(c: Channel)
      requires Matchable(Snapshot(), c)
      modifies this
      ensures Snapshot() == Match(old(Snapshot()), c)
    {
      var r := TakePair(c);
      PushReceive(r);
    }

    /** The inner loop of the probe tracker; `silent` says that a probe found nothing. */
    method ProbeOneTag(t: Tag, answers: seq<Answer>) returns (rest: seq<Answer>, silent: bool)
      requires t in probes
      modifies this
      ensures Probed(Snapshot(), rest) == ProbeTag(old(Snapshot()), t, answers)
      ensures probes == old(probes)[t := ProbesOf(Snapshot(), t)]
      ensures silent <==> probes[t] != []
    {
      rest, silent := answers, false;
      while |probes[t]| > 0
        invariant t in probes && probes == old(probes)[t := probes[t]]
        invariant ProbeTag(Snapshot(), t, rest) == ProbeTag(old(Snapshot()), t, answers)
        decreases |rest|
      {
        var answer := if rest == [] then Nobody else rest[0];
        var c := Channel(if answer.Found? || answer.ThrewOnBody? then answer.source else 0, t);
        var waiting := if c in inbox then |inbox[c]| else 0;
        if answer.Found? && waiting >= 2 {
          MatchOne(c);
        } else if answer.Threw? {
          FailOldest(t, None);
        } else if answer.ThrewOnBody? && waiting >= 1 {
          FailOldest(t, Some(c));
        } else {
          rest := if rest == [] then [] else rest[1..];
          silent := true;
          return;
        }
        rest := rest[1..];
      }
    }

    method ProbeAllTags(answers: seq<Answer>) returns (rerun: bool)
      modifies this
      ensures Snapshot() == ProbeTags(old(Snapshot()), old(probes).Keys, answers)
      ensures rerun <==> Left(probes, {})
      ensures exists vs :: Visits(vs, old(Snapshot()), Snapshot(), old(probes).Keys, answers)
    {
      ghost var vs := PassVisits(Snapshot(), probes.Keys, answers);
      rerun := false;
      var left := answers;
      var tags := probes.Keys;
      while tags != {}
        invariant tags <= probes.Keys
        invariant ProbeTags(Snapshot(), tags, left) == ProbeTags(old(Snapshot()), old(probes).Keys, answers)
        invariant rerun <==> Left(probes, tags)
        decreases |tags|
      {
        LeastExists(tags);
        var t :| t in tags && forall u :: u in tags ==> t <= u;
        LeastUnique(tags, t);
        var silent;
        ghost var before := probes;
        left, silent := ProbeOneTag(t, left);
        LeftAfter(before, probes, tags, t);
        rerun := rerun || silent;
        tags := tags - {t};
      }
    }

    method EraseEmpty()
      modifies this`probes
      ensures probes == WithoutEmpty(old(probes))
      ensures forall t :: t in probes <==> t in old(probes) && old(probes)[t] != []
    {
      probes := map t | t in probes && probes[t] != [] :: probes[t];
    }

    method TrackProbe(answers: seq<Answer>)
      modifies this
      ensures Snapshot() == TrackProbes(old(Snapshot()), answers)
      ensures probes == map[] ==> !probeRunning
      ensures probes != map[] ==> TrackAsyncProbe in tasks
    {
      var rerun := ProbeAllTags(answers);
      LeftIff(probes);
      EraseEmpty();
      if rerun {
        tasks := tasks + [TrackAsyncProbe];
      } else {
        probeRunning := false;
      }
    }
  }
}
