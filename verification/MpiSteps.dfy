/** Every task of every process keeps the invariant of the MPI event loops. */
module MpiSteps {
  import opened Wrappers
  import opened Sequences
  import opened Bytes
  import opened BoostMpi

  // ---------------------------------------------------------------------------------------
  // All processes together
  // ---------------------------------------------------------------------------------------

  type World = map<Rank, Proc>

  datatype Action =
    | PostSend(rank: Rank, remote: Endpoint, letter: Letter)
    | PostReceive(rank: Rank, tag: Tag)
    | PostClose(rank: Rank, tag: Tag)
    | Run(rank: Rank, sends: seq<bool>, receives: seq<Tested>, answers: seq<Answer>)

  /** The two messages of a letter join the unmatched ones of its channel. */
  function Deliver(p: Proc, c: Channel, l: Letter): Proc {
    p.(inbox := p.inbox[c := InboxOf(p, c) + [WireHeader(l), l.body]],
       arrived := p.arrived[c := ArrivedOn(p, c) + [l]])
  }

  /** All processes after one of them has handed a letter to MPI. */
  function AfterSend(w: World, r: Rank, q: Proc, s: Sent): World
    requires r in w && s.remote.rank in w
  {
    var w' := w[r := q];
    w'[s.remote.rank := Deliver(w'[s.remote.rank], Channel(r, s.remote.tag), s.letter)]
  }

  /** What the front task does to its own process. */
  ghost function RunTask(p: Proc, sends: seq<bool>, receives: seq<Tested>, answers: seq<Answer>): Proc
    requires p.tasks != []
  {
    var q := p.(tasks := p.tasks[1..]);
    match p.tasks[0]
    case SendTask(promise, remote, letter) => RunSend(q, promise, Sent(remote, letter))
    case ReceiveTask(promise, t) => RunReceive(q, promise, t)
    case CloseTask(t) => RunClose(q, t)
    case TrackAsyncSend => TrackSends(q, sends)
    case TrackAsyncReceive => TrackReceives(q, receives)
    case TrackAsyncProbe => TrackProbes(q, answers)
  }

  function Posted(p: Proc, t: Task): Proc {
    p.(tasks := p.tasks + [t])
  }

  ghost predicate Enabled(w: World, a: Action) {
    && a.rank in w
    && match a
       case PostSend(_, remote, _) => remote.rank in w
       case PostReceive(_, t) => t != 0
       case PostClose(_, _) => true
       case Run(_, _, receives, _) =>
         && w[a.rank].tasks != []
         && (w[a.rank].tasks[0].SendTask? ==> w[a.rank].tasks[0].remote.rank in w)
         && FullTests(receives)
  }

  ghost function Apply(w: World, a: Action): World
    requires Enabled(w, a)
  {
    var p := w[a.rank];
    match a
    case PostSend(r, remote, letter) =>
      w[r := Posted(p, SendTask(|p.asked|, remote, letter)).(asked := p.asked + [Sent(remote, letter)])]
    case PostReceive(r, t) => w[r := Posted(p, ReceiveTask(|p.issued|, t)).(issued := p.issued + [t])]
    case PostClose(r, t) => w[r := Posted(p, CloseTask(t))]
    case Run(r, sends, receives, answers) =>
      var q := RunTask(p, sends, receives, answers);
      match p.tasks[0]
      case SendTask(_, remote, letter) => AfterSend(w, r, q, Sent(remote, letter))
      case _ => w[r := q]
  }

  ghost predicate Init(w: World) {
    forall r :: r in w ==> w[r] == INITIAL
  }

  ghost predicate Next(w: World, w': World) {
    exists a :: Enabled(w, a) && w' == Apply(w, a)
  }

  ghost predicate StepAt(run: seq<World>, i: nat) {
    i + 1 < |run| ==> Next(run[i], run[i + 1])
  }

  ghost predicate IsRun(run: seq<World>) {
    |run| > 0 && Init(run[0]) && forall i: nat :: StepAt(run, i)
  }

  ghost predicate Reachable(w: World) {
    exists run :: IsRun(run) && run[|run| - 1] == w
  }

  // ---------------------------------------------------------------------------------------
  // Receive promises, in line per tag
  // ---------------------------------------------------------------------------------------

  function ResolvedPairs(log: seq<Resolution>): seq<Pair> {
    seq(|log|, i requires 0 <= i < |log| => log[i].pending.pair)
  }

  function PendingPairs(rs: seq<PendingReceive>): seq<Pair> {
    seq(|rs|, i requires 0 <= i < |rs| => rs[i].pair)
  }

  /** Every pair matched so far, in the order of matching. */
  function Matched(p: Proc): seq<Pair> {
    ResolvedPairs(p.resolved) + PendingPairs(p.receives)
  }

  function MatchedIds(ms: seq<Pair>, t: Tag): seq<PromiseId> {
    if ms == [] then []
    else
      var m := ms[|ms| - 1];
      MatchedIds(ms[..|ms| - 1], t) + if m.channel.tag == t then [m.promise] else []
  }

  function PostedIds(tasks: seq<Task>, t: Tag): seq<PromiseId> {
    if tasks == [] then []
    else if tasks[0].ReceiveTask? && tasks[0].tag == t then [tasks[0].promise] + PostedIds(tasks[1..], t)
    else PostedIds(tasks[1..], t)
  }

  /** The promises of a tag from the oldest matched to the newest posted. */
  function Line(p: Proc, t: Tag): seq<PromiseId> {
    MatchedIds(Matched(p), t) + ProbesOf(p, t) + PostedIds(p.tasks, t)
  }

  predicate Increasing(s: seq<nat>) {
    forall i, j :: 0 <= i < j < |s| ==> s[i] < s[j]
  }

  /** A tag's line holds, in increasing order, exactly the promises issued for it that are not gone. */
  ghost predicate LineOk(line: seq<PromiseId>, issued: seq<Tag>, gone: set<PromiseId>, t: Tag) {
    && Increasing(line)
    && (forall i :: i in line ==> i < |issued| && issued[i] == t && i !in gone)
    && (forall i :: 0 <= i < |issued| && issued[i] == t && i !in gone ==> i in line)
    && (forall i :: i in gone ==> i < |issued|)
  }

  /** The promises that have left without a pair: failed while probing, or dropped by `close`. */
  function Gone(p: Proc): set<PromiseId> {
    p.failed + p.dropped
  }

  ghost predicate LineInv(p: Proc, t: Tag) {
    LineOk(Line(p, t), p.issued, Gone(p), t)
  }

  lemma {:induction false} PostedConcat(a: seq<Task>, b: seq<Task>, t: Tag)
    ensures PostedIds(a + b, t) == PostedIds(a, t) + PostedIds(b, t)
  {
    if a == [] {
      assert a + b == b;
    } else {
      PostedConcat(a[1..], b, t);
      assert (a + b)[1..] == a[1..] + b;
      if a[0].ReceiveTask? && a[0].tag == t {
        Concat3([a[0].promise], PostedIds(a[1..], t), PostedIds(b, t));
      }
    }
  }

  lemma MatchedSnoc(ms: seq<Pair>, m: Pair, t: Tag)
    ensures MatchedIds(ms + [m], t) == MatchedIds(ms, t) + if m.channel.tag == t then [m.promise] else []
  {
    assert (ms + [m])[..|ms|] == ms;
  }

  lemma PostedTracker(tasks: seq<Task>, tracker: Task, t: Tag)
    requires !tracker.ReceiveTask?
    ensures PostedIds(tasks + [tracker], t) == PostedIds(tasks, t)
  {
    PostedConcat(tasks, [tracker], t);
  }

  // ---------------------------------------------------------------------------------------
  // Letters, in order per channel
  // ---------------------------------------------------------------------------------------

  /** The messages of some letters: header, body, header, body, ... */
  function Messages(ls: seq<Letter>): seq<Block> {
    if ls == [] then [] else [WireHeader(ls[0]), ls[0].body] + Messages(ls[1..])
  }

  lemma {:induction false} MessagesAt(ls: seq<Letter>, i: nat)
    requires i < |ls|
    ensures |Messages(ls)| == 2 * |ls|
    ensures Messages(ls)[2 * i] == WireHeader(ls[i]) && Messages(ls)[2 * i + 1] == ls[i].body
  {
    if i > 0 {
      MessagesAt(ls[1..], i - 1);
    } else {
      MessagesLength(ls);
    }
  }

  lemma {:induction false} MessagesLength(ls: seq<Letter>)
    ensures |Messages(ls)| == 2 * |ls|
  {
    if ls != [] {
      MessagesLength(ls[1..]);
    }
  }

  function OnChannel(ms: seq<Pair>, c: Channel): seq<Pair> {
    if ms == [] then []
    else
      var m := ms[|ms| - 1];
      OnChannel(ms[..|ms| - 1], c) + if m.channel == c then [m] else []
  }

  /** A matched pair holds the header and the body of one letter. */
  predicate Carries(m: Pair, l: Letter) {
    m.header == WireHeader(l) && m.body == l.body
  }

  /** Where in the messages of its channel the j-th pair starts. */
  function Position(m: Pair, j: nat): nat {
    2 * j + m.skipped
  }

  /** The j-th pair of a channel is two messages in a row, behind all earlier pairs and skipped messages. */
  predicate PairAt(m: Pair, j: nat, stream: seq<Block>, strays: nat) {
    && m.skipped <= strays
    && Position(m, j) + 1 < |stream|
    && m.header == stream[Position(m, j)] && m.body == stream[Position(m, j) + 1]
  }

  ghost predicate PairsOk(ms: seq<Pair>, stream: seq<Block>, strays: nat) {
    forall j :: 0 <= j < |ms| ==> PairAt(ms[j], j, stream, strays)
  }

  /** The pairs and the skipped messages come first; the inbox is the rest. */
  ghost predicate ChannelOk(ms: seq<Pair>, stream: seq<Block>, strays: nat, inbox: seq<Block>) {
    && 2 * |ms| + strays <= |stream|
    && inbox == stream[2 * |ms| + strays..]
    && PairsOk(ms, stream, strays)
  }

  ghost predicate ChannelInv(p: Proc, c: Channel) {
    ChannelOk(OnChannel(Matched(p), c), Messages(ArrivedOn(p, c)), StraysOn(p, c), InboxOf(p, c))
  }

  /** How many messages of a channel have been received. */
  function TakenFrom(p: Proc, c: Channel): nat {
    2 * |OnChannel(Matched(p), c)| + StraysOn(p, c)
  }

  lemma OnChannelSnoc(ms: seq<Pair>, m: Pair, c: Channel)
    ensures OnChannel(ms + [m], c) == OnChannel(ms, c) + if m.channel == c then [m] else []
  {
    assert (ms + [m])[..|ms|] == ms;
  }

  lemma {:induction false} MessagesSnoc(ls: seq<Letter>, l: Letter)
    ensures Messages(ls + [l]) == Messages(ls) + [WireHeader(l), l.body]
  {
    if ls == [] {
      assert [] + [l] == [l];
    } else {
      MessagesSnoc(ls[1..], l);
      assert (ls + [l])[1..] == ls[1..] + [l];
    }
  }

  // ---------------------------------------------------------------------------------------
  // Flags
  // ---------------------------------------------------------------------------------------

  /** How often a tracker is posted. */
  function Trackers(p: Proc, t: Task): nat {
    multiset(p.tasks)[t]
  }

  function AsNat(b: bool): nat {
    if b then 1 else 0
  }

  predicate SendFlag(p: Proc) {
    Trackers(p, TrackAsyncSend) == AsNat(p.sendRunning) && (p.sends != [] ==> p.sendRunning)
  }

  predicate ReceiveFlag(p: Proc) {
    Trackers(p, TrackAsyncReceive) == AsNat(p.receiveRunning) && (p.receives != [] ==> p.receiveRunning)
  }

  ghost predicate ProbeFlag(p: Proc) {
    && Trackers(p, TrackAsyncProbe) == AsNat(p.probeRunning)
    && (p.probes != map[] ==> p.probeRunning)
    && forall t :: t in p.probes ==> p.probes[t] != []
  }

  // ---------------------------------------------------------------------------------------
  // Send promises and resolutions
  // ---------------------------------------------------------------------------------------

  function ResolvedSendIds(log: seq<SendResolution>): seq<PromiseId> {
    seq(|log|, i requires 0 <= i < |log| => log[i].promise)
  }

  function PostedSendIds(tasks: seq<Task>): seq<PromiseId> {
    if tasks == [] then []
    else if tasks[0].SendTask? then [tasks[0].promise] + PostedSendIds(tasks[1..])
    else PostedSendIds(tasks[1..])
  }

  function PostedLetters(tasks: seq<Task>): seq<Sent> {
    if tasks == [] then []
    else if tasks[0].SendTask? then [Sent(tasks[0].remote, tasks[0].letter)] + PostedLetters(tasks[1..])
    else PostedLetters(tasks[1..])
  }

  /**
   * All send promises, from the oldest resolved to the newest posted, are 0, 1, 2, ..., and the
   * letters handed to MPI and the letters still posted are those asked for, in that order.
   */
  ghost predicate SendLine(p: Proc) {
    && ResolvedSendIds(p.resolvedSends) + p.sends + PostedSendIds(p.tasks) == seq(|p.asked|, i => i)
    && p.sent + PostedLetters(p.tasks) == p.asked
  }

  lemma {:induction false} PostedSendConcat(a: seq<Task>, b: seq<Task>)
    ensures PostedSendIds(a + b) == PostedSendIds(a) + PostedSendIds(b)
    ensures PostedLetters(a + b) == PostedLetters(a) + PostedLetters(b)
  {
    if a == [] {
      assert a + b == b;
    } else {
      PostedSendConcat(a[1..], b);
      assert (a + b)[1..] == a[1..] + b;
      if a[0].SendTask? {
        Concat3([a[0].promise], PostedSendIds(a[1..]), PostedSendIds(b));
        Concat3([Sent(a[0].remote, a[0].letter)], PostedLetters(a[1..]), PostedLetters(b));
      }
    }
  }

  /** The rank a datagram must name: the source's, or none if the header's request completed in an earlier pass. */
  function NamedRank(r: PendingReceive): int
    requires Complete(r)
  {
    if r.headerAt.value < r.bodyAt.value then ANY_SOURCE else r.pair.channel.source
  }

  /** A resolved datagram shows what its pair carried, and four bytes more behind the header. */
  predicate Faithful(r: Resolution) {
    r.datagram.Some? ==>
      var d, h := r.datagram.value, r.pending.pair.header;
      && Complete(r.pending)
      && d.body == r.pending.pair.body
      && |d.header| == |h|
      && (|h| >= TAG_WIDTH ==> h[TAG_WIDTH..] <= d.header && d.remote.tag == Signed(Decode(h[..TAG_WIDTH])))
      && d.remote.rank == NamedRank(r.pending)
  }

  ghost predicate FaithfulInv(p: Proc) {
    forall i :: 0 <= i < |p.resolved| ==> Faithful(p.resolved[i])
  }

  /** A pending pair was seen to complete in part at most, and before this pass. */
  predicate SeenBefore(r: PendingReceive, passes: nat) {
    && (r.headerAt.Some? ==> r.headerAt.value < passes)
    && (r.bodyAt.Some? ==> r.bodyAt.value < passes)
    && !Complete(r)
  }

  ghost predicate PassInv(p: Proc) {
    forall i :: 0 <= i < |p.receives| ==> SeenBefore(p.receives[i], p.passes)
  }

  // ---------------------------------------------------------------------------------------
  // The invariant of one process
  // ---------------------------------------------------------------------------------------

  ghost predicate Core(p: Proc) {
    && (forall t :: LineInv(p, t))
    && (forall c :: ChannelInv(p, c))
    && SendLine(p)
    && FaithfulInv(p)
    && PassInv(p)
    && p.failed !! p.dropped
  }

  ghost predicate ProcInv(p: Proc) {
    SendFlag(p) && ReceiveFlag(p) && ProbeFlag(p) && Core(p)
  }

  ghost predicate SameLines(p: Proc, q: Proc) {
    && q.issued == p.issued && q.dropped == p.dropped && q.failed == p.failed
    && forall t :: Line(q, t) == Line(p, t)
  }

  ghost predicate SameChannels(p: Proc, q: Proc) {
    q.inbox == p.inbox && q.arrived == p.arrived && q.strays == p.strays && Matched(q) == Matched(p)
  }

  ghost predicate SameSends(p: Proc, q: Proc) {
    && q.asked == p.asked
    && q.sent + PostedLetters(q.tasks) == p.sent + PostedLetters(p.tasks)
    && ResolvedSendIds(q.resolvedSends) + q.sends + PostedSendIds(q.tasks)
       == ResolvedSendIds(p.resolvedSends) + p.sends + PostedSendIds(p.tasks)
  }

  lemma LinesFrame(p: Proc, q: Proc)
    requires SameLines(p, q) && forall t :: LineInv(p, t)
    ensures forall t :: LineInv(q, t)
  {
    forall t
      ensures LineInv(q, t)
    {
      assert LineInv(p, t);
    }
  }

  lemma ChannelsFrame(p: Proc, q: Proc)
    requires SameChannels(p, q) && forall c :: ChannelInv(p, c)
    ensures forall c :: ChannelInv(q, c)
  {
    forall c
      ensures ChannelInv(q, c)
    {
      assert ChannelInv(p, c);
    }
  }

  lemma CoreFrame(p: Proc, q: Proc)
    requires Core(p) && SameLines(p, q) && SameChannels(p, q) && SameSends(p, q) && FaithfulInv(q) && PassInv(q)
    ensures Core(q)
  {
    LinesFrame(p, q);
    ChannelsFrame(p, q);
  }

  /** Posting or removing a tracker concerns nobody's promises. */
  lemma TrackerPosted(p: Proc, tracker: Task)
    requires tracker.TrackAsyncSend? || tracker.TrackAsyncReceive? || tracker.TrackAsyncProbe?
    ensures SameLines(p, Posted(p, tracker)) && SameChannels(p, Posted(p, tracker)) && SameSends(p, Posted(p, tracker))
  {
    forall t
      ensures Line(Posted(p, tracker), t) == Line(p, t)
    {
      PostedTracker(p.tasks, tracker, t);
    }
    PostedSendConcat(p.tasks, [tracker]);
  }

  lemma HeadRemoved(p: Proc)
    requires p.tasks != []
    requires !p.tasks[0].SendTask? && !p.tasks[0].ReceiveTask?
    ensures var q := p.(tasks := p.tasks[1..]);
      SameLines(p, q) && SameChannels(p, q) && SameSends(p, q)
  {
  }

  /** The tracker counts without the front task. */
  lemma HeadCounts(p: Proc)
    requires p.tasks != []
    ensures var q := p.(tasks := p.tasks[1..]);
      && Trackers(p, TrackAsyncSend) == Trackers(q, TrackAsyncSend) + AsNat(p.tasks[0].TrackAsyncSend?)
      && Trackers(p, TrackAsyncReceive) == Trackers(q, TrackAsyncReceive) + AsNat(p.tasks[0].TrackAsyncReceive?)
      && Trackers(p, TrackAsyncProbe) == Trackers(q, TrackAsyncProbe) + AsNat(p.tasks[0].TrackAsyncProbe?)
  {
    MultisetHead(p.tasks);
  }

  // ---------------------------------------------------------------------------------------
  // Send tracker
  // ---------------------------------------------------------------------------------------

  lemma {:induction false} SettledSends(p: Proc, done: seq<bool>)
    ensures var q := SettleSends(p, done);
      && q == p.(sends := q.sends, resolvedSends := q.resolvedSends)
      && ResolvedSendIds(q.resolvedSends) + q.sends == ResolvedSendIds(p.resolvedSends) + p.sends
    decreases |done|
  {
    if p.sends != [] && done != [] {
      var r := SendResolution(p.sends[0], done[0]);
      var m := p.(sends := p.sends[1..], resolvedSends := p.resolvedSends + [r]);
      SettledSends(m, done[1..]);
      assert ResolvedSendIds(m.resolvedSends) == ResolvedSendIds(p.resolvedSends) + [p.sends[0]];
      assert [p.sends[0]] + p.sends[1..] == p.sends;
    }
  }

  lemma SettledSendsCore(h: Proc, q: Proc)
    requires Core(h) && q == h.(sends := q.sends, resolvedSends := q.resolvedSends)
    requires ResolvedSendIds(q.resolvedSends) + q.sends == ResolvedSendIds(h.resolvedSends) + h.sends
    ensures Core(q)
  {
    assert SameLines(h, q);
    CoreFrame(h, q);
  }

  lemma TrackSendsCore(p: Proc, done: seq<bool>)
    requires Core(p) && p.tasks != [] && p.tasks[0] == TrackAsyncSend
    ensures Core(TrackSends(p.(tasks := p.tasks[1..]), done))
  {
    var h := p.(tasks := p.tasks[1..]);
    HeadRemoved(p);
    CoreFrame(p, h);
    SettledSends(h, done);
    var q := SettleSends(h, done);
    SettledSendsCore(h, q);
    if q.sends != [] {
      TrackerPosted(q, TrackAsyncSend);
      CoreFrame(q, Posted(q, TrackAsyncSend));
    } else {
      CoreFrame(q, q.(sendRunning := false));
    }
  }

  lemma TrackSendsFlags(h: Proc, q: Proc)
    requires ReceiveFlag(h) && ProbeFlag(h) && h.sendRunning && Trackers(h, TrackAsyncSend) == 0
    requires q == h.(sends := q.sends, resolvedSends := q.resolvedSends)
    ensures var r := if q.sends == [] then q.(sendRunning := false) else q.(tasks := q.tasks + [TrackAsyncSend]);
      SendFlag(r) && ReceiveFlag(r) && ProbeFlag(r)
  {
  }

  lemma TrackSendsKeeps(p: Proc, done: seq<bool>)
    requires ProcInv(p) && p.tasks != [] && p.tasks[0] == TrackAsyncSend
    ensures ProcInv(TrackSends(p.(tasks := p.tasks[1..]), done))
  {
    HeadCounts(p);
    var h := p.(tasks := p.tasks[1..]);
    SettledSends(p.(tasks := p.tasks[1..]), done);
    TrackSendsCore(p, done);
    TrackSendsFlags(h, SettleSends(h, done));
  }

  // ---------------------------------------------------------------------------------------
  // Receive tracker
  // ---------------------------------------------------------------------------------------

  predicate FullTests(tests: seq<Tested>) {
    forall i :: 0 <= i < |tests| && tests[i].Tested? ==> |tests[i].beyond| == TAG_WIDTH
  }

  /** What a test that completes both requests makes of its pair. */
  lemma TestFaithful(r: PendingReceive, t: Tested, now: nat)
    requires SeenBefore(r, now) && t.Tested? && |t.beyond| == TAG_WIDTH && Complete(Noted(r, t, now))
    ensures Faithful(Resolution(Noted(r, t, now), Some(ReadPair(r.pair, t.beyond, StatusSource(r)))))
  {
    var h := r.pair.header;
    if |h| >= TAG_WIDTH {
      assert (h + t.beyond)[..TAG_WIDTH] == h[..TAG_WIDTH];
      assert (h + t.beyond)[TAG_WIDTH..] == h[TAG_WIDTH..] + t.beyond;
    }
  }

  lemma FrontSettled(p: Proc, r: Resolution)
    requires p.receives != [] && r.pending.pair == p.receives[0].pair
    requires FaithfulInv(p) && PassInv(p) && Faithful(r)
    ensures var m := p.(receives := p.receives[1..], resolved := p.resolved + [r]);
      Matched(m) == Matched(p) && FaithfulInv(m) && PassInv(m)
  {
    assert PendingPairs(p.receives) == [r.pending.pair] + PendingPairs(p.receives[1..]);
    assert ResolvedPairs(p.resolved + [r]) == ResolvedPairs(p.resolved) + [r.pending.pair];
    Concat3(ResolvedPairs(p.resolved), [r.pending.pair], PendingPairs(p.receives[1..]));
  }

  lemma FrontNoted(p: Proc, t: Tested)
    requires p.receives != [] && PassInv(p) && t.Tested? && !Complete(Noted(p.receives[0], t, p.passes))
    ensures var m := p.(receives := [Noted(p.receives[0], t, p.passes)] + p.receives[1..]);
      Matched(m) == Matched(p) && PassInv(m.(passes := p.passes + 1))
  {
    var m := p.(receives := [Noted(p.receives[0], t, p.passes)] + p.receives[1..]);
    assert PendingPairs(m.receives) == PendingPairs(p.receives);
    assert SeenBefore(p.receives[0], p.passes);
    forall i | 0 <= i < |m.receives|
      ensures SeenBefore(m.receives[i], p.passes + 1)
    {
      assert SeenBefore(p.receives[i], p.passes);
    }
  }

  lemma PassLater(p: Proc)
    requires PassInv(p)
    ensures PassInv(p.(passes := p.passes + 1))
  {
    forall i | 0 <= i < |p.receives|
      ensures SeenBefore(p.receives[i], p.passes + 1)
    {
      assert SeenBefore(p.receives[i], p.passes);
    }
  }

  lemma {:induction false} SettledReceives(p: Proc, tests: seq<Tested>)
    requires FaithfulInv(p) && PassInv(p) && FullTests(tests)
    ensures var q := SettleReceives(p, tests);
      && q == p.(receives := q.receives, resolved := q.resolved)
      && Matched(q) == Matched(p) && FaithfulInv(q) && PassInv(q.(passes := p.passes + 1))
    decreases |tests|
  {
    if p.receives == [] || tests == [] {
      PassLater(p);
    } else {
      var front, t := p.receives[0], tests[0];
      assert SeenBefore(front, p.passes);
      if t.TestThrew? {
        var r := Resolution(front, None);
        FrontSettled(p, r);
        SettledReceives(p.(receives := p.receives[1..], resolved := p.resolved + [r]), tests[1..]);
      } else if Complete(Noted(front, t, p.passes)) {
        TestFaithful(front, t, p.passes);
        var r := Resolution(Noted(front, t, p.passes), Some(ReadPair(front.pair, t.beyond, StatusSource(front))));
        FrontSettled(p, r);
        SettledReceives(p.(receives := p.receives[1..], resolved := p.resolved + [r]), tests[1..]);
      } else {
        FrontNoted(p, t);
      }
    }
  }

  /** A finished pass, before the tracker posts itself again or clears its flag. */
  function Passed(p: Proc, tests: seq<Tested>): Proc {
    var q := SettleReceives(p, tests);
    q.(passes := q.passes + 1)
  }

  lemma PassedCore(h: Proc, tests: seq<Tested>)
    requires Core(h) && FullTests(tests)
    ensures Core(Passed(h, tests))
  {
    SettledReceives(h, tests);
    var q := Passed(h, tests);
    assert SameLines(h, q);
    CoreFrame(h, q);
  }

  lemma TrackReceivesCore(p: Proc, tests: seq<Tested>)
    requires Core(p) && p.tasks != [] && p.tasks[0] == TrackAsyncReceive && FullTests(tests)
    ensures Core(TrackReceives(p.(tasks := p.tasks[1..]), tests))
  {
    var h := p.(tasks := p.tasks[1..]);
    HeadRemoved(p);
    CoreFrame(p, h);
    PassedCore(h, tests);
    var q := Passed(h, tests);
    if q.receives != [] {
      TrackerPosted(q, TrackAsyncReceive);
      CoreFrame(q, Posted(q, TrackAsyncReceive));
    } else {
      CoreFrame(q, q.(receiveRunning := false));
    }
  }

  lemma TrackReceivesFlags(h: Proc, q: Proc)
    requires SendFlag(h) && ProbeFlag(h) && h.receiveRunning && Trackers(h, TrackAsyncReceive) == 0
    requires q == h.(receives := q.receives, resolved := q.resolved, passes := q.passes)
    ensures var r := if q.receives == [] then q.(receiveRunning := false)
                     else q.(tasks := q.tasks + [TrackAsyncReceive]);
      SendFlag(r) && ReceiveFlag(r) && ProbeFlag(r)
  {
  }

  lemma TrackReceivesKeeps(p: Proc, tests: seq<Tested>)
    requires ProcInv(p) && p.tasks != [] && p.tasks[0] == TrackAsyncReceive && FullTests(tests)
    ensures ProcInv(TrackReceives(p.(tasks := p.tasks[1..]), tests))
  {
    HeadCounts(p);
    var h := p.(tasks := p.tasks[1..]);
    SettledReceives(h, tests);
    TrackReceivesCore(p, tests);
    TrackReceivesFlags(h, Passed(h, tests));
  }

  // ---------------------------------------------------------------------------------------
  // Probe tracker
  // ---------------------------------------------------------------------------------------

  /** Inside the probe tracker: its own flag is up and it is not posted. */
  predicate Probing(p: Proc) {
    SendFlag(p) && ReceiveFlag(p) && p.probeRunning && Trackers(p, TrackAsyncProbe) == 0
  }

  predicate SameLetters(p: Proc, q: Proc) {
    q.arrived == p.arrived && q.sent == p.sent
  }

  function NextPair(p: Proc, c: Channel): Pair
    requires Matchable(p, c)
  {
    Pair(ProbesOf(p, c.tag)[0], c, InboxOf(p, c)[0], InboxOf(p, c)[1], StraysOn(p, c))
  }

  lemma MatchedMatched(p: Proc, c: Channel)
    requires Matchable(p, c)
    ensures Matched(Match(p, c)) == Matched(p) + [NextPair(p, c)]
  {
    var r := PendingReceive(NextPair(p, c), None, None);
    assert PendingPairs(p.receives + [r]) == PendingPairs(p.receives) + [r.pair];
    Concat3(ResolvedPairs(p.resolved), PendingPairs(p.receives), [r.pair]);
  }

  /** The oldest waiting promise moves over to the matched ones of its tag. */
  lemma MatchIds(p: Proc, c: Channel, t: Tag)
    requires Matchable(p, c)
    ensures MatchedIds(Matched(Match(p, c)), t) + ProbesOf(Match(p, c), t) == MatchedIds(Matched(p), t) + ProbesOf(p, t)
  {
    var m := NextPair(p, c);
    MatchedMatched(p, c);
    MatchedSnoc(Matched(p), m, t);
    if t == c.tag {
      assert ProbesOf(p, t) == [m.promise] + ProbesOf(Match(p, c), t);
      Concat3(MatchedIds(Matched(p), t), [m.promise], ProbesOf(Match(p, c), t));
    }
  }

  lemma MatchLine(p: Proc, c: Channel, t: Tag)
    requires Matchable(p, c)
    ensures Line(Match(p, c), t) == Line(p, t)
  {
    MatchIds(p, c, t);
    PostedTracker(p.tasks, TrackAsyncReceive, t);
  }

  /** The two messages that are matched are the next two of the channel. */
  lemma MatchOwnChannel(p: Proc, c: Channel)
    requires Matchable(p, c) && ChannelInv(p, c)
    ensures ChannelInv(Match(p, c), c)
  {
    var ms, m := OnChannel(Matched(p), c), NextPair(p, c);
    MatchedMatched(p, c);
    OnChannelSnoc(Matched(p), m, c);
    PairTaken(ms, m, Messages(ArrivedOn(p, c)), StraysOn(p, c), InboxOf(p, c));
    ChannelFrom(Match(p, c), c, ms + [m], StraysOn(p, c), InboxOf(p, c)[2..]);
  }

  lemma MatchOtherChannel(p: Proc, c: Channel, d: Channel)
    requires Matchable(p, c) && ChannelInv(p, d) && c != d
    ensures ChannelInv(Match(p, c), d)
  {
    var ms := OnChannel(Matched(p), d);
    assert OnChannel(Matched(Match(p, c)), d) == ms by {
      MatchedMatched(p, c);
      OnChannelSnoc(Matched(p), NextPair(p, c), d);
      assert ms + [] == ms;
    }
    ChannelFrom(Match(p, c), d, ms, StraysOn(p, d), InboxOf(p, d));
  }

  lemma ChannelFrom(q: Proc, c: Channel, ms: seq<Pair>, strays: nat, inbox: seq<Block>)
    requires ms == OnChannel(Matched(q), c) && strays == StraysOn(q, c) && inbox == InboxOf(q, c)
    requires ChannelOk(ms, Messages(ArrivedOn(q, c)), strays, inbox)
    ensures ChannelInv(q, c)
  {
  }

  lemma PairTaken(ms: seq<Pair>, m: Pair, stream: seq<Block>, strays: nat, inbox: seq<Block>)
    requires ChannelOk(ms, stream, strays, inbox) && |inbox| >= 2
    requires m.skipped == strays && m.header == inbox[0] && m.body == inbox[1]
    ensures ChannelOk(ms + [m], stream, strays, inbox[2..])
  {
    forall j | 0 <= j < |ms + [m]|
      ensures PairAt((ms + [m])[j], j, stream, strays)
    {
      if j < |ms| {
        assert PairAt(ms[j], j, stream, strays);
      }
    }
  }

  lemma MatchCore(p: Proc, c: Channel)
    requires Core(p) && Matchable(p, c)
    ensures Core(Match(p, c))
  {
    var q := Match(p, c);
    forall t
      ensures Line(q, t) == Line(p, t)
    {
      MatchLine(p, c, t);
    }
    LinesFrame(p, q);
    forall d
      ensures ChannelInv(q, d)
    {
      assert ChannelInv(p, d);
      if c == d {
        MatchOwnChannel(p, c);
      } else {
        MatchOtherChannel(p, c, d);
      }
    }
    PostedSendConcat(p.tasks, [TrackAsyncReceive]);
  }

  /** A header received for nothing shifts the later pairs of its channel by one message, no earlier one. */
  lemma StrayCore(p: Proc, c: Channel)
    requires Core(p) && InboxOf(p, c) != []
    ensures Core(Stray(p, c))
  {
    var q := Stray(p, c);
    LinesFrame(p, q);
    forall d
      ensures ChannelInv(q, d)
    {
      assert ChannelInv(p, d);
      StrayChannel(p, c, d);
    }
  }

  lemma StrayChannel(p: Proc, c: Channel, d: Channel)
    requires ChannelInv(p, d) && InboxOf(p, c) != []
    ensures ChannelInv(Stray(p, c), d)
  {
    assert Matched(Stray(p, c)) == Matched(p);
    if c == d {
      StrayTaken(OnChannel(Matched(p), d), Messages(ArrivedOn(p, d)), StraysOn(p, d), InboxOf(p, d));
    }
  }

  lemma StrayTaken(ms: seq<Pair>, stream: seq<Block>, strays: nat, inbox: seq<Block>)
    requires ChannelOk(ms, stream, strays, inbox) && inbox != []
    ensures ChannelOk(ms, stream, strays + 1, inbox[1..])
  {
    forall j | 0 <= j < |ms|
      ensures PairAt(ms[j], j, stream, strays + 1)
    {
      assert PairAt(ms[j], j, stream, strays);
    }
  }

  /** A failing probe takes the oldest promise out of its tag's line and leaves the others. */
  lemma FailFrontCore(p: Proc, t: Tag)
    requires Core(p) && ProbesOf(p, t) != []
    ensures Core(FailFront(p, t))
  {
    var q := FailFront(p, t);
    var id := ProbesOf(p, t)[0];
    assert LineInv(p, t) && id in Line(p, t);
    forall u
      ensures LineInv(q, u)
    {
      assert LineInv(p, u);
      if u == t {
        FailLineOwn(p, t);
      } else {
        assert Line(q, u) == Line(p, u);
        LineOkOthers(Line(p, u), p.issued, Gone(p), Gone(q), u);
      }
    }
    ChannelsFrame(p, q);
  }

  lemma RegroupFour<T>(a: seq<T>, b: seq<T>, c: seq<T>, d: seq<T>)
    ensures a + (b + c) + d == a + b + (c + d)
  {
  }

  lemma FailLineOwn(p: Proc, t: Tag)
    requires LineInv(p, t) && ProbesOf(p, t) != []
    ensures LineInv(FailFront(p, t), t)
  {
    var q := FailFront(p, t);
    var a, b, c := MatchedIds(Matched(p), t), [ProbesOf(p, t)[0]], ProbesOf(q, t) + PostedIds(p.tasks, t);
    assert Line(p, t) == a + b + c by {
      assert ProbesOf(p, t) == b + ProbesOf(q, t);
      RegroupFour(a, b, ProbesOf(q, t), PostedIds(p.tasks, t));
    }
    assert Line(q, t) == a + c by {
      assert Matched(q) == Matched(p);
      Concat3(a, ProbesOf(q, t), PostedIds(p.tasks, t));
    }
    LineOkCut(a, b, c, p.issued, Gone(p), Gone(q), t);
  }

  /** Promises of one tag that leave the line are gone. */
  lemma LineOkCut(a: seq<PromiseId>, b: seq<PromiseId>, c: seq<PromiseId>, issued: seq<Tag>,
                  gone: set<PromiseId>, gone': set<PromiseId>, t: Tag)
    requires LineOk(a + b + c, issued, gone, t)
    requires gone' == gone + set i | i in b
    ensures LineOk(a + c, issued, gone', t)
  {
    CutOut(a, b, c);
    assert forall i :: i in b ==> i in a + b + c;
  }

  lemma LineOkOthers(line: seq<PromiseId>, issued: seq<Tag>, gone: set<PromiseId>, gone': set<PromiseId>, u: Tag)
    requires LineOk(line, issued, gone, u) && gone <= gone'
    requires forall i :: i in gone' && i !in gone ==> i < |issued| && issued[i] != u
    ensures LineOk(line, issued, gone', u)
  {
  }

  /** What one answer of a probe leaves true. */
  ghost predicate Kept(p: Proc, q: Proc) {
    Core(q) && Probing(q) && SameLetters(p, q)
  }

  lemma MatchKeeps(p: Proc, c: Channel)
    requires Core(p) && Probing(p) && Matchable(p, c)
    ensures Kept(p, Match(p, c))
  {
    MatchCore(p, c);
  }

  lemma FailFrontKeeps(p: Proc, t: Tag)
    requires Core(p) && Probing(p) && ProbesOf(p, t) != []
    ensures Kept(p, FailFront(p, t))
  {
    FailFrontCore(p, t);
  }

  lemma StrayKeeps(p: Proc, c: Channel)
    requires Core(p) && Probing(p) && InboxOf(p, c) != []
    ensures Kept(p, Stray(p, c))
  {
    StrayCore(p, c);
  }

  lemma {:induction false} ProbeTagKeeps(p: Proc, t: Tag, answers: seq<Answer>)
    requires Core(p) && Probing(p)
    ensures Kept(p, ProbeTag(p, t, answers).proc)
    decreases |answers|
  {
    if ProbesOf(p, t) != [] && answers != [] {
      match answers[0] {
        case Found(source) =>
          if Matchable(p, Channel(source, t)) {
            MatchKeeps(p, Channel(source, t));
            ProbeTagKeeps(Match(p, Channel(source, t)), t, answers[1..]);
          }
        case Threw =>
          FailFrontKeeps(p, t);
          ProbeTagKeeps(FailFront(p, t), t, answers[1..]);
        case ThrewOnBody(source) =>
          var c := Channel(source, t);
          if InboxOf(p, c) != [] {
            StrayKeeps(p, c);
            FailFrontKeeps(Stray(p, c), t);
            ProbeTagKeeps(FailFront(Stray(p, c), t), t, answers[1..]);
          }
        case Nobody =>
      }
    }
  }

  lemma {:induction false} ProbeTagsKeep(p: Proc, tags: set<Tag>, answers: seq<Answer>)
    requires Core(p) && Probing(p)
    ensures Core(ProbeTags(p, tags, answers)) && Probing(ProbeTags(p, tags, answers))
    ensures SameLetters(p, ProbeTags(p, tags, answers))
    decreases tags
  {
    if tags != {} {
      var t: Tag := Least(tags);
      ProbeTagKeeps(p, t, answers);
      var r := ProbeTag(p, t, answers);
      ProbeTagsKeep(r.proc, tags - {t}, r.answers);
    }
  }

  /** Erasing empty queues changes no line. */
  lemma EmptiesErased(p: Proc)
    requires Core(p)
    ensures Core(p.(probes := WithoutEmpty(p.probes)))
  {
    CoreFrame(p, p.(probes := WithoutEmpty(p.probes)));
  }

  lemma TrackProbesKeeps(p: Proc, answers: seq<Answer>)
    requires ProcInv(p) && p.tasks != [] && p.tasks[0] == TrackAsyncProbe
    ensures ProcInv(TrackProbes(p.(tasks := p.tasks[1..]), answers))
  {
    var h := p.(tasks := p.tasks[1..]);
    HeadRemoved(p);
    CoreFrame(p, h);
    HeadCounts(p);
    ProbeTagsKeep(h, h.probes.Keys, answers);
    var q := ProbeTags(h, h.probes.Keys, answers);
    TrackProbesEnd(q);
  }

  lemma TrackProbesFlags(q: Proc)
    requires Probing(q)
    ensures var rest := WithoutEmpty(q.probes);
      var r := if rest != map[] then q.(probes := rest, tasks := q.tasks + [TrackAsyncProbe])
               else q.(probes := rest, probeRunning := false);
      SendFlag(r) && ReceiveFlag(r) && ProbeFlag(r)
  {
  }

  lemma TrackProbesEnd(q: Proc)
    requires Core(q) && Probing(q)
    ensures var rest := WithoutEmpty(q.probes);
      ProcInv(if rest != map[] then q.(probes := rest, tasks := q.tasks + [TrackAsyncProbe])
              else q.(probes := rest, probeRunning := false))
  {
    EmptiesErased(q);
    TrackProbesFlags(q);
    var e := q.(probes := WithoutEmpty(q.probes));
    if e.probes != map[] {
      TrackerPosted(e, TrackAsyncProbe);
      CoreFrame(e, Posted(e, TrackAsyncProbe));
    } else {
      CoreFrame(e, e.(probeRunning := false));
    }
  }

  // ---------------------------------------------------------------------------------------
  // The other tasks, posting, and delivery
  // ---------------------------------------------------------------------------------------

  lemma RunSendCore(p: Proc, promise: PromiseId, remote: Endpoint, letter: Letter)
    requires Core(p) && p.tasks != [] && p.tasks[0] == SendTask(promise, remote, letter)
    ensures Core(RunSend(p.(tasks := p.tasks[1..]), promise, Sent(remote, letter)))
  {
    var q := RunSend(p.(tasks := p.tasks[1..]), promise, Sent(remote, letter));
    forall t
      ensures Line(q, t) == Line(p, t)
    {
      PostedTracker(p.tasks[1..], TrackAsyncSend, t);
    }
    PostedSendConcat(p.tasks[1..], [TrackAsyncSend]);
    assert SameSends(p, q);
    CoreFrame(p, q);
  }

  lemma RunSendKeeps(p: Proc, promise: PromiseId, remote: Endpoint, letter: Letter)
    requires ProcInv(p) && p.tasks != [] && p.tasks[0] == SendTask(promise, remote, letter)
    ensures ProcInv(RunSend(p.(tasks := p.tasks[1..]), promise, Sent(remote, letter)))
  {
    HeadCounts(p);
    RunSendCore(p, promise, remote, letter);
  }

  lemma RunReceiveLine(p: Proc, promise: PromiseId, t: Tag, u: Tag)
    requires p.tasks != [] && p.tasks[0] == ReceiveTask(promise, t)
    ensures Line(RunReceive(p.(tasks := p.tasks[1..]), promise, t), u) == Line(p, u)
  {
    var q := RunReceive(p.(tasks := p.tasks[1..]), promise, t);
    var a, b, c := MatchedIds(Matched(p), u), ProbesOf(p, u), PostedIds(p.tasks[1..], u);
    assert Line(q, u) == a + ProbesOf(q, u) + c by {
      assert Matched(q) == Matched(p);
      PostedTracker(p.tasks[1..], TrackAsyncProbe, u);
    }
    if u == t {
      Regroup(a, b, promise, c);
    }
  }

  lemma Regroup<T>(a: seq<T>, b: seq<T>, x: T, c: seq<T>)
    ensures a + (b + [x]) + c == a + b + ([x] + c)
  {
  }

  lemma RunReceiveKeeps(p: Proc, promise: PromiseId, t: Tag)
    requires ProcInv(p) && p.tasks != [] && p.tasks[0] == ReceiveTask(promise, t)
    ensures ProcInv(RunReceive(p.(tasks := p.tasks[1..]), promise, t))
  {
    var q := RunReceive(p.(tasks := p.tasks[1..]), promise, t);
    HeadCounts(p);
    forall u
      ensures Line(q, u) == Line(p, u)
    {
      RunReceiveLine(p, promise, t, u);
    }
    PostedSendConcat(p.tasks[1..], [TrackAsyncProbe]);
    CoreFrame(p, q);
  }

  /** Closing drops the waiting promises of one tag and nothing else. */
  lemma CloseLineOwn(p: Proc, t: Tag)
    requires LineInv(p, t)
    ensures LineInv(RunClose(p, t), t)
  {
    var a, b, c := MatchedIds(Matched(p), t), ProbesOf(p, t), PostedIds(p.tasks, t);
    assert Line(RunClose(p, t), t) == a + c;
    LineOkCut(a, b, c, p.issued, Gone(p), Gone(RunClose(p, t)), t);
  }

  lemma CloseLineOther(p: Proc, t: Tag, u: Tag)
    requires LineInv(p, u) && LineInv(p, t) && u != t
    ensures LineInv(RunClose(p, t), u)
  {
    assert Line(RunClose(p, t), u) == Line(p, u);
    forall i | i in ProbesOf(p, t)
      ensures i < |p.issued| && p.issued[i] != u && i !in Gone(p)
    {
      assert i in Line(p, t);
    }
    LineOkOthers(Line(p, u), p.issued, Gone(p), Gone(RunClose(p, t)), u);
  }

  lemma CutOut(a: seq<nat>, b: seq<nat>, c: seq<nat>)
    requires Increasing(a + b + c)
    ensures Increasing(a + c)
    ensures forall i :: i in a + c <==> i in a + b + c && i !in b
  {
    var all := a + b + c;
    assert forall i :: 0 <= i < |a| ==> all[i] == a[i];
    assert forall i :: 0 <= i < |b| ==> all[|a| + i] == b[i];
    assert forall i :: 0 <= i < |c| ==> all[|a| + |b| + i] == c[i];
  }

  /** Exactly the waiting promises of the tag are dropped, and every line keeps all others. */
  lemma CloseLines(p: Proc, t: Tag)
    requires p.tasks != [] && p.tasks[0] == CloseTask(t) && LineInv(p, t)
    ensures var q := RunClose(p.(tasks := p.tasks[1..]), t);
      && (forall i :: i in q.dropped && i !in p.dropped <==> i in ProbesOf(p, t))
      && (forall u :: Line(q, u) == if u == t then MatchedIds(Matched(p), t) + PostedIds(p.tasks, t) else Line(p, u))
  {
    var q := RunClose(p.(tasks := p.tasks[1..]), t);
    assert forall i :: i in ProbesOf(p, t) ==> i in Line(p, t);
    forall u
      ensures Line(q, u) == if u == t then MatchedIds(Matched(p), t) + PostedIds(p.tasks, t) else Line(p, u)
    {
      CloseLine(p, t, u);
    }
  }

  lemma CloseLine(p: Proc, t: Tag, u: Tag)
    requires p.tasks != [] && p.tasks[0] == CloseTask(t)
    ensures Line(RunClose(p.(tasks := p.tasks[1..]), t), u)
         == if u == t then MatchedIds(Matched(p), t) + PostedIds(p.tasks, t) else Line(p, u)
  {
    var q := RunClose(p.(tasks := p.tasks[1..]), t);
    assert Matched(q) == Matched(p) && PostedIds(q.tasks, u) == PostedIds(p.tasks, u);
    assert ProbesOf(q, u) == if u == t then [] else ProbesOf(p, u);
  }

  lemma RunCloseKeeps(p: Proc, t: Tag)
    requires ProcInv(p) && p.tasks != [] && p.tasks[0] == CloseTask(t)
    ensures ProcInv(RunClose(p.(tasks := p.tasks[1..]), t))
    ensures var q := RunClose(p.(tasks := p.tasks[1..]), t);
      && (forall i :: i in q.dropped && i !in p.dropped <==> i in ProbesOf(p, t))
      && (forall u :: Line(q, u) == if u == t then MatchedIds(Matched(p), t) + PostedIds(p.tasks, t) else Line(p, u))
  {
    CloseLines(p, t);
    var h := p.(tasks := p.tasks[1..]);
    HeadCounts(p);
    HeadRemoved(p);
    CoreFrame(p, h);
    var q := RunClose(h, t);
    forall u
      ensures LineInv(q, u)
    {
      assert LineInv(h, u) && LineInv(h, t);
      if u == t {
        CloseLineOwn(h, t);
      } else {
        CloseLineOther(h, t, u);
      }
    }
    ChannelsFrame(h, q);
    assert LineInv(h, t);
    assert forall i :: i in ProbesOf(h, t) ==> i in Line(h, t);
  }

  lemma RunTaskKeeps(p: Proc, sends: seq<bool>, receives: seq<Tested>, answers: seq<Answer>)
    requires ProcInv(p) && p.tasks != [] && FullTests(receives)
    ensures ProcInv(RunTask(p, sends, receives, answers))
  {
    match p.tasks[0] {
      case SendTask(promise, remote, letter) => RunSendKeeps(p, promise, remote, letter);
      case ReceiveTask(promise, t) => RunReceiveKeeps(p, promise, t);
      case CloseTask(t) => RunCloseKeeps(p, t);
      case TrackAsyncSend => TrackSendsKeeps(p, sends);
      case TrackAsyncReceive => TrackReceivesKeeps(p, receives);
      case TrackAsyncProbe => TrackProbesKeeps(p, answers);
    }
  }

  lemma PostedAlone(task: Task)
    requires task.SendTask?
    ensures PostedSendIds([task]) == [task.promise] && PostedLetters([task]) == [Sent(task.remote, task.letter)]
  {
    assert [task][1..] == [];
  }

  lemma PostSendLine(p: Proc, remote: Endpoint, letter: Letter)
    requires SendLine(p)
    ensures SendLine(Posted(p, SendTask(|p.asked|, remote, letter)).(asked := p.asked + [Sent(remote, letter)]))
  {
    var task := SendTask(|p.asked|, remote, letter);
    PostedSendConcat(p.tasks, [task]);
    PostedAlone(task);
    Concat3(ResolvedSendIds(p.resolvedSends) + p.sends, PostedSendIds(p.tasks), [|p.asked|]);
    Concat3(p.sent, PostedLetters(p.tasks), [Sent(remote, letter)]);
    assert seq(|p.asked| + 1, i => i) == seq(|p.asked|, i => i) + [|p.asked|];
  }

  lemma PostSendKeeps(p: Proc, remote: Endpoint, letter: Letter)
    requires ProcInv(p)
    ensures ProcInv(Posted(p, SendTask(|p.asked|, remote, letter)).(asked := p.asked + [Sent(remote, letter)]))
  {
    var task := SendTask(|p.asked|, remote, letter);
    var q := Posted(p, task).(asked := p.asked + [Sent(remote, letter)]);
    forall t
      ensures Line(q, t) == Line(p, t)
    {
      PostedConcat(p.tasks, [task], t);
    }
    LinesFrame(p, q);
    ChannelsFrame(p, q);
    PostSendLine(p, remote, letter);
  }

  lemma LineOkOwn(line: seq<PromiseId>, issued: seq<Tag>, dropped: set<PromiseId>, t: Tag)
    requires LineOk(line, issued, dropped, t)
    ensures LineOk(line + [|issued|], issued + [t], dropped, t)
  {
    IncreasingSnoc(line, |issued|);
  }

  lemma LineOkOther(line: seq<PromiseId>, issued: seq<Tag>, dropped: set<PromiseId>, t: Tag, u: Tag)
    requires LineOk(line, issued, dropped, u) && u != t
    ensures LineOk(line, issued + [t], dropped, u)
  {
  }

  lemma PostReceiveLine(p: Proc, t: Tag, u: Tag)
    requires LineInv(p, u)
    ensures LineInv(Posted(p, ReceiveTask(|p.issued|, t)).(issued := p.issued + [t]), u)
  {
    var task := ReceiveTask(|p.issued|, t);
    var q := Posted(p, task).(issued := p.issued + [t]);
    PostedConcat(p.tasks, [task], u);
    assert [task][1..] == [];
    if u == t {
      LineOkOwn(Line(p, u), p.issued, Gone(p), t);
      Concat3(MatchedIds(Matched(p), u) + ProbesOf(p, u), PostedIds(p.tasks, u), [|p.issued|]);
      assert Line(q, u) == Line(p, u) + [|p.issued|];
    } else {
      LineOkOther(Line(p, u), p.issued, Gone(p), t, u);
      assert PostedIds(p.tasks, u) + [] == PostedIds(p.tasks, u);
      assert Line(q, u) == Line(p, u);
    }
  }

  lemma IncreasingSnoc(s: seq<nat>, x: nat)
    requires Increasing(s) && forall i :: i in s ==> i < x
    ensures Increasing(s + [x])
    ensures forall i :: i in s + [x] <==> i in s || i == x
  {
    forall i | 0 <= i < |s|
      ensures s[i] < x
    {
      assert s[i] in s;
    }
  }

  lemma PostReceiveKeeps(p: Proc, t: Tag)
    requires ProcInv(p)
    ensures ProcInv(Posted(p, ReceiveTask(|p.issued|, t)).(issued := p.issued + [t]))
  {
    var task := ReceiveTask(|p.issued|, t);
    var q := Posted(p, task).(issued := p.issued + [t]);
    forall u
      ensures LineInv(q, u)
    {
      assert LineInv(p, u);
      PostReceiveLine(p, t, u);
    }
    ChannelsFrame(p, q);
    PostedSendConcat(p.tasks, [task]);
  }

  lemma PostCloseKeeps(p: Proc, t: Tag)
    requires ProcInv(p)
    ensures ProcInv(Posted(p, CloseTask(t)))
  {
    var q := Posted(p, CloseTask(t));
    forall u
      ensures Line(q, u) == Line(p, u)
    {
      PostedTracker(p.tasks, CloseTask(t), u);
    }
    PostedSendConcat(p.tasks, [CloseTask(t)]);
    CoreFrame(p, q);
  }

  lemma DeliverChannel(p: Proc, c: Channel, l: Letter, d: Channel)
    requires ChannelInv(p, d)
    ensures ChannelInv(Deliver(p, c, l), d)
  {
    var ms, inbox := OnChannel(Matched(p), d), InboxOf(p, d);
    assert Matched(Deliver(p, c, l)) == Matched(p);
    if c == d {
      MessagesSnoc(ArrivedOn(p, c), l);
      var more := [WireHeader(l), l.body];
      StreamLonger(ms, Messages(ArrivedOn(p, d)), more, StraysOn(p, d), inbox);
      ChannelFrom(Deliver(p, c, l), d, ms, StraysOn(p, d), inbox + more);
    } else {
      ChannelFrom(Deliver(p, c, l), d, ms, StraysOn(p, d), inbox);
    }
  }

  lemma StreamLonger(ms: seq<Pair>, stream: seq<Block>, more: seq<Block>, strays: nat, inbox: seq<Block>)
    requires ChannelOk(ms, stream, strays, inbox)
    ensures ChannelOk(ms, stream + more, strays, inbox + more)
  {
    forall j | 0 <= j < |ms|
      ensures PairAt(ms[j], j, stream + more, strays)
    {
      assert PairAt(ms[j], j, stream, strays);
    }
  }

  lemma DeliverKeeps(p: Proc, c: Channel, l: Letter)
    requires ProcInv(p)
    ensures ProcInv(Deliver(p, c, l))
  {
    var q := Deliver(p, c, l);
    LinesFrame(p, q);
    forall d
      ensures ChannelInv(q, d)
    {
      assert ChannelInv(p, d);
      DeliverChannel(p, c, l, d);
    }
  }

  // ---------------------------------------------------------------------------------------
  // All processes
  // ---------------------------------------------------------------------------------------

  /** The letters a process has sent to one endpoint, in order. */
  function LettersTo(log: seq<Sent>, e: Endpoint): seq<Letter> {
    if log == [] then []
    else
      var s := log[|log| - 1];
      LettersTo(log[..|log| - 1], e) + if s.remote == e then [s.letter] else []
  }

  lemma LettersSnoc(log: seq<Sent>, s: Sent, e: Endpoint)
    ensures LettersTo(log + [s], e) == LettersTo(log, e) + if s.remote == e then [s.letter] else []
  {
    assert (log + [s])[..|log|] == log;
  }

  ghost predicate ProcAt(w: World, r: Rank) {
    r in w ==> ProcInv(w[r])
  }

  /** What has arrived from a process is what that process has sent here, in the same order. */
  ghost predicate LettersAt(w: World, src: Rank, dst: Rank, t: Tag) {
    dst in w ==> ArrivedOn(w[dst], Channel(src, t)) == if src in w then LettersTo(w[src].sent, Endpoint(dst, t)) else []
  }

  ghost predicate Inv(w: World) {
    && (forall r :: ProcAt(w, r))
    && (forall src, dst, t :: LettersAt(w, src, dst, t))
  }

  lemma TrackProbesLetters(p: Proc, answers: seq<Answer>)
    requires ProcInv(p) && p.tasks != [] && p.tasks[0] == TrackAsyncProbe
    ensures SameLetters(p, TrackProbes(p.(tasks := p.tasks[1..]), answers))
  {
    var h := p.(tasks := p.tasks[1..]);
    HeadRemoved(p);
    CoreFrame(p, h);
    HeadCounts(p);
    ProbeTagsKeep(h, h.probes.Keys, answers);
  }

  lemma TrackReceivesLetters(h: Proc, receives: seq<Tested>)
    requires FaithfulInv(h) && PassInv(h) && FullTests(receives)
    ensures SameLetters(h, TrackReceives(h, receives))
  {
    SettledReceives(h, receives);
  }

  lemma TrackSendsLetters(h: Proc, sends: seq<bool>)
    ensures SameLetters(h, TrackSends(h, sends))
  {
    SettledSends(h, sends);
  }

  lemma QuietLetters(p: Proc, sends: seq<bool>, receives: seq<Tested>, answers: seq<Answer>)
    requires p.tasks != [] && (p.tasks[0].ReceiveTask? || p.tasks[0].CloseTask?)
    ensures SameLetters(p, RunTask(p, sends, receives, answers))
  {
  }

  /** Only a send task adds to the letters sent; no task touches what has arrived. */
  lemma TrackingLetters(p: Proc, sends: seq<bool>, receives: seq<Tested>, answers: seq<Answer>)
    requires ProcInv(p) && p.tasks != [] && !p.tasks[0].SendTask? && FullTests(receives)
    ensures SameLetters(p, RunTask(p, sends, receives, answers))
  {
    var h := p.(tasks := p.tasks[1..]);
    if p.tasks[0].TrackAsyncSend? {
      TrackSendsLetters(h, sends);
    } else if p.tasks[0].TrackAsyncReceive? {
      TrackReceivesLetters(h, receives);
    } else if p.tasks[0].TrackAsyncProbe? {
      TrackProbesLetters(p, answers);
    } else {
      QuietLetters(p, sends, receives, answers);
    }
  }

  lemma OneProc(w: World, r: Rank, q: Proc)
    requires Inv(w) && r in w && ProcInv(q) && SameLetters(w[r], q)
    ensures Inv(w[r := q])
  {
    var w' := w[r := q];
    forall x
      ensures ProcAt(w', x)
    {
      assert ProcAt(w, x);
    }
    forall src, dst, t
      ensures LettersAt(w', src, dst, t)
    {
      assert LettersAt(w, src, dst, t);
    }
  }

  lemma SentGrows(w: World, r: Rank, q: Proc, s: Sent, src: Rank)
    requires r in w && s.remote.rank in w && src in w && q.sent == w[r].sent + [s]
    ensures AfterSend(w, r, q, s)[src].sent == if src == r then w[r].sent + [s] else w[src].sent
  {
  }

  lemma ArrivedGrows(w: World, r: Rank, q: Proc, s: Sent, dst: Rank, c: Channel)
    requires r in w && s.remote.rank in w && dst in w && q.arrived == w[r].arrived
    ensures ArrivedOn(AfterSend(w, r, q, s)[dst], c)
         == ArrivedOn(w[dst], c)
            + if dst == s.remote.rank && c == Channel(r, s.remote.tag) then [s.letter] else []
  {
  }

  lemma SentOneAt(w: World, r: Rank, q: Proc, s: Sent, src: Rank, dst: Rank, t: Tag)
    requires LettersAt(w, src, dst, t) && r in w && s.remote.rank in w
    requires q.arrived == w[r].arrived && q.sent == w[r].sent + [s]
    ensures LettersAt(AfterSend(w, r, q, s), src, dst, t)
  {
    LettersSnoc(w[r].sent, s, Endpoint(dst, t));
    if dst in w {
      ArrivedGrows(w, r, q, s, dst, Channel(src, t));
    }
    if src in w {
      SentGrows(w, r, q, s, src);
    }
  }

  lemma SentOne(w: World, r: Rank, q: Proc, s: Sent)
    requires Inv(w) && r in w && s.remote.rank in w && ProcInv(q)
    requires q.arrived == w[r].arrived && q.sent == w[r].sent + [s]
    ensures Inv(AfterSend(w, r, q, s))
  {
    var w', w'' := w[r := q], AfterSend(w, r, q, s);
    assert ProcAt(w, s.remote.rank);
    DeliverKeeps(w'[s.remote.rank], Channel(r, s.remote.tag), s.letter);
    forall x
      ensures ProcAt(w'', x)
    {
      assert ProcAt(w, x);
    }
    forall src, dst, t
      ensures LettersAt(w'', src, dst, t)
    {
      assert LettersAt(w, src, dst, t);
      SentOneAt(w, r, q, s, src, dst, t);
    }
  }

  lemma RunKeeps(w: World, a: Action)
    requires Inv(w) && Enabled(w, a) && a.Run?
    ensures Inv(Apply(w, a))
  {
    var p := w[a.rank];
    assert ProcAt(w, a.rank);
    var q := RunTask(p, a.sends, a.receives, a.answers);
    RunTaskKeeps(p, a.sends, a.receives, a.answers);
    if p.tasks[0].SendTask? {
      SentOne(w, a.rank, q, Sent(p.tasks[0].remote, p.tasks[0].letter));
    } else {
      TrackingLetters(p, a.sends, a.receives, a.answers);
      OneProc(w, a.rank, q);
    }
  }

  lemma StepKeeps(w: World, a: Action)
    requires Inv(w) && Enabled(w, a)
    ensures Inv(Apply(w, a))
  {
    assert ProcAt(w, a.rank);
    var p := w[a.rank];
    match a {
      case PostSend(r, remote, letter) =>
        PostSendKeeps(p, remote, letter);
        OneProc(w, r, Apply(w, a)[r]);
      case PostReceive(r, t) =>
        PostReceiveKeeps(p, t);
        OneProc(w, r, Apply(w, a)[r]);
      case PostClose(r, t) =>
        PostCloseKeeps(p, t);
        OneProc(w, r, Apply(w, a)[r]);
      case Run(_, _, _, _) => RunKeeps(w, a);
    }
  }

  lemma NextKeeps(w: World, w': World)
    requires Inv(w) && Next(w, w')
    ensures Inv(w')
  {
    var a :| Enabled(w, a) && w' == Apply(w, a);
    StepKeeps(w, a);
  }

  lemma InitialInv()
    ensures ProcInv(INITIAL)
  {
    forall t
      ensures LineInv(INITIAL, t)
    {
      assert Line(INITIAL, t) == [];
    }
    forall c
      ensures ChannelInv(INITIAL, c)
    {
      assert Matched(INITIAL) == [];
    }
    assert ResolvedSendIds(INITIAL.resolvedSends) == [];
  }

  lemma {:induction false} RunInv(run: seq<World>, i: nat)
    requires IsRun(run) && i < |run|
    ensures Inv(run[i])
  {
    if i == 0 {
      InitialInv();
    } else {
      RunInv(run, i - 1);
      assert StepAt(run, i - 1);
      NextKeeps(run[i - 1], run[i]);
    }
  }

  lemma ReachableProc(w: World, r: Rank)
    requires Reachable(w) && r in w
    ensures ProcInv(w[r])
    ensures forall src, t :: LettersAt(w, src, r, t)
  {
    var run :| IsRun(run) && run[|run| - 1] == w;
    RunInv(run, |run| - 1);
    assert ProcAt(w, r);
  }
}
