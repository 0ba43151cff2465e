/**
 * The reader/writer view lock: a mutex, two condition variables and two atomic counters, with
 * every access to a counter, every test under the mutex and every notification a step of its own.
 */
module CoarseGrainedLocked {
  import opened Wrappers
  import opened Sequences

  type Tid = nat

  /** The members of the lock. */
  datatype Shared<T> = Shared(value: T, writerWaiting: nat, reader: nat, mutex: Option<Tid>)

  /** Where one request for a view is. */
  datatype Agent =
    | Idle
    | WriterWanting   // counted in writerWaiting, queueing for the mutex
    | WriterLocked    // holds the mutex, still counted
    | WriterTesting   // holds the mutex, about to read `reader`
    | WriterRefused   // holds the mutex, saw readers, about to enter the wait set
    | WriterAsleep    // in the wait set of readerExit
    | WriterWoken     // queueing for the mutex again
    | ViewLive        // the View exists and holds the mutex
    | ViewLeaving     // its destructor has notified, the mutex is still held
    | ReaderWanting   // queueing for the mutex
    | ReaderTesting   // holds the mutex, about to test
    | ReaderRefused   // holds the mutex, test failed, about to enter the wait set
    | ReaderAsleep    // in the wait set of modified
    | ReaderAdmitted  // holds the mutex, test succeeded
    | ReaderCounted   // the ReadOnlyView exists, the mutex is still held
    | ReaderLive      // the ReadOnlyView exists
    | ReaderLeaving   // its destructor has decremented `reader`, not yet notified

  datatype Move<T> =
    | WantView
    | WantReadOnlyView
    | Acquire
    | UncountWriter
    | TestReaders
    | TestPredicate
    | EnterWaitSet
    | Write(value: T)
    | CountReader
    | NotifyReaders
    | Unlock
    | UncountReader
    | NotifyWriters

  /** Which wait set a move empties. */
  datatype Notice = Nobody | ReadersWake | WritersWake

  datatype Outcome<T> = Outcome(shared: Shared<T>, agent: Agent, notice: Notice)

  predicate Holds(a: Agent) {
    a in {WriterLocked, WriterTesting, WriterRefused, ViewLive, ViewLeaving,
          ReaderTesting, ReaderRefused, ReaderAdmitted, ReaderCounted}
  }

  predicate Possible<T>(sh: Shared<T>, a: Agent, m: Move<T>) {
    match m
    case WantView => a.Idle?
    case WantReadOnlyView => a.Idle?
    case Acquire => a in {WriterWanting, WriterWoken, ReaderWanting} && sh.mutex.None?
    case UncountWriter => a.WriterLocked?
    case TestReaders => a.WriterTesting?
    case TestPredicate => a.ReaderTesting?
    case EnterWaitSet => a.WriterRefused? || a.ReaderRefused?
    case Write(_) => a.ViewLive?
    case CountReader => a.ReaderAdmitted?
    case NotifyReaders => a.ViewLive?
    case Unlock => a.ViewLeaving? || a.ReaderCounted?
    case UncountReader => a.ReaderLive?
    case NotifyWriters => a.ReaderLeaving?
  }

  /** One move of one request; `pred` is the predicate its reader asked for. */
  function Perform<T>(sh: Shared<T>, t: Tid, a: Agent, m: Move<T>, pred: T -> bool): Outcome<T>
    requires Possible(sh, a, m)
  {
    match m
    case WantView => Outcome(sh.(writerWaiting := sh.writerWaiting + 1), WriterWanting, Nobody)
    case WantReadOnlyView => Outcome(sh, ReaderWanting, Nobody)
    case Acquire =>
      Outcome(sh.(mutex := Some(t)),
              if a.WriterWanting? then WriterLocked else if a.WriterWoken? then WriterTesting else ReaderTesting,
              Nobody)
    case UncountWriter =>
      Outcome(sh.(writerWaiting := if sh.writerWaiting > 0 then sh.writerWaiting - 1 else 0xFFFF_FFFF),
              WriterTesting, Nobody)
    case TestReaders => Outcome(sh, if sh.reader == 0 then ViewLive else WriterRefused, Nobody)
    case TestPredicate =>
      Outcome(sh, if pred(sh.value) && sh.writerWaiting == 0 then ReaderAdmitted else ReaderRefused, Nobody)
    case EnterWaitSet => Outcome(sh.(mutex := None), if a.WriterRefused? then WriterAsleep else ReaderAsleep, Nobody)
    case Write(v) => Outcome(sh.(value := v), ViewLive, Nobody)
    case CountReader => Outcome(sh.(reader := sh.reader + 1), ReaderCounted, Nobody)
    case NotifyReaders => Outcome(sh, ViewLeaving, ReadersWake)
    case Unlock => Outcome(sh.(mutex := None), if a.ViewLeaving? then Idle else ReaderLive, Nobody)
    case UncountReader =>
      Outcome(sh.(reader := if sh.reader > 0 then sh.reader - 1 else 0xFFFF_FFFF), ReaderLeaving, Nobody)
    case NotifyWriters => Outcome(sh, Idle, WritersWake)
  }

  class CoarseGrainedLocked<T> {
    var value: T
    var writerWaiting: nat
    var reader: nat
    var mutex: Option<Tid>

    ghost function Snapshot(): Shared<T>
      reads this
    {
      Shared(value, writerWaiting, reader, mutex)
    }

    constructor (value: T)
      ensures Snapshot() == Shared(value, 0, 0, None)
    {
      this.value, writerWaiting, reader, mutex := value, 0, 0, None;
    }

    /** The statement of `getView`, `getReadOnlyView`, `~View` or `~ReadOnlyView` a request has reached. */
    method Take(t: Tid, a: Agent, m: Move<T>, pred: T -> bool) returns (a': Agent, notice: Notice)
      requires Possible(Snapshot(), a, m)
      modifies this
      ensures Outcome(Snapshot(), a', notice) == Perform(old(Snapshot()), t, a, m, pred)
    {
      a', notice := a, Nobody;
      match m {
        case WantView =>
          writerWaiting := writerWaiting + 1;
          a' := WriterWanting;
        case WantReadOnlyView =>
          a' := ReaderWanting;
        case Acquire =>
          mutex := Some(t);
          a' := if a.WriterWanting? then WriterLocked else if a.WriterWoken? then WriterTesting else ReaderTesting;
        case UncountWriter =>
          writerWaiting := if writerWaiting > 0 then writerWaiting - 1 else 0xFFFF_FFFF;
          a' := WriterTesting;
        case TestReaders =>
          a' := if reader == 0 then ViewLive else WriterRefused;
        case TestPredicate =>
          var satisfied := pred(value);
          a' := if satisfied && writerWaiting == 0 then ReaderAdmitted else ReaderRefused;
        case EnterWaitSet =>
          mutex := None;
          a' := if a.WriterRefused? then WriterAsleep else ReaderAsleep;
        case Write(v) =>
          value := v;
        case CountReader =>
          reader := reader + 1;
          a' := ReaderCounted;
        case NotifyReaders =>
          a', notice := ViewLeaving, ReadersWake;
        case Unlock =>
          mutex := None;
          a' := if a.ViewLeaving? then Idle else ReaderLive;
        case UncountReader =>
          reader := if reader > 0 then reader - 1 else 0xFFFF_FFFF;
          a' := ReaderLeaving;
        case NotifyWriters =>
          a', notice := Idle, WritersWake;
      }
    }

    /** `getView` with nobody in its way until it returns or waits for the readers to leave. */
    method GetView(t: Tid) returns (a: Agent)
      requires mutex.None?
      modifies this
      ensures value == old(value) && reader == old(reader) && writerWaiting == old(writerWaiting)
      ensures reader == 0 ==> a == ViewLive && mutex == Some(t)
      ensures reader > 0 ==> a == WriterAsleep && mutex == None
    {
      var n;
      a, n := Take(t, Idle, WantView, Anything());
      a, n := Take(t, a, Acquire, Anything());
      a, n := Take(t, a, UncountWriter, Anything());
      a, n := Take(t, a, TestReaders, Anything());
      if a.WriterRefused? {
        a, n := Take(t, a, EnterWaitSet, Anything());
      }
    }

    /** `getView` after it was woken, with nobody in its way until it returns or waits again. */
    method ResumeGetView(t: Tid) returns (a: Agent)
      requires mutex.None?
      modifies this
      ensures value == old(value) && reader == old(reader) && writerWaiting == old(writerWaiting)
      ensures reader == 0 ==> a == ViewLive && mutex == Some(t)
      ensures reader > 0 ==> a == WriterAsleep && mutex == None
    {
      var n;
      a, n := Take(t, WriterWoken, Acquire, Anything());
      a, n := Take(t, a, TestReaders, Anything());
      if a.WriterRefused? {
        a, n := Take(t, a, EnterWaitSet, Anything());
      }
    }

    /** A modification through a live View. */
    method Modify(t: Tid, v: T)
      requires mutex == Some(t)
      modifies this
      ensures Snapshot() == old(Snapshot()).(value := v)
    {
      var a, n := Take(t, ViewLive, Write(v), Anything());
    }

    /** `~View`: wakes the readers and gives the mutex back. */
    method DropView(t: Tid) returns (woken: Notice)
      requires mutex == Some(t)
      modifies this
      ensures Snapshot() == old(Snapshot()).(mutex := None) && woken == ReadersWake
    {
      var a, n;
      a, woken := Take(t, ViewLive, NotifyReaders, Anything());
      a, n := Take(t, a, Unlock, Anything());
    }

    /** `getReadOnlyView` with nobody in its way until it returns or waits for a modification. */
    method GetReadOnlyView(t: Tid, pred: T -> bool) returns (a: Agent)
      requires mutex.None?
      modifies this
      ensures value == old(value) && writerWaiting == old(writerWaiting) && mutex == None
      ensures pred(value) && writerWaiting == 0 ==> a == ReaderLive && reader == old(reader) + 1
      ensures !(pred(value) && writerWaiting == 0) ==> a == ReaderAsleep && reader == old(reader)
    {
      var n;
      a, n := Take(t, Idle, WantReadOnlyView, pred);
      a, n := Take(t, a, Acquire, pred);
      a, n := Take(t, a, TestPredicate, pred);
      if a.ReaderAdmitted? {
        a, n := Take(t, a, CountReader, pred);
        a, n := Take(t, a, Unlock, pred);
      } else {
        a, n := Take(t, a, EnterWaitSet, pred);
      }
    }

    /** `~ReadOnlyView`: whoever holds the mutex, uncounts the reader and wakes the writers. */
    method DropReadOnlyView(t: Tid) returns (woken: Notice)
      requires reader > 0
      modifies this
      ensures Snapshot() == old(Snapshot()).(reader := old(reader) - 1) && woken == WritersWake
    {
      var a, n;
      a, n := Take(t, ReaderLive, UncountReader, Anything());
      a, woken := Take(t, a, NotifyWriters, Anything());
    }

    function Anything(): T -> bool {
      _ => true
    }
  }

  // ---------------------------------------------------------------------------------------
  // Any number of requests
  // ---------------------------------------------------------------------------------------

  /** All requests at once; `preds` holds each request's predicate. */
  datatype State<!T> = State(shared: Shared<T>, agents: map<Tid, Agent>, preds: map<Tid, T -> bool>)

  datatype Action<T> = Moves(agent: Tid, move: Move<T>) | Spurious(agent: Tid)

  function Roused(a: Agent): Agent {
    match a
    case WriterAsleep => WriterWoken
    case ReaderAsleep => ReaderWanting
    case _ => a
  }

  predicate Hears(a: Agent, n: Notice) {
    (n.ReadersWake? && a.ReaderAsleep?) || (n.WritersWake? && a.WriterAsleep?)
  }

  function Broadcast(agents: map<Tid, Agent>, n: Notice): map<Tid, Agent> {
    map t | t in agents :: if Hears(agents[t], n) then Roused(agents[t]) else agents[t]
  }

  ghost predicate Enabled<T>(s: State<T>, a: Action<T>) {
    && a.agent in s.agents && a.agent in s.preds
    && match a
       case Moves(t, m) => Possible(s.shared, s.agents[t], m)
       case Spurious(t) => s.agents[t].WriterAsleep? || s.agents[t].ReaderAsleep?
  }

  ghost function Apply<T>(s: State<T>, a: Action<T>): State<T>
    requires Enabled(s, a)
  {
    match a
    case Moves(t, m) =>
      var o := Perform(s.shared, t, s.agents[t], m, s.preds[t]);
      State(o.shared, Broadcast(s.agents[t := o.agent], o.notice), s.preds)
    case Spurious(t) => s.(agents := s.agents[t := Roused(s.agents[t])])
  }

  ghost predicate Init<T>(s: State<T>) {
    && s.shared == Shared(s.shared.value, 0, 0, None)
    && s.agents.Keys == s.preds.Keys
    && forall t :: t in s.agents ==> s.agents[t].Idle?
  }

  ghost predicate Next<T(!new)>(s: State<T>, s': State<T>) {
    exists a :: Enabled(s, a) && s' == Apply(s, a)
  }

  ghost predicate StepAt<T(!new)>(run: seq<State<T>>, i: nat) {
    i + 1 < |run| ==> Next(run[i], run[i + 1])
  }

  ghost predicate IsRun<T(!new)>(run: seq<State<T>>) {
    |run| > 0 && Init(run[0]) && forall i: nat :: StepAt(run, i)
  }

  ghost predicate Reachable<T(!new)>(s: State<T>) {
    exists run :: IsRun(run) && run[|run| - 1] == s
  }

  // ---------------------------------------------------------------------------------------
  // The invariant
  // ---------------------------------------------------------------------------------------

  predicate HasReadOnlyView(a: Agent) {
    a.ReaderCounted? || a.ReaderLive?
  }

  predicate HasView(a: Agent) {
    a.ViewLive? || a.ViewLeaving?
  }

  predicate CountedWriter(a: Agent) {
    a.WriterWanting? || a.WriterLocked?
  }

  function Readers(agents: map<Tid, Agent>): set<Tid> {
    set t | t in agents && HasReadOnlyView(agents[t])
  }

  function Writers(agents: map<Tid, Agent>): set<Tid> {
    set t | t in agents && CountedWriter(agents[t])
  }

  ghost predicate Wants<T>(s: State<T>, t: Tid) {
    t in s.preds && s.preds[t](s.shared.value)
  }

  /** What a reader's wait tests. */
  ghost predicate MayRead<T>(s: State<T>, t: Tid) {
    Wants(s, t) && s.shared.writerWaiting == 0
  }

  ghost predicate MutexAt<T>(s: State<T>, t: Tid) {
    t in s.agents ==> (Holds(s.agents[t]) <==> s.shared.mutex == Some(t))
  }

  ghost predicate MutexInv<T>(s: State<T>) {
    s.agents.Keys == s.preds.Keys && forall t :: MutexAt(s, t)
  }

  ghost predicate CountInv<T>(s: State<T>) {
    s.shared.reader == |Readers(s.agents)| && s.shared.writerWaiting == |Writers(s.agents)|
  }

  ghost predicate ViewInv<T>(s: State<T>) {
    forall t :: t in s.agents && HasView(s.agents[t]) ==> s.shared.reader == 0
  }

  ghost predicate PredicateAt<T>(s: State<T>, t: Tid) {
    t in s.agents ==>
      && (s.agents[t].ReaderAdmitted? || HasReadOnlyView(s.agents[t]) ==> Wants(s, t))
      && (s.agents[t].ReaderRefused? ==> !MayRead(s, t))
  }

  ghost predicate PredicateInv<T>(s: State<T>) {
    forall t :: PredicateAt(s, t)
  }

  /** A writer that has been uncounted and has not notified the readers yet. */
  predicate OwesNotice(a: Agent) {
    a in {WriterTesting, WriterRefused, WriterAsleep, WriterWoken, ViewLive}
  }

  ghost predicate NoticeOwed<T>(s: State<T>) {
    exists w :: w in s.agents && OwesNotice(s.agents[w])
  }

  ghost predicate SleepInv<T>(s: State<T>) {
    forall t :: t in s.agents && s.agents[t].ReaderAsleep? && MayRead(s, t) ==> NoticeOwed(s)
  }

  ghost predicate Inv<T>(s: State<T>) {
    MutexInv(s) && CountInv(s) && ViewInv(s) && PredicateInv(s) && SleepInv(s)
  }

  lemma StepMutex<T>(s: State<T>, a: Action<T>)
    requires MutexInv(s) && Enabled(s, a)
    ensures MutexInv(Apply(s, a))
  {
    var s' := Apply(s, a);
    forall t
      ensures MutexAt(s', t)
    {
      assert MutexAt(s, t) && MutexAt(s, a.agent);
    }
  }

  lemma StepReaders<T>(s: State<T>, a: Action<T>)
    requires CountInv(s) && Enabled(s, a)
    ensures Apply(s, a).shared.reader == |Readers(Apply(s, a).agents)|
  {
    var s' := Apply(s, a);
    forall u
      ensures u != a.agent ==> (u in Readers(s.agents) <==> u in Readers(s'.agents))
      ensures a.agent in Readers(s'.agents) <==> HasReadOnlyView(s'.agents[a.agent])
      ensures a.agent in Readers(s.agents) <==> HasReadOnlyView(s.agents[a.agent])
    {
    }
    SizeButOne(Readers(s.agents), Readers(s'.agents), a.agent);
  }

  lemma StepWriters<T>(s: State<T>, a: Action<T>)
    requires CountInv(s) && Enabled(s, a)
    ensures Apply(s, a).shared.writerWaiting == |Writers(Apply(s, a).agents)|
  {
    var s' := Apply(s, a);
    forall u
      ensures u != a.agent ==> (u in Writers(s.agents) <==> u in Writers(s'.agents))
      ensures a.agent in Writers(s'.agents) <==> CountedWriter(s'.agents[a.agent])
      ensures a.agent in Writers(s.agents) <==> CountedWriter(s.agents[a.agent])
    {
    }
    SizeButOne(Writers(s.agents), Writers(s'.agents), a.agent);
  }

  lemma ReaderCountZero<T>(s: State<T>, t: Tid)
    requires CountInv(s) && t in s.agents && HasReadOnlyView(s.agents[t])
    ensures s.shared.reader > 0
  {
    assert t in Readers(s.agents);
  }

  lemma StepView<T>(s: State<T>, a: Action<T>)
    requires MutexInv(s) && CountInv(s) && ViewInv(s) && Enabled(s, a)
    ensures ViewInv(Apply(s, a))
  {
    var s' := Apply(s, a);
    if HasReadOnlyView(s.agents[a.agent]) {
      ReaderCountZero(s, a.agent);
    }
    forall t | t in s'.agents && HasView(s'.agents[t])
      ensures s'.shared.reader == 0
    {
      assert MutexAt(s, t) && MutexAt(s, a.agent);
    }
  }

  lemma StepPredicate<T>(s: State<T>, a: Action<T>)
    requires MutexInv(s) && CountInv(s) && ViewInv(s) && PredicateInv(s) && Enabled(s, a)
    ensures PredicateInv(Apply(s, a))
  {
    var s' := Apply(s, a);
    forall t
      ensures PredicateAt(s', t)
    {
      assert PredicateAt(s, t);
      assert MutexAt(s, t) && MutexAt(s, a.agent);
      if t in s.agents && HasReadOnlyView(s.agents[t]) {
        ReaderCountZero(s, t);
      }
    }
  }

  lemma StepSleep<T>(s: State<T>, a: Action<T>)
    requires PredicateInv(s) && SleepInv(s) && Enabled(s, a)
    ensures SleepInv(Apply(s, a))
  {
    var s' := Apply(s, a);
    forall t | t in s'.agents && s'.agents[t].ReaderAsleep? && MayRead(s', t)
      ensures NoticeOwed(s')
    {
      assert PredicateAt(s, t);
      if OwesNotice(s'.agents[a.agent]) {
      } else if s.agents[t].ReaderAsleep? && MayRead(s, t) {
        var w :| w in s.agents && OwesNotice(s.agents[w]);
        assert OwesNotice(s'.agents[w]);
      }
    }
  }

  lemma NextKeeps<T(!new)>(s: State<T>, s': State<T>)
    requires Inv(s) && Next(s, s')
    ensures Inv(s')
  {
    var a :| Enabled(s, a) && s' == Apply(s, a);
    StepMutex(s, a);
    StepReaders(s, a);
    StepWriters(s, a);
    StepView(s, a);
    StepPredicate(s, a);
    StepSleep(s, a);
  }

  // ---------------------------------------------------------------------------------------
  // Along every run
  // ---------------------------------------------------------------------------------------

  lemma {:induction false} RunInv<T(!new)>(run: seq<State<T>>, i: nat)
    requires IsRun(run) && i < |run|
    ensures Inv(run[i])
  {
    if i == 0 {
      assert Readers(run[0].agents) == {} && Writers(run[0].agents) == {};
    } else {
      RunInv(run, i - 1);
      assert StepAt(run, i - 1);
      NextKeeps(run[i - 1], run[i]);
    }
  }

  lemma ReachableInv<T(!new)>(s: State<T>)
    requires Reachable(s)
    ensures Inv(s)
  {
    var run :| IsRun(run) && run[|run| - 1] == s;
    RunInv(run, |run| - 1);
  }

  /** At most one View is live; while it is, no ReadOnlyView is, and the reader counter is zero. */
  lemma Exclusion<T(!new)>(s: State<T>, t: Tid, u: Tid)
    requires Reachable(s) && t in s.agents && u in s.agents && HasView(s.agents[t])
    ensures HasView(s.agents[u]) ==> t == u
    ensures !HasReadOnlyView(s.agents[u])
    ensures s.shared.reader == 0
  {
    ReachableInv(s);
    assert MutexAt(s, t) && MutexAt(s, u);
    if HasReadOnlyView(s.agents[u]) {
      ReaderCountZero(s, u);
    }
  }

  lemma SizeAtMost<T>(a: set<T>, b: set<T>)
    requires a <= b
    ensures |a| <= |b|
  {
    assert b == a + (b - a);
  }

  /** The two counters are exact, so neither is ever decremented below zero or beyond the number of requests. */
  lemma CountersExact<T(!new)>(s: State<T>)
    requires Reachable(s)
    ensures s.shared.reader == |Readers(s.agents)| <= |s.agents|
    ensures s.shared.writerWaiting == |Writers(s.agents)| <= |s.agents|
  {
    ReachableInv(s);
    SizeAtMost(Readers(s.agents), s.agents.Keys);
    SizeAtMost(Writers(s.agents), s.agents.Keys);
  }

  /** A live ReadOnlyView's predicate holds. */
  lemma PredicateHolds<T(!new)>(s: State<T>, t: Tid)
    requires Reachable(s) && t in s.agents && HasReadOnlyView(s.agents[t])
    ensures t in s.preds && s.preds[t](s.shared.value)
  {
    ReachableInv(s);
    assert PredicateAt(s, t);
  }

  lemma NextStable<T(!new)>(s: State<T>, s': State<T>, t: Tid)
    requires Inv(s) && Next(s, s') && t in s.agents && HasReadOnlyView(s.agents[t])
    ensures s'.shared.value == s.shared.value
  {
    ReaderCountZero(s, t);
  }

  /** As long as a ReadOnlyView stays live, the value does not change, whatever else runs. */
  lemma {:induction false} ViewIsStable<T(!new)>(run: seq<State<T>>, i: nat, j: nat, t: Tid)
    requires IsRun(run) && i <= j < |run|
    requires forall k :: i <= k < j ==> t in run[k].agents && HasReadOnlyView(run[k].agents[t])
    ensures run[j].shared.value == run[i].shared.value
  {
    if i < j {
      ViewIsStable(run, i, j - 1, t);
      RunInv(run, j - 1);
      assert StepAt(run, j - 1);
      NextStable(run[j - 1], run[j], t);
    }
  }

  /** A notification leaves none of those it is for asleep, and all of them on their way to the mutex. */
  lemma NoticeWakes<T>(s: State<T>, t: Tid)
    requires t in s.agents && t in s.preds
    ensures s.agents[t].ReaderLeaving? ==>
              && Enabled(s, Moves(t, NotifyWriters))
              && forall w :: w in s.agents && s.agents[w].WriterAsleep? ==>
                   Apply(s, Moves(t, NotifyWriters)).agents[w] == WriterWoken
    ensures s.agents[t].ViewLive? ==>
              && Enabled(s, Moves(t, NotifyReaders))
              && forall r :: r in s.agents && s.agents[r].ReaderAsleep? ==>
                   Apply(s, Moves(t, NotifyReaders)).agents[r] == ReaderWanting
  {
  }

  /** The value changes by a write through a live View only, and then to what was written. */
  lemma WritesOnly<T>(s: State<T>, a: Action<T>)
    requires Inv(s) && Enabled(s, a)
    ensures Apply(s, a).shared.value == if a.Moves? && a.move.Write? then a.move.value else s.shared.value
    ensures a.Moves? && a.move.Write? ==> HasView(s.agents[a.agent])
  {
  }

  /** The step at a position writes a value. */
  ghost predicate WriteAt<T>(run: seq<State<T>>, k: nat, t: Tid, v: T) {
    && k + 1 < |run| && Enabled(run[k], Moves(t, Write(v)))
    && run[k + 1] == Apply(run[k], Moves(t, Write(v)))
  }

  ghost predicate QuietAt<T(!new)>(run: seq<State<T>>, k: nat) {
    forall t, v :: !WriteAt(run, k, t, v)
  }

  lemma NextQuiet<T(!new)>(run: seq<State<T>>, k: nat)
    requires IsRun(run) && k + 1 < |run| && QuietAt(run, k)
    ensures run[k + 1].shared.value == run[k].shared.value
  {
    RunInv(run, k);
    assert StepAt(run, k);
    var a :| Enabled(run[k], a) && run[k + 1] == Apply(run[k], a);
    if a.Moves? && a.move.Write? {
      assert WriteAt(run, k, a.agent, a.move.value);
    } else {
      WritesOnly(run[k], a);
    }
  }

  lemma {:induction false} ValueStays<T(!new)>(run: seq<State<T>>, i: nat, j: nat)
    requires IsRun(run) && i <= j < |run| && forall k: nat :: i <= k < j ==> QuietAt(run, k)
    ensures run[j].shared.value == run[i].shared.value
  {
    if i < j {
      ValueStays(run, i, j - 1);
      assert QuietAt(run, j - 1);
      NextQuiet(run, j - 1);
    }
  }

  /** What is written through a View is what every later view sees, until something else is written. */
  lemma WriteSeen<T(!new)>(run: seq<State<T>>, i: nat, j: nat, t: Tid, v: T)
    requires IsRun(run) && i < j < |run| && WriteAt(run, i, t, v)
    requires forall k: nat :: i < k < j ==> QuietAt(run, k)
    ensures run[j].shared.value == v
  {
    RunInv(run, i);
    WritesOnly(run[i], Moves(t, Write(v)));
    ValueStays(run, i + 1, j);
  }

  /** No reader is forgotten: a sleeping reader whose test would succeed has a notification coming. */
  lemma ReaderNotForgotten<T(!new)>(s: State<T>, t: Tid)
    requires Reachable(s) && t in s.agents && s.agents[t].ReaderAsleep? && MayRead(s, t)
    ensures exists w :: w in s.agents && OwesNotice(s.agents[w])
  {
    ReachableInv(s);
  }

  // ---------------------------------------------------------------------------------------
  // Writers can be forgotten
  // ---------------------------------------------------------------------------------------

  ghost predicate NotifierPending<T>(s: State<T>) {
    exists r :: r in s.agents && s.agents[r].ReaderLeaving?
  }

  /** A writer sleeps although no reader is left and nobody is about to notify it. */
  ghost predicate Stranded<T>(s: State<T>, w: Tid) {
    w in s.agents && s.agents[w].WriterAsleep? && s.shared.reader == 0 && !NotifierPending(s)
  }

  lemma ReachableNext<T(!new)>(s: State<T>, a: Action<T>)
    requires Reachable(s) && Enabled(s, a)
    ensures Reachable(Apply(s, a))
  {
    var run :| IsRun(run) && run[|run| - 1] == s;
    var run' := run + [Apply(s, a)];
    forall i: nat
      ensures StepAt(run', i)
    {
      assert StepAt(run, i);
    }
    assert IsRun(run') && run'[|run'| - 1] == Apply(s, a);
  }

  /** One writer (0) and one reader (1), as an exit between the writer's test and its wait meets them. */
  ghost function Pair(shared: Shared<int>, writer: Agent, reader: Agent): State<int> {
    State(shared, map[0 := writer, 1 := reader], map[0 := Always(), 1 := Always()])
  }

  ghost function Always(): int -> bool {
    _ => true
  }

  predicate Sleeps(a: Agent) {
    a.WriterAsleep? || a.ReaderAsleep?
  }

  lemma PairApply(s: State<int>, shared: Shared<int>, writer: Agent, reader: Agent, who: Tid, m: Move<int>,
                  o: Outcome<int>)
    requires s == Pair(shared, writer, reader) && who <= 1 && Enabled(s, Moves(who, m))
    requires o == Perform(shared, who, s.agents[who], m, Always())
    requires !Hears(writer, o.notice) && !Hears(reader, o.notice) && !Hears(o.agent, o.notice)
    ensures Apply(s, Moves(who, m))
         == Pair(o.shared, if who == 0 then o.agent else writer, if who == 1 then o.agent else reader)
  {
    var agents := s.agents[who := o.agent];
    var writer', reader' := if who == 0 then o.agent else writer, if who == 1 then o.agent else reader;
    assert agents == map[0 := writer', 1 := reader'];
    assert !Hears(writer', o.notice) && !Hears(reader', o.notice);
    NobodyHears(agents, o.notice);
  }

  lemma NobodyHears(agents: map<Tid, Agent>, n: Notice)
    requires forall t :: t in agents ==> !Hears(agents[t], n)
    ensures Broadcast(agents, n) == agents
  {
  }

  lemma PairMoves(shared: Shared<int>, writer: Agent, reader: Agent, who: Tid, m: Move<int>)
    requires Reachable(Pair(shared, writer, reader)) && who <= 1
    requires Possible(shared, if who == 0 then writer else reader, m)
    requires !Sleeps(writer) && !Sleeps(reader)
    ensures var o := Perform(shared, who, if who == 0 then writer else reader, m, Always());
      Reachable(Pair(o.shared, if who == 0 then o.agent else writer, if who == 1 then o.agent else reader))
  {
    var s := Pair(shared, writer, reader);
    var o := Perform(shared, who, s.agents[who], m, Always());
    PairApply(s, shared, writer, reader, who, m, o);
    ReachableNext(s, Moves(who, m));
  }

  lemma ReaderIsAdmitted()
    ensures Reachable(Pair(Shared(5, 0, 0, Some(1)), Idle, ReaderAdmitted))
  {
    var s := Pair(Shared(5, 0, 0, None), Idle, Idle);
    assert IsRun([s]) && [s][|[s]| - 1] == s;
    PairMoves(Shared(5, 0, 0, None), Idle, Idle, 1, WantReadOnlyView);
    PairMoves(Shared(5, 0, 0, None), Idle, ReaderWanting, 1, Acquire);
    PairMoves(Shared(5, 0, 0, Some(1)), Idle, ReaderTesting, 1, TestPredicate);
  }

  lemma ReaderComesLive()
    ensures Reachable(Pair(Shared(5, 0, 1, None), Idle, ReaderLive))
  {
    ReaderIsAdmitted();
    PairMoves(Shared(5, 0, 0, Some(1)), Idle, ReaderAdmitted, 1, CountReader);
    PairMoves(Shared(5, 0, 1, Some(1)), Idle, ReaderCounted, 1, Unlock);
  }

  lemma WriterIsRefused()
    ensures Reachable(Pair(Shared(5, 0, 1, Some(0)), WriterRefused, ReaderLive))
  {
    ReaderComesLive();
    PairMoves(Shared(5, 0, 1, None), Idle, ReaderLive, 0, WantView);
    PairMoves(Shared(5, 1, 1, None), WriterWanting, ReaderLive, 0, Acquire);
    PairMoves(Shared(5, 1, 1, Some(0)), WriterLocked, ReaderLive, 0, UncountWriter);
    PairMoves(Shared(5, 0, 1, Some(0)), WriterTesting, ReaderLive, 0, TestReaders);
  }

  /**
   * `~ReadOnlyView` decrements and notifies without the mutex, so both can happen after a writer
   * has read the counter and before it is in the wait set. This run ends with a stranded writer.
   */
  lemma MissedWakeup()
    ensures exists s: State<int> :: Reachable(s) && Stranded(s, 0)
  {
    WriterIsRefused();
    PairMoves(Shared(5, 0, 1, Some(0)), WriterRefused, ReaderLive, 1, UncountReader);
    PairMoves(Shared(5, 0, 0, Some(0)), WriterRefused, ReaderLeaving, 1, NotifyWriters);
    PairMoves(Shared(5, 0, 0, Some(0)), WriterRefused, Idle, 0, EnterWaitSet);
    assert Stranded(Pair(Shared(5, 0, 0, None), WriterAsleep, Idle), 0);
  }

  /**
   * The last exiting reader's `notify_all` comes between a writer's test and its wait: `~ReadOnlyView`
   * notifies without the mutex that the writer holds.
   */
  ghost predicate LateNotice<T>(s: State<T>, s': State<T>) {
    exists r, w :: LateNoticeBy(s, s', r, w)
  }

  ghost predicate LateNoticeBy<T>(s: State<T>, s': State<T>, r: Tid, w: Tid) {
    && r in s.agents && r in s'.agents && s.agents[r].ReaderLeaving? && s'.agents[r].Idle?
    && w in s.agents && s.agents[w].WriterRefused?
    && s.shared.reader == 0
    && forall q :: q in s.agents && s.agents[q].ReaderLeaving? ==> q == r
  }

  predicate Refused(a: Agent) {
    a.WriterRefused? || a.WriterAsleep?
  }

  /** Whoever waits for readers, or is about to, still has a notification coming. */
  ghost predicate Promised<T>(s: State<T>) {
    forall w :: w in s.agents && Refused(s.agents[w]) ==> s.shared.reader > 0 || NotifierPending(s)
  }

  /** A writer that is about to sleep although nobody is left to wake it. */
  ghost predicate Doomed<T>(s: State<T>, w: Tid) {
    w in s.agents && s.agents[w].WriterRefused? && s.shared.reader == 0 && !NotifierPending(s)
  }

  lemma StepPromised<T>(s: State<T>, a: Action<T>)
    requires Promised(s) && Enabled(s, a) && !LateNotice(s, Apply(s, a))
    ensures Promised(Apply(s, a))
  {
    var s' := Apply(s, a);
    forall w | w in s'.agents && Refused(s'.agents[w])
      ensures s'.shared.reader > 0 || NotifierPending(s')
    {
      if s'.agents[a.agent].ReaderLeaving? {
        assert NotifierPending(s');
      } else if s.agents[a.agent].ReaderLeaving? {
        NoticePromised(s, a, w);
      } else if NotifierPending(s) {
        var r :| r in s.agents && s.agents[r].ReaderLeaving?;
        assert s'.agents[r].ReaderLeaving?;
      }
    }
  }

  /** A notification that is not late leaves a reader or another notification for the writer. */
  lemma NoticePromised<T>(s: State<T>, a: Action<T>, w: Tid)
    requires Enabled(s, a) && s.agents[a.agent].ReaderLeaving? && !LateNotice(s, Apply(s, a))
    requires w in Apply(s, a).agents && Refused(Apply(s, a).agents[w])
    ensures Apply(s, a).shared.reader > 0 || NotifierPending(Apply(s, a))
  {
    var s' := Apply(s, a);
    assert s.agents[w].WriterRefused?;
    assert !LateNoticeBy(s, s', a.agent, w);
    if s.shared.reader == 0 {
      var q :| q in s.agents && s.agents[q].ReaderLeaving? && q != a.agent;
      assert s'.agents[q].ReaderLeaving?;
    }
  }

  lemma NextPromised<T(!new)>(s: State<T>, s': State<T>)
    requires Promised(s) && Next(s, s') && !LateNotice(s, s')
    ensures Promised(s')
  {
    var a :| Enabled(s, a) && s' == Apply(s, a);
    StepPromised(s, a);
  }

  ghost predicate LateNoticeAt<T>(run: seq<State<T>>, k: nat) {
    k + 1 < |run| && LateNotice(run[k], run[k + 1])
  }

  lemma {:induction false} RunPromised<T(!new)>(run: seq<State<T>>, i: nat)
    requires IsRun(run) && i < |run|
    requires forall k: nat :: k < i ==> !LateNoticeAt(run, k)
    ensures Promised(run[i])
  {
    if i > 0 {
      RunPromised(run, i - 1);
      assert StepAt(run, i - 1);
      assert !LateNoticeAt(run, i - 1);
      NextPromised(run[i - 1], run[i]);
    }
  }

  lemma LateNoticeDooms<T(!new)>(s: State<T>, s': State<T>, r: Tid, w: Tid)
    requires Next(s, s') && LateNoticeBy(s, s', r, w)
    ensures Doomed(s', w)
  {
    var a :| Enabled(s, a) && s' == Apply(s, a);
    assert a.agent == r;
  }

  /** Nothing that anybody does helps a doomed writer: it holds the mutex, and no reader is left to notify it. */
  lemma DoomedStays<T(!new)>(s: State<T>, s': State<T>, w: Tid)
    requires Inv(s) && Next(s, s') && Doomed(s, w)
    ensures Doomed(s', w) || Stranded(s', w)
  {
    var a :| Enabled(s, a) && s' == Apply(s, a);
    if a.agent == w {
      DoomedStrands(s, w);
    } else {
      DoomedByOther(s, a, w);
    }
  }

  lemma DoomedByOther<T>(s: State<T>, a: Action<T>, w: Tid)
    requires Inv(s) && Enabled(s, a) && Doomed(s, w) && a.agent != w
    ensures Doomed(Apply(s, a), w)
  {
    assert MutexAt(s, a.agent) && MutexAt(s, w);
    if HasReadOnlyView(s.agents[a.agent]) {
      ReaderCountZero(s, a.agent);
    }
    var s' := Apply(s, a);
    assert !s'.agents[a.agent].ReaderLeaving?;
    assert forall r :: r in s'.agents && s'.agents[r].ReaderLeaving? ==> s.agents[r].ReaderLeaving?;
  }

  /** Its own next move strands it. */
  lemma DoomedStrands<T>(s: State<T>, w: Tid)
    requires Inv(s) && Doomed(s, w)
    ensures Enabled(s, Moves(w, EnterWaitSet)) && Stranded(Apply(s, Moves(w, EnterWaitSet)), w)
  {
  }

  /** Some writer is between its test and its wait. */
  ghost predicate Between<T>(s: State<T>) {
    exists w :: w in s.agents && s.agents[w].WriterRefused?
  }

  ghost predicate StrandsBy<T>(run: seq<State<T>>, j: nat) {
    exists i: nat, w :: i <= j < |run| && Stranded(run[i], w)
  }

  lemma {:induction false} LateNoticeStrands<T(!new)>(run: seq<State<T>>, k: nat, j: nat)
    requires IsRun(run) && LateNoticeAt(run, k) && k < j < |run|
    ensures StrandsBy(run, j) || exists w :: Doomed(run[j], w)
    decreases j
  {
    RunInv(run, j - 1);
    assert StepAt(run, j - 1);
    if j == k + 1 {
      var r, w :| LateNoticeBy(run[k], run[k + 1], r, w);
      LateNoticeDooms(run[k], run[k + 1], r, w);
    } else {
      LateNoticeStrands(run, k, j - 1);
      if StrandsBy(run, j - 1) {
        var i: nat, w :| i <= j - 1 && Stranded(run[i], w);
        assert i <= j && Stranded(run[i], w);
      } else {
        var w :| Doomed(run[j - 1], w);
        DoomedStays(run[j - 1], run[j], w);
        assert Stranded(run[j], w) ==> StrandsBy(run, j);
      }
    }
  }

  /**
   * Exactly when a writer is stranded, for runs that do not stop between a writer's test and its
   * wait: if and only if some step is the notification of the last exiting reader's `~ReadOnlyView`
   * at a moment when a writer has tested the counter and is not in the wait set yet.
   */
  lemma StrandedIff<T(!new)>(run: seq<State<T>>)
    requires IsRun(run)
    requires !Between(run[|run| - 1])
    ensures (exists i: nat, w :: i < |run| && Stranded(run[i], w)) <==> (exists k: nat :: LateNoticeAt(run, k))
  {
    if exists k: nat :: LateNoticeAt(run, k) {
      var k: nat :| LateNoticeAt(run, k);
      LateNoticeStrands(run, k, |run| - 1);
      assert StrandsBy(run, |run| - 1);
    }
    if !exists k: nat :: LateNoticeAt(run, k) {
      forall i: nat, w | i < |run|
        ensures !Stranded(run[i], w)
      {
        RunPromised(run, i);
      }
    }
  }
}
