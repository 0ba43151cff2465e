/**
 * The bounded blocking queue: its monitor (one evaluation of a wait predicate and, if it holds,
 * the critical section behind it), and the transition system of any number of threads calling
 * `push`, `pop`, `tryPop` and `destroy`.
 */
module AtomicQueue {
  import opened Wrappers
  import opened Sequences

  type Tid = nat

  datatype Op<T> = Push(value: T) | Pop | TryPop

  /** The members guarded by the mutex. */
  datatype Core<T> = Core(data: seq<T>, maxSize: nat, active: bool)

  /** What one evaluation under the mutex ends in. */
  datatype Attempt<T> = Threw | MustWait | GaveUp | Pushed | Popped(value: T)

  datatype Turn<T> = Turn(core: Core<T>, attempt: Attempt<T>)

  /** One evaluation; `timedOut` says that the caller's waiting time is over. */
  function Evaluate<T>(c: Core<T>, op: Op<T>, timedOut: bool): Turn<T> {
    if !c.active then Turn(c, Threw)
    else
      match op
      case Push(v) => if |c.data| < c.maxSize then Turn(c.(data := c.data + [v]), Pushed) else Turn(c, MustWait)
      case _ =>
        if |c.data| > 0 then Turn(c.(data := c.data[1..]), Popped(c.data[0]))
        else Turn(c, if timedOut && op.TryPop? then GaveUp else MustWait)
  }

  class AtomicQueue<T(0)> {
    var data: seq<T>
    const maxSize: nat
    var active: bool

    function Snapshot(): Core<T>
      reads this
    {
      Core(data, maxSize, active)
    }

    constructor (maxSize: nat)
      ensures Snapshot() == Core([], maxSize, true)
    {
      this.data, this.maxSize, this.active := [], maxSize, true;
    }

    /** `push` from the moment it holds the mutex until it releases it. */
    method PushAttempt(value: T) returns (r: Attempt<T>)
      modifies this`data
      ensures Turn(Snapshot(), r) == Evaluate(old(Snapshot()), Push(value), false)
      ensures !active ==> r == Threw && data == old(data)
      ensures active && |old(data)| < maxSize ==> r == Pushed && data == old(data) + [value]
      ensures active && |old(data)| >= maxSize ==> r == MustWait && data == old(data)
    {
      if !active {
        return Threw;
      }
      if !(|data| < maxSize) {
        return MustWait;
      }
      data := data + [value];
      r := Pushed;
    }

    /** The same for `pop` and `tryPop`. */
    method PopAttempt(timed: bool, timedOut: bool) returns (r: Attempt<T>)
      modifies this`data
      ensures Turn(Snapshot(), r) == Evaluate(old(Snapshot()), if timed then TryPop else Pop, timedOut)
      ensures !active ==> r == Threw && data == old(data)
      ensures active && old(data) != [] ==> r == Popped(old(data)[0]) && data == old(data)[1..]
      ensures active && old(data) == [] ==> r == (if timed && timedOut then GaveUp else MustWait) && data == []
    {
      if !active {
        return Threw;
      }
      if !(|data| > 0) {
        return if timed && timedOut then GaveUp else MustWait;
      }
      r := Popped(data[0]);
      data := data[1..];
    }

    method Deactivate()
      modifies this`active
      ensures Snapshot() == old(Snapshot()).(active := false)
    {
      active := false;
    }
  }

  // ---------------------------------------------------------------------------------------
  // Threads
  // ---------------------------------------------------------------------------------------

  /**
   * A thread is outside the queue, in a condition variable's wait set, on its way back to the
   * mutex, or between the notifications of `destroy`. Producers wait on `poped`, consumers on `pushed`.
   */
  datatype Thread<T> =
    | Idle
    | Failed
    | Asleep(op: Op<T>)
    | Woken(op: Op<T>, timedOut: bool)
    | DestroyingFirst
    | DestroyingSecond

  /** `pushed` and `popped` log the values in order; the flags record finished `notify_all` calls. */
  datatype State<T> = State(
    core: Core<T>,
    threads: map<Tid, Thread<T>>,
    pushed: seq<T>,
    popped: seq<T>,
    consumersReleased: bool,
    producersReleased: bool)

  datatype Kind = SleepingConsumer | SleepingProducer | WokenConsumer | WokenProducer | Other

  function KindOf<T>(t: Thread<T>): Kind {
    match t
    case Asleep(op) => if op.Push? then SleepingProducer else SleepingConsumer
    case Woken(op, _) => if op.Push? then WokenProducer else WokenConsumer
    case _ => Other
  }

  function Those<T>(threads: map<Tid, Thread<T>>, k: Kind): set<Tid> {
    set t | t in threads && KindOf(threads[t]) == k
  }

  function Number<T>(threads: map<Tid, Thread<T>>, k: Kind): nat {
    |Those(threads, k)|
  }

  function Is<T>(t: Thread<T>, k: Kind): nat {
    if KindOf(t) == k then 1 else 0
  }

  /** `notify_one`: some sleeper of the kind leaves the wait set if there is one. */
  ghost predicate MayWake<T>(threads: map<Tid, Thread<T>>, k: Kind, wake: Option<Tid>) {
    match wake
    case None => Number(threads, k) == 0
    case Some(w) => w in threads && KindOf(threads[w]) == k
  }

  function Wake<T>(t: Thread<T>): Thread<T> {
    if t.Asleep? then Woken(t.op, false) else t
  }

  function WakeOne<T>(threads: map<Tid, Thread<T>>, wake: Option<Tid>): map<Tid, Thread<T>> {
    if wake.Some? && wake.value in threads then threads[wake.value := Wake(threads[wake.value])] else threads
  }

  /** `notify_all`: every sleeper of the kind leaves the wait set. */
  function WakeAll<T>(threads: map<Tid, Thread<T>>, k: Kind): map<Tid, Thread<T>> {
    map t | t in threads :: if KindOf(threads[t]) == k then Wake(threads[t]) else threads[t]
  }

  datatype Action<T> =
    | Call(thread: Tid, op: Op<T>, wake: Option<Tid>)
    | Resume(thread: Tid, wake: Option<Tid>)
    | Spurious(thread: Tid)
    | Timeout(thread: Tid)
    | Destroy(thread: Tid)
    | NotifyConsumers(thread: Tid)
    | NotifyProducers(thread: Tid)

  /** A thread holds the mutex, evaluates its predicate and acts on the outcome. */
  function Act<T>(s: State<T>, t: Tid, op: Op<T>, timedOut: bool, wake: Option<Tid>): State<T> {
    var turn := Evaluate(s.core, op, timedOut);
    match turn.attempt
    case Threw => s.(threads := s.threads[t := Failed])
    case MustWait => s.(threads := s.threads[t := Asleep(op)])
    case GaveUp => s.(threads := s.threads[t := Idle])
    case Pushed =>
      s.(core := turn.core, threads := WakeOne(s.threads[t := Idle], wake), pushed := s.pushed + [op.value])
    case Popped(v) => s.(core := turn.core, threads := WakeOne(s.threads[t := Idle], wake), popped := s.popped + [v])
  }

  ghost predicate WakeAllowed<T>(s: State<T>, t: Tid, op: Op<T>, timedOut: bool, wake: Option<Tid>) {
    var attempt := Evaluate(s.core, op, timedOut).attempt;
    && (attempt.Pushed? ==> MayWake(s.threads[t := Idle], SleepingConsumer, wake))
    && (attempt.Popped? ==> MayWake(s.threads[t := Idle], SleepingProducer, wake))
  }

  ghost predicate Enabled<T>(s: State<T>, a: Action<T>) {
    a.thread in s.threads &&
    var t := s.threads[a.thread];
    match a
    case Call(_, op, wake) => (t.Idle? || t.Failed?) && WakeAllowed(s, a.thread, op, false, wake)
    case Resume(_, wake) => t.Woken? && WakeAllowed(s, a.thread, t.op, t.timedOut, wake)
    case Spurious(_) => t.Asleep?
    case Timeout(_) => t.Asleep? && t.op.TryPop?
    case Destroy(_) => t.Idle? || t.Failed?
    case NotifyConsumers(_) => t.DestroyingFirst?
    case NotifyProducers(_) => t.DestroyingSecond?
  }

  ghost function Apply<T>(s: State<T>, a: Action<T>): State<T>
    requires Enabled(s, a)
  {
    var t := s.threads[a.thread];
    match a
    case Call(_, op, wake) => Act(s, a.thread, op, false, wake)
    case Resume(_, wake) => Act(s, a.thread, t.op, t.timedOut, wake)
    case Spurious(_) => s.(threads := s.threads[a.thread := Woken(t.op, false)])
    case Timeout(_) => s.(threads := s.threads[a.thread := Woken(t.op, true)])
    case Destroy(_) => s.(core := s.core.(active := false), threads := s.threads[a.thread := DestroyingFirst])
    case NotifyConsumers(_) =>
      s.(threads := WakeAll(s.threads, SleepingConsumer)[a.thread := DestroyingSecond], consumersReleased := true)
    case NotifyProducers(_) =>
      s.(threads := WakeAll(s.threads, SleepingProducer)[a.thread := Idle], producersReleased := true)
  }

  ghost predicate Init<T>(s: State<T>) {
    && s.core.data == [] && s.core.active
    && (forall t :: t in s.threads ==> s.threads[t].Idle?)
    && s.pushed == [] && s.popped == [] && !s.consumersReleased && !s.producersReleased
  }

  ghost predicate Next<T(!new)>(s: State<T>, s': State<T>) {
    exists a :: Enabled(s, a) && s' == Apply(s, a)
  }

  ghost predicate StepAt<T(!new)>(run: seq<State<T>>, i: nat) {
    i + 1 < |run| ==> Next(run[i], run[i + 1])
  }

  ghost predicate IsRun<T(!new)>(run: seq<State<T>>) {
    |run| > 0 && Init(run[0]) && forall i: nat :: StepAt(run, i)
  }

  // ---------------------------------------------------------------------------------------
  // The invariant
  // ---------------------------------------------------------------------------------------

  ghost predicate HistoryInv<T>(s: State<T>) {
    s.pushed == s.popped + s.core.data && |s.core.data| <= s.core.maxSize
  }

  /** While consumers sleep, every element has a woken consumer of its own; likewise producers and free slots. */
  ghost predicate WakeInv<T>(s: State<T>) {
    s.core.active ==> ConsumersPromised(s) && ProducersPromised(s)
  }

  ghost predicate ConsumersPromised<T>(s: State<T>) {
    Number(s.threads, SleepingConsumer) > 0 ==> |s.core.data| <= Number(s.threads, WokenConsumer)
  }

  ghost predicate ProducersPromised<T>(s: State<T>) {
    Number(s.threads, SleepingProducer) > 0 ==> s.core.maxSize - |s.core.data| <= Number(s.threads, WokenProducer)
  }

  ghost predicate DestroyInv<T>(s: State<T>) {
    && (s.consumersReleased ==> !s.core.active && Those(s.threads, SleepingConsumer) == {})
    && (s.producersReleased ==> !s.core.active && Those(s.threads, SleepingProducer) == {})
    && (forall t :: t in s.threads && (s.threads[t].DestroyingFirst? || s.threads[t].DestroyingSecond?) ==>
          !s.core.active)
    && (forall t :: t in s.threads && s.threads[t].DestroyingSecond? ==> s.consumersReleased)
  }

  ghost predicate Inv<T>(s: State<T>) {
    HistoryInv(s) && WakeInv(s) && DestroyInv(s)
  }

  lemma NumberAfter<T>(threads: map<Tid, Thread<T>>, t: Tid, x: Thread<T>, k: Kind)
    requires t in threads
    ensures Number(threads[t := x], k) + Is(threads[t], k) == Number(threads, k) + Is(x, k)
  {
    var before, after := Those(threads, k), Those(threads[t := x], k);
    forall u
      ensures u != t ==> (u in before <==> u in after)
      ensures t in before <==> KindOf(threads[t]) == k
      ensures t in after <==> KindOf(x) == k
    {
    }
    SizeButOne(before, after, t);
  }

  lemma ActKeepsHistory<T>(s: State<T>, t: Tid, op: Op<T>, timedOut: bool, wake: Option<Tid>)
    requires HistoryInv(s)
    ensures HistoryInv(Act(s, t, op, timedOut, wake))
  {
  }

  /** Where an acting thread ends up. */
  function Landing<T>(attempt: Attempt<T>, op: Op<T>): Thread<T> {
    match attempt
    case Threw => Failed
    case MustWait => Asleep(op)
    case _ => Idle
  }

  /** The kind an attempt notifies. */
  function Notified<T>(attempt: Attempt<T>): Kind {
    if attempt.Pushed? then SleepingConsumer else if attempt.Popped? then SleepingProducer else Other
  }

  function Roused(k: Kind): Kind {
    if k == SleepingConsumer then WokenConsumer else WokenProducer
  }

  /** How one act changes the size of one population. */
  lemma ActNumber<T>(s: State<T>, t: Tid, op: Op<T>, timedOut: bool, wake: Option<Tid>, k: Kind)
    requires t in s.threads && k != Other && WakeAllowed(s, t, op, timedOut, wake)
    ensures var attempt := Evaluate(s.core, op, timedOut).attempt;
      var woke := Notified(attempt) != Other && wake.Some?;
      Number(Act(s, t, op, timedOut, wake).threads, k) + Is(s.threads[t], k)
      + (if woke && k == Notified(attempt) then 1 else 0)
        == Number(s.threads, k) + Is(Landing(attempt, op), k)
           + (if woke && k == Roused(Notified(attempt)) then 1 else 0)
  {
    var attempt := Evaluate(s.core, op, timedOut).attempt;
    NumberAfter(s.threads, t, Landing(attempt, op), k);
    if Notified(attempt) != Other && wake.Some? {
      var mid := s.threads[t := Idle];
      NumberAfter(mid, wake.value, Wake(mid[wake.value]), k);
    }
  }

  /** When nobody was woken, nobody of the notified kind sleeps. */
  lemma ActUnheard<T>(s: State<T>, t: Tid, op: Op<T>, timedOut: bool, wake: Option<Tid>)
    requires t in s.threads && WakeAllowed(s, t, op, timedOut, wake)
    requires Notified(Evaluate(s.core, op, timedOut).attempt) != Other && wake.None?
    ensures Number(Act(s, t, op, timedOut, wake).threads, Notified(Evaluate(s.core, op, timedOut).attempt)) == 0
  {
  }

  lemma ActKeepsConsumers<T>(s: State<T>, t: Tid, op: Op<T>, timedOut: bool, wake: Option<Tid>)
    requires HistoryInv(s) && ConsumersPromised(s) && t in s.threads && WakeAllowed(s, t, op, timedOut, wake)
    requires s.threads[t].Idle? || s.threads[t].Failed? || s.threads[t] == Woken(op, timedOut)
    ensures s.core.active ==> ConsumersPromised(Act(s, t, op, timedOut, wake))
  {
    ActNumber(s, t, op, timedOut, wake, SleepingConsumer);
    ActNumber(s, t, op, timedOut, wake, WokenConsumer);
    if Notified(Evaluate(s.core, op, timedOut).attempt) != Other && wake.None? {
      ActUnheard(s, t, op, timedOut, wake);
    }
  }

  lemma ActKeepsProducers<T>(s: State<T>, t: Tid, op: Op<T>, timedOut: bool, wake: Option<Tid>)
    requires HistoryInv(s) && ProducersPromised(s) && t in s.threads && WakeAllowed(s, t, op, timedOut, wake)
    requires s.threads[t].Idle? || s.threads[t].Failed? || s.threads[t] == Woken(op, timedOut)
    ensures s.core.active ==> ProducersPromised(Act(s, t, op, timedOut, wake))
  {
    ActNumber(s, t, op, timedOut, wake, SleepingProducer);
    ActNumber(s, t, op, timedOut, wake, WokenProducer);
    if Notified(Evaluate(s.core, op, timedOut).attempt) != Other && wake.None? {
      ActUnheard(s, t, op, timedOut, wake);
    }
  }

  lemma ActKeepsWake<T>(s: State<T>, t: Tid, op: Op<T>, timedOut: bool, wake: Option<Tid>)
    requires HistoryInv(s) && WakeInv(s) && t in s.threads && WakeAllowed(s, t, op, timedOut, wake)
    requires s.threads[t].Idle? || s.threads[t].Failed? || s.threads[t] == Woken(op, timedOut)
    ensures WakeInv(Act(s, t, op, timedOut, wake))
  {
    if s.core.active {
      ActKeepsConsumers(s, t, op, timedOut, wake);
      ActKeepsProducers(s, t, op, timedOut, wake);
    }
  }

  lemma ActKeepsDestroy<T>(s: State<T>, t: Tid, op: Op<T>, timedOut: bool, wake: Option<Tid>)
    requires DestroyInv(s) && t in s.threads && WakeAllowed(s, t, op, timedOut, wake)
    ensures DestroyInv(Act(s, t, op, timedOut, wake))
  {
  }

  lemma StepKeeps<T>(s: State<T>, a: Action<T>)
    requires Inv(s) && Enabled(s, a)
    ensures Inv(Apply(s, a))
  {
    match a {
      case Call(t, op, wake) =>
        ActKeepsHistory(s, t, op, false, wake);
        ActKeepsWake(s, t, op, false, wake);
        ActKeepsDestroy(s, t, op, false, wake);
      case Resume(t, wake) =>
        var th := s.threads[t];
        ActKeepsHistory(s, t, th.op, th.timedOut, wake);
        ActKeepsWake(s, t, th.op, th.timedOut, wake);
        ActKeepsDestroy(s, t, th.op, th.timedOut, wake);
      case Spurious(t) => RouseKeeps(s, t, false);
      case Timeout(t) => RouseKeeps(s, t, true);
      case Destroy(t) => DeactivateKeeps(s, t);
      case NotifyConsumers(t) => ReleaseKeeps(s, t, SleepingConsumer, DestroyingSecond);
      case NotifyProducers(t) => ReleaseKeeps(s, t, SleepingProducer, Idle);
    }
  }

  /** A spurious wakeup or a timeout only moves a thread from sleeping to woken. */
  lemma RouseKeeps<T>(s: State<T>, t: Tid, timedOut: bool)
    requires Inv(s) && t in s.threads && s.threads[t].Asleep?
    ensures Inv(s.(threads := s.threads[t := Woken(s.threads[t].op, timedOut)]))
  {
    var x := Woken(s.threads[t].op, timedOut);
    NumberAfter(s.threads, t, x, SleepingConsumer);
    NumberAfter(s.threads, t, x, SleepingProducer);
    NumberAfter(s.threads, t, x, WokenConsumer);
    NumberAfter(s.threads, t, x, WokenProducer);
  }

  lemma DeactivateKeeps<T>(s: State<T>, t: Tid)
    requires Inv(s) && t in s.threads && (s.threads[t].Idle? || s.threads[t].Failed?)
    ensures Inv(s.(core := s.core.(active := false), threads := s.threads[t := DestroyingFirst]))
  {
  }

  lemma ReleaseKeeps<T>(s: State<T>, t: Tid, k: Kind, x: Thread<T>)
    requires Inv(s) && t in s.threads && KindOf(x) == Other
    requires (k == SleepingConsumer && x == DestroyingSecond && s.threads[t].DestroyingFirst?)
          || (k == SleepingProducer && x == Idle && s.threads[t].DestroyingSecond?)
    ensures var threads := WakeAll(s.threads, k)[t := x];
      Inv(if k == SleepingConsumer then s.(threads := threads, consumersReleased := true)
          else s.(threads := threads, producersReleased := true))
  {
  }

  // ---------------------------------------------------------------------------------------
  // Along every run
  // ---------------------------------------------------------------------------------------

  ghost predicate Reachable<T(!new)>(s: State<T>) {
    exists run :: IsRun(run) && run[|run| - 1] == s
  }

  lemma NextKeeps<T(!new)>(s: State<T>, s': State<T>)
    requires Inv(s) && Next(s, s')
    ensures Inv(s')
  {
    var a :| Enabled(s, a) && s' == Apply(s, a);
    StepKeeps(s, a);
  }

  lemma InitInv<T>(s: State<T>)
    requires Init(s)
    ensures Inv(s)
  {
    assert Those(s.threads, SleepingConsumer) == {};
    assert Those(s.threads, SleepingProducer) == {};
  }

  lemma {:induction false} RunInv<T(!new)>(run: seq<State<T>>, i: nat)
    requires IsRun(run) && i < |run|
    ensures Inv(run[i])
  {
    if i == 0 {
      InitInv(run[0]);
    } else {
      RunInv(run, i - 1);
      assert StepAt(run, i - 1);
      NextKeeps(run[i - 1], run[i]);
    }
  }

  lemma ReachableInv<T(!new)>(s: State<T>)
    requires Reachable(s)
    ensures Inv(s)
  {
    var run :| IsRun(run) && run[|run| - 1] == s;
    RunInv(run, |run| - 1);
  }

  /** Values come out in the order they went in, none is lost or invented, and the bound is kept. */
  lemma History<T(!new)>(s: State<T>)
    requires Reachable(s)
    ensures s.pushed == s.popped + s.core.data && |s.core.data| <= s.core.maxSize
  {
    ReachableInv(s);
  }

  /** No lost wakeup: what a sleeper waits for is always promised to a woken thread of its kind. */
  lemma NoLostWakeup<T(!new)>(s: State<T>)
    requires Reachable(s) && s.core.active
    ensures Those(s.threads, SleepingConsumer) != {} ==> |s.core.data| <= |Those(s.threads, WokenConsumer)|
    ensures Those(s.threads, SleepingProducer) != {} ==>
              s.core.maxSize - |s.core.data| <= |Those(s.threads, WokenProducer)|
  {
    ReachableInv(s);
  }

  /**
   * When no thread is on its way to the mutex, consumers sleep only on an empty queue and producers
   * only on a full one.
   */
  lemma SleepersHaveReason<T(!new)>(s: State<T>)
    requires Reachable(s) && s.core.active
    requires Those(s.threads, WokenConsumer) == {} && Those(s.threads, WokenProducer) == {}
    ensures Those(s.threads, SleepingConsumer) != {} ==> s.core.data == []
    ensures Those(s.threads, SleepingProducer) != {} ==> |s.core.data| == s.core.maxSize
    ensures s.core.maxSize > 0 ==> Those(s.threads, SleepingConsumer) == {} || Those(s.threads, SleepingProducer) == {}
  {
    ReachableInv(s);
  }

  ghost predicate After<T>(s: State<T>, s': State<T>) {
    && (!s.core.active ==> s'.core == s.core && s'.pushed == s.pushed && s'.popped == s.popped)
    && (s.consumersReleased ==> s'.consumersReleased)
    && (s.producersReleased ==> s'.producersReleased)
    && s'.core.maxSize == s.core.maxSize
  }

  lemma NextAfter<T(!new)>(s: State<T>, s': State<T>)
    requires Next(s, s')
    ensures After(s, s')
  {
  }

  /** Once deactivated, the contents and both logs never change again. */
  lemma {:induction false} FrozenAfterDestroy<T(!new)>(run: seq<State<T>>, i: nat, j: nat)
    requires IsRun(run) && i <= j < |run|
    ensures After(run[i], run[j])
  {
    if i < j {
      FrozenAfterDestroy(run, i, j - 1);
      assert StepAt(run, j - 1);
      NextAfter(run[j - 1], run[j]);
    }
  }

  /** When `destroy` returns, both kinds have been released. */
  lemma DestroyReleasesAll<T(!new)>(s: State<T>, t: Tid)
    requires Reachable(s) && Enabled(s, NotifyProducers(t))
    ensures Apply(s, NotifyProducers(t)).consumersReleased && Apply(s, NotifyProducers(t)).producersReleased
  {
    ReachableInv(s);
  }

  /** And from then on no thread is ever asleep again. */
  lemma NobodySleepsAfterDestroy<T(!new)>(run: seq<State<T>>, i: nat, j: nat)
    requires IsRun(run) && i <= j < |run|
    requires run[i].consumersReleased && run[i].producersReleased
    ensures forall t :: t in run[j].threads ==> !run[j].threads[t].Asleep?
  {
    FrozenAfterDestroy(run, i, j);
    RunInv(run, j);
    forall t | t in run[j].threads
      ensures !run[j].threads[t].Asleep?
    {
      assert t !in Those(run[j].threads, SleepingConsumer);
      assert t !in Those(run[j].threads, SleepingProducer);
    }
  }

  // ---------------------------------------------------------------------------------------
  // Giving up
  // ---------------------------------------------------------------------------------------

  /**
   * A `tryPop` whose time is over returns when it holds the mutex: with nothing on an active empty
   * queue, with the oldest value on an active one that is not empty, and by throwing otherwise.
   */
  lemma TimedOutReturns<T>(s: State<T>, t: Tid, wake: Option<Tid>)
    requires Enabled(s, Resume(t, wake)) && s.threads[t] == Woken(TryPop, true)
    ensures var s' := Apply(s, Resume(t, wake));
      && t in s'.threads && !s'.threads[t].Asleep?
      && (s.core.active && s.core.data == [] ==>
            s'.threads == s.threads[t := Idle] && s'.popped == s.popped && s'.core == s.core)
      && (s.core.active && s.core.data != [] ==>
            s'.threads[t] == Idle && s'.popped == s.popped + [s.core.data[0]] && s'.core.data == s.core.data[1..])
      && (!s.core.active ==> s'.threads[t] == Failed && s'.popped == s.popped)
  {
  }

  /** Before its time is over, a thread that finds the active queue empty sleeps. */
  lemma EmptyPopSleeps<T>(s: State<T>, t: Tid, op: Op<T>, wake: Option<Tid>)
    requires s.core.active && s.core.data == [] && !op.Push?
    ensures Enabled(s, Call(t, op, wake)) ==>
              Apply(s, Call(t, op, wake)) == s.(threads := s.threads[t := Asleep(op)])
    ensures Enabled(s, Resume(t, wake)) && s.threads[t] == Woken(op, false) ==>
              Apply(s, Resume(t, wake)) == s.(threads := s.threads[t := Asleep(op)])
  {
  }

  ghost predicate ReturnsFrom<T>(s: State<T>, t: Tid, wake: Option<Tid>) {
    && Enabled(s, Resume(t, wake))
    && t in Apply(s, Resume(t, wake)).threads && !Apply(s, Resume(t, wake)).threads[t].Asleep?
  }

  lemma SomeWake<T>(threads: map<Tid, Thread<T>>, k: Kind) returns (wake: Option<Tid>)
    ensures MayWake(threads, k, wake)
  {
    if w :| w in Those(threads, k) {
      wake := Some(w);
    } else {
      wake := None;
      assert Those(threads, k) == {};
    }
  }

  /** A thread on its way to the mutex can always go on. */
  lemma WokenCanResume<T>(s: State<T>, t: Tid) returns (wake: Option<Tid>)
    requires t in s.threads && s.threads[t].Woken?
    ensures Enabled(s, Resume(t, wake))
  {
    var kind := Notified(Evaluate(s.core, s.threads[t].op, s.threads[t].timedOut).attempt);
    wake := SomeWake(s.threads[t := Idle], kind);
  }

  /** A sleeping `tryPop` never waits for others: its timeout and its return are two moves of its own. */
  lemma TryPopReturns<T>(s: State<T>, t: Tid)
    requires t in s.threads && s.threads[t] == Asleep(TryPop)
    ensures Enabled(s, Timeout(t))
    ensures exists wake :: ReturnsFrom(Apply(s, Timeout(t)), t, wake)
  {
    var m := Apply(s, Timeout(t));
    var wake := SomeWake(m.threads[t := Idle], SleepingProducer);
    assert Enabled(m, Resume(t, wake));
    TimedOutReturns(m, t, wake);
    assert ReturnsFrom(m, t, wake);
  }
}
