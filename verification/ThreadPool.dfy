/**
 * The thread pool: workers that take tasks from an AtomicQueue until the pool is being destroyed
 * and the queue is empty. A task may submit further tasks while it runs.
 */
module ThreadPool {
  import Q = AtomicQueue

  /** A task and the tasks it submits, in order, before it returns. */
  datatype Task = Task(id: nat, subtasks: seq<Task>)

  const SIZE_MAX := 0xFFFF_FFFF_FFFF_FFFF

  /** How often a task occurs among some tasks and everything they bring about. */
  function Occurrences(ts: seq<Task>, v: Task): nat {
    if ts == [] then 0
    else (if ts[0] == v then 1 else 0) + Occurrences(ts[0].subtasks, v) + Occurrences(ts[1..], v)
  }

  /** The number of executions some tasks bring about. */
  function Size(ts: seq<Task>): nat {
    if ts == [] then 0 else 1 + Size(ts[0].subtasks) + Size(ts[1..])
  }

  lemma {:induction false} OccurrencesConcat(a: seq<Task>, b: seq<Task>, v: Task)
    ensures Occurrences(a + b, v) == Occurrences(a, v) + Occurrences(b, v)
  {
    if a == [] {
      assert a + b == b;
    } else {
      OccurrencesConcat(a[1..], b, v);
      assert (a + b)[1..] == a[1..] + b;
    }
  }

  lemma {:induction false} SizeConcat(a: seq<Task>, b: seq<Task>)
    ensures Size(a + b) == Size(a) + Size(b)
  {
    if a == [] {
      assert a + b == b;
    } else {
      SizeConcat(a[1..], b);
      assert (a + b)[1..] == a[1..] + b;
    }
  }

  function Times(log: seq<Task>, v: Task): nat {
    multiset(log)[v]
  }

  // ---------------------------------------------------------------------------------------
  // One worker draining the queue on its own
  // ---------------------------------------------------------------------------------------

  class ThreadPool {
    var running: bool
    const tasks: Q.AtomicQueue<Task>
    const threads: seq<Worker>
    ghost var executed: seq<Task>

    constructor (threadCount: nat)
      ensures running && fresh(tasks) && executed == []
      ensures tasks.Snapshot() == Q.Core([], SIZE_MAX, true)
      ensures Init(State(running, tasks.Snapshot(), threads, [], [], [], [])) && |threads| == threadCount
    {
      running, executed := true, [];
      tasks := new Q.AtomicQueue<Task>(SIZE_MAX);
      threads := seq(threadCount, _ => Checking);
    }

    /** `exec`, as far as the queue takes the task without waiting. */
    method Exec(task: Task) returns (taken: bool)
      requires tasks.active
      modifies tasks`data
      ensures taken <==> |old(tasks.data)| < tasks.maxSize
      ensures tasks.data == if taken then old(tasks.data) + [task] else old(tasks.data)
    {
      var r := tasks.PushAttempt(task);
      taken := r.Pushed?;
    }

    /** The worker loop once the destructor has run, with room for everything the tasks submit. */
    method Run()
      requires !running && tasks.active
      requires Size(tasks.data) <= tasks.maxSize
      modifies this`executed, tasks`data
      ensures tasks.data == []
      ensures forall v :: Times(executed, v) == Times(old(executed), v) + Occurrences(old(tasks.data), v)
    {
      while running || |tasks.data| > 0
        invariant Size(tasks.data) <= tasks.maxSize
        invariant forall v :: Times(executed, v) + Occurrences(tasks.data, v)
                           == Times(old(executed), v) + Occurrences(old(tasks.data), v)
        decreases Size(tasks.data)
      {
        ghost var before := tasks.data;
        var result := tasks.PopAttempt(true, true);
        var task := result.value;
        ExecutedOne(before, task, executed);
        SubmitAll(task);
        executed := executed + [task];
        SizeConcat(before[1..], task.subtasks);
      }
    }

    /** A running task's submissions, in order. */
    method SubmitAll(task: Task)
      requires tasks.active && |tasks.data| + |task.subtasks| <= tasks.maxSize
      modifies tasks`data
      ensures tasks.data == old(tasks.data) + task.subtasks
    {
      for i := 0 to |task.subtasks|
        invariant tasks.data == old(tasks.data) + task.subtasks[..i]
      {
        var taken := Exec(task.subtasks[i]);
        assert task.subtasks[..i + 1] == task.subtasks[..i] + [task.subtasks[i]];
      }
      assert task.subtasks[..|task.subtasks|] == task.subtasks;
    }
  }

  lemma ExecutedOne(before: seq<Task>, task: Task, executed: seq<Task>)
    requires |before| > 0 && before[0] == task
    ensures forall v :: Times(executed + [task], v) + Occurrences(before[1..] + task.subtasks, v)
                     == Times(executed, v) + Occurrences(before, v)
    ensures |before[1..]| + |task.subtasks| <= Size(before)
  {
    forall v
      ensures Occurrences(before[1..] + task.subtasks, v) == Occurrences(before[1..], v) + Occurrences(task.subtasks, v)
    {
      OccurrencesConcat(before[1..], task.subtasks, v);
    }
    SizeBound(before[1..]);
    SizeBound(task.subtasks);
  }

  lemma {:induction false} SizeBound(ts: seq<Task>)
    ensures |ts| <= Size(ts)
  {
    if ts != [] {
      SizeBound(ts[1..]);
    }
  }

  // ---------------------------------------------------------------------------------------
  // Any number of workers
  // ---------------------------------------------------------------------------------------

  /**
   * Where a worker is: before the test of `running`, between the two tests of the loop
   * condition, inside `tryPop`, running a task that has made its first `next` submissions, or gone.
   */
  datatype Worker = Checking | SawStopped | Popping | Running(task: Task, next: nat) | Exited

  /**
   * `outside` logs what was submitted to the pool, `submitted` every push, `started` every pop,
   * `finished` every return.
   */
  datatype State = State(
    running: bool,
    core: Q.Core<Task>,
    workers: seq<Worker>,
    outside: seq<Task>,
    submitted: seq<Task>,
    started: seq<Task>,
    finished: seq<Task>)

  datatype Action =
    | SubmitOutside(task: Task)
    | Destruct
    | CheckRunning(worker: nat)
    | CheckSize(worker: nat)
    | TryPop(worker: nat)
    | Submit(worker: nat)
    | Finish(worker: nat)

  ghost predicate Enabled(s: State, a: Action) {
    match a
    case SubmitOutside(_) => s.running && |s.core.data| < s.core.maxSize
    case Destruct => s.running
    case CheckRunning(w) => w < |s.workers| && s.workers[w].Checking?
    case CheckSize(w) => w < |s.workers| && s.workers[w].SawStopped?
    case TryPop(w) => w < |s.workers| && s.workers[w].Popping?
    case Submit(w) =>
      && w < |s.workers| && s.workers[w].Running? && s.workers[w].next < |s.workers[w].task.subtasks|
      && |s.core.data| < s.core.maxSize
    case Finish(w) => w < |s.workers| && s.workers[w].Running? && s.workers[w].next == |s.workers[w].task.subtasks|
  }

  function Pushed(s: State, t: Task): State {
    s.(core := Q.Evaluate(s.core, Q.Push(t), false).core, submitted := s.submitted + [t])
  }

  ghost function Apply(s: State, a: Action): State
    requires Enabled(s, a)
  {
    match a
    case SubmitOutside(t) => Pushed(s, t).(outside := s.outside + [t])
    case Destruct => s.(running := false)
    case CheckRunning(w) => s.(workers := s.workers[w := if s.running then Popping else SawStopped])
    case CheckSize(w) => s.(workers := s.workers[w := if |s.core.data| > 0 then Popping else Exited])
    case TryPop(w) =>
      var turn := Q.Evaluate(s.core, Q.TryPop, true);
      if turn.attempt.Popped? then
        var task := turn.attempt.value;
        s.(core := turn.core, workers := s.workers[w := Running(task, 0)], started := s.started + [task])
      else
        s.(workers := s.workers[w := Checking])
    case Submit(w) =>
      var r := s.workers[w];
      Pushed(s, r.task.subtasks[r.next]).(workers := s.workers[w := Running(r.task, r.next + 1)])
    case Finish(w) => s.(workers := s.workers[w := Checking], finished := s.finished + [s.workers[w].task])
  }

  ghost predicate Init(s: State) {
    && s.running && s.core == Q.Core([], s.core.maxSize, true)
    && (forall w :: 0 <= w < |s.workers| ==> s.workers[w].Checking?)
    && s.outside == [] && s.submitted == [] && s.started == [] && s.finished == []
  }

  ghost predicate Next(s: State, s': State) {
    exists a :: Enabled(s, a) && s' == Apply(s, a)
  }

  ghost predicate StepAt(run: seq<State>, i: nat) {
    i + 1 < |run| ==> Next(run[i], run[i + 1])
  }

  ghost predicate IsRun(run: seq<State>) {
    |run| > 0 && Init(run[0]) && forall i: nat :: StepAt(run, i)
  }

  ghost predicate Reachable(s: State) {
    exists run :: IsRun(run) && run[|run| - 1] == s
  }

  /** Whether a worker is running a task, and what it still has to bring about itself. */
  function Busy(w: Worker, v: Task): nat {
    if w.Running? && w.task == v then 1 else 0
  }

  function Owes(w: Worker, v: Task): nat {
    if w.Running? && w.next <= |w.task.subtasks| then Busy(w, v) + Occurrences(w.task.subtasks[w.next..], v) else 0
  }

  function AllBusy(ws: seq<Worker>, v: Task): nat {
    if ws == [] then 0 else Busy(ws[0], v) + AllBusy(ws[1..], v)
  }

  function AllOwe(ws: seq<Worker>, v: Task): nat {
    if ws == [] then 0 else Owes(ws[0], v) + AllOwe(ws[1..], v)
  }

  lemma {:induction false} AllBusyAfter(ws: seq<Worker>, w: nat, x: Worker, v: Task)
    requires w < |ws|
    ensures AllBusy(ws[w := x], v) + Busy(ws[w], v) == AllBusy(ws, v) + Busy(x, v)
  {
    if w == 0 {
      assert ws[w := x][1..] == ws[1..];
    } else {
      AllBusyAfter(ws[1..], w - 1, x, v);
      assert ws[w := x][1..] == ws[1..][w - 1 := x];
    }
  }

  lemma {:induction false} AllOweAfter(ws: seq<Worker>, w: nat, x: Worker, v: Task)
    requires w < |ws|
    ensures AllOwe(ws[w := x], v) + Owes(ws[w], v) == AllOwe(ws, v) + Owes(x, v)
  {
    if w == 0 {
      assert ws[w := x][1..] == ws[1..];
    } else {
      AllOweAfter(ws[1..], w - 1, x, v);
      assert ws[w := x][1..] == ws[1..][w - 1 := x];
    }
  }

  lemma {:induction false} NobodyBusy(ws: seq<Worker>, v: Task)
    requires forall w :: 0 <= w < |ws| ==> !ws[w].Running?
    ensures AllBusy(ws, v) == 0 && AllOwe(ws, v) == 0
  {
    if ws != [] {
      NobodyBusy(ws[1..], v);
    }
  }

  // ---------------------------------------------------------------------------------------
  // The invariant
  // ---------------------------------------------------------------------------------------

  ghost predicate AllExited(s: State) {
    forall w :: 0 <= w < |s.workers| ==> s.workers[w].Exited?
  }

  /** Everything submitted from outside is, with all it brings about, finished, queued or owed by a worker. */
  ghost predicate Balanced(s: State, v: Task) {
    && Occurrences(s.outside, v) == Times(s.finished, v) + Occurrences(s.core.data, v) + AllOwe(s.workers, v)
    && Times(s.started, v) == Times(s.finished, v) + AllBusy(s.workers, v)
  }

  ghost predicate Orderly(s: State) {
    && s.core.active
    && s.submitted == s.started + s.core.data
    && (forall w :: 0 <= w < |s.workers| && s.workers[w].Running? ==> s.workers[w].next <= |s.workers[w].task.subtasks|)
    && (forall w :: 0 <= w < |s.workers| && (s.workers[w].Exited? || s.workers[w].SawStopped?) ==> !s.running)
    && (|s.workers| > 0 && AllExited(s) ==> s.core.data == [])
  }

  ghost predicate Inv(s: State) {
    Orderly(s) && forall v :: Balanced(s, v)
  }

  lemma StepOrderly(s: State, a: Action)
    requires Orderly(s) && Enabled(s, a)
    ensures Orderly(Apply(s, a))
  {
    var s' := Apply(s, a);
    if !a.SubmitOutside? && !a.Destruct? && !s'.workers[a.worker].Exited? {
      assert !AllExited(s');
    }
    if a.SubmitOutside? && |s.workers| > 0 {
      assert !s.workers[0].Exited?;
      assert !AllExited(s');
    }
  }

  /** Replacing one worker shifts both sums by the difference of the two workers. */
  lemma WorkersAfter(s: State, a: Action, v: Task)
    requires Enabled(s, a) && !a.SubmitOutside? && !a.Destruct?
    ensures var x, x' := s.workers[a.worker], Apply(s, a).workers[a.worker];
      && AllOwe(Apply(s, a).workers, v) + Owes(x, v) == AllOwe(s.workers, v) + Owes(x', v)
      && AllBusy(Apply(s, a).workers, v) + Busy(x, v) == AllBusy(s.workers, v) + Busy(x', v)
  {
    var x' := Apply(s, a).workers[a.worker];
    AllOweAfter(s.workers, a.worker, x', v);
    AllBusyAfter(s.workers, a.worker, x', v);
    assert Apply(s, a).workers == s.workers[a.worker := x'];
  }

  lemma SubmitBalanced(s: State, a: Action, v: Task)
    requires Orderly(s) && Balanced(s, v) && Enabled(s, a) && a.Submit?
    ensures Balanced(Apply(s, a), v)
  {
    var r := s.workers[a.worker];
    WorkersAfter(s, a, v);
    OccurrencesConcat(s.core.data, [r.task.subtasks[r.next]], v);
    assert r.task.subtasks[r.next..][1..] == r.task.subtasks[r.next + 1..];
  }

  lemma PopBalanced(s: State, a: Action, v: Task)
    requires Orderly(s) && Balanced(s, v) && Enabled(s, a) && a.TryPop?
    ensures Balanced(Apply(s, a), v)
  {
    WorkersAfter(s, a, v);
    if |s.core.data| > 0 {
      assert s.core.data[0].subtasks[0..] == s.core.data[0].subtasks;
    }
  }

  lemma FinishBalanced(s: State, a: Action, v: Task)
    requires Orderly(s) && Balanced(s, v) && Enabled(s, a) && a.Finish?
    ensures Balanced(Apply(s, a), v)
  {
    WorkersAfter(s, a, v);
    var task := s.workers[a.worker].task;
    assert task.subtasks[|task.subtasks|..] == [];
  }

  lemma StepBalanced(s: State, a: Action, v: Task)
    requires Orderly(s) && Balanced(s, v) && Enabled(s, a)
    ensures Balanced(Apply(s, a), v)
  {
    match a {
      case SubmitOutside(t) =>
        OccurrencesConcat(s.outside, [t], v);
        OccurrencesConcat(s.core.data, [t], v);
      case Destruct =>
      case Submit(_) => SubmitBalanced(s, a, v);
      case TryPop(_) => PopBalanced(s, a, v);
      case Finish(_) => FinishBalanced(s, a, v);
      case _ => WorkersAfter(s, a, v);
    }
  }

  lemma {:induction false} RunInv(run: seq<State>, i: nat)
    requires IsRun(run) && i < |run|
    ensures Inv(run[i])
  {
    if i == 0 {
      forall v
        ensures Balanced(run[0], v)
      {
        NobodyBusy(run[0].workers, v);
      }
    } else {
      RunInv(run, i - 1);
      assert StepAt(run, i - 1);
      NextKeeps(run[i - 1], run[i]);
    }
  }

  lemma NextKeeps(s: State, s': State)
    requires Inv(s) && Next(s, s')
    ensures Inv(s')
  {
    var a :| Enabled(s, a) && s' == Apply(s, a);
    StepOrderly(s, a);
    forall v
      ensures Balanced(s', v)
    {
      StepBalanced(s, a, v);
    }
  }

  lemma ReachableInv(s: State)
    requires Reachable(s)
    ensures Inv(s)
  {
    var run :| IsRun(run) && run[|run| - 1] == s;
    RunInv(run, |run| - 1);
  }

  // ---------------------------------------------------------------------------------------
  // What the pool guarantees
  // ---------------------------------------------------------------------------------------

  /** Tasks start in the order they were submitted, and none is executed more often than it was submitted. */
  lemma AtMostOnce(s: State, v: Task)
    requires Reachable(s)
    ensures s.started <= s.submitted
    ensures Times(s.finished, v) <= Times(s.started, v) <= Times(s.submitted, v)
    ensures Times(s.finished, v) <= Occurrences(s.outside, v)
  {
    ReachableInv(s);
    assert Balanced(s, v);
    assert multiset(s.submitted) == multiset(s.started) + multiset(s.core.data);
  }

  /** Workers never all leave while a task is waiting. */
  lemma NoTaskStranded(s: State)
    requires Reachable(s) && s.core.data != [] && |s.workers| > 0
    ensures exists w :: 0 <= w < |s.workers| && !s.workers[w].Exited?
  {
    ReachableInv(s);
  }

  /**
   * Draining: when every worker has left, each task submitted from outside and each task those
   * brought about, directly or not, has been executed exactly as often as it was asked for.
   */
  lemma Drained(s: State, v: Task)
    requires Reachable(s) && |s.workers| > 0 && AllExited(s)
    ensures Times(s.finished, v) == Occurrences(s.outside, v) == Times(s.submitted, v)
    ensures s.started == s.submitted
  {
    ReachableInv(s);
    assert Balanced(s, v);
    NobodyBusy(s.workers, v);
  }

  /** A worker that has not left can always move on, unless the queue is full. */
  lemma WorkerCanMove(s: State, w: nat)
    requires Reachable(s) && w < |s.workers| && !s.workers[w].Exited? && |s.core.data| < s.core.maxSize
    ensures exists a :: Enabled(s, a) && !a.SubmitOutside? && !a.Destruct? && a.worker == w
  {
    ReachableInv(s);
    var a := match s.workers[w]
      case Checking => CheckRunning(w)
      case SawStopped => CheckSize(w)
      case Popping => TryPop(w)
      case Running(task, next) => if next < |task.subtasks| then Submit(w) else Finish(w)
      case Exited => CheckRunning(w);
    assert Enabled(s, a);
  }

  // ---------------------------------------------------------------------------------------
  // The drain comes to an end
  // ---------------------------------------------------------------------------------------

  /** The executions a worker's task still has to bring about by its submissions. */
  function Unsubmitted(w: Worker): nat {
    if w.Running? && w.next <= |w.task.subtasks| then Size(w.task.subtasks[w.next..]) else 0
  }

  function AllUnsubmitted(ws: seq<Worker>): nat {
    if ws == [] then 0 else Unsubmitted(ws[0]) + AllUnsubmitted(ws[1..])
  }

  function Occupied(w: Worker): nat {
    if w.Running? then 1 else 0
  }

  function AllOccupied(ws: seq<Worker>): nat {
    if ws == [] then 0 else Occupied(ws[0]) + AllOccupied(ws[1..])
  }

  /** How far a worker is from taking a task, or from leaving when there is none. */
  function Distance(w: Worker, empty: bool): nat {
    match w
    case Popping => if empty then 3 else 1
    case Checking => if empty then 2 else 3
    case SawStopped => if empty then 1 else 2
    case Running(_, _) => 0
    case Exited => 0
  }

  function AllDistance(ws: seq<Worker>, empty: bool): nat {
    if ws == [] then 0 else Distance(ws[0], empty) + AllDistance(ws[1..], empty)
  }

  /** The executions that have not started. */
  function Owed(s: State): nat {
    Size(s.core.data) + AllUnsubmitted(s.workers)
  }

  /** Every execution owed takes a submission, a pop and a return; what is queued has been submitted. */
  function Work(s: State): int {
    3 * Owed(s) - |s.core.data| + AllOccupied(s.workers)
  }

  /** An upper bound for the steps to come once the pool is being destroyed. */
  function StepsLeft(s: State): int {
    Work(s) * (3 * |s.workers| + 1) + AllDistance(s.workers, s.core.data == [])
  }

  lemma {:induction false} AllUnsubmittedAfter(ws: seq<Worker>, w: nat, x: Worker)
    requires w < |ws|
    ensures AllUnsubmitted(ws[w := x]) + Unsubmitted(ws[w]) == AllUnsubmitted(ws) + Unsubmitted(x)
  {
    if w == 0 {
      assert ws[w := x][1..] == ws[1..];
    } else {
      AllUnsubmittedAfter(ws[1..], w - 1, x);
      assert ws[w := x][1..] == ws[1..][w - 1 := x];
    }
  }

  lemma {:induction false} AllOccupiedAfter(ws: seq<Worker>, w: nat, x: Worker)
    requires w < |ws|
    ensures AllOccupied(ws[w := x]) + Occupied(ws[w]) == AllOccupied(ws) + Occupied(x)
  {
    if w == 0 {
      assert ws[w := x][1..] == ws[1..];
    } else {
      AllOccupiedAfter(ws[1..], w - 1, x);
      assert ws[w := x][1..] == ws[1..][w - 1 := x];
    }
  }

  lemma {:induction false} AllDistanceAfter(ws: seq<Worker>, w: nat, x: Worker, empty: bool)
    requires w < |ws|
    ensures AllDistance(ws[w := x], empty) + Distance(ws[w], empty) == AllDistance(ws, empty) + Distance(x, empty)
  {
    if w == 0 {
      assert ws[w := x][1..] == ws[1..];
    } else {
      AllDistanceAfter(ws[1..], w - 1, x, empty);
      assert ws[w := x][1..] == ws[1..][w - 1 := x];
    }
  }

  lemma {:induction false} DistanceBound(ws: seq<Worker>, empty: bool)
    ensures AllDistance(ws, empty) <= 3 * |ws|
  {
    if ws != [] {
      DistanceBound(ws[1..], empty);
    }
  }

  lemma WorkNatural(s: State)
    ensures Work(s) >= 0
  {
    SizeBound(s.core.data);
  }

  lemma SizeOfHead(ts: seq<Task>)
    requires ts != []
    ensures Size(ts) == 1 + Size(ts[0].subtasks) + Size(ts[1..]) && Size([ts[0]]) == 1 + Size(ts[0].subtasks)
  {
    assert [ts[0]][1..] == [];
  }

  /** A step that takes, submits or finishes a task gets work done, and the executions owed never grow. */
  lemma TaskStep(s: State, a: Action)
    requires Orderly(s) && Enabled(s, a) && (a.Submit? || a.Finish? || (a.TryPop? && s.core.data != []))
    ensures Work(Apply(s, a)) == Work(s) - 1 && Owed(Apply(s, a)) <= Owed(s)
  {
    var s' := Apply(s, a);
    var x := s'.workers[a.worker];
    AllUnsubmittedAfter(s.workers, a.worker, x);
    AllOccupiedAfter(s.workers, a.worker, x);
    assert s'.workers == s.workers[a.worker := x];
    if a.TryPop? {
      SizeOfHead(s.core.data);
      assert s.core.data[0].subtasks[0..] == s.core.data[0].subtasks;
    } else if a.Submit? {
      var r := s.workers[a.worker];
      var rest := r.task.subtasks[r.next..];
      SizeOfHead(rest);
      assert rest[1..] == r.task.subtasks[r.next + 1..];
      SizeConcat(s.core.data, [rest[0]]);
    }
  }

  /** A step of the loop condition brings its worker closer to a task or to its exit. */
  lemma LoopStep(s: State, a: Action)
    requires Orderly(s) && !s.running && Enabled(s, a)
    requires a.CheckRunning? || a.CheckSize? || (a.TryPop? && s.core.data == [])
    ensures var s' := Apply(s, a);
      && Work(s') == Work(s) && Owed(s') == Owed(s) && s'.core == s.core
      && AllDistance(s'.workers, s.core.data == []) < AllDistance(s.workers, s.core.data == [])
  {
    var s' := Apply(s, a);
    var x := s'.workers[a.worker];
    AllUnsubmittedAfter(s.workers, a.worker, x);
    AllOccupiedAfter(s.workers, a.worker, x);
    AllDistanceAfter(s.workers, a.worker, x, s.core.data == []);
    assert s'.workers == s.workers[a.worker := x];
  }

  lemma OneRoundLess(work: int, round: int)
    ensures (work - 1) * round == work * round - round
  {
  }

  /** Once the pool is being destroyed, every step counts. */
  lemma StepsDecrease(s: State, a: Action)
    requires Orderly(s) && !s.running && Enabled(s, a)
    ensures var s' := Apply(s, a);
      !s'.running && s'.core.maxSize == s.core.maxSize && StepsLeft(s') < StepsLeft(s) && Owed(s') <= Owed(s)
  {
    var s' := Apply(s, a);
    if a.Submit? || a.Finish? || (a.TryPop? && s.core.data != []) {
      TaskStep(s, a);
      OneRoundLess(Work(s), 3 * |s.workers| + 1);
      DistanceBound(s'.workers, s'.core.data == []);
      DistanceBound(s.workers, s.core.data == []);
    } else {
      LoopStep(s, a);
    }
  }

  lemma NextDecreases(s: State, s': State)
    requires Orderly(s) && !s.running && Next(s, s')
    ensures !s'.running && s'.core.maxSize == s.core.maxSize && StepsLeft(s') < StepsLeft(s) && Owed(s') <= Owed(s)
  {
    var a :| Enabled(s, a) && s' == Apply(s, a);
    StepsDecrease(s, a);
  }

  lemma {:induction false} DrainProgress(run: seq<State>, i: nat, j: nat)
    requires IsRun(run) && i <= j < |run| && !run[i].running
    ensures !run[j].running && run[j].core.maxSize == run[i].core.maxSize
    ensures StepsLeft(run[j]) <= StepsLeft(run[i]) - (j - i) && Owed(run[j]) <= Owed(run[i])
  {
    if i < j {
      DrainProgress(run, i, j - 1);
      RunInv(run, j - 1);
      assert StepAt(run, j - 1);
      NextDecreases(run[j - 1], run[j]);
    }
  }

  lemma {:induction false} UnsubmittedWithin(ws: seq<Worker>, w: nat)
    requires w < |ws|
    ensures Unsubmitted(ws[w]) <= AllUnsubmitted(ws)
  {
    if w > 0 {
      UnsubmittedWithin(ws[1..], w - 1);
    }
  }

  /** With room for the executions owed, a worker that has not left can always move. */
  lemma RoomToMove(s: State, w: nat)
    requires Orderly(s) && Owed(s) <= s.core.maxSize && w < |s.workers| && !s.workers[w].Exited?
    ensures exists a :: Enabled(s, a)
  {
    var a := match s.workers[w]
      case Checking => CheckRunning(w)
      case SawStopped => CheckSize(w)
      case Popping => TryPop(w)
      case Running(task, next) => if next < |task.subtasks| then Submit(w) else Finish(w)
      case Exited => CheckRunning(w);
    if a.Submit? {
      UnsubmittedWithin(s.workers, w);
      SizeOfHead(s.workers[w].task.subtasks[s.workers[w].next..]);
      SizeBound(s.core.data);
    }
    assert Enabled(s, a);
  }

  /**
   * Draining ends: after the destructor has started, a run makes at most `StepsLeft` more steps, and
   * one that cannot go on, with room in the queue for the executions owed, has executed every task
   * exactly as often as asked for.
   */
  lemma DrainEnds(run: seq<State>, i: nat, j: nat, v: Task)
    requires IsRun(run) && i <= j < |run| && !run[i].running
    ensures j - i <= StepsLeft(run[i])
    ensures (forall a :: !Enabled(run[j], a)) && Owed(run[i]) <= run[i].core.maxSize && |run[j].workers| > 0 ==>
              && AllExited(run[j])
              && Times(run[j].finished, v) == Occurrences(run[j].outside, v)
  {
    DrainProgress(run, i, j);
    WorkNatural(run[j]);
    RunInv(run, j);
    assert Work(run[j]) * (3 * |run[j].workers| + 1) >= 0;
    if (forall a :: !Enabled(run[j], a)) && Owed(run[i]) <= run[i].core.maxSize && |run[j].workers| > 0 {
      forall w | 0 <= w < |run[j].workers|
        ensures run[j].workers[w].Exited?
      {
        if !run[j].workers[w].Exited? {
          RoomToMove(run[j], w);
          assert false;
        }
      }
      EndReached(run, j, v);
    }
  }

  lemma EndReached(run: seq<State>, j: nat, v: Task)
    requires IsRun(run) && j < |run| && |run[j].workers| > 0 && AllExited(run[j])
    ensures Times(run[j].finished, v) == Occurrences(run[j].outside, v)
  {
    RunInv(run, j);
    assert Balanced(run[j], v);
    NobodyBusy(run[j].workers, v);
  }

  // ---------------------------------------------------------------------------------------
  // A running pool executes, and a destroyed one can end
  // ---------------------------------------------------------------------------------------

  /** One move of one worker. */
  ghost predicate MovesBy(s: State, s': State, w: nat) {
    exists a :: Enabled(s, a) && !a.SubmitOutside? && !a.Destruct? && a.worker == w && s' == Apply(s, a)
  }

  ghost predicate PathAt(path: seq<State>, i: nat, w: nat) {
    i + 1 < |path| ==> MovesBy(path[i], path[i + 1], w)
  }

  /** A sequence of moves of one worker alone. */
  ghost predicate PathOf(path: seq<State>, w: nat) {
    |path| > 0 && forall i: nat :: PathAt(path, i, w)
  }

  lemma PathCons(s: State, a: Action, path: seq<State>, w: nat)
    requires PathOf(path, w) && !a.SubmitOutside? && !a.Destruct? && a.worker == w
    requires Enabled(s, a) && path[0] == Apply(s, a)
    ensures PathOf([s] + path, w)
  {
    forall i: nat
      ensures PathAt([s] + path, i, w)
    {
      if i == 0 {
        assert MovesBy(s, path[0], w);
      } else {
        assert PathAt(path, i - 1, w);
      }
    }
  }

  /**
   * While the pool is running, a worker in its loop condition gets to the oldest queued task by its
   * own moves, and starts it.
   */
  lemma FrontStarts(s: State, w: nat) returns (path: seq<State>)
    requires s.running && s.core.active && s.core.data != [] && w < |s.workers| && s.workers[w].Checking?
    ensures PathOf(path, w) && path[0] == s
    ensures var s' := path[|path| - 1];
      && s'.running && s'.workers == s.workers[w := Running(s.core.data[0], 0)]
      && s'.started == s.started + [s.core.data[0]] && s'.core.data == s.core.data[1..]
  {
    var m := Apply(s, CheckRunning(w));
    var e := Apply(m, TryPop(w));
    assert e.workers == s.workers[w := Running(s.core.data[0], 0)];
    PathCons(m, TryPop(w), [e], w);
    PathCons(s, CheckRunning(w), [m] + [e], w);
    path := [s] + ([m] + [e]);
  }

  /** A worker with room for its submissions makes them all, in order, and returns from its task. */
  lemma {:induction false} TaskReturns(s: State, w: nat) returns (path: seq<State>)
    requires s.core.active && w < |s.workers| && s.workers[w].Running?
    requires s.workers[w].next <= |s.workers[w].task.subtasks|
    requires |s.core.data| + |s.workers[w].task.subtasks| - s.workers[w].next <= s.core.maxSize
    ensures PathOf(path, w) && path[0] == s
    ensures var s' := path[|path| - 1];
      var r := s.workers[w];
      && s'.workers == s.workers[w := Checking] && s'.finished == s.finished + [r.task]
      && s'.core.data == s.core.data + r.task.subtasks[r.next..]
      && s'.submitted == s.submitted + r.task.subtasks[r.next..]
    decreases |s.workers[w].task.subtasks| - s.workers[w].next
  {
    var r := s.workers[w];
    if r.next == |r.task.subtasks| {
      var e := Apply(s, Finish(w));
      PathCons(s, Finish(w), [e], w);
      path := [s] + [e];
    } else {
      var m := Apply(s, Submit(w));
      var rest := TaskReturns(m, w);
      PathCons(s, Submit(w), rest, w);
      path := [s] + rest;
      assert r.task.subtasks[r.next..] == [r.task.subtasks[r.next]] + r.task.subtasks[r.next + 1..];
      assert m.workers[w := Checking] == s.workers[w := Checking];
    }
  }

  /** A continuation in which somebody moves at every position. */
  ghost predicate Continues(run: seq<State>) {
    |run| > 0 && forall i: nat :: StepAt(run, i)
  }

  lemma ContinuesCons(s: State, run: seq<State>)
    requires Continues(run) && Next(s, run[0])
    ensures Continues([s] + run)
  {
    forall i: nat
      ensures StepAt([s] + run, i)
    {
      if i > 0 {
        assert StepAt(run, i - 1);
      }
    }
  }

  /** With room for what is owed, a pool that is being destroyed can always be drained to its end. */
  lemma {:induction false} DrainExists(s: State) returns (run: seq<State>)
    requires Orderly(s) && !s.running && Owed(s) <= s.core.maxSize
    ensures Continues(run) && run[0] == s && AllExited(run[|run| - 1])
    decreases StepsLeft(s)
  {
    if AllExited(s) {
      run := [s];
    } else {
      var w :| 0 <= w < |s.workers| && !s.workers[w].Exited?;
      RoomToMove(s, w);
      var a :| Enabled(s, a);
      StepsDecrease(s, a);
      StepOrderly(s, a);
      StepsNatural(Apply(s, a));
      var rest := DrainExists(Apply(s, a));
      ContinuesCons(s, rest);
      run := [s] + rest;
    }
  }

  lemma StepsNatural(s: State)
    ensures StepsLeft(s) >= 0
  {
    WorkNatural(s);
    assert Work(s) * (3 * |s.workers| + 1) >= 0;
  }

  /** The destructor can always start, ends the running, and leads to the end of all workers. */
  lemma DestructDrains(s: State) returns (run: seq<State>)
    requires Reachable(s) && s.running && Owed(s) <= s.core.maxSize
    ensures Enabled(s, Destruct) && Apply(s, Destruct) == s.(running := false)
    ensures Continues(run) && run[0] == s.(running := false) && AllExited(run[|run| - 1])
  {
    ReachableInv(s);
    StepOrderly(s, Destruct);
    run := DrainExists(Apply(s, Destruct));
  }
}
