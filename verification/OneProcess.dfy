/** A world of one process that sends to itself, for the runs of LostRank and CrossedLetters. */
module OneProcess {
  import opened Bytes
  import opened BoostMpi
  import opened MpiSteps

  const HERE := Endpoint(0, 5)
  const LINK := Channel(0, 5)
  const BEYOND: Block := [0, 0, 0, 0]

  ghost predicate Reached(p: Proc) {
    Reachable(map[0 := p])
  }

  lemma Begin()
    ensures Reached(INITIAL)
  {
    var w := map[0 := INITIAL];
    assert IsRun([w]) && [w][|[w]| - 1] == w;
  }

  lemma ReachableNext(w: World, a: Action)
    requires Reachable(w) && Enabled(w, a)
    ensures Reachable(Apply(w, a))
  {
    var run :| IsRun(run) && run[|run| - 1] == w;
    var run' := run + [Apply(w, a)];
    forall i: nat
      ensures StepAt(run', i)
    {
      assert StepAt(run, i);
    }
    assert IsRun(run') && run'[|run'| - 1] == Apply(w, a);
  }

  /** A task other than a send, in a world of one process. */
  lemma TaskRun(p: Proc, sends: seq<bool>, tests: seq<Tested>, answers: seq<Answer>)
    requires Reached(p) && p.tasks != [] && !p.tasks[0].SendTask? && FullTests(tests)
    ensures Reached(RunTask(p, sends, tests, answers))
  {
    var w := map[0 := p];
    ReachableNext(w, Run(0, sends, tests, answers));
    assert Apply(w, Run(0, sends, tests, answers)) == map[0 := RunTask(p, sends, tests, answers)];
  }

  lemma ReceiveAsked(p: Proc)
    requires Reached(p)
    ensures Reached(p.(tasks := p.tasks + [ReceiveTask(|p.issued|, 5)], issued := p.issued + [5]))
  {
    var w := map[0 := p];
    ReachableNext(w, PostReceive(0, 5));
    assert Apply(w, PostReceive(0, 5))
        == map[0 := p.(tasks := p.tasks + [ReceiveTask(|p.issued|, 5)], issued := p.issued + [5])];
  }

  lemma SendAsked(p: Proc, l: Letter)
    requires Reached(p)
    ensures Reached(p.(tasks := p.tasks + [SendTask(|p.asked|, HERE, l)], asked := p.asked + [Sent(HERE, l)]))
  {
    var w := map[0 := p];
    ReachableNext(w, PostSend(0, HERE, l));
    assert Apply(w, PostSend(0, HERE, l))
        == map[0 := p.(tasks := p.tasks + [SendTask(|p.asked|, HERE, l)], asked := p.asked + [Sent(HERE, l)])];
  }

  lemma SendRun(p: Proc, promise: PromiseId, l: Letter)
    requires Reached(p) && p.tasks != [] && p.tasks[0] == SendTask(promise, HERE, l)
    ensures Reached(Deliver(RunSend(p.(tasks := p.tasks[1..]), promise, Sent(HERE, l)), LINK, l))
  {
    var w, a := map[0 := p], Run(0, [], [], []);
    ReachableNext(w, a);
    var q := RunSend(p.(tasks := p.tasks[1..]), promise, Sent(HERE, l));
    assert RunTask(p, [], [], []) == q;
    assert Apply(w, a) == map[0 := Deliver(q, LINK, l)];
  }
}
