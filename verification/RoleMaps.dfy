/** The role map of a client: what it lists, what is missing, and what stays too long. */
module RoleMaps {
  import opened Wrappers
  import opened Protocol
  import opened Membership
  import opened MembershipTheorems
  import opened MembershipDepartures
  import C = CracenClient

  // ---------------------------------------------------------------------------------------
  // The client's role map
  // ---------------------------------------------------------------------------------------

  /** In a truthful history an endpoint is listed under its own role as often as it is introduced. */
  lemma {:induction false} ListedCount(sys: System, log: seq<Message>, q: Endpoint)
    requires Distinct(sys) && q in sys.clients && forall i :: 0 <= i < |log| ==> Truthful(sys, log[i])
    ensures multiset(C.Introduced(log, sys.clients[q].role))[sys.clients[q].data]
         == Introductions(log, sys.clients[q].data)
  {
    if log != [] {
      assert forall i :: 0 <= i < |log| - 1 ==> log[..|log| - 1][i] == log[i];
      ListedCount(sys, log[..|log| - 1], q);
      assert Truthful(sys, log[|log| - 1]);
    }
  }

  lemma {:induction false} IntroductionsSplit(log: seq<Message>, k: nat, e: Endpoint)
    requires k <= |log|
    ensures Introductions(log, e) == Introductions(log[..k], e) + Introductions(log[k..], e)
  {
    if k == |log| {
      assert log[..k] == log;
    } else {
      var n := |log| - 1;
      IntroductionsSplit(log[..n], k, e);
      assert log[..n][..k] == log[..k];
      assert log[..n][k..] == log[k..][..n - k];
    }
  }

  lemma {:induction false} IntroducedPrefix(log: seq<Message>, k: nat, r: RoleId)
    requires k <= |log|
    ensures C.Introduced(log[..k], r) <= C.Introduced(log, r)
  {
    if k == |log| {
      assert log[..k] == log;
    } else {
      IntroducedPrefix(log[..|log| - 1], k, r);
      assert log[..|log| - 1][..k] == log[..k];
    }
  }

  /** A client's list for a role is the received introductions under that role, in order of arrival. */
  lemma MapIsReceivedIntroductions(sys: System, w: World, p: Endpoint, r: RoleId)
    requires Distinct(sys) && Reachable(sys, w) && p in sys.clients
    ensures p in w.nodes && w.nodes[p].delivered <= |w.nodes[p].down|
    ensures C.At(w.nodes[p].state.view, r) == C.Introduced(w.nodes[p].down[..w.nodes[p].delivered], r)
  {
    ReachableInv(sys, w);
    assert NodeInv(sys, w, p);
  }

  /** Listed plus still on the way balances known plus withdrawn, on any link with a faithful list. */
  lemma ListedBalance(sys: System, n: Node, q: Endpoint)
    requires Distinct(sys) && q in sys.clients && ListInv(n)
    requires forall i :: 0 <= i < |n.down| ==> Truthful(sys, n.down[i])
    requires Known(n.down, sys.clients[q].data).Some?
    ensures var e := sys.clients[q].data;
      multiset(C.At(n.state.view, sys.clients[q].role))[e] + Introductions(n.down[n.delivered..], e)
        == Known(n.down, e).value + Departures(n.down, e)
  {
    KnownBalance(n.down, sys.clients[q].data);
    IntroductionsSplit(n.down, n.delivered, sys.clients[q].data);
    ListedCount(sys, n.down[..n.delivered], q);
  }

  lemma ListOf(sys: System, w: World, p: Endpoint)
    requires Distinct(sys) && Reachable(sys, w) && p in sys.clients
    ensures p in w.nodes && ListInv(w.nodes[p])
    ensures forall i :: 0 <= i < |w.nodes[p].down| ==> Truthful(sys, w.nodes[p].down[i])
  {
    ReachableInv(sys, w);
    assert NodeInv(sys, w, p);
  }

  /**
   * Coverage, with multiplicities: at a live client, what its map lists of a live neighbour and
   * what is still on the way is one copy per edge, whatever joined and left in between.
   */
  lemma Coverage(sys: System, w: World, p: Endpoint, q: Endpoint)
    requires Distinct(sys) && Reachable(sys, w)
    requires p in sys.clients && q in sys.clients && p != q && LiveIn(sys, w, p) && LiveIn(sys, w, q)
    ensures p in w.nodes && w.nodes[p].delivered <= |w.nodes[p].down|
    ensures var n, e := w.nodes[p], sys.clients[q].data;
      multiset(C.At(n.state.view, sys.clients[q].role))[e] + Introductions(n.down[n.delivered..], e)
        == Links(w.server.edges, sys.clients[p].role, sys.clients[q].role)
  {
    ListOf(sys, w, p);
    ExactView(sys, w, p, q);
    LiveNotWithdrawn(sys, w, p, q);
    ListedBalance(sys, w.nodes[p], q);
  }

  lemma {:induction false} SomeIntroduction(log: seq<Message>, e: Endpoint)
    requires Introductions(log, e) > 0
    ensures exists i :: 0 <= i < |log| && IsIntroduction(log[i]) && log[i].endpoint == e
  {
    var n := |log| - 1;
    if !(IsIntroduction(log[n]) && log[n].endpoint == e) {
      SomeIntroduction(log[..n], e);
      var i :| 0 <= i < n && IsIntroduction(log[..n][i]) && log[..n][i].endpoint == e;
      assert log[i] == log[..n][i];
    }
  }

  /** Hence a live neighbour that the map does not list under its role is still to be introduced. */
  lemma NoNeighbourMissing(sys: System, w: World, p: Endpoint, q: Endpoint)
    requires Distinct(sys) && Reachable(sys, w)
    requires p in sys.clients && q in sys.clients && p != q && LiveIn(sys, w, p) && LiveIn(sys, w, q)
    requires Links(w.server.edges, sys.clients[p].role, sys.clients[q].role) > 0
    ensures p in w.nodes && w.nodes[p].delivered <= |w.nodes[p].down|
    ensures var n, e := w.nodes[p], sys.clients[q].data;
      || e in C.At(n.state.view, sys.clients[q].role)
      || exists i :: n.delivered <= i < |n.down| && IsIntroduction(n.down[i]) && n.down[i].endpoint == e
  {
    Coverage(sys, w, p, q);
    var n, e := w.nodes[p], sys.clients[q].data;
    if e !in C.At(n.state.view, sys.clients[q].role) {
      SomeIntroduction(n.down[n.delivered..], e);
      var rest := n.down[n.delivered..];
      var i :| 0 <= i < |rest| && IsIntroduction(rest[i]) && rest[i].endpoint == e;
      assert n.down[n.delivered + i] == rest[i];
    }
  }

  // ---------------------------------------------------------------------------------------
  // Removal of a departed neighbour
  // ---------------------------------------------------------------------------------------

  ghost predicate Grows(n: Node, n': Node) {
    n.down <= n'.down && n.delivered <= n'.delivered
  }

  lemma ReceivedGrows(n: Node, n': Node, r: RoleId)
    requires Grows(n, n') && ListInv(n) && ListInv(n')
    ensures C.At(n.state.view, r) <= C.At(n'.state.view, r)
  {
    IntroducedPrefix(n'.down[..n'.delivered], n.delivered, r);
    assert n'.down[..n'.delivered][..n.delivered] == n.down[..n.delivered];
  }

  lemma NextGrows(sys: System, w: World, w': World, p: Endpoint)
    requires Next(sys, w, w') && p in w.nodes
    ensures p in w'.nodes && Grows(w.nodes[p], w'.nodes[p])
  {
  }

  lemma {:induction false} HistoryGrows(sys: System, run: seq<World>, i: nat, j: nat, p: Endpoint)
    requires IsRun(sys, run) && i <= j < |run| && p in run[i].nodes
    ensures p in run[j].nodes && Grows(run[i].nodes[p], run[j].nodes[p])
  {
    if i < j {
      HistoryGrows(sys, run, i, j - 1, p);
      assert StepAt(sys, run, j - 1);
      NextGrows(sys, run[j - 1], run[j], p);
    }
  }

  /**
   * As the removal branch compares the sender with the withdrawn endpoint, no list of a role map ever
   * loses an entry.
   */
  lemma NeverForgets(sys: System, run: seq<World>, i: nat, j: nat, p: Endpoint, r: RoleId)
    requires Distinct(sys) && IsRun(sys, run) && i <= j < |run| && p in sys.clients
    ensures p in run[i].nodes && p in run[j].nodes
    ensures C.At(run[i].nodes[p].state.view, r) <= C.At(run[j].nodes[p].state.view, r)
  {
    RunInv(sys, run, i);
    RunInv(sys, run, j);
    assert NodeInv(sys, run[i], p) && NodeInv(sys, run[j], p);
    HistoryGrows(sys, run, i, j, p);
    ReceivedGrows(run[i].nodes[p], run[j].nodes[p], r);
  }

  /** The map a client should hold: each other live participant once per edge, nobody else. */
  ghost predicate MapExact(sys: System, w: World, p: Endpoint)
    requires p in sys.clients && p in w.nodes
  {
    forall q :: q in sys.clients ==>
      multiset(C.At(w.nodes[p].state.view, sys.clients[q].role))[sys.clients[q].data]
        == Expected(sys.clients[p], w.server, sys.clients[q].data)
  }

  /** A live, up-to-date client lists what it must, plus whatever was withdrawn. */
  lemma ListedAndWithdrawn(sys: System, w: World, p: Endpoint, q: Endpoint)
    requires Distinct(sys) && Reachable(sys, w) && LiveIn(sys, w, p) && q in sys.clients
    requires p in w.nodes && w.nodes[p].delivered == |w.nodes[p].down|
    ensures multiset(C.At(w.nodes[p].state.view, sys.clients[q].role))[sys.clients[q].data]
         == Expected(sys.clients[p], w.server, sys.clients[q].data) + Departures(w.nodes[p].down, sys.clients[q].data)
  {
    ListOf(sys, w, p);
    ExpectedKnown(sys, w, p, sys.clients[q].data);
    ListedBalance(sys, w.nodes[p], q);
    assert w.nodes[p].down[w.nodes[p].delivered..] == [];
  }

  lemma OwnNotWithdrawn(sys: System, w: World, p: Endpoint)
    requires Inv(sys, w) && LiveIn(sys, w, p)
    ensures Departures(w.nodes[p].down, sys.clients[p].data) == 0
  {
    LiveHandled(sys, w, p);
    OwnAfterLeaving(sys, sys.clients[p], w, p);
    DepartureAt(w.nodes[p].down, sys.clients[p].data);
  }

  lemma OwnAfterLeaving(sys: System, cfg: C.Config, w: World, p: Endpoint)
    requires Inv(sys, w) && p in sys.clients && sys.clients[p] == cfg
    ensures Disembody(cfg.data) in w.nodes[p].down ==> w.nodes[p].handled == EmbodyAt(cfg, w.server, p) + 2
  {
    assert NodeInv(sys, w, p);
  }

  lemma ExpectedOf(sys: System, w: World, p: Endpoint, q: Endpoint)
    requires Inv(sys, w) && p in sys.clients && q in sys.clients
    ensures Expected(sys.clients[p], w.server, sys.clients[q].data)
         == if p != q && LiveIn(sys, w, q) then Links(w.server.edges, sys.clients[p].role, sys.clients[q].role) else 0
  {
    assert NodeInv(sys, w, q);
  }

  /**
   * What the map of a live, up-to-date client holds, exactly: one copy per edge of every other client
   * that is live or that the client was told has left, and of nobody else.
   */
  lemma MapOvershoot(sys: System, w: World, p: Endpoint, q: Endpoint)
    requires Distinct(sys) && Reachable(sys, w) && LiveIn(sys, w, p) && q in sys.clients
    requires p in w.nodes && w.nodes[p].delivered == |w.nodes[p].down|
    ensures multiset(C.At(w.nodes[p].state.view, sys.clients[q].role))[sys.clients[q].data]
         == if p != q && (LiveIn(sys, w, q) || Disembody(sys.clients[q].data) in w.nodes[p].down)
            then Links(w.server.edges, sys.clients[p].role, sys.clients[q].role) else 0
  {
    ListedAndWithdrawn(sys, w, p, q);
    ReachableInv(sys, w);
    ExpectedOf(sys, w, p, q);
    if p == q {
      OwnNotWithdrawn(sys, w, p);
    } else {
      WithdrawnPerEdge(sys, w, p, q);
      if LiveIn(sys, w, q) {
        LiveNotWithdrawn(sys, w, p, q);
      }
    }
  }

  lemma ExpectedKnown(sys: System, w: World, p: Endpoint, e: Endpoint)
    requires Distinct(sys) && Reachable(sys, w) && LiveIn(sys, w, p)
    ensures p in w.nodes && Known(w.nodes[p].down, e) == Some(Expected(sys.clients[p], w.server, e))
  {
    ReachableInv(sys, w);
    assert NodeInv(sys, w, p);
  }

  /**
   * Exactly when the client's map is the server's view: a live client that has received
   * everything holds the exact map if and only if it was never sent a Disembody, which is the
   * message whose branch fails to erase.
   */
  lemma MapExactIff(sys: System, w: World, p: Endpoint)
    requires Distinct(sys) && Reachable(sys, w) && LiveIn(sys, w, p)
    requires p in w.nodes && w.nodes[p].delivered == |w.nodes[p].down|
    ensures MapExact(sys, w, p) <==> forall i :: 0 <= i < |w.nodes[p].down| ==> !w.nodes[p].down[i].Disembody?
  {
    var down := w.nodes[p].down;
    forall q | q in sys.clients
      ensures multiset(C.At(w.nodes[p].state.view, sys.clients[q].role))[sys.clients[q].data]
           == Expected(sys.clients[p], w.server, sys.clients[q].data) + Departures(down, sys.clients[q].data)
      ensures Departures(down, sys.clients[q].data) == 0 <==> Disembody(sys.clients[q].data) !in down
    {
      ListedAndWithdrawn(sys, w, p, q);
      DepartureAt(down, sys.clients[q].data);
    }
    forall i | 0 <= i < |down| && down[i].Disembody?
      ensures !MapExact(sys, w, p)
    {
      TruthfulIntroductions(sys, w, p, i);
      assert down[i] == Disembody(down[i].endpoint) && down[i] in down;
    }
  }
}
