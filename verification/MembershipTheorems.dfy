/** What the membership protocol guarantees in every reachable state and along every run. */
module MembershipTheorems {
  import opened Wrappers
  import opened Protocol
  import opened Membership
  import opened MembershipSteps
  import S = CracenServer
  import C = CracenClient

  lemma NextKeeps(sys: System, w: World, w': World)
    requires Inv(sys, w) && Next(sys, w, w')
    ensures Inv(sys, w')
  {
    var a :| Enabled(sys, w, a) && w' == Apply(sys, w, a);
    ActionKeeps(sys, w, a);
  }

  lemma {:induction false} RunInv(sys: System, run: seq<World>, i: nat)
    requires Distinct(sys) && IsRun(sys, run) && i < |run|
    ensures Inv(sys, run[i])
  {
    if i == 0 {
      InitInv(sys, run[0]);
    } else {
      RunInv(sys, run, i - 1);
      assert StepAt(sys, run, i - 1);
      NextKeeps(sys, run[i - 1], run[i]);
    }
  }

  lemma ReachableInv(sys: System, w: World)
    requires Distinct(sys) && Reachable(sys, w)
    ensures Inv(sys, w)
  {
    var run :| IsRun(sys, run) && run[|run| - 1] == w;
    RunInv(sys, run, |run| - 1);
  }

  predicate LiveIn(sys: System, w: World, p: Endpoint) {
    p in sys.clients && sys.clients[p].data in w.server.participants
  }

  // ---------------------------------------------------------------------------------------
  // Exact views
  // ---------------------------------------------------------------------------------------

  /**
   * Folding the whole log to a live client never underflows and gives exactly the other live
   * participants, each as often as edges join the two roles, in either direction.
   */
  lemma ExactView(sys: System, w: World, p: Endpoint, q: Endpoint)
    requires Distinct(sys) && Reachable(sys, w)
    requires LiveIn(sys, w, p) && q in sys.clients
    ensures p in w.nodes
    ensures Known(w.nodes[p].down, sys.clients[q].data)
         == Some(if p != q && LiveIn(sys, w, q)
                 then Links(w.server.edges, sys.clients[p].role, sys.clients[q].role) else 0)
    ensures forall k :: 0 <= k <= |w.nodes[p].down| ==> Known(w.nodes[p].down[..k], sys.clients[q].data).Some?
  {
    ReachableInv(sys, w);
    assert NodeInv(sys, w, p) && NodeInv(sys, w, q);
    var down, e := w.nodes[p].down, sys.clients[q].data;
    assert Known(down, e) == Some(Expected(sys.clients[p], w.server, e));
    forall k | 0 <= k <= |down|
      ensures Known(down[..k], e).Some?
    {
      KnownPrefix(down, e, k);
    }
  }

  /** Nobody but a client is ever introduced, and only under its own role. */
  lemma TruthfulIntroductions(sys: System, w: World, p: Endpoint, k: nat)
    requires Distinct(sys) && Reachable(sys, w) && p in sys.clients
    requires p in w.nodes && k < |w.nodes[p].down| && IsMembership(w.nodes[p].down[k])
    ensures var m := w.nodes[p].down[k];
      exists q :: q in sys.clients && sys.clients[q].data == m.endpoint
               && (IsIntroduction(m) ==> sys.clients[q].role == m.role)
  {
    ReachableInv(sys, w);
    assert NodeInv(sys, w, p);
    assert Truthful(sys, w.nodes[p].down[k]);
  }

  // ---------------------------------------------------------------------------------------
  // No missing handler
  // ---------------------------------------------------------------------------------------

  /**
   * Neither side ever throws, and the next message on every link is one its receiver handles:
   * a creating client gets only handshake messages, a joined one only membership messages.
   */
  lemma NoMissingHandler(sys: System, w: World, p: Endpoint)
    requires Distinct(sys) && Reachable(sys, w) && p in sys.clients
    ensures !w.server.failed && p in w.nodes && w.nodes[p].state.phase != C.Failed
    ensures var n := w.nodes[p];
      && (n.handled < |n.up| ==> var m := n.up[n.handled];
            || m == Register || m.AddRoleConnection? || m == RolesComplete || m.Embody?
            || (m.Disembody? && m.endpoint in w.server.participants))
      && (n.delivered < |n.down| && n.state.phase == C.Creating ==>
            n.down[n.delivered] in {RoleGraphRequest, RolesComplete} || n.down[n.delivered].AddRoleConnection?)
      && (n.delivered < |n.down| && Joined(n.state.phase) ==> IsMembership(n.down[n.delivered]))
  {
    ReachableInv(sys, w);
    assert NodeInv(sys, w, p);
    var cfg, s, n := sys.clients[p], w.server, w.nodes[p];
    if n.handled < |n.up| {
      ServerMessage(sys, cfg, s, p, n);
    }
    if n.delivered < |n.down| && n.state.phase == C.Creating {
      CreatingMessage(sys, cfg, s, p, n);
    }
    if n.delivered < |n.down| && Joined(n.state.phase) {
      JoinedMessage(sys, cfg, s, p, n);
    }
  }

  // ---------------------------------------------------------------------------------------
  // The role graph is frozen before use
  // ---------------------------------------------------------------------------------------

  lemma RequesterGraph(cfg: C.Config, s: S.State, r: Endpoint, n: Node)
    requires DownInv(cfg, s, r, n) && RegisterInv(cfg, s, r, n)
    requires IsRequester(s, r) && s.phase == S.ContextInitialised
    ensures s.edges == cfg.graph && RoleGraphRequest in n.down
  {
    assert cfg.graph[..|cfg.graph|] == cfg.graph;
    assert n.down[0] == Handshake(cfg, s, r, n)[0];
  }

  /** Once initialised, the server's edges are the graph of the one client that was asked for it. */
  lemma GraphIsTheRequesters(sys: System, w: World)
    requires Distinct(sys) && Reachable(sys, w) && w.server.phase == S.ContextInitialised
    ensures |w.server.registerQueue| > 0
    ensures var r := w.server.registerQueue[0];
      && r in sys.clients && r in w.nodes
      && RoleGraphRequest in w.nodes[r].down
      && w.server.edges == sys.clients[r].graph
  {
    ReachableInv(sys, w);
    var r := w.server.registerQueue[0];
    LinkOf(sys, w, r);
    RequesterGraph(sys.clients[r], w.server, r, w.nodes[r]);
  }

  lemma UpMessages(cfg: C.Config, s: S.State, p: Endpoint, n: Node, k: nat)
    requires UpInv(cfg, s, p, n) && k < |n.up|
    ensures n.up[k].Embody? ==> Joined(n.state.phase)
    ensures n.up[k].AddRoleConnection? ==> IsRequester(s, p) && 1 <= k <= |cfg.graph|
  {
  }

  /** Then no edge is on its way any more; and before that no client has asked to join. */
  lemma NothingInFlight(sys: System, w: World, p: Endpoint, k: nat)
    requires Distinct(sys) && Reachable(sys, w) && p in sys.clients
    requires p in w.nodes && k < |w.nodes[p].up|
    ensures w.nodes[p].up[k].Embody? ==> w.server.phase == S.ContextInitialised
    ensures w.server.phase == S.ContextInitialised && k >= w.nodes[p].handled ==>
              !w.nodes[p].up[k].AddRoleConnection?
  {
    ReachableInv(sys, w);
    assert NodeInv(sys, w, p);
    UpMessages(sys.clients[p], w.server, p, w.nodes[p], k);
  }

  predicate Later(a: S.Phase, b: S.Phase) {
    match a
    case ContextUninitialised => true
    case ContextInitialising => !b.ContextUninitialised?
    case ContextInitialised => b.ContextInitialised?
  }

  ghost predicate Advances(s: S.State, s': S.State) {
    && Later(s.phase, s'.phase)
    && (s.phase == S.ContextInitialised ==> s'.edges == s.edges)
    && s.registerQueue <= s'.registerQueue
  }

  lemma TurnAdvances(sys: System, s: S.State, p: Endpoint, n: Node)
    requires ServerInv(sys, s) && p in sys.clients && ClientInv(sys, sys.clients[p], s, p, n) && n.handled < |n.up|
    ensures Advances(s, S.React(s, p, n.up[n.handled]).state)
  {
    ServerMessage(sys, sys.clients[p], s, p, n);
  }

  lemma NextAdvances(sys: System, w: World, w': World)
    requires Inv(sys, w) && Next(sys, w, w')
    ensures Advances(w.server, w'.server)
  {
    var a :| Enabled(sys, w, a) && w' == Apply(sys, w, a);
    if a.ServerReceives? {
      assert NodeInv(sys, w, a.client);
      TurnAdvances(sys, w.server, a.client, w.nodes[a.client]);
    }
  }

  lemma RunAdvances(sys: System, run: seq<World>, j: nat)
    requires Distinct(sys) && IsRun(sys, run) && 0 < j < |run|
    ensures Advances(run[j - 1].server, run[j].server)
  {
    RunInv(sys, run, j - 1);
    assert StepAt(sys, run, j - 1);
    NextAdvances(sys, run[j - 1], run[j]);
  }

  /** Along a run the server's phase only moves forward, and its graph never changes once initialised. */
  lemma {:induction false} GraphFrozen(sys: System, run: seq<World>, i: nat, j: nat)
    requires Distinct(sys) && IsRun(sys, run) && i <= j < |run|
    ensures Advances(run[i].server, run[j].server)
  {
    if i < j {
      GraphFrozen(sys, run, i, j - 1);
      RunAdvances(sys, run, j);
    }
  }

  // ---------------------------------------------------------------------------------------
  // Handshake messages are sent at most once
  // ---------------------------------------------------------------------------------------

  lemma HandshakeCount(cfg: C.Config, s: S.State, p: Endpoint, n: Node, m: Message)
    requires DownInv(cfg, s, p, n) && !IsMembership(m)
    ensures multiset(n.down)[m] == multiset(Handshake(cfg, s, p, n))[m]
  {
    var h := Handshake(cfg, s, p, n);
    var rest := n.down[|h|..];
    assert n.down == h + rest;
    assert m !in rest;
  }

  lemma GraphRequestCount(cfg: C.Config, s: S.State, p: Endpoint, n: Node)
    requires DownInv(cfg, s, p, n)
    ensures multiset(n.down)[RoleGraphRequest] == if n.handled >= 1 && IsRequester(s, p) then 1 else 0
  {
    HandshakeCount(cfg, s, p, n, RoleGraphRequest);
    if n.handled >= 1 && IsRequester(s, p) {
      assert RoleGraphRequest !in Acks(cfg.graph, EdgesTaken(cfg, n));
    }
  }

  lemma CompleteCount(cfg: C.Config, s: S.State, p: Endpoint, n: Node)
    requires DownInv(cfg, s, p, n) && RegisterInv(cfg, s, p, n)
    ensures multiset(n.down)[RolesComplete] == if n.handled >= 1 && s.phase == S.ContextInitialised then 1 else 0
  {
    HandshakeCount(cfg, s, p, n, RolesComplete);
    if n.handled >= 1 && IsRequester(s, p) {
      assert RolesComplete !in Acks(cfg.graph, EdgesTaken(cfg, n));
    }
  }

  lemma AckCount(sys: System, cfg: C.Config, s: S.State, p: Endpoint, n: Node)
    requires ClientInv(sys, cfg, s, p, n) && Joined(n.state.phase)
    ensures n.state.acks == C.Wrap(if RoleGraphRequest in n.down then |cfg.graph| else 0)
  {
    GraphRequestCount(cfg, s, p, n);
    assert RoleGraphRequest in n.down <==> multiset(n.down)[RoleGraphRequest] > 0;
  }

  /** What a node guarantees, without the rest of its invariant. */
  lemma LinkOf(sys: System, w: World, p: Endpoint)
    requires Distinct(sys) && Reachable(sys, w) && p in sys.clients
    ensures p in w.nodes
    ensures DownInv(sys.clients[p], w.server, p, w.nodes[p]) && RegisterInv(sys.clients[p], w.server, p, w.nodes[p])
  {
    ReachableInv(sys, w);
    assert NodeInv(sys, w, p);
  }

  /** At most one client is ever asked for the role graph, and it is asked once. */
  lemma SingleGraphRequest(sys: System, w: World, p: Endpoint, q: Endpoint)
    requires Distinct(sys) && Reachable(sys, w) && p in sys.clients && q in sys.clients
    ensures p in w.nodes && q in w.nodes
    ensures multiset(w.nodes[p].down)[RoleGraphRequest] <= 1
    ensures RoleGraphRequest in w.nodes[p].down && RoleGraphRequest in w.nodes[q].down ==> p == q
  {
    LinkOf(sys, w, p);
    LinkOf(sys, w, q);
    GraphRequestCount(sys.clients[p], w.server, p, w.nodes[p]);
    GraphRequestCount(sys.clients[q], w.server, q, w.nodes[q]);
    assert RoleGraphRequest in w.nodes[p].down <==> multiset(w.nodes[p].down)[RoleGraphRequest] > 0;
    assert RoleGraphRequest in w.nodes[q].down <==> multiset(w.nodes[q].down)[RoleGraphRequest] > 0;
  }

  /**
   * Every client is told RolesComplete exactly once when the context is initialised and its
   * registration was handled, and not at all before, although the queue is never cleared.
   */
  lemma SingleRolesComplete(sys: System, w: World, p: Endpoint)
    requires Distinct(sys) && Reachable(sys, w) && p in sys.clients
    ensures p in w.nodes
    ensures multiset(w.nodes[p].down)[RolesComplete]
         == if w.server.phase == S.ContextInitialised && w.nodes[p].handled >= 1 then 1 else 0
  {
    LinkOf(sys, w, p);
    CompleteCount(sys.clients[p], w.server, p, w.nodes[p]);
  }

  /** When its constructor returns, the asked client has counted one acknowledgement per edge, the others none. */
  lemma AllEdgesAcknowledged(sys: System, w: World, p: Endpoint)
    requires Distinct(sys) && Reachable(sys, w) && p in sys.clients
    requires p in w.nodes && Joined(w.nodes[p].state.phase)
    ensures w.nodes[p].state.acks
         == (if RoleGraphRequest in w.nodes[p].down then |sys.clients[p].graph| else 0) % 0x1_0000_0000
  {
    ReachableInv(sys, w);
    assert NodeInv(sys, w, p);
    AckCount(sys, sys.clients[p], w.server, p, w.nodes[p]);
  }

  // ---------------------------------------------------------------------------------------
  // Nobody waits for ever
  // ---------------------------------------------------------------------------------------

  ghost predicate CanReceive(sys: System, w: World) {
    exists q :: q in sys.clients && (Enabled(sys, w, ServerReceives(q)) || Enabled(sys, w, ClientReceives(q)))
  }

  lemma ReceiveOf(sys: System, w: World, q: Endpoint)
    requires q in sys.clients && q in w.nodes && w.server.running
    requires w.nodes[q].handled < |w.nodes[q].up|
          || (C.Receiving(w.nodes[q].state) && w.nodes[q].delivered < |w.nodes[q].down|)
    ensures CanReceive(sys, w)
  {
    assert Enabled(sys, w, ServerReceives(q)) || Enabled(sys, w, ClientReceives(q));
  }

  /** A client whose links are idle is not inside its constructor, unless the graph is still missing. */
  lemma IdleCreating(sys: System, w: World, p: Endpoint)
    requires Inv(sys, w) && p in sys.clients && w.nodes[p].state.phase == C.Creating
    requires w.nodes[p].handled == |w.nodes[p].up| && w.nodes[p].delivered == |w.nodes[p].down|
    ensures w.server.phase == S.ContextInitialising && !IsRequester(w.server, p)
  {
    assert NodeInv(sys, w, p);
    OnlyHandshake(sys, sys.clients[p], w.server, p, w.nodes[p]);
  }

  /** An initialising server's requester always has something to send or to receive. */
  lemma RequesterBusy(sys: System, w: World, r: Endpoint)
    requires Inv(sys, w) && w.server.phase == S.ContextInitialising && r in sys.clients && IsRequester(w.server, r)
    ensures C.Receiving(w.nodes[r].state)
    ensures w.nodes[r].handled < |w.nodes[r].up| || w.nodes[r].delivered < |w.nodes[r].down|
  {
    assert NodeInv(sys, w, r);
    if w.nodes[r].handled == |w.nodes[r].up| && w.nodes[r].delivered == |w.nodes[r].down| {
      IdleCreating(sys, w, r);
    }
  }

  /**
   * While the server runs, a client inside its constructor or inside `stop` is never left in a
   * state where no message can be received any more.
   */
  lemma NeverStalls(sys: System, w: World, p: Endpoint)
    requires Distinct(sys) && Reachable(sys, w) && p in sys.clients && w.server.running
    requires p in w.nodes && w.nodes[p].state.phase in {C.Creating, C.Stopping}
    ensures CanReceive(sys, w)
  {
    ReachableInv(sys, w);
    var n := w.nodes[p];
    assert NodeInv(sys, w, p);
    if n.handled < |n.up| || n.delivered < |n.down| {
      ReceiveOf(sys, w, p);
    } else if n.state.phase == C.Creating {
      IdleCreating(sys, w, p);
      var r := w.server.registerQueue[0];
      RequesterBusy(sys, w, r);
      ReceiveOf(sys, w, r);
    } else {
      assert false;
    }
  }

  // ---------------------------------------------------------------------------------------
  // The server runs until it is told to close
  // ---------------------------------------------------------------------------------------

  /** No message of a client ends the receive loop. */
  lemma TurnRuns(sys: System, s: S.State, p: Endpoint, n: Node)
    requires ServerInv(sys, s) && p in sys.clients && ClientInv(sys, sys.clients[p], s, p, n) && n.handled < |n.up|
    ensures S.React(s, p, n.up[n.handled]).state.running == s.running
  {
    ServerMessage(sys, sys.clients[p], s, p, n);
  }

  lemma RunningStep(sys: System, w: World, a: Action)
    requires Inv(sys, w) && Enabled(sys, w, a)
    ensures Apply(sys, w, a).server.running <==> w.server.running && !a.CloseServer?
  {
    if a.ServerReceives? {
      assert NodeInv(sys, w, a.client);
      TurnRuns(sys, w.server, a.client, w.nodes[a.client]);
    }
  }

  /** The server is closed between two positions of a run. */
  ghost predicate ClosesAt(sys: System, run: seq<World>, k: nat) {
    && k + 1 < |run| && Enabled(sys, run[k], CloseServer)
    && run[k + 1] == Apply(sys, run[k], CloseServer)
  }

  lemma NextRunning(sys: System, run: seq<World>, k: nat)
    requires Distinct(sys) && IsRun(sys, run) && k + 1 < |run|
    ensures run[k + 1].server.running <==> run[k].server.running && !ClosesAt(sys, run, k)
  {
    RunInv(sys, run, k);
    assert StepAt(sys, run, k);
    var a :| Enabled(sys, run[k], a) && run[k + 1] == Apply(sys, run[k], a);
    RunningStep(sys, run[k], a);
    if ClosesAt(sys, run, k) {
      RunningStep(sys, run[k], CloseServer);
    }
  }

  /** Along every run the server is running exactly until it has been closed. */
  lemma {:induction false} RunningIff(sys: System, run: seq<World>, i: nat)
    requires Distinct(sys) && IsRun(sys, run) && i < |run|
    ensures run[i].server.running <==> forall k: nat :: k < i ==> !ClosesAt(sys, run, k)
  {
    if i > 0 {
      RunningIff(sys, run, i - 1);
      NextRunning(sys, run, i - 1);
    }
  }

  /** So in a run that has not closed the server, no client is ever left waiting for nothing. */
  lemma NeverStallsOpen(sys: System, run: seq<World>, i: nat, p: Endpoint)
    requires Distinct(sys) && IsRun(sys, run) && i < |run|
    requires forall k: nat :: k < i ==> !ClosesAt(sys, run, k)
    requires p in run[i].nodes && run[i].nodes[p].state.phase in {C.Creating, C.Stopping} && p in sys.clients
    ensures CanReceive(sys, run[i])
  {
    RunningIff(sys, run, i);
    PrefixRun(sys, run, i);
    NeverStalls(sys, run[i], p);
  }

  lemma PrefixRun(sys: System, run: seq<World>, i: nat)
    requires IsRun(sys, run) && i < |run|
    ensures Reachable(sys, run[i])
  {
    var front := run[..i + 1];
    forall k: nat
      ensures StepAt(sys, front, k)
    {
      assert StepAt(sys, run, k);
    }
    assert IsRun(sys, front) && front[|front| - 1] == run[i];
  }
}
