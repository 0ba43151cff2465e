/** What a client's log says of those who have left: each leaves once, and is withdrawn once per edge or not at all. */
module MembershipDepartures {
  import opened Sequences
  import opened Protocol
  import opened Membership
  import opened MembershipSteps
  import opened MembershipTheorems
  import S = CracenServer
  import C = CracenClient

  /**
   * `p`'s log withdraws `q` only after the server has handled `q`'s Disembody, and then, if at all,
   * as often as edges join the two roles.
   */
  ghost predicate Withdrawn(cfg: C.Config, s: S.State, down: seq<Message>, other: C.Config, q: Endpoint, handled: nat) {
    && (Disembody(other.data) in down ==> handled == EmbodyAt(other, s, q) + 2)
    && Departures(down, other.data)
       == if Disembody(other.data) in down then Links(s.edges, cfg.role, other.role) else 0
  }

  ghost predicate GoneAt(sys: System, w: World, p: Endpoint, q: Endpoint) {
    p in sys.clients && q in sys.clients && p != q && p in w.nodes && q in w.nodes ==>
      Withdrawn(sys.clients[p], w.server, w.nodes[p].down, sys.clients[q], q, w.nodes[q].handled)
  }

  ghost predicate GoneInv(sys: System, w: World) {
    forall p, q :: GoneAt(sys, w, p, q)
  }

  // ---------------------------------------------------------------------------------------
  // Counting withdrawals
  // ---------------------------------------------------------------------------------------

  lemma {:induction false} DeparturesConcat(a: seq<Message>, b: seq<Message>, e: Endpoint)
    ensures Departures(a + b, e) == Departures(a, e) + Departures(b, e)
  {
    if b == [] {
      assert a + b == a;
    } else {
      var n := |b| - 1;
      DeparturesConcat(a, b[..n], e);
      assert (a + b)[..|a + b| - 1] == a + b[..n];
    }
  }

  lemma {:induction false} DeparturesOfCopies(e: Endpoint, n: nat)
    ensures Departures(Repeat(Disembody(e), n), e) == n
  {
    if n > 0 {
      DeparturesOfCopies(e, n - 1);
      assert Repeat(Disembody(e), n)[..n - 1] == Repeat(Disembody(e), n - 1);
    }
  }

  /** Messages that do not withdraw an endpoint change nothing about it. */
  lemma DeparturesQuiet(down: seq<Message>, more: seq<Message>, e: Endpoint)
    requires Disembody(e) !in more
    ensures Departures(down + more, e) == Departures(down, e)
    ensures Disembody(e) in down + more <==> Disembody(e) in down
  {
    DeparturesConcat(down, more, e);
    DepartureAt(more, e);
  }

  lemma {:induction false} AddressedKind(out: seq<Envelope>, to: Endpoint)
    requires forall i :: 0 <= i < |out| ==> !out[i].msg.Disembody?
    ensures forall i :: 0 <= i < |Addressed(out, to)| ==> !Addressed(out, to)[i].Disembody?
  {
    if out != [] {
      AddressedKind(out[1..], to);
    }
  }

  // ---------------------------------------------------------------------------------------
  // One handled message
  // ---------------------------------------------------------------------------------------

  /** Only a Disembody makes the server withdraw anybody. */
  lemma AnswerQuiet(s: S.State, r: Endpoint, msg: Message, p: Endpoint, e: Endpoint)
    requires !msg.Disembody?
    ensures Disembody(e) !in Addressed(S.React(s, r, msg).out, p)
  {
    AddressedKind(S.React(s, r, msg).out, p);
  }

  lemma NotBeforeJoining(sys: System, cfg: C.Config, s: S.State, p: Endpoint, n: Node, e: Endpoint)
    requires ServerInv(sys, s) && ClientInv(sys, cfg, s, p, n)
    ensures n.handled <= EmbodyAt(cfg, s, p) ==> Disembody(e) !in n.down
  {
    if n.handled <= EmbodyAt(cfg, s, p) {
      OnlyHandshake(sys, cfg, s, p, n);
    }
  }

  /** A log that withdraws somebody belongs to a client that joined an initialised context. */
  lemma HeardAfterJoining(sys: System, cfg: C.Config, s: S.State, p: Endpoint, n: Node, e: Endpoint)
    requires ServerInv(sys, s) && ClientInv(sys, cfg, s, p, n) && Disembody(e) in n.down
    ensures s.phase == S.ContextInitialised
  {
    NotBeforeJoining(sys, cfg, s, p, n, e);
  }

  /** Whoever has been registered keeps its place in the register queue, and an initialised graph stays. */
  lemma Settled(sys: System, s: S.State, r: Endpoint, nr: Node)
    requires ServerInv(sys, s) && r in sys.clients && ClientInv(sys, sys.clients[r], s, r, nr) && nr.handled < |nr.up|
    requires s.phase == S.ContextInitialised
    ensures Answer(s, r, nr).state.edges == s.edges && Answer(s, r, nr).state.registerQueue == s.registerQueue
  {
    ServerMessage(sys, sys.clients[r], s, r, nr);
  }

  lemma QuietTurn(sys: System, s: S.State, r: Endpoint, nr: Node, p: Endpoint, np: Node, q: Endpoint, nq: Node)
    requires At(sys, s, r, nr, p, np) && At(sys, s, r, nr, q, nq) && p != q
    requires Withdrawn(sys.clients[p], s, np.down, sys.clients[q], q, nq.handled)
    requires nr.up[nr.handled] == Disembody(sys.clients[r].data) ==> r != q
    requires nr.up[nr.handled].Disembody? ==> nr.up[nr.handled] == Disembody(sys.clients[r].data)
    requires Disembody(sys.clients[q].data) !in Addressed(Answer(s, r, nr).out, p)
    ensures Withdrawn(sys.clients[p], Answer(s, r, nr).state, np.down + Addressed(Answer(s, r, nr).out, p),
                      sys.clients[q], q, if q == r then nq.handled + 1 else nq.handled)
  {
    var e := sys.clients[q].data;
    DeparturesQuiet(np.down, Addressed(Answer(s, r, nr).out, p), e);
    if Disembody(e) in np.down {
      HeardAfterJoining(sys, sys.clients[p], s, p, np, e);
      Settled(sys, s, r, nr);
      ServerMessage(sys, sys.clients[r], s, r, nr);
    }
  }

  /** The server handles `q`'s own Disembody. */
  lemma OwnTurn(sys: System, s: S.State, p: Endpoint, np: Node, q: Endpoint, nq: Node)
    requires At(sys, s, q, nq, p, np) && p != q && nq.handled == EmbodyAt(sys.clients[q], s, q) + 1
    requires Withdrawn(sys.clients[p], s, np.down, sys.clients[q], q, nq.handled)
    ensures Withdrawn(sys.clients[p], Answer(s, q, nq).state, np.down + Addressed(Answer(s, q, nq).out, p),
                      sys.clients[q], q, nq.handled + 1)
  {
    var cfg, e := sys.clients[q], sys.clients[q].data;
    ServerMessage(sys, cfg, s, q, nq);
    var x := S.Participant(e, q, cfg.role);
    DisembodyAddressed(sys, s, q, x, p, np);
    var n := Heard(sys.clients[p], s, p, np, x.role);
    var copies := Repeat(Disembody(e), n);
    assert Addressed(Answer(s, q, nq).out, p) == copies;
    CopiesHeard(np.down, e, n);
  }

  lemma CopiesHeard(down: seq<Message>, e: Endpoint, n: nat)
    requires Disembody(e) !in down
    ensures Departures(down + Repeat(Disembody(e), n), e) == n
    ensures Disembody(e) in down + Repeat(Disembody(e), n) <==> n > 0
  {
    var copies := Repeat(Disembody(e), n);
    DeparturesConcat(down, copies, e);
    DeparturesOfCopies(e, n);
    DepartureAt(down, e);
    assert n > 0 ==> copies[0] in copies;
  }

  lemma Turn(sys: System, s: S.State, r: Endpoint, nr: Node, p: Endpoint, np: Node, q: Endpoint, nq: Node)
    requires At(sys, s, r, nr, p, np) && At(sys, s, r, nr, q, nq) && p != q
    requires Withdrawn(sys.clients[p], s, np.down, sys.clients[q], q, nq.handled)
    ensures Withdrawn(sys.clients[p], Answer(s, r, nr).state, np.down + Addressed(Answer(s, r, nr).out, p),
                      sys.clients[q], q, if q == r then nq.handled + 1 else nq.handled)
  {
    var cfg := sys.clients[r];
    ServerMessage(sys, cfg, s, r, nr);
    if nr.handled == EmbodyAt(cfg, s, r) + 1 {
      if q == r {
        OwnTurn(sys, s, p, np, q, nq);
      } else {
        DisembodyAddressed(sys, s, r, S.Participant(cfg.data, r, cfg.role), p, np);
        assert cfg.data != sys.clients[q].data;
        QuietTurn(sys, s, r, nr, p, np, q, nq);
      }
    } else {
      AnswerQuiet(s, r, nr.up[nr.handled], p, sys.clients[q].data);
      QuietTurn(sys, s, r, nr, p, np, q, nq);
    }
  }

  // ---------------------------------------------------------------------------------------
  // Along every run
  // ---------------------------------------------------------------------------------------

  lemma ServerTurnGone(sys: System, w: World, r: Endpoint, p: Endpoint, q: Endpoint)
    requires Inv(sys, w) && r in w.nodes && w.nodes[r].handled < |w.nodes[r].up| && GoneAt(sys, w, p, q)
    ensures GoneAt(sys, ServerTurn(w, r), p, q)
  {
    if p in sys.clients && q in sys.clients && p != q {
      assert NodeInv(sys, w, r) && NodeInv(sys, w, p) && NodeInv(sys, w, q);
      Turn(sys, w.server, r, w.nodes[r], p, w.nodes[p], q, w.nodes[q]);
    }
  }

  /** No other action touches what the server sent or handled. */
  ghost predicate SameLog(w: World, w': World, p: Endpoint) {
    p in w.nodes && p in w'.nodes ==> w'.nodes[p].down == w.nodes[p].down && w'.nodes[p].handled == w.nodes[p].handled
  }

  lemma OtherGone(sys: System, w: World, a: Action, p: Endpoint, q: Endpoint)
    requires Enabled(sys, w, a) && !a.ServerReceives? && GoneAt(sys, w, p, q)
    ensures GoneAt(sys, Apply(sys, w, a), p, q)
  {
    var w' := Apply(sys, w, a);
    assert SameLog(w, w', p) && SameLog(w, w', q);
    assert w'.server.edges == w.server.edges && w'.server.registerQueue == w.server.registerQueue;
  }

  lemma NextGone(sys: System, w: World, w': World)
    requires Inv(sys, w) && GoneInv(sys, w) && Next(sys, w, w')
    ensures GoneInv(sys, w')
  {
    var a :| Enabled(sys, w, a) && w' == Apply(sys, w, a);
    forall p, q
      ensures GoneAt(sys, w', p, q)
    {
      assert GoneAt(sys, w, p, q);
      if a.ServerReceives? {
        ServerTurnGone(sys, w, a.client, p, q);
      } else {
        OtherGone(sys, w, a, p, q);
      }
    }
  }

  lemma InitGone(sys: System, w: World)
    requires Init(sys, w)
    ensures GoneInv(sys, w)
  {
  }

  lemma {:induction false} RunGone(sys: System, run: seq<World>, i: nat)
    requires Distinct(sys) && IsRun(sys, run) && i < |run|
    ensures GoneInv(sys, run[i])
  {
    if i == 0 {
      InitGone(sys, run[0]);
    } else {
      RunGone(sys, run, i - 1);
      RunInv(sys, run, i - 1);
      assert StepAt(sys, run, i - 1);
      NextGone(sys, run[i - 1], run[i]);
    }
  }

  lemma ReachableGone(sys: System, w: World, p: Endpoint, q: Endpoint)
    requires Distinct(sys) && Reachable(sys, w)
    ensures GoneAt(sys, w, p, q)
  {
    var run :| IsRun(sys, run) && run[|run| - 1] == w;
    RunGone(sys, run, |run| - 1);
  }

  lemma LiveHandled(sys: System, w: World, q: Endpoint)
    requires Inv(sys, w) && LiveIn(sys, w, q)
    ensures w.nodes[q].handled == EmbodyAt(sys.clients[q], w.server, q) + 1
  {
    assert NodeInv(sys, w, q);
  }

  /** In every reachable state, a live client is withdrawn from nobody's log. */
  lemma LiveNotWithdrawn(sys: System, w: World, p: Endpoint, q: Endpoint)
    requires Distinct(sys) && Reachable(sys, w) && p in sys.clients && p != q && LiveIn(sys, w, q)
    ensures p in w.nodes && Disembody(sys.clients[q].data) !in w.nodes[p].down
    ensures Departures(w.nodes[p].down, sys.clients[q].data) == 0
  {
    ReachableInv(sys, w);
    LiveHandled(sys, w, q);
    ReachableGone(sys, w, p, q);
  }

  /** And whoever is withdrawn from a log is withdrawn once per edge between the two roles. */
  lemma WithdrawnPerEdge(sys: System, w: World, p: Endpoint, q: Endpoint)
    requires Distinct(sys) && Reachable(sys, w) && p in sys.clients && q in sys.clients && p != q
    ensures p in w.nodes
    ensures Departures(w.nodes[p].down, sys.clients[q].data)
         == if Disembody(sys.clients[q].data) in w.nodes[p].down
            then Links(w.server.edges, sys.clients[p].role, sys.clients[q].role) else 0
  {
    ReachableInv(sys, w);
    ReachableGone(sys, w, p, q);
  }
}
