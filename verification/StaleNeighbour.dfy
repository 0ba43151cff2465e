/**
 * One run of the membership protocol, from the start, after which a client that is live and has
 * received everything still lists a neighbour that has left.
 */
module StaleNeighbour {
  import opened Sequences
  import opened Protocol
  import opened Membership
  import opened MembershipTheorems
  import opened RoleMaps
  import S = CracenServer
  import C = CracenClient

  const EDGE := Edge(0, 1)
  const STAYER := C.Config(0, 11, 0, [EDGE])
  const LEAVER := C.Config(0, 12, 1, [])
  const SYS := System(0, map[1 := STAYER, 2 := LEAVER])
  const STAYING := S.Participant(11, 1, 0)
  const LEAVING := S.Participant(12, 2, 1)

  ghost function W(s: S.State, stayer: Node, leaver: Node): World {
    World(s, map[1 := stayer, 2 := leaver])
  }

  ghost predicate Reached(s: S.State, stayer: Node, leaver: Node) {
    Reachable(SYS, W(s, stayer, leaver))
  }

  lemma ReachableNext(sys: System, w: World, a: Action)
    requires Reachable(sys, w) && Enabled(sys, w, a)
    ensures Reachable(sys, Apply(sys, w, a))
  {
    var run :| IsRun(sys, run) && run[|run| - 1] == w;
    var run' := run + [Apply(sys, w, a)];
    forall i: nat
      ensures StepAt(sys, run', i)
    {
      assert StepAt(sys, run, i);
    }
    assert IsRun(sys, run') && run'[|run'| - 1] == Apply(sys, w, a);
  }

  lemma Begin()
    ensures Reached(S.INITIAL, Node(C.INITIAL, [], 0, [], 0), Node(C.INITIAL, [], 0, [], 0))
  {
    var w := W(S.INITIAL, Node(C.INITIAL, [], 0, [], 0), Node(C.INITIAL, [], 0, [], 0));
    assert Init(SYS, w);
    assert IsRun(SYS, [w]) && [w][|[w]| - 1] == w;
  }

  lemma ServerStep(s: S.State, stayer: Node, leaver: Node, from: Endpoint, s': S.State, out: seq<Envelope>)
    requires Reached(s, stayer, leaver) && s.running && from in {1, 2}
    requires var n := if from == 1 then stayer else leaver;
      n.handled < |n.up| && S.React(s, from, n.up[n.handled]) == S.Reaction(s', out)
    ensures Reached(s', Served(1, stayer, from, out), Served(2, leaver, from, out))
  {
    var w := W(s, stayer, leaver);
    ReachableNext(SYS, w, ServerReceives(from));
    var w' := Apply(SYS, w, ServerReceives(from));
    assert w'.nodes == map[1 := Served(1, stayer, from, out), 2 := Served(2, leaver, from, out)];
  }

  lemma ClientStep(s: S.State, stayer: Node, leaver: Node, p: Endpoint)
    requires Reached(s, stayer, leaver) && p in {1, 2}
    requires var n := if p == 1 then stayer else leaver;
      C.Receiving(n.state) && n.delivered < |n.down|
    ensures p == 1 ==> Reached(s, Received(STAYER, stayer), leaver)
    ensures p == 2 ==> Reached(s, stayer, Received(LEAVER, leaver))
  {
    var w := W(s, stayer, leaver);
    ReachableNext(SYS, w, ClientReceives(p));
    var w' := Apply(SYS, w, ClientReceives(p));
    assert p == 1 ==> w'.nodes == map[1 := Received(STAYER, stayer), 2 := leaver];
    assert p == 2 ==> w'.nodes == map[1 := stayer, 2 := Received(LEAVER, leaver)];
  }

  // ---------------------------------------------------------------------------------------
  // The run
  // ---------------------------------------------------------------------------------------

  function Creating(acks: nat): C.State {
    C.State(C.Creating, acks, map[])
  }

  const STAYER_UP := [Register, AddRoleConnection(EDGE), RolesComplete]
  const STAYER_DOWN := [RoleGraphRequest, AddRoleConnection(EDGE), RolesComplete]

  lemma BothStart()
    ensures Reached(S.INITIAL, Node(Creating(0), [Register], 0, [], 0), Node(Creating(0), [Register], 0, [], 0))
  {
    Begin();
    var n, m := Node(C.INITIAL, [], 0, [], 0), Node(Creating(0), [Register], 0, [], 0);
    assert n.up + [Register] == [Register];
    var w0, w1, w2 := W(S.INITIAL, n, n), W(S.INITIAL, m, n), W(S.INITIAL, m, m);
    ReachableNext(SYS, w0, Start(1));
    assert Apply(SYS, w0, Start(1)).nodes == w1.nodes;
    ReachableNext(SYS, w1, Start(2));
    assert Apply(SYS, w1, Start(2)).nodes == w2.nodes;
  }

  lemma GraphRequested()
    ensures Reached(S.State(S.ContextInitialising, [], map[], [1], true, false),
                    Node(Creating(0), STAYER_UP, 1, [RoleGraphRequest], 1), Node(Creating(0), [Register], 0, [], 0))
  {
    BothStart();
    var s := S.State(S.ContextInitialising, [], map[], [1], true, false);
    var n := Node(Creating(0), [Register], 0, [], 0);
    ServerStep(S.INITIAL, n, n, 1, s, [Envelope(1, RoleGraphRequest)]);
    var asked := Node(Creating(0), [Register], 1, [RoleGraphRequest], 0);
    assert Served(1, n, 1, [Envelope(1, RoleGraphRequest)]) == asked;
    assert Served(2, n, 1, [Envelope(1, RoleGraphRequest)]) == n;
    ClientStep(s, asked, n, 1);
    assert C.GraphMessages([EDGE]) == [AddRoleConnection(EDGE), RolesComplete];
    assert Received(STAYER, asked) == Node(Creating(0), STAYER_UP, 1, [RoleGraphRequest], 1);
  }

  lemma EdgeTaken()
    ensures Reached(S.State(S.ContextInitialising, [EDGE], map[], [1], true, false),
                    Node(Creating(0), STAYER_UP, 2, [RoleGraphRequest, AddRoleConnection(EDGE)], 1),
                    Node(Creating(0), [Register], 0, [], 0))
  {
    GraphRequested();
    var s0 := S.State(S.ContextInitialising, [], map[], [1], true, false);
    var s1 := S.State(S.ContextInitialising, [EDGE], map[], [1], true, false);
    var n0 := Node(Creating(0), STAYER_UP, 1, [RoleGraphRequest], 1);
    var n1 := Node(Creating(0), STAYER_UP, 2, [RoleGraphRequest, AddRoleConnection(EDGE)], 1);
    var m := Node(Creating(0), [Register], 0, [], 0);
    ServerStep(s0, n0, m, 1, s1, [Envelope(1, AddRoleConnection(EDGE))]);
    assert Served(1, n0, 1, [Envelope(1, AddRoleConnection(EDGE))]) == n1;
    assert Served(2, m, 1, [Envelope(1, AddRoleConnection(EDGE))]) == m;
  }

  lemma Initialised()
    ensures Reached(S.State(S.ContextInitialised, [EDGE], map[], [1], true, false),
                    Node(Creating(0), STAYER_UP, 3, STAYER_DOWN, 1),
                    Node(Creating(0), [Register], 1, [RolesComplete], 0))
  {
    EdgeTaken();
    var s1 := S.State(S.ContextInitialising, [EDGE], map[], [1], true, false);
    var s2 := S.State(S.ContextInitialised, [EDGE], map[], [1], true, false);
    var n1 := Node(Creating(0), STAYER_UP, 2, [RoleGraphRequest, AddRoleConnection(EDGE)], 1);
    var n2 := Node(Creating(0), STAYER_UP, 3, STAYER_DOWN, 1);
    var m := Node(Creating(0), [Register], 0, [], 0);
    ServerStep(s1, n1, m, 1, s2, [Envelope(1, RolesComplete)]);
    assert Served(1, n1, 1, [Envelope(1, RolesComplete)]) == n2;
    assert Served(2, m, 1, [Envelope(1, RolesComplete)]) == m;
    ServerStep(s2, n2, m, 2, s2, [Envelope(2, RolesComplete)]);
    assert Served(1, n2, 2, [Envelope(2, RolesComplete)]) == n2;
    assert Served(2, m, 2, [Envelope(2, RolesComplete)]) == Node(Creating(0), [Register], 1, [RolesComplete], 0);
  }

  lemma BothJoin()
    ensures Reached(S.State(S.ContextInitialised, [EDGE], map[], [1], true, false),
                    Node(C.State(C.Alive, 1, map[]), STAYER_UP + [Embody(11, 0)], 3, STAYER_DOWN, 3),
                    Node(C.State(C.Alive, 0, map[]), [Register, Embody(12, 1)], 1, [RolesComplete], 1))
  {
    Initialised();
    var s := S.State(S.ContextInitialised, [EDGE], map[], [1], true, false);
    var n := Node(Creating(0), STAYER_UP, 3, STAYER_DOWN, 1);
    var m := Node(Creating(0), [Register], 1, [RolesComplete], 0);
    ClientStep(s, n, m, 1);
    var n1 := Node(Creating(1), STAYER_UP, 3, STAYER_DOWN, 2);
    assert Received(STAYER, n) == n1;
    ClientStep(s, n1, m, 1);
    var n2 := Node(C.State(C.Alive, 1, map[]), STAYER_UP + [Embody(11, 0)], 3, STAYER_DOWN, 3);
    assert Received(STAYER, n1) == n2;
    ClientStep(s, n2, m, 2);
    assert Received(LEAVER, m) == Node(C.State(C.Alive, 0, map[]), [Register, Embody(12, 1)], 1, [RolesComplete], 1);
  }

  /** With the stayer alone, or with both in, the leaver's only neighbour is the stayer. */
  lemma OnlyNeighbour(parts: map<Endpoint, S.Participant>)
    requires parts == map[11 := STAYING] || parts == map[11 := STAYING, 12 := LEAVING]
    ensures S.Neighbours([EDGE], parts, 1) == [STAYING]
  {
    assert S.LeftRange([EDGE], 1) == [];
    assert S.RightRange([EDGE], 1) == [0] + S.RightRange([], 1);
    LeastUnique(parts.Keys, 11);
    var rest := parts.Keys - {11};
    assert S.OnRole(rest, parts, 0) == [] by {
      if rest != {} {
        assert rest == {12};
        LeastUnique(rest, 12);
        assert rest - {12} == {};
      }
    }
    assert S.OnRange([0], parts) == S.OnRole(parts.Keys, parts, 0) + S.OnRange([], parts);
  }

  lemma {:induction false} NobodyThere(range: seq<RoleId>)
    ensures S.OnRange(range, map[]) == []
  {
    if range != [] {
      NobodyThere(range[1..]);
    }
  }

  lemma StayerEmbodied()
    ensures Reached(S.State(S.ContextInitialised, [EDGE], map[11 := STAYING], [1], true, false),
                    Node(C.State(C.Alive, 1, map[]), STAYER_UP + [Embody(11, 0)], 4, STAYER_DOWN, 3),
                    Node(C.State(C.Alive, 0, map[]), [Register, Embody(12, 1)], 1, [RolesComplete], 1))
  {
    BothJoin();
    var s := S.State(S.ContextInitialised, [EDGE], map[], [1], true, false);
    var s' := s.(participants := map[11 := STAYING]);
    var n := Node(C.State(C.Alive, 1, map[]), STAYER_UP + [Embody(11, 0)], 3, STAYER_DOWN, 3);
    var m := Node(C.State(C.Alive, 0, map[]), [Register, Embody(12, 1)], 1, [RolesComplete], 1);
    NobodyThere(S.LeftRange([EDGE], 0));
    NobodyThere(S.RightRange([EDGE], 0));
    ServerStep(s, n, m, 1, s', []);
    assert Served(1, n, 1, []) == n.(handled := 4) && Served(2, m, 1, []) == m;
  }

  lemma EmbodyHandled()
    ensures var s := S.State(S.ContextInitialised, [EDGE], map[11 := STAYING], [1], true, false);
      S.React(s, 2, Embody(12, 1)) == S.Reaction(s.(participants := map[11 := STAYING, 12 := LEAVING]),
                                                 [Envelope(2, Announce(11, 0)), Envelope(1, Embody(12, 1))])
  {
    OnlyNeighbour(map[11 := STAYING]);
    assert map[11 := STAYING][12 := LEAVING] == map[11 := STAYING, 12 := LEAVING];
    assert S.AnnounceAll([STAYING], 2) == [Envelope(2, Announce(11, 0))];
    assert S.Broadcast([STAYING], Embody(12, 1)) == [Envelope(1, Embody(12, 1))];
  }

  lemma LeaverEmbodied()
    ensures Reached(S.State(S.ContextInitialised, [EDGE], map[11 := STAYING, 12 := LEAVING], [1], true, false),
                    Node(C.State(C.Alive, 1, map[1 := [12]]), STAYER_UP + [Embody(11, 0)], 4,
                         STAYER_DOWN + [Embody(12, 1)], 4),
                    Node(C.State(C.Alive, 0, map[]), [Register, Embody(12, 1)], 2, [RolesComplete, Announce(11, 0)], 1))
  {
    StayerEmbodied();
    var s := S.State(S.ContextInitialised, [EDGE], map[11 := STAYING], [1], true, false);
    var s' := s.(participants := map[11 := STAYING, 12 := LEAVING]);
    var n := Node(C.State(C.Alive, 1, map[]), STAYER_UP + [Embody(11, 0)], 4, STAYER_DOWN, 3);
    var m := Node(C.State(C.Alive, 0, map[]), [Register, Embody(12, 1)], 1, [RolesComplete], 1);
    var out := [Envelope(2, Announce(11, 0)), Envelope(1, Embody(12, 1))];
    EmbodyHandled();
    ServerStep(s, n, m, 2, s', out);
    var n1 := n.(down := STAYER_DOWN + [Embody(12, 1)]);
    var m1 := m.(handled := 2, down := [RolesComplete, Announce(11, 0)]);
    assert out[1..] == [Envelope(1, Embody(12, 1))];
    assert Addressed(out[1..], 1) == [Embody(12, 1)] && Addressed(out[1..], 2) == [];
    assert Served(1, n, 2, out) == n1 && Served(2, m, 2, out) == m1;
    ClientStep(s', n1, m1, 1);
    assert C.At(map[], 1) + [12] == [12];
    assert Received(STAYER, n1) == n1.(state := C.State(C.Alive, 1, map[1 := [12]]), delivered := 4);
  }

  const LAST_SERVER := S.State(S.ContextInitialised, [EDGE], map[11 := STAYING], [1], true, false)
  const LAST_STAYER := Node(C.State(C.Alive, 1, map[1 := [12]]), STAYER_UP + [Embody(11, 0)], 4,
                            STAYER_DOWN + [Embody(12, 1), Disembody(12)], 5)
  const LAST_LEAVER := Node(C.State(C.Stopping, 0, map[]), [Register, Embody(12, 1), Disembody(12)], 3,
                            [RolesComplete, Announce(11, 0), Disembody(12)], 1)

  const BOTH_IN := LAST_SERVER.(participants := map[11 := STAYING, 12 := LEAVING])

  lemma LeaverStops()
    ensures Reached(BOTH_IN,
                    LAST_STAYER.(down := STAYER_DOWN + [Embody(12, 1)], delivered := 4),
                    LAST_LEAVER.(handled := 2, down := [RolesComplete, Announce(11, 0)]))
  {
    LeaverEmbodied();
    var n := LAST_STAYER.(down := STAYER_DOWN + [Embody(12, 1)], delivered := 4);
    var m := Node(C.State(C.Alive, 0, map[]), [Register, Embody(12, 1)], 2, [RolesComplete, Announce(11, 0)], 1);
    var w, w' := W(BOTH_IN, n, m), W(BOTH_IN, n, LAST_LEAVER.(handled := 2, down := m.down));
    ReachableNext(SYS, w, Stop(2));
    assert m.up + [Disembody(12)] == [Register, Embody(12, 1), Disembody(12)];
    assert Apply(SYS, w, Stop(2)).nodes == w'.nodes;
  }

  lemma DisembodyHandled()
    ensures S.React(BOTH_IN, 2, Disembody(12))
         == S.Reaction(LAST_SERVER, [Envelope(2, Disembody(12)), Envelope(1, Disembody(12))])
  {
    var parts := map[11 := STAYING, 12 := LEAVING];
    OnlyNeighbour(parts);
    assert parts - {12} == map[11 := STAYING];
    assert S.Broadcast([STAYING], Disembody(12)) == [Envelope(1, Disembody(12))];
  }

  lemma LeaverGone()
    ensures Reached(LAST_SERVER, LAST_STAYER.(delivered := 4), LAST_LEAVER)
  {
    LeaverStops();
    var n := LAST_STAYER.(down := STAYER_DOWN + [Embody(12, 1)], delivered := 4);
    var m := LAST_LEAVER.(handled := 2, down := [RolesComplete, Announce(11, 0)]);
    var out := [Envelope(2, Disembody(12)), Envelope(1, Disembody(12))];
    DisembodyHandled();
    ServerStep(BOTH_IN, n, m, 2, LAST_SERVER, out);
    assert out[1..] == [Envelope(1, Disembody(12))];
    assert Addressed(out[1..], 1) == [Disembody(12)] && Addressed(out[1..], 2) == [];
    assert Served(1, n, 2, out) == LAST_STAYER.(delivered := 4) && Served(2, m, 2, out) == LAST_LEAVER;
  }

  lemma StayerTold()
    ensures Reached(LAST_SERVER, LAST_STAYER, LAST_LEAVER)
  {
    LeaverGone();
    ClientStep(LAST_SERVER, LAST_STAYER.(delivered := 4), LAST_LEAVER, 1);
    assert C.Erased(map[1 := [12]], 0, 12) == map[1 := [12]];
    assert Received(STAYER, LAST_STAYER.(delivered := 4)) == LAST_STAYER;
  }

  /** `p` is live and up to date, `q` is not live, and `p` still lists `q`. */
  ghost predicate Wrong(sys: System, w: World, p: Endpoint, q: Endpoint) {
    && Distinct(sys) && Reachable(sys, w)
    && LiveIn(sys, w, p) && p in w.nodes && w.nodes[p].delivered == |w.nodes[p].down|
    && q in sys.clients && !LiveIn(sys, w, q)
    && sys.clients[q].data in C.At(w.nodes[p].state.view, sys.clients[q].role)
    && !MapExact(sys, w, p)
  }

  /**
   * The wrong map is reachable: the stayer is live and has received everything, the leaver is no
   * participant any more, and the stayer still lists it.
   */
  lemma WrongMapReachable()
    ensures exists sys, w, p, q :: Wrong(sys, w, p, q)
  {
    StayerTold();
    var w := W(LAST_SERVER, LAST_STAYER, LAST_LEAVER);
    assert Distinct(SYS) && LiveIn(SYS, w, 1) && !LiveIn(SYS, w, 2);
    assert w.nodes[1].down[4] == Disembody(12);
    MapExactIff(SYS, w, 1);
    assert 12 in C.At(w.nodes[1].state.view, 1);
    assert Wrong(SYS, w, 1, 2);
  }
}
