/** Every action keeps the membership invariant. */
module MembershipSteps {
  import opened Wrappers
  import opened Sequences
  import opened Protocol
  import opened Membership
  import S = CracenServer
  import C = CracenClient

  // ---------------------------------------------------------------------------------------
  // Client actions
  // ---------------------------------------------------------------------------------------

  lemma StartKeeps(sys: System, cfg: C.Config, s: S.State, p: Endpoint, n: Node)
    requires ClientInv(sys, cfg, s, p, n) && n.state.phase == C.NotStarted
    ensures ClientInv(sys, cfg, s, p, n.(state := n.state.(phase := C.Creating), up := n.up + [Register]))
  {
    assert n.handled == 0 && n.down == [];
  }

  lemma StopKeeps(sys: System, cfg: C.Config, s: S.State, p: Endpoint, n: Node)
    requires ClientInv(sys, cfg, s, p, n) && n.state.phase == C.Alive
    ensures ClientInv(sys, cfg, s, p, n.(state := n.state.(phase := C.Stopping), up := n.up + [Disembody(cfg.data)]))
  {
  }

  /** A client still in its constructor is sent nothing but handshake messages. */
  lemma CreatingMessage(sys: System, cfg: C.Config, s: S.State, p: Endpoint, n: Node)
    requires ClientInv(sys, cfg, s, p, n) && n.state.phase == C.Creating && n.delivered < |n.down|
    ensures n.delivered < |Handshake(cfg, s, p, n)|
    ensures n.down[n.delivered] == Handshake(cfg, s, p, n)[n.delivered]
    ensures n.down[n.delivered] in {RoleGraphRequest, RolesComplete} || n.down[n.delivered].AddRoleConnection?
    ensures n.down[n.delivered] == RoleGraphRequest <==> IsRequester(s, p) && n.delivered == 0
    ensures n.down[n.delivered] == RolesComplete ==>
              s.phase == S.ContextInitialised && n.delivered == |Handshake(cfg, s, p, n)| - 1
    ensures n.down[n.delivered].AddRoleConnection? ==> IsRequester(s, p) && n.delivered >= 1
    ensures n.down[n.delivered].AddRoleConnection? && s.phase == S.ContextInitialised ==>
              n.delivered + 1 < |Handshake(cfg, s, p, n)|
  {
    if n.delivered == |Handshake(cfg, s, p, n)| {
      assert false;
    }
  }

  lemma CreatingKeepsUp(sys: System, cfg: C.Config, s: S.State, p: Endpoint, n: Node)
    requires ClientInv(sys, cfg, s, p, n) && n.state.phase == C.Creating && n.delivered < |n.down|
    ensures UpInv(cfg, s, p, Received(cfg, n))
  {
    CreatingMessage(sys, cfg, s, p, n);
    AnswerSent(cfg, s, p, n);
  }

  lemma AnswerSent(cfg: C.Config, s: S.State, p: Endpoint, n: Node)
    requires UpInv(cfg, s, p, n) && n.state.phase == C.Creating && n.delivered < |n.down|
    requires var m := n.down[n.delivered];
      && (m in {RoleGraphRequest, RolesComplete} || m.AddRoleConnection?)
      && (m == RoleGraphRequest <==> IsRequester(s, p) && n.delivered == 0)
    ensures UpInv(cfg, s, p, Received(cfg, n))
  {
  }

  lemma CreatingKeepsPosition(sys: System, cfg: C.Config, s: S.State, p: Endpoint, n: Node)
    requires ClientInv(sys, cfg, s, p, n) && n.state.phase == C.Creating && n.delivered < |n.down|
    ensures PositionInv(cfg, s, p, Received(cfg, n))
  {
    CreatingMessage(sys, cfg, s, p, n);
    assert Handshake(cfg, s, p, Received(cfg, n)) == Handshake(cfg, s, p, n);
  }

  lemma CreatingKeepsAcks(sys: System, cfg: C.Config, s: S.State, p: Endpoint, n: Node)
    requires ClientInv(sys, cfg, s, p, n) && n.state.phase == C.Creating && n.delivered < |n.down|
    ensures AckInv(cfg, s, p, Received(cfg, n))
  {
    CreatingMessage(sys, cfg, s, p, n);
    if n.down[n.delivered] == RolesComplete && IsRequester(s, p) {
      HandshakeEnd(cfg, s, p, n);
    }
    CountAck(cfg, s, p, n);
  }

  /** The requester is told RolesComplete after one acknowledgement per edge. */
  lemma HandshakeEnd(cfg: C.Config, s: S.State, p: Endpoint, n: Node)
    requires RegisterInv(cfg, s, p, n) && s.phase == S.ContextInitialised && IsRequester(s, p)
    ensures |Handshake(cfg, s, p, n)| == |cfg.graph| + 2
  {
  }

  lemma CountAck(cfg: C.Config, s: S.State, p: Endpoint, n: Node)
    requires AckInv(cfg, s, p, n) && n.state.phase == C.Creating && n.delivered < |n.down|
    requires var m := n.down[n.delivered];
      && (m in {RoleGraphRequest, RolesComplete} || m.AddRoleConnection?)
      && (m == RoleGraphRequest <==> IsRequester(s, p) && n.delivered == 0)
      && (m == RolesComplete && IsRequester(s, p) ==> n.delivered == |cfg.graph| + 1)
      && (m.AddRoleConnection? ==> IsRequester(s, p))
    ensures AckInv(cfg, s, p, Received(cfg, n))
  {
    C.WrapNext(AcksReceived(cfg, s, p, n));
  }

  /** Receiving a message extends the role map exactly as it extends the received history. */
  lemma ListGrows(cfg: C.Config, n: Node)
    requires ListInv(n) && n.delivered < |n.down|
    requires n.down[n.delivered].Disembody? ==> n.down[n.delivered].endpoint != cfg.server
    requires n.state.phase == C.Creating ==> !IsIntroduction(n.down[n.delivered])
    requires Received(cfg, n).state.phase != C.Failed
    ensures ListInv(Received(cfg, n))
  {
    var n' := Received(cfg, n);
    var m := n.down[n.delivered];
    assert n'.down[..n'.delivered] == n.down[..n.delivered] + [m];
    C.ListsStep(n'.state.view, n.down[..n.delivered], cfg, n.state, m);
  }

  /** The parts of the invariant that do not look at the client's own state. */
  ghost predicate Outside(sys: System, cfg: C.Config, s: S.State, p: Endpoint, n: Node) {
    && RegisterInv(cfg, s, p, n)
    && DownInv(cfg, s, p, n)
    && MemberInv(cfg, s, p, n)
    && ViewInv(cfg, s, p, n)
    && TruthInv(sys, cfg, s, p, n)
  }

  lemma OutsideFrame(sys: System, cfg: C.Config, s: S.State, p: Endpoint, n: Node, n': Node)
    requires Outside(sys, cfg, s, p, n)
    requires n'.handled == n.handled && n'.down == n.down
    ensures Outside(sys, cfg, s, p, n')
  {
    assert Handshake(cfg, s, p, n') == Handshake(cfg, s, p, n);
  }

  lemma CreatingKeeps(sys: System, cfg: C.Config, s: S.State, p: Endpoint, n: Node)
    requires ClientInv(sys, cfg, s, p, n) && n.state.phase == C.Creating && n.delivered < |n.down|
    ensures ClientInv(sys, cfg, s, p, Received(cfg, n))
  {
    CreatingKeepsUp(sys, cfg, s, p, n);
    CreatingKeepsPosition(sys, cfg, s, p, n);
    CreatingKeepsAcks(sys, cfg, s, p, n);
    CreatingMessage(sys, cfg, s, p, n);
    ListGrows(cfg, n);
    OutsideFrame(sys, cfg, s, p, n, Received(cfg, n));
  }

  /** A joined client is sent nothing but membership messages. */
  lemma JoinedMessage(sys: System, cfg: C.Config, s: S.State, p: Endpoint, n: Node)
    requires ClientInv(sys, cfg, s, p, n) && Joined(n.state.phase) && n.delivered < |n.down|
    ensures IsMembership(n.down[n.delivered])
    ensures n.down[n.delivered] == Disembody(cfg.data) ==> n.state.phase in {C.Stopping, C.Closed}
  {
    var h := |Handshake(cfg, s, p, n)|;
    assert n.down[n.delivered] == n.down[h..][n.delivered - h];
    if n.down[n.delivered] == Disembody(cfg.data) {
      assert n.handled == EmbodyAt(cfg, s, p) + 2;
    }
  }

  lemma JoinedKeepsStop(cfg: C.Config, s: S.State, p: Endpoint, n: Node)
    requires StopInv(cfg, s, p, n) && n.state.phase in {C.Alive, C.Stopping} && n.delivered < |n.down|
    ensures StopInv(cfg, s, p, Received(cfg, n))
  {
    assert n.down[n.delivered..] == [n.down[n.delivered]] + n.down[n.delivered + 1..];
  }

  lemma JoinedKeeps(sys: System, cfg: C.Config, s: S.State, p: Endpoint, n: Node)
    requires ClientInv(sys, cfg, s, p, n) && n.state.phase in {C.Alive, C.Stopping} && n.delivered < |n.down|
    requires Distinct(sys) && p in sys.clients && sys.clients[p] == cfg
    ensures ClientInv(sys, cfg, s, p, Received(cfg, n))
  {
    JoinedMessage(sys, cfg, s, p, n);
    assert Truthful(sys, n.down[n.delivered]);
    ListGrows(cfg, n);
    JoinedKeepsStop(cfg, s, p, n);
    OutsideFrame(sys, cfg, s, p, n, Received(cfg, n));
    assert Handshake(cfg, s, p, Received(cfg, n)) == Handshake(cfg, s, p, n);
    assert Received(cfg, n).up == n.up;
  }

  // ---------------------------------------------------------------------------------------
  // The server's handlers: which message a position in a client's history is
  // ---------------------------------------------------------------------------------------

  lemma ServerMessage(sys: System, cfg: C.Config, s: S.State, p: Endpoint, n: Node)
    requires ClientInv(sys, cfg, s, p, n) && n.handled < |n.up|
    ensures var m := n.up[n.handled];
      && (n.handled == 0 ==> m == Register)
      && (n.handled == EmbodyAt(cfg, s, p) ==> m == Embody(cfg.data, cfg.role) && Joined(n.state.phase))
      && (n.handled == EmbodyAt(cfg, s, p) + 1 ==> m == Disembody(cfg.data) && Joined(n.state.phase))
      && n.handled <= EmbodyAt(cfg, s, p) + 1
      && (0 < n.handled < EmbodyAt(cfg, s, p) ==>
            && IsRequester(s, p) && n.delivered >= 1
            && m == if n.handled <= |cfg.graph| then AddRoleConnection(cfg.graph[n.handled - 1]) else RolesComplete)
  {
  }

  lemma Unaddressed(q: Endpoint, n: Node, from: Endpoint, out: seq<Envelope>)
    requires q != from && Addressed(out, q) == []
    ensures Served(q, n, from, out) == n
  {
    assert n.down + [] == n.down;
  }

  // ---------------------------------------------------------------------------------------
  // Register
  // ---------------------------------------------------------------------------------------

  /** Nobody else notices a registration that queues its sender. */
  lemma RegisterOther(sys: System, cfg: C.Config, s: S.State, s': S.State, p: Endpoint, q: Endpoint, n: Node)
    requires ServerInv(sys, s) && ClientInv(sys, cfg, s, q, n) && p != q
    requires s.phase != S.ContextInitialised
    requires s' == s.(phase := S.ContextInitialising, registerQueue := s.registerQueue + [p])
    ensures ClientInv(sys, cfg, s', q, n)
  {
    assert IsRequester(s', q) == IsRequester(s, q);
    assert Handshake(cfg, s', q, n) == Handshake(cfg, s, q, n);
  }

  lemma RegisterQueued(sys: System, cfg: C.Config, s: S.State, s': S.State, p: Endpoint, n: Node, n': Node)
    requires ServerInv(sys, s) && ClientInv(sys, cfg, s, p, n) && n.handled == 0 && |n.up| > 0
    requires s.phase != S.ContextInitialised
    requires s' == s.(phase := S.ContextInitialising, registerQueue := s.registerQueue + [p])
    requires var asked := if s.phase == S.ContextUninitialised then [RoleGraphRequest] else [];
      n' == n.(handled := 1, down := n.down + asked)
    ensures ClientInv(sys, cfg, s', p, n')
  {
    assert n.down == [];
  }

  lemma RegisterLate(sys: System, cfg: C.Config, s: S.State, p: Endpoint, n: Node, n': Node)
    requires ServerInv(sys, s) && ClientInv(sys, cfg, s, p, n) && n.handled == 0 && |n.up| > 0
    requires s.phase == S.ContextInitialised
    requires n' == n.(handled := 1, down := n.down + [RolesComplete])
    ensures ClientInv(sys, cfg, s, p, n')
  {
    assert n.down == [];
    assert !IsRequester(s, p);
  }

  // ---------------------------------------------------------------------------------------
  // AddRoleConnection and RolesComplete
  // ---------------------------------------------------------------------------------------

  /** Before the context is initialised, a link carries handshake messages only. */
  lemma OnlyHandshake(sys: System, cfg: C.Config, s: S.State, p: Endpoint, n: Node)
    requires ServerInv(sys, s) && ClientInv(sys, cfg, s, p, n)
    requires n.handled <= EmbodyAt(cfg, s, p)
    ensures n.down == Handshake(cfg, s, p, n)
    ensures !Live(cfg, s, p, n) && cfg.data !in s.participants
    ensures forall i :: 0 <= i < |n.down| ==> !IsMembership(n.down[i])
  {
  }

  lemma EdgeOther(sys: System, cfg: C.Config, s: S.State, s': S.State, p: Endpoint, q: Endpoint, n: Node, e: Edge)
    requires ServerInv(sys, s) && ClientInv(sys, cfg, s, q, n) && p != q
    requires s.phase == S.ContextInitialising && IsRequester(s, p) && s' == s.(edges := s.edges + [e])
    ensures ClientInv(sys, cfg, s', q, n)
  {
    assert Handshake(cfg, s', q, n) == Handshake(cfg, s, q, n);
    assert !Live(cfg, s, q, n);
  }

  lemma EdgeHandshake(cfg: C.Config, s: S.State, s': S.State, p: Endpoint, n: Node, n': Node)
    requires IsRequester(s, p) && IsRequester(s', p) && 1 <= n.handled <= |cfg.graph|
    requires n'.handled == n.handled + 1
    ensures Handshake(cfg, s', p, n') == Handshake(cfg, s, p, n) + [AddRoleConnection(cfg.graph[n.handled - 1])]
  {
    var k := n.handled - 1;
    assert Acks(cfg.graph, k + 1) == Acks(cfg.graph, k) + [AddRoleConnection(cfg.graph[k])];
  }

  lemma EdgeAddedGraph(sys: System, cfg: C.Config, s: S.State, s': S.State, p: Endpoint, n: Node, n': Node, e: Edge)
    requires ServerInv(sys, s) && ClientInv(sys, cfg, s, p, n) && n.handled < |n.up|
    requires IsRequester(s, p) && 1 <= n.handled <= |cfg.graph| && e == cfg.graph[n.handled - 1]
    requires s' == s.(edges := s.edges + [e])
    requires n' == n.(handled := n.handled + 1, down := n.down + [AddRoleConnection(e)])
    ensures UpInv(cfg, s', p, n') && RegisterInv(cfg, s', p, n')
  {
    assert cfg.graph[..n.handled] == cfg.graph[..n.handled - 1] + [e];
  }

  lemma EdgeAddedDown(sys: System, cfg: C.Config, s: S.State, s': S.State, p: Endpoint, n: Node, n': Node, e: Edge)
    requires ServerInv(sys, s) && ClientInv(sys, cfg, s, p, n) && n.handled < |n.up|
    requires IsRequester(s, p) && 1 <= n.handled <= |cfg.graph| && e == cfg.graph[n.handled - 1]
    requires s' == s.(edges := s.edges + [e])
    requires n' == n.(handled := n.handled + 1, down := n.down + [AddRoleConnection(e)])
    ensures DownInv(cfg, s', p, n') && PositionInv(cfg, s', p, n')
  {
    OnlyHandshake(sys, cfg, s, p, n);
    EdgeHandshake(cfg, s, s', p, n, n');
  }

  /** One more handshake message to a client that is not live. */
  lemma OneMoreHandshake(sys: System, cfg: C.Config, s: S.State, s': S.State, p: Endpoint, n: Node, n': Node,
                         m: Message)
    requires MemberInv(cfg, s, p, n) && AckInv(cfg, s, p, n) && ListInv(n)
    requires forall i :: 0 <= i < |n.down| ==> !IsMembership(n.down[i])
    requires !IsMembership(m) && n' == n.(handled := n'.handled, down := n.down + [m])
    requires s'.participants == s.participants && IsRequester(s', p) == IsRequester(s, p)
    requires !Live(cfg, s, p, n) && !Live(cfg, s', p, n')
    ensures MemberInv(cfg, s', p, n') && AckInv(cfg, s', p, n') && ListInv(n')
    ensures ViewInv(cfg, s', p, n') && TruthInv(sys, cfg, s', p, n')
  {
    assert n.down[..n.delivered] == n'.down[..n.delivered];
  }

  lemma EdgeAdded(sys: System, cfg: C.Config, s: S.State, s': S.State, p: Endpoint, n: Node, n': Node, e: Edge)
    requires ServerInv(sys, s) && ClientInv(sys, cfg, s, p, n) && n.handled < |n.up|
    requires IsRequester(s, p) && 1 <= n.handled <= |cfg.graph| && e == cfg.graph[n.handled - 1]
    requires s' == s.(edges := s.edges + [e])
    requires n' == n.(handled := n.handled + 1, down := n.down + [AddRoleConnection(e)])
    ensures ClientInv(sys, cfg, s', p, n')
  {
    EdgeAddedGraph(sys, cfg, s, s', p, n, n', e);
    EdgeAddedDown(sys, cfg, s, s', p, n, n', e);
    OnlyHandshake(sys, cfg, s, p, n);
    OneMoreHandshake(sys, cfg, s, s', p, n, n', AddRoleConnection(e));
  }

  lemma CompleteOther(sys: System, cfg: C.Config, s: S.State, s': S.State, p: Endpoint, q: Endpoint, n: Node, n': Node)
    requires ServerInv(sys, s) && ClientInv(sys, cfg, s, q, n) && p != q
    requires s.phase == S.ContextInitialising && IsRequester(s, p) && s' == s.(phase := S.ContextInitialised)
    requires n' == n.(down := n.down + if q in s.registerQueue then [RolesComplete] else [])
    ensures ClientInv(sys, cfg, s', q, n')
  {
    assert n.handled <= 1;
    OnlyHandshake(sys, cfg, s, q, n);
    assert n.down == [];
  }

  lemma CompleteOwn(sys: System, cfg: C.Config, s: S.State, s': S.State, p: Endpoint, n: Node, n': Node)
    requires ServerInv(sys, s) && ClientInv(sys, cfg, s, p, n) && n.handled < |n.up|
    requires IsRequester(s, p) && n.handled == |cfg.graph| + 1
    requires s' == s.(phase := S.ContextInitialised)
    requires n' == n.(handled := n.handled + 1, down := n.down + [RolesComplete])
    ensures ClientInv(sys, cfg, s', p, n')
  {
    OnlyHandshake(sys, cfg, s, p, n);
    assert Handshake(cfg, s', p, n') == n'.down;
    OneMoreHandshake(sys, cfg, s, s', p, n, n', RolesComplete);
  }

  // ---------------------------------------------------------------------------------------
  // Embody and Disembody
  // ---------------------------------------------------------------------------------------

  /** How often a client hears what is broadcast to the neighbours of a role. */
  function Heard(cfg: C.Config, s: S.State, q: Endpoint, n: Node, role: RoleId): nat {
    if Live(cfg, s, q, n) then Links(s.edges, role, cfg.role) else 0
  }

  /** A client hears a neighbour broadcast once per edge if it is live, and not at all otherwise. */
  lemma HeardBy(sys: System, cfg: C.Config, s: S.State, q: Endpoint, n: Node, role: RoleId, msg: Message)
    requires Distinct(sys) && ServerInv(sys, s) && q in sys.clients && sys.clients[q] == cfg
    requires MemberInv(cfg, s, q, n)
    ensures Addressed(S.Broadcast(S.Neighbours(s.edges, s.participants, role), msg), q)
         == Repeat(msg, Heard(cfg, s, q, n, role))
  {
    var near := S.Neighbours(s.edges, s.participants, role);
    var x := S.Participant(cfg.data, q, cfg.role);
    S.NeighbourMembers(s.edges, s.participants, role);
    forall y | y in near && y.manager == x.manager
      ensures y == x
    {
      assert Owned(sys, s.participants[y.data]);
    }
    S.AddressedBroadcast(near, msg, x);
    S.NeighbourCount(s.edges, s.participants, role, x);
  }

  lemma AnnouncedTo(xs: seq<S.Participant>, p: Endpoint, q: Endpoint)
    requires p != q
    ensures Addressed(S.AnnounceAll(xs, p), q) == []
  {
    S.AddressedNobody(S.AnnounceAll(xs, p), q);
  }

  /** The announcements a newcomer gets introduce each participant once per edge. */
  lemma AnnouncedCounts(sys: System, s: S.State, role: RoleId, log: seq<Message>, e: Endpoint)
    requires ServerInv(sys, s)
    requires var near := S.Neighbours(s.edges, s.participants, role);
      |log| == |near| && forall i :: 0 <= i < |near| ==> log[i] == Announce(near[i].data, near[i].role)
    ensures Introductions(log, e) == if e in s.participants then Links(s.edges, role, s.participants[e].role) else 0
  {
    var near := S.Neighbours(s.edges, s.participants, role);
    var x := if e in s.participants then s.participants[e] else S.Participant(e, 0, 0);
    S.NeighbourMembers(s.edges, s.participants, role);
    S.AnnouncedCount(near, log, x);
    S.NeighbourCount(s.edges, s.participants, role, x);
  }

  ghost predicate SameGraph(s: S.State, s': S.State) {
    s'.phase == s.phase && s'.registerQueue == s.registerQueue && s'.edges == s.edges
  }

  /** What a batch of membership messages to one client leaves as it is. */
  lemma MoreDown(cfg: C.Config, s: S.State, s': S.State, q: Endpoint, n: Node, n': Node, more: seq<Message>)
    requires DownInv(cfg, s, q, n) && PositionInv(cfg, s, q, n) && n.delivered <= |n.down|
    requires SameGraph(s, s') && n' == n.(down := n.down + more)
    requires AllMembership(more) && (more != [] ==> n.handled > EmbodyAt(cfg, s, q))
    ensures DownInv(cfg, s', q, n') && PositionInv(cfg, s', q, n')
  {
    var h := Handshake(cfg, s, q, n);
    assert Handshake(cfg, s', q, n') == h;
    assert n'.down[|h|..] == n.down[|h|..] + more;
  }

  lemma MoreStop(cfg: C.Config, s: S.State, s': S.State, q: Endpoint, n: Node, n': Node, more: seq<Message>)
    requires StopInv(cfg, s, q, n) && n.delivered <= |n.down| && ListInv(n)
    requires SameGraph(s, s') && n' == n.(down := n.down + more)
    ensures StopInv(cfg, s', q, n') && ListInv(n')
  {
    assert n'.down[n.delivered..] == n.down[n.delivered..] + more;
    assert n'.down[..n'.delivered] == n.down[..n.delivered];
  }

  lemma MoreMembership(cfg: C.Config, s: S.State, s': S.State, q: Endpoint, n: Node, n': Node, more: seq<Message>)
    requires UpInv(cfg, s, q, n) && RegisterInv(cfg, s, q, n) && DownInv(cfg, s, q, n)
    requires PositionInv(cfg, s, q, n) && AckInv(cfg, s, q, n) && StopInv(cfg, s, q, n) && ListInv(n)
    requires SameGraph(s, s') && n' == n.(down := n.down + more)
    requires AllMembership(more) && (more != [] ==> n.handled > EmbodyAt(cfg, s, q))
    ensures UpInv(cfg, s', q, n') && RegisterInv(cfg, s', q, n') && DownInv(cfg, s', q, n')
    ensures PositionInv(cfg, s', q, n') && AckInv(cfg, s', q, n') && StopInv(cfg, s', q, n') && ListInv(n')
  {
    MoreDown(cfg, s, s', q, n, n', more);
    MoreStop(cfg, s, s', q, n, n', more);
  }

  lemma EmbodyOtherView(cfg: C.Config, s: S.State, s': S.State, q: Endpoint, n: Node, n': Node, x: S.Participant)
    requires ViewInv(cfg, s, q, n) && x.data != cfg.data && x.data !in s.participants
    requires s' == s.(participants := s.participants[x.data := x])
    requires n' == n.(down := n.down + Repeat(Embody(x.data, x.role), Heard(cfg, s, q, n, x.role)))
    ensures ViewInv(cfg, s', q, n')
  {
    if Live(cfg, s, q, n) {
      var more := Repeat(Embody(x.data, x.role), Links(s.edges, x.role, cfg.role));
      forall e
        ensures Known(n'.down, e) == Some(Expected(cfg, s', e))
      {
        assert Known(n.down, e) == Some(Expected(cfg, s, e));
        if e == x.data {
          KnownIntroduced(n.down, more, e);
          IntroductionsOfCopies(Embody(x.data, x.role), |more|, e);
        } else {
          KnownQuiet(n.down, more, e);
        }
      }
    }
  }

  lemma EmbodyOther(sys: System, cfg: C.Config, s: S.State, s': S.State, p: Endpoint, q: Endpoint, n: Node, n': Node,
                    x: S.Participant)
    requires Distinct(sys) && ServerInv(sys, s) && ClientInv(sys, cfg, s, q, n) && p != q
    requires p in sys.clients && x == S.Participant(sys.clients[p].data, p, sys.clients[p].role)
    requires q in sys.clients && sys.clients[q] == cfg && x.data !in s.participants
    requires s' == s.(participants := s.participants[x.data := x])
    requires n' == n.(down := n.down + Repeat(Embody(x.data, x.role), Heard(cfg, s, q, n, x.role)))
    ensures ClientInv(sys, cfg, s', q, n')
  {
    var more := Repeat(Embody(x.data, x.role), Heard(cfg, s, q, n, x.role));
    MoreMembership(cfg, s, s', q, n, n', more);
    EmbodyOtherView(cfg, s, s', q, n, n', x);
    assert x.data != cfg.data;
    assert Truthful(sys, Embody(x.data, x.role));
  }

  lemma DisembodyOtherView(cfg: C.Config, s: S.State, s': S.State, q: Endpoint, n: Node, n': Node, x: S.Participant)
    requires ViewInv(cfg, s, q, n) && x.data != cfg.data && x.data in s.participants && s.participants[x.data] == x
    requires s' == s.(participants := s.participants - {x.data})
    requires n' == n.(down := n.down + Repeat(Disembody(x.data), Heard(cfg, s, q, n, x.role)))
    ensures ViewInv(cfg, s', q, n')
  {
    if Live(cfg, s, q, n) {
      var more := Repeat(Disembody(x.data), Links(s.edges, x.role, cfg.role));
      forall e
        ensures Known(n'.down, e) == Some(Expected(cfg, s', e))
      {
        assert Known(n.down, e) == Some(Expected(cfg, s, e));
        if e == x.data {
          KnownWithdrawn(n.down, e, |more|);
        } else {
          KnownQuiet(n.down, more, e);
        }
      }
    }
  }

  lemma DisembodyOther(sys: System, cfg: C.Config, s: S.State, s': S.State, p: Endpoint, q: Endpoint, n: Node,
                       n': Node, x: S.Participant)
    requires Distinct(sys) && ServerInv(sys, s) && ClientInv(sys, cfg, s, q, n) && p != q
    requires p in sys.clients && x == S.Participant(sys.clients[p].data, p, sys.clients[p].role)
    requires q in sys.clients && sys.clients[q] == cfg && x.data in s.participants && s.participants[x.data] == x
    requires s' == s.(participants := s.participants - {x.data})
    requires n' == n.(down := n.down + Repeat(Disembody(x.data), Heard(cfg, s, q, n, x.role)))
    ensures ClientInv(sys, cfg, s', q, n')
  {
    var more := Repeat(Disembody(x.data), Heard(cfg, s, q, n, x.role));
    MoreMembership(cfg, s, s', q, n, n', more);
    DisembodyOtherView(cfg, s, s', q, n, n', x);
    assert x.data != cfg.data;
    assert Truthful(sys, Disembody(x.data));
  }

  lemma AnnouncedKnown(sys: System, s: S.State, role: RoleId, down: seq<Message>, log: seq<Message>, e: Endpoint)
    requires ServerInv(sys, s)
    requires forall i :: 0 <= i < |down| ==> !IsMembership(down[i])
    requires var near := S.Neighbours(s.edges, s.participants, role);
      |log| == |near| && forall i :: 0 <= i < |near| ==> log[i] == Announce(near[i].data, near[i].role)
    ensures Known(down + log, e)
         == Some(if e in s.participants then Links(s.edges, role, s.participants[e].role) else 0)
  {
    KnownQuiet([], down, e);
    assert [] + down == down;
    KnownIntroduced(down, log, e);
    AnnouncedCounts(sys, s, role, log, e);
  }

  /** The newcomer's own link after its Embody: everyone present has been announced. */
  lemma EmbodyOwnView(sys: System, cfg: C.Config, s: S.State, s': S.State, p: Endpoint, n: Node, n': Node,
                      log: seq<Message>)
    requires ServerInv(sys, s) && ClientInv(sys, cfg, s, p, n) && n.handled == EmbodyAt(cfg, s, p)
    requires var near := S.Neighbours(s.edges, s.participants, cfg.role);
      |log| == |near| && forall i :: 0 <= i < |near| ==> log[i] == Announce(near[i].data, near[i].role)
    requires s' == s.(participants := s.participants[cfg.data := S.Participant(cfg.data, p, cfg.role)])
    requires n' == n.(handled := n.handled + 1, down := n.down + log)
    ensures ViewInv(cfg, s', p, n')
  {
    OnlyHandshake(sys, cfg, s, p, n);
    forall e
      ensures Known(n'.down, e) == Some(Expected(cfg, s', e))
    {
      AnnouncedKnown(sys, s, cfg.role, n.down, log, e);
    }
  }

  lemma EmbodyOwn(sys: System, cfg: C.Config, s: S.State, s': S.State, p: Endpoint, n: Node, n': Node,
                  log: seq<Message>)
    requires Distinct(sys) && ServerInv(sys, s) && ClientInv(sys, cfg, s, p, n)
    requires p in sys.clients && sys.clients[p] == cfg
    requires n.handled == EmbodyAt(cfg, s, p) < |n.up|
    requires var near := S.Neighbours(s.edges, s.participants, cfg.role);
      |log| == |near| && forall i :: 0 <= i < |near| ==> log[i] == Announce(near[i].data, near[i].role)
    requires s' == s.(participants := s.participants[cfg.data := S.Participant(cfg.data, p, cfg.role)])
    requires n' == n.(handled := n.handled + 1, down := n.down + log)
    ensures ClientInv(sys, cfg, s', p, n')
  {
    EmbodyOwnView(sys, cfg, s, s', p, n, n', log);
    OnlyHandshake(sys, cfg, s, p, n);
    var near := S.Neighbours(s.edges, s.participants, cfg.role);
    S.NeighbourMembers(s.edges, s.participants, cfg.role);
    forall i | 0 <= i < |log|
      ensures Truthful(sys, log[i])
    {
      assert near[i] in near && Owned(sys, s.participants[near[i].data]);
    }
    assert Handshake(cfg, s', p, n') == n.down;
    assert n'.down[..n'.delivered] == n.down[..n.delivered];
  }

  lemma DisembodyOwn(sys: System, cfg: C.Config, s: S.State, s': S.State, p: Endpoint, n: Node, n': Node,
                     more: seq<Message>)
    requires Distinct(sys) && ServerInv(sys, s) && ClientInv(sys, cfg, s, p, n)
    requires p in sys.clients && sys.clients[p] == cfg
    requires n.handled == EmbodyAt(cfg, s, p) + 1 < |n.up|
    requires |more| > 0 && forall i :: 0 <= i < |more| ==> more[i] == Disembody(cfg.data)
    requires s' == s.(participants := s.participants - {cfg.data})
    requires n' == n.(handled := n.handled + 1, down := n.down + more)
    ensures ClientInv(sys, cfg, s', p, n')
  {
    MoreMembership(cfg, s, s', p, n, n.(down := n.down + more), more);
    assert n'.down[n.delivered..] == n.down[n.delivered..] + more;
    assert more[0] in more;
    assert Handshake(cfg, s', p, n') == Handshake(cfg, s, p, n);
    assert Truthful(sys, Disembody(cfg.data));
  }

  // ---------------------------------------------------------------------------------------
  // One handled message, seen from one client
  // ---------------------------------------------------------------------------------------

  /** The situation of a server step: `p` is the sender, `q` any client. */
  ghost predicate At(sys: System, s: S.State, p: Endpoint, np: Node, q: Endpoint, nq: Node) {
    && Distinct(sys) && ServerInv(sys, s)
    && p in sys.clients && ClientInv(sys, sys.clients[p], s, p, np) && np.handled < |np.up|
    && q in sys.clients && ClientInv(sys, sys.clients[q], s, q, nq)
    && (p == q ==> np == nq)
  }

  ghost function Answer(s: S.State, p: Endpoint, np: Node): S.Reaction
    requires np.handled < |np.up|
  {
    S.React(s, p, np.up[np.handled])
  }

  lemma AddressedOne(p: Endpoint, m: Message)
    ensures Addressed([Envelope(p, m)], p) == [m]
  {
    assert [Envelope(p, m)][1..] == [];
  }

  lemma RegisterServer(sys: System, s: S.State, p: Endpoint, np: Node)
    requires ServerInv(sys, s) && p in sys.clients && ClientInv(sys, sys.clients[p], s, p, np) && np.handled == 0
    ensures ServerInv(sys, S.React(s, p, Register).state)
  {
    assert p !in s.registerQueue;
  }

  lemma RegisterOwnNode(sys: System, s: S.State, p: Endpoint, np: Node)
    requires ServerInv(sys, s) && p in sys.clients && ClientInv(sys, sys.clients[p], s, p, np)
    requires np.handled == 0 && |np.up| > 0
    ensures var r := S.React(s, p, Register);
      ClientInv(sys, sys.clients[p], r.state, p, Served(p, np, p, r.out))
  {
    var r := S.React(s, p, Register);
    AddressedOne(p, RolesComplete);
    AddressedOne(p, RoleGraphRequest);
    if s.phase == S.ContextInitialised {
      RegisterLate(sys, sys.clients[p], s, p, np, Served(p, np, p, r.out));
    } else {
      RegisterQueued(sys, sys.clients[p], s, r.state, p, np, Served(p, np, p, r.out));
    }
  }

  lemma RegisterNode(sys: System, s: S.State, p: Endpoint, np: Node, q: Endpoint, nq: Node)
    requires At(sys, s, p, np, q, nq) && np.handled == 0
    ensures ServerInv(sys, Answer(s, p, np).state)
    ensures ClientInv(sys, sys.clients[q], Answer(s, p, np).state, q, Served(q, nq, p, Answer(s, p, np).out))
  {
    ServerMessage(sys, sys.clients[p], s, p, np);
    RegisterServer(sys, s, p, np);
    var r := S.React(s, p, Register);
    if q == p {
      RegisterOwnNode(sys, s, p, np);
    } else {
      S.AddressedNobody(r.out, q);
      Unaddressed(q, nq, p, r.out);
      if s.phase != S.ContextInitialised {
        RegisterOther(sys, sys.clients[q], s, r.state, p, q, nq);
      }
    }
  }

  lemma EdgeNode(sys: System, s: S.State, p: Endpoint, np: Node, q: Endpoint, nq: Node)
    requires At(sys, s, p, np, q, nq) && 0 < np.handled <= |sys.clients[p].graph| && IsRequester(s, p)
    ensures ServerInv(sys, Answer(s, p, np).state)
    ensures ClientInv(sys, sys.clients[q], Answer(s, p, np).state, q, Served(q, nq, p, Answer(s, p, np).out))
  {
    ServerMessage(sys, sys.clients[p], s, p, np);
    var e := sys.clients[p].graph[np.handled - 1];
    var r := S.React(s, p, AddRoleConnection(e));
    if q == p {
      AddressedOne(p, AddRoleConnection(e));
      EdgeAdded(sys, sys.clients[p], s, r.state, p, np, Served(p, np, p, r.out), e);
    } else {
      S.AddressedNobody(r.out, q);
      Unaddressed(q, nq, p, r.out);
      EdgeOther(sys, sys.clients[q], s, r.state, p, q, nq, e);
    }
  }

  lemma CompleteNode(sys: System, s: S.State, p: Endpoint, np: Node, q: Endpoint, nq: Node)
    requires At(sys, s, p, np, q, nq) && np.handled == |sys.clients[p].graph| + 1 && IsRequester(s, p)
    ensures ServerInv(sys, Answer(s, p, np).state)
    ensures ClientInv(sys, sys.clients[q], Answer(s, p, np).state, q, Served(q, nq, p, Answer(s, p, np).out))
  {
    ServerMessage(sys, sys.clients[p], s, p, np);
    var r := S.React(s, p, RolesComplete);
    S.AddressedToAll(s.registerQueue, RolesComplete, q);
    if q == p {
      CompleteOwn(sys, sys.clients[p], s, r.state, p, np, Served(p, np, p, r.out));
    } else {
      CompleteOther(sys, sys.clients[q], s, r.state, p, q, nq, Served(q, nq, p, r.out));
    }
  }

  /** What the server's answer to Embody holds for another client. */
  lemma EmbodyAddressed(sys: System, s: S.State, p: Endpoint, q: Endpoint, nq: Node, msg: Message)
    requires Distinct(sys) && ServerInv(sys, s) && q in sys.clients && MemberInv(sys.clients[q], s, q, nq)
    requires p != q && msg.Embody?
    ensures Addressed(S.React(s, p, msg).out, q)
         == Repeat(msg, Heard(sys.clients[q], s, q, nq, msg.role))
  {
    var near := S.Neighbours(s.edges, s.participants, msg.role);
    AddressedConcat(S.AnnounceAll(near, p), S.Broadcast(near, msg), q);
    AnnouncedTo(near, p, q);
    HeardBy(sys, sys.clients[q], s, q, nq, msg.role, msg);
  }

  /** And for the newcomer itself. */
  lemma EmbodyAddressedOwn(sys: System, s: S.State, p: Endpoint, np: Node, msg: Message)
    requires Distinct(sys) && ServerInv(sys, s) && p in sys.clients && MemberInv(sys.clients[p], s, p, np)
    requires msg.Embody? && !Live(sys.clients[p], s, p, np)
    ensures var near := S.Neighbours(s.edges, s.participants, msg.role);
      var log := Addressed(S.React(s, p, msg).out, p);
      |log| == |near| && forall i :: 0 <= i < |near| ==> log[i] == Announce(near[i].data, near[i].role)
  {
    var near := S.Neighbours(s.edges, s.participants, msg.role);
    AddressedConcat(S.AnnounceAll(near, p), S.Broadcast(near, msg), p);
    HeardBy(sys, sys.clients[p], s, p, np, msg.role, msg);
    S.AddressedAnnouncements(near, p);
  }

  lemma EmbodyServer(sys: System, s: S.State, p: Endpoint)
    requires ServerInv(sys, s) && p in sys.clients && s.phase == S.ContextInitialised
    ensures ServerInv(sys, S.React(s, p, Embody(sys.clients[p].data, sys.clients[p].role)).state)
  {
  }

  lemma EmbodyNode(sys: System, s: S.State, p: Endpoint, np: Node, q: Endpoint, nq: Node)
    requires At(sys, s, p, np, q, nq) && np.handled == EmbodyAt(sys.clients[p], s, p)
    ensures ClientInv(sys, sys.clients[q], Answer(s, p, np).state, q, Served(q, nq, p, Answer(s, p, np).out))
  {
    var cfg := sys.clients[p];
    ServerMessage(sys, cfg, s, p, np);
    var msg := Embody(cfg.data, cfg.role);
    var r := S.React(s, p, msg);
    if q == p {
      EmbodyAddressedOwn(sys, s, p, np, msg);
      EmbodyOwn(sys, cfg, s, r.state, p, np, Served(p, np, p, r.out), Addressed(r.out, p));
    } else {
      EmbodyAddressed(sys, s, p, q, nq, msg);
      var x := S.Participant(cfg.data, p, cfg.role);
      EmbodyOther(sys, sys.clients[q], s, r.state, p, q, nq, Served(q, nq, p, r.out), x);
    }
  }

  lemma DisembodyAddressed(sys: System, s: S.State, p: Endpoint, x: S.Participant, q: Endpoint, nq: Node)
    requires Distinct(sys) && ServerInv(sys, s) && q in sys.clients && MemberInv(sys.clients[q], s, q, nq)
    requires x.data in s.participants && s.participants[x.data] == x
    ensures var copies := Repeat(Disembody(x.data), Heard(sys.clients[q], s, q, nq, x.role));
      Addressed(S.React(s, p, Disembody(x.data)).out, q) == if p == q then [Disembody(x.data)] + copies else copies
  {
    var gone := Disembody(x.data);
    var near := S.Neighbours(s.edges, s.participants, x.role);
    AddressedConcat([Envelope(p, gone)], S.Broadcast(near, gone), q);
    HeardBy(sys, sys.clients[q], s, q, nq, x.role, gone);
    assert Addressed([Envelope(p, gone)], q) == if p == q then [gone] else [];
  }

  lemma DisembodyServer(sys: System, s: S.State, p: Endpoint)
    requires ServerInv(sys, s) && p in sys.clients && sys.clients[p].data in s.participants
    ensures ServerInv(sys, S.React(s, p, Disembody(sys.clients[p].data)).state)
  {
  }

  lemma DisembodyNode(sys: System, s: S.State, p: Endpoint, np: Node, q: Endpoint, nq: Node)
    requires At(sys, s, p, np, q, nq) && np.handled == EmbodyAt(sys.clients[p], s, p) + 1
    ensures sys.clients[p].data in s.participants
    ensures ClientInv(sys, sys.clients[q], Answer(s, p, np).state, q, Served(q, nq, p, Answer(s, p, np).out))
  {
    var cfg := sys.clients[p];
    ServerMessage(sys, cfg, s, p, np);
    var x := S.Participant(cfg.data, p, cfg.role);
    var r := S.React(s, p, Disembody(cfg.data));
    DisembodyAddressed(sys, s, p, x, q, nq);
    if q == p {
      DisembodyOwn(sys, cfg, s, r.state, p, np, Served(p, np, p, r.out), Addressed(r.out, p));
    } else {
      DisembodyOther(sys, sys.clients[q], s, r.state, p, q, nq, Served(q, nq, p, r.out), x);
    }
  }

  // ---------------------------------------------------------------------------------------
  // Each action keeps the whole invariant
  // ---------------------------------------------------------------------------------------

  lemma NodeKeeps(sys: System, s: S.State, p: Endpoint, np: Node, q: Endpoint, nq: Node)
    requires At(sys, s, p, np, q, nq)
    ensures ServerInv(sys, Answer(s, p, np).state)
    ensures ClientInv(sys, sys.clients[q], Answer(s, p, np).state, q, Served(q, nq, p, Answer(s, p, np).out))
  {
    var cfg := sys.clients[p];
    ServerMessage(sys, cfg, s, p, np);
    if np.handled == 0 {
      RegisterNode(sys, s, p, np, q, nq);
    } else if np.handled == EmbodyAt(cfg, s, p) {
      EmbodyServer(sys, s, p);
      EmbodyNode(sys, s, p, np, q, nq);
    } else if np.handled == EmbodyAt(cfg, s, p) + 1 {
      DisembodyNode(sys, s, p, np, q, nq);
      DisembodyServer(sys, s, p);
    } else if np.handled <= |cfg.graph| {
      EdgeNode(sys, s, p, np, q, nq);
    } else {
      CompleteNode(sys, s, p, np, q, nq);
    }
  }

  lemma ServerTurnAt(sys: System, w: World, p: Endpoint, q: Endpoint)
    requires Inv(sys, w) && p in w.nodes && q in sys.clients && w.nodes[p].handled < |w.nodes[p].up|
    ensures ServerInv(sys, ServerTurn(w, p).server)
    ensures NodeInv(sys, ServerTurn(w, p), q)
  {
    assert NodeInv(sys, w, p) && NodeInv(sys, w, q);
    NodeKeeps(sys, w.server, p, w.nodes[p], q, w.nodes[q]);
  }

  lemma ServerTurnNodes(sys: System, w: World, p: Endpoint)
    requires Inv(sys, w) && p in w.nodes && w.nodes[p].handled < |w.nodes[p].up|
    ensures ServerInv(sys, ServerTurn(w, p).server)
    ensures forall q :: q in sys.clients ==> NodeInv(sys, ServerTurn(w, p), q)
  {
    forall q | q in sys.clients
      ensures NodeInv(sys, ServerTurn(w, p), q)
    {
      ServerTurnAt(sys, w, p, q);
    }
    ServerTurnAt(sys, w, p, p);
  }

  lemma Assemble(sys: System, w: World)
    requires Distinct(sys) && w.nodes.Keys == sys.clients.Keys && ServerInv(sys, w.server)
    requires forall q :: q in sys.clients ==> NodeInv(sys, w, q)
    ensures Inv(sys, w)
  {
  }

  lemma ServerTurnKeeps(sys: System, w: World, p: Endpoint, w': World)
    requires Inv(sys, w) && p in w.nodes && w.nodes[p].handled < |w.nodes[p].up|
    requires w' == ServerTurn(w, p)
    ensures Inv(sys, w')
  {
    assert w'.nodes.Keys == w.nodes.Keys;
    ServerTurnNodes(sys, w, p);
    Assemble(sys, w');
  }

  lemma CloseNode(sys: System, w: World, p: Endpoint)
    requires NodeInv(sys, w, p)
    ensures NodeInv(sys, w.(server := w.server.(running := false)), p)
  {
    var cfg, n, s, s' := sys.clients[p], w.nodes[p], w.server, w.server.(running := false);
    assert Handshake(cfg, s', p, n) == Handshake(cfg, s, p, n);
    assert forall e :: Expected(cfg, s', e) == Expected(cfg, s, e);
  }

  lemma CloseKeeps(sys: System, w: World)
    requires Inv(sys, w)
    ensures Inv(sys, w.(server := w.server.(running := false)))
  {
    forall p | p in sys.clients
      ensures NodeInv(sys, w.(server := w.server.(running := false)), p)
    {
      CloseNode(sys, w, p);
    }
  }

  lemma OneNodeAt(sys: System, w: World, p: Endpoint, n: Node, q: Endpoint)
    requires NodeInv(sys, w, q) && p in sys.clients && ClientInv(sys, sys.clients[p], w.server, p, n)
    ensures NodeInv(sys, w.(nodes := w.nodes[p := n]), q)
  {
  }

  lemma OneNodeAll(sys: System, w: World, p: Endpoint, n: Node)
    requires forall q :: q in sys.clients ==> NodeInv(sys, w, q)
    requires p in sys.clients && ClientInv(sys, sys.clients[p], w.server, p, n)
    ensures forall q :: q in sys.clients ==> NodeInv(sys, w.(nodes := w.nodes[p := n]), q)
  {
    forall q | q in sys.clients
      ensures NodeInv(sys, w.(nodes := w.nodes[p := n]), q)
    {
      OneNodeAt(sys, w, p, n, q);
    }
  }

  /** Replacing one client by one that fits keeps the invariant. */
  lemma OneNode(sys: System, w: World, p: Endpoint, n: Node, w': World)
    requires Inv(sys, w) && p in w.nodes && ClientInv(sys, sys.clients[p], w.server, p, n)
    requires w' == w.(nodes := w.nodes[p := n])
    ensures Inv(sys, w')
  {
    OneNodeAll(sys, w, p, n);
    Assemble(sys, w');
  }

  /** The invariant is inductive. */
  lemma ActionKeeps(sys: System, w: World, a: Action)
    requires Inv(sys, w) && Enabled(sys, w, a)
    ensures Inv(sys, Apply(sys, w, a))
  {
    if a.Start? || a.Stop? || a.ClientReceives? {
      assert NodeInv(sys, w, a.client);
    }
    match a {
      case Start(p) =>
        StartKeeps(sys, sys.clients[p], w.server, p, w.nodes[p]);
        OneNode(sys, w, p, Apply(sys, w, a).nodes[p], Apply(sys, w, a));
      case Stop(p) =>
        StopKeeps(sys, sys.clients[p], w.server, p, w.nodes[p]);
        OneNode(sys, w, p, Apply(sys, w, a).nodes[p], Apply(sys, w, a));
      case ClientReceives(p) =>
        if w.nodes[p].state.phase == C.Creating {
          CreatingKeeps(sys, sys.clients[p], w.server, p, w.nodes[p]);
        } else {
          JoinedKeeps(sys, sys.clients[p], w.server, p, w.nodes[p]);
        }
        OneNode(sys, w, p, Apply(sys, w, a).nodes[p], Apply(sys, w, a));
      case ServerReceives(p) => ServerTurnKeeps(sys, w, p, Apply(sys, w, a));
      case CloseServer => CloseKeeps(sys, w);
    }
  }
}
