/**
 * The whole membership protocol as a state machine: one server, any number of clients, and a
 * reliable first-in-first-out link in each direction between the server and each client.
 * One action is one turn of a receive loop (or a constructor start, or a call of `stop`).
 */
module Membership {
  import opened Wrappers
  import opened Sequences
  import opened Protocol
  import S = CracenServer
  import C = CracenClient

  /** The server's endpoint, and every client there may ever be, by manager endpoint. */
  datatype System = System(server: Endpoint, clients: map<Endpoint, C.Config>)

  /**
   * A client and both directions of its link. `up` and `down` are whole histories;
   * the server has handled `up[..handled]`, the client has received `down[..delivered]`.
   */
  datatype Node = Node(state: C.State, up: seq<Message>, handled: nat, down: seq<Message>, delivered: nat)

  datatype World = World(server: S.State, nodes: map<Endpoint, Node>)

  datatype Action =
    | Start(client: Endpoint)
    | ServerReceives(client: Endpoint)
    | ClientReceives(client: Endpoint)
    | Stop(client: Endpoint)
    | CloseServer

  /** Endpoints are distinct and already resolved. */
  ghost predicate Distinct(sys: System) {
    && (forall p :: p in sys.clients ==> sys.clients[p].server == sys.server)
    && (forall p :: p in sys.clients ==> sys.clients[p].data != sys.server)
    && (forall p, q :: p in sys.clients && q in sys.clients && sys.clients[p].data == sys.clients[q].data ==> p == q)
  }

  ghost predicate Init(sys: System, w: World) {
    && w.server == S.INITIAL
    && w.nodes.Keys == sys.clients.Keys
    && forall p :: p in w.nodes ==> w.nodes[p] == Node(C.INITIAL, [], 0, [], 0)
  }

  ghost predicate Enabled(sys: System, w: World, a: Action) {
    match a
    case Start(p) => p in w.nodes && w.nodes[p].state.phase == C.NotStarted
    case ServerReceives(p) => p in w.nodes && w.server.running && w.nodes[p].handled < |w.nodes[p].up|
    case ClientReceives(p) =>
      p in w.nodes && p in sys.clients && C.Receiving(w.nodes[p].state) && w.nodes[p].delivered < |w.nodes[p].down|
    case Stop(p) => p in w.nodes && p in sys.clients && w.nodes[p].state.phase == C.Alive
    case CloseServer => w.server.running
  }

  /** The server's side of one link after the server handled a message from `from`. */
  ghost function Served(q: Endpoint, n: Node, from: Endpoint, out: seq<Envelope>): Node {
    n.(handled := if q == from then n.handled + 1 else n.handled, down := n.down + Addressed(out, q))
  }

  function Received(cfg: C.Config, n: Node): Node
    requires n.delivered < |n.down|
  {
    var r := C.React(cfg, n.state, cfg.server, n.down[n.delivered]);
    n.(state := r.state, up := n.up + r.out, delivered := n.delivered + 1)
  }

  ghost function ServerTurn(w: World, p: Endpoint): World
    requires p in w.nodes && w.nodes[p].handled < |w.nodes[p].up|
  {
    var r := S.React(w.server, p, w.nodes[p].up[w.nodes[p].handled]);
    World(r.state, map q | q in w.nodes :: Served(q, w.nodes[q], p, r.out))
  }

  ghost function Apply(sys: System, w: World, a: Action): World
    requires Enabled(sys, w, a)
  {
    match a
    case Start(p) =>
      var n := w.nodes[p];
      w.(nodes := w.nodes[p := n.(state := n.state.(phase := C.Creating), up := n.up + [Register])])
    case ServerReceives(p) => ServerTurn(w, p)
    case ClientReceives(p) =>
      w.(nodes := w.nodes[p := Received(sys.clients[p], w.nodes[p])])
    case Stop(p) =>
      var n := w.nodes[p];
      var up := n.up + [Disembody(sys.clients[p].data)];
      w.(nodes := w.nodes[p := n.(state := n.state.(phase := C.Stopping), up := up)])
    case CloseServer => w.(server := S.React(w.server, sys.server, ServerClose).state)
  }

  ghost predicate Next(sys: System, w: World, w': World) {
    exists a :: Enabled(sys, w, a) && w' == Apply(sys, w, a)
  }

  ghost predicate StepAt(sys: System, run: seq<World>, i: nat) {
    i + 1 < |run| ==> Next(sys, run[i], run[i + 1])
  }

  ghost predicate IsRun(sys: System, run: seq<World>) {
    && |run| > 0
    && Init(sys, run[0])
    && forall i: nat :: StepAt(sys, run, i)
  }

  ghost predicate Reachable(sys: System, w: World) {
    exists run :: IsRun(sys, run) && run[|run| - 1] == w
  }

  // ---------------------------------------------------------------------------------------
  // The invariant
  // ---------------------------------------------------------------------------------------

  predicate IsRequester(s: S.State, p: Endpoint) {
    |s.registerQueue| > 0 && s.registerQueue[0] == p
  }

  predicate Joined(phase: C.Phase) {
    phase in {C.Alive, C.Stopping, C.Closed}
  }

  /** Everything a client has sent so far, from its phase and whether it was asked for the graph. */
  function UpHistory(cfg: C.Config, phase: C.Phase, asked: bool): seq<Message> {
    if phase == C.NotStarted then []
    else
      [Register]
      + (if asked then C.GraphMessages(cfg.graph) else [])
      + (if Joined(phase) then [Embody(cfg.data, cfg.role)] else [])
      + (if phase in {C.Stopping, C.Closed} then [Disembody(cfg.data)] else [])
  }

  predicate Asked(s: S.State, p: Endpoint, n: Node) {
    IsRequester(s, p) && n.delivered >= 1
  }

  /** The position of Embody in a client's history. */
  function EmbodyAt(cfg: C.Config, s: S.State, p: Endpoint): nat {
    if IsRequester(s, p) then |cfg.graph| + 2 else 1
  }

  function Min(a: int, b: int): int {
    if a < b then a else b
  }

  /** How many edges of its graph the server has taken from the requester. */
  function EdgesTaken(cfg: C.Config, n: Node): nat {
    if n.handled == 0 then 0 else Min(n.handled - 1, |cfg.graph|)
  }

  /** The acknowledgements of the first edges of a graph. */
  function Acks(graph: seq<Edge>, k: nat): (r: seq<Message>)
    requires k <= |graph|
    ensures |r| == k && forall i :: 0 <= i < k ==> r[i] == AddRoleConnection(graph[i])
  {
    seq(k, i requires 0 <= i < k => AddRoleConnection(graph[i]))
  }

  /** The handshake part of the server's messages to a client, determined by what was handled. */
  function Handshake(cfg: C.Config, s: S.State, p: Endpoint, n: Node): seq<Message> {
    if n.handled == 0 then []
    else if IsRequester(s, p) then
      [RoleGraphRequest]
      + Acks(cfg.graph, EdgesTaken(cfg, n))
      + (if n.handled >= |cfg.graph| + 2 then [RolesComplete] else [])
    else if s.phase == S.ContextInitialised then [RolesComplete]
    else []
  }

  /** A client is live from the moment its Embody is handled until its Disembody is. */
  predicate Live(cfg: C.Config, s: S.State, p: Endpoint, n: Node) {
    n.handled == EmbodyAt(cfg, s, p) + 1
  }

  /** The multiplicity with which a live client must know an endpoint. */
  function Expected(cfg: C.Config, s: S.State, e: Endpoint): nat {
    if e in s.participants && e != cfg.data then Links(s.edges, cfg.role, s.participants[e].role) else 0
  }

  ghost predicate Truthful(sys: System, m: Message) {
    IsMembership(m) ==>
      exists q :: q in sys.clients && sys.clients[q].data == m.endpoint
               && (IsIntroduction(m) ==> sys.clients[q].role == m.role)
  }

  predicate UpInv(cfg: C.Config, s: S.State, p: Endpoint, n: Node) {
    && n.state.phase != C.Failed
    && n.up == UpHistory(cfg, n.state.phase, Asked(s, p, n))
    && n.handled <= |n.up|
    && n.delivered <= |n.down|
  }

  predicate RegisterInv(cfg: C.Config, s: S.State, p: Endpoint, n: Node) {
    && (s.phase == S.ContextUninitialised ==> n.handled == 0)
    && (p in s.registerQueue ==> n.handled >= 1)
    && (s.phase == S.ContextInitialising && n.handled >= 1 ==> p in s.registerQueue)
    && (IsRequester(s, p) ==>
          && s.edges == cfg.graph[..EdgesTaken(cfg, n)]
          && (s.phase == S.ContextInitialised <==> n.handled >= |cfg.graph| + 2))
  }

  predicate DownInv(cfg: C.Config, s: S.State, p: Endpoint, n: Node) {
    && Handshake(cfg, s, p, n) <= n.down
    && AllMembership(n.down[|Handshake(cfg, s, p, n)|..])
    && (|n.down| > |Handshake(cfg, s, p, n)| ==> n.handled > EmbodyAt(cfg, s, p))
  }

  predicate PositionInv(cfg: C.Config, s: S.State, p: Endpoint, n: Node) {
    var h := |Handshake(cfg, s, p, n)|;
    && (n.state.phase == C.NotStarted ==> n.delivered == 0)
    && (n.state.phase == C.Creating ==>
          && n.delivered <= h
          && (s.phase == S.ContextInitialised && n.handled >= 1 ==> n.delivered < h))
    && (Joined(n.state.phase) ==>
          && s.phase == S.ContextInitialised
          && n.handled >= 1
          && n.delivered >= h)
  }

  /** The acknowledgements a client has counted, before the counter wraps around. */
  function AcksReceived(cfg: C.Config, s: S.State, p: Endpoint, n: Node): nat {
    if !Asked(s, p, n) then 0
    else if Joined(n.state.phase) then |cfg.graph|
    else n.delivered - 1
  }

  predicate AckInv(cfg: C.Config, s: S.State, p: Endpoint, n: Node) {
    n.state.acks == C.Wrap(AcksReceived(cfg, s, p, n))
  }

  predicate MemberInv(cfg: C.Config, s: S.State, p: Endpoint, n: Node) {
    && (cfg.data in s.participants <==> Live(cfg, s, p, n))
    && (cfg.data in s.participants ==> s.participants[cfg.data] == S.Participant(cfg.data, p, cfg.role))
  }

  ghost predicate ViewInv(cfg: C.Config, s: S.State, p: Endpoint, n: Node) {
    Live(cfg, s, p, n) ==> forall e :: Known(n.down, e) == Some(Expected(cfg, s, e))
  }

  ghost predicate TruthInv(sys: System, cfg: C.Config, s: S.State, p: Endpoint, n: Node) {
    && (forall i :: 0 <= i < |n.down| ==> Truthful(sys, n.down[i]))
    && (Disembody(cfg.data) in n.down ==> n.handled == EmbodyAt(cfg, s, p) + 2)
  }

  /** Once the server has handled a client's Disembody, the acknowledgement is on its way until received. */
  predicate StopInv(cfg: C.Config, s: S.State, p: Endpoint, n: Node) {
    n.state.phase == C.Stopping && n.handled == EmbodyAt(cfg, s, p) + 2 ==>
      n.delivered <= |n.down| && Disembody(cfg.data) in n.down[n.delivered..]
  }

  ghost predicate ListInv(n: Node) {
    n.delivered <= |n.down| && C.Lists(n.state.view, n.down[..n.delivered])
  }

  ghost predicate ClientInv(sys: System, cfg: C.Config, s: S.State, p: Endpoint, n: Node) {
    && UpInv(cfg, s, p, n)
    && RegisterInv(cfg, s, p, n)
    && DownInv(cfg, s, p, n)
    && PositionInv(cfg, s, p, n)
    && AckInv(cfg, s, p, n)
    && MemberInv(cfg, s, p, n)
    && ViewInv(cfg, s, p, n)
    && TruthInv(sys, cfg, s, p, n)
    && StopInv(cfg, s, p, n)
    && ListInv(n)
  }

  ghost predicate Owned(sys: System, x: S.Participant) {
    x.manager in sys.clients && sys.clients[x.manager].data == x.data && sys.clients[x.manager].role == x.role
  }

  ghost predicate ServerInv(sys: System, s: S.State) {
    && !s.failed
    && NoDuplicates(s.registerQueue)
    && (forall p :: p in s.registerQueue ==> p in sys.clients)
    && (s.phase == S.ContextUninitialised <==> s.registerQueue == [])
    && (s.registerQueue == [] ==> s.edges == [])
    && (s.participants != map[] ==> s.phase == S.ContextInitialised)
    && S.WellKeyed(s.participants)
    && (forall k :: k in s.participants ==> Owned(sys, s.participants[k]))
  }

  ghost predicate NodeInv(sys: System, w: World, p: Endpoint) {
    p in sys.clients && p in w.nodes && ClientInv(sys, sys.clients[p], w.server, p, w.nodes[p])
  }

  ghost predicate Inv(sys: System, w: World) {
    && Distinct(sys)
    && w.nodes.Keys == sys.clients.Keys
    && ServerInv(sys, w.server)
    && forall p :: p in sys.clients ==> NodeInv(sys, w, p)
  }

  lemma InitInv(sys: System, w: World)
    requires Distinct(sys) && Init(sys, w)
    ensures Inv(sys, w)
  {
  }
}
