/**
 * The client half of the membership protocol: the constructor's handshake, the management
 * thread's handlers and `stop`.
 */
module CracenClient {
  import opened Protocol

  /** What a client is constructed with; its manager endpoint is its name. */
  datatype Config = Config(server: Endpoint, data: Endpoint, role: RoleId, graph: seq<Edge>)

  /** Where a client is: inside its constructor, in its management loop, after `stop`, ended, or aborted by a throw. */
  datatype Phase = NotStarted | Creating | Alive | Stopping | Closed | Failed

  type RoleMap = map<RoleId, seq<Endpoint>>

  datatype State = State(phase: Phase, acks: nat, view: RoleMap)

  datatype Reaction = Reaction(state: State, out: seq<Message>)

  const INITIAL := State(NotStarted, 0, map[])

  /** `unsigned int` arithmetic. */
  function Wrap(n: nat): nat {
    n % 0x1_0000_0000
  }

  lemma WrapNext(n: nat)
    ensures Wrap(Wrap(n) + 1) == Wrap(n + 1)
  {
  }

  function At(view: RoleMap, role: RoleId): seq<Endpoint> {
    if role in view then view[role] else []
  }

  function GraphMessages(graph: seq<Edge>): seq<Message> {
    seq(|graph|, i requires 0 <= i < |graph| => AddRoleConnection(graph[i])) + [RolesComplete]
  }

  /**
   * The removal loop exactly as the source writes it: the search compares the sender with the
   * withdrawn endpoint, so it stops at the first entry of every list or nowhere at all.
   */
  function Erased(view: RoleMap, from: Endpoint, gone: Endpoint): RoleMap {
    map r | r in view :: if from == gone && |view[r]| > 0 then view[r][1..] else view[r]
  }

  function Added(view: RoleMap, role: RoleId, endpoint: Endpoint): RoleMap {
    view[role := At(view, role) + [endpoint]]
  }

  /** One message from the server: the state afterwards and what is sent back. */
  function React(cfg: Config, s: State, from: Endpoint, msg: Message): Reaction {
    match s.phase
    case Creating => (
      match msg
      case RoleGraphRequest => Reaction(s, GraphMessages(cfg.graph))
      case AddRoleConnection(_) => Reaction(s.(acks := Wrap(s.acks + 1)), [])
      case RolesComplete => Reaction(s.(phase := Alive), [Embody(cfg.data, cfg.role)])
      case _ => Reaction(s.(phase := Failed), []))
    case _ => (
      match msg
      case Disembody(endpoint) =>
        if endpoint == cfg.data then Reaction(s.(phase := Closed), [])
        else Reaction(s.(view := Erased(s.view, from, endpoint)), [])
      case Embody(endpoint, role) => Reaction(s.(view := Added(s.view, role, endpoint)), [])
      case Announce(endpoint, role) => Reaction(s.(view := Added(s.view, role, endpoint)), [])
      case _ => Reaction(s.(phase := Failed), []))
  }

  predicate Receiving(s: State) {
    s.phase in {Creating, Alive, Stopping}
  }

  /** The endpoints a history introduces under one role, in order. */
  function Introduced(log: seq<Message>, role: RoleId): seq<Endpoint> {
    if log == [] then []
    else
      var m := log[|log| - 1];
      Introduced(log[..|log| - 1], role) + if IsIntroduction(m) && m.role == role then [m.endpoint] else []
  }

  /** A role map lists exactly what a history introduced, list by list and in order. */
  ghost predicate Lists(view: RoleMap, log: seq<Message>) {
    forall r: RoleId :: At(view, r) == Introduced(log, r)
  }

  lemma ListsStep(view: RoleMap, log: seq<Message>, cfg: Config, s: State, msg: Message)
    requires Lists(s.view, log)
    requires msg.Disembody? ==> msg.endpoint != cfg.server
    requires s.phase == Creating ==> !IsIntroduction(msg)
    requires view == React(cfg, s, cfg.server, msg).state.view
    requires React(cfg, s, cfg.server, msg).state.phase != Failed
    ensures Lists(view, log + [msg])
  {
    assert (log + [msg])[..|log|] == log;
    forall r: RoleId
      ensures At(view, r) == Introduced(log + [msg], r)
    {
      assert At(s.view, r) == Introduced(log, r);
    }
  }

  class CracenClient {
    const cfg: Config
    var phase: Phase
    var edges: nat
    var roleEndpointMap: RoleMap

    ghost function Snapshot(): State
      reads this
    {
      State(phase, edges, roleEndpointMap)
    }

    constructor (cfg: Config)
      ensures Snapshot() == INITIAL
      ensures this.cfg == cfg
    {
      this.cfg, phase, edges, roleEndpointMap := cfg, NotStarted, 0, map[];
    }

    /** The body of the source's constructor up to its receive loop. */
    method Start() returns (out: seq<Message>)
      requires phase == NotStarted
      modifies this`phase
      ensures Snapshot() == old(Snapshot()).(phase := Creating)
      ensures out == [Register]
    {
      phase := Creating;
      out := [Register];
    }

    method SendRoleGraph() returns (out: seq<Message>)
      ensures out == GraphMessages(cfg.graph)
    {
      out := [];
      for i := 0 to |cfg.graph|
        invariant out == seq(i, k requires 0 <= k < i => AddRoleConnection(cfg.graph[k]))
      {
        out := out + [AddRoleConnection(cfg.graph[i])];
      }
      out := out + [RolesComplete];
    }

    /** The neighbour-removal branch: one search and at most one erase per role. */
    method RemoveNeighbour(from: Endpoint, gone: Endpoint)
      modifies this`roleEndpointMap
      ensures roleEndpointMap == Erased(old(roleEndpointMap), from, gone)
      ensures from != gone ==> roleEndpointMap == old(roleEndpointMap)
      ensures from == gone ==>
                forall r :: r in old(roleEndpointMap) && |old(roleEndpointMap)[r]| > 0 ==>
                  r in roleEndpointMap && roleEndpointMap[r] == old(roleEndpointMap)[r][1..]
    {
      ghost var before := roleEndpointMap;
      var rest := roleEndpointMap.Keys;
      while rest != {}
        invariant rest <= before.Keys
        invariant roleEndpointMap.Keys == before.Keys
        invariant forall r :: r in rest ==> roleEndpointMap[r] == before[r]
        invariant forall r :: r in before && r !in rest ==> roleEndpointMap[r] == Erased(before, from, gone)[r]
        decreases rest
      {
        var r :| r in rest;
        var list := roleEndpointMap[r];
        var position := 0;
        while position < |list| && from != gone
          invariant 0 <= position <= |list|
          invariant from == gone ==> position == 0
        {
          position := position + 1;
        }
        if position != |list| {
          roleEndpointMap := roleEndpointMap[r := list[..position] + list[position + 1..]];
        }
        rest := rest - {r};
      }
    }

    /** One turn of the constructor's loop or of the management thread's loop. */
    method Receive(from: Endpoint, msg: Message) returns (out: seq<Message>)
      requires Receiving(Snapshot())
      modifies this
      ensures Reaction(Snapshot(), out) == React(cfg, old(Snapshot()), from, msg)
      ensures edges == if old(phase) == Creating && msg.AddRoleConnection? then (old(edges) + 1) % 0x1_0000_0000
                       else old(edges)
      ensures old(phase) == Creating ==>
                phase == if msg.RolesComplete? then Alive
                         else if msg.RoleGraphRequest? || msg.AddRoleConnection? then Creating else Failed
      ensures old(phase) != Creating ==>
                phase == if msg == Disembody(cfg.data) then Closed
                         else if IsMembership(msg) then old(phase) else Failed
    {
      out := [];
      if phase == Creating {
        match msg {
          case RoleGraphRequest => out := SendRoleGraph();
          case AddRoleConnection(_) => edges := Wrap(edges + 1);
          case RolesComplete =>
            phase := Alive;
            out := [Embody(cfg.data, cfg.role)];
          case _ => phase := Failed;
        }
      } else {
        match msg {
          case Disembody(endpoint) =>
            if endpoint == cfg.data {
              phase := Closed;
            } else {
              RemoveNeighbour(from, endpoint);
            }
          case Embody(endpoint, role) =>
            roleEndpointMap := Added(roleEndpointMap, role, endpoint);
          case Announce(endpoint, role) =>
            roleEndpointMap := Added(roleEndpointMap, role, endpoint);
          case _ => phase := Failed;
        }
      }
    }

    /** `stop` up to its wait for the management thread. */
    method Stop() returns (out: seq<Message>)
      requires phase == Alive
      modifies this`phase
      ensures Snapshot() == old(Snapshot()).(phase := Stopping)
      ensures out == [Disembody(cfg.data)]
    {
      phase := Stopping;
      out := [Disembody(cfg.data)];
    }
  }
}
