/**
 * The server of the membership protocol: what each handler does to the server's
 * fields and which messages it sends, and the receive loop's object itself.
 */
module CracenServer {
  import opened Sequences
  import opened Protocol

  datatype Phase = ContextUninitialised | ContextInitialising | ContextInitialised

  datatype Participant = Participant(data: Endpoint, manager: Endpoint, role: RoleId)

  /**
   * The server's fields. `edges` lists the role graph in insertion order, as both sides of the
   * bimap keep equal keys. `failed` records that a handler threw, which ends the receive loop.
   */
  datatype State = State(
    phase: Phase,
    edges: seq<Edge>,
    participants: map<Endpoint, Participant>,
    registerQueue: seq<Endpoint>,
    running: bool,
    failed: bool)

  datatype Reaction = Reaction(state: State, out: seq<Envelope>)

  const INITIAL := State(ContextUninitialised, [], map[], [], true, false)

  /** The participants with a role, in the order of an ordered map: least key first. */
  ghost function OnRole(keys: set<Endpoint>, parts: map<Endpoint, Participant>, role: RoleId): seq<Participant>
    requires keys <= parts.Keys
  {
    if keys == {} then []
    else
      var k := Least(keys);
      if parts[k].role == role then [parts[k]] + OnRole(keys - {k}, parts, role)
      else OnRole(keys - {k}, parts, role)
  }

  /** The participants visited for a range of roles, one pass over all participants per role. */
  ghost function OnRange(range: seq<RoleId>, parts: map<Endpoint, Participant>): seq<Participant> {
    if range == [] then []
    else OnRole(parts.Keys, parts, range[0]) + OnRange(range[1..], parts)
  }

  /** The far ends of the edges that leave a role, and of those that enter it. */
  function LeftRange(edges: seq<Edge>, role: RoleId): seq<RoleId> {
    if edges == [] then []
    else if edges[0].from == role then [edges[0].to] + LeftRange(edges[1..], role)
    else LeftRange(edges[1..], role)
  }

  function RightRange(edges: seq<Edge>, role: RoleId): seq<RoleId> {
    if edges == [] then []
    else if edges[0].to == role then [edges[0].from] + RightRange(edges[1..], role)
    else RightRange(edges[1..], role)
  }

  ghost function Neighbours(edges: seq<Edge>, parts: map<Endpoint, Participant>, role: RoleId): seq<Participant> {
    OnRange(LeftRange(edges, role), parts) + OnRange(RightRange(edges, role), parts)
  }

  function AnnounceAll(xs: seq<Participant>, to: Endpoint): seq<Envelope> {
    seq(|xs|, i requires 0 <= i < |xs| => Envelope(to, Announce(xs[i].data, xs[i].role)))
  }

  function Broadcast(xs: seq<Participant>, msg: Message): seq<Envelope> {
    seq(|xs|, i requires 0 <= i < |xs| => Envelope(xs[i].manager, msg))
  }

  function ToAll(eps: seq<Endpoint>, msg: Message): seq<Envelope> {
    seq(|eps|, i requires 0 <= i < |eps| => Envelope(eps[i], msg))
  }

  /** One received message: the state afterwards and what was sent, handler by handler. */
  ghost function React(s: State, from: Endpoint, msg: Message): Reaction {
    match msg
    case Register => (
      match s.phase
      case ContextUninitialised =>
        Reaction(s.(phase := ContextInitialising, registerQueue := s.registerQueue + [from]),
                 [Envelope(from, RoleGraphRequest)])
      case ContextInitialising => Reaction(s.(registerQueue := s.registerQueue + [from]), [])
      case ContextInitialised => Reaction(s, [Envelope(from, RolesComplete)]))
    case AddRoleConnection(edge) => Reaction(s.(edges := s.edges + [edge]), [Envelope(from, msg)])
    case RolesComplete => Reaction(s.(phase := ContextInitialised), ToAll(s.registerQueue, msg))
    case Embody(endpoint, role) =>
      var near := Neighbours(s.edges, s.participants, role);
      Reaction(s.(participants := s.participants[endpoint := Participant(endpoint, from, role)]),
               AnnounceAll(near, from) + Broadcast(near, msg))
    case Disembody(endpoint) =>
      if endpoint !in s.participants then
        Reaction(s.(running := false, failed := true), [Envelope(from, msg)])
      else
        var gone := s.participants[endpoint];
        Reaction(s.(participants := s.participants - {endpoint}),
                 [Envelope(from, msg)]
                 + Broadcast(Neighbours(s.edges, s.participants, gone.role), Disembody(gone.data)))
    case ServerClose => Reaction(s.(running := false), [])
    case RoleGraphRequest => Reaction(s.(running := false, failed := true), [])
    case Announce(_, _) => Reaction(s.(running := false, failed := true), [])
  }

  // ---------------------------------------------------------------------------------------
  // Who is visited, and how often
  // ---------------------------------------------------------------------------------------

  ghost predicate WellKeyed(parts: map<Endpoint, Participant>) {
    forall k :: k in parts ==> parts[k].data == k
  }

  lemma {:induction false} OnRoleCount(keys: set<Endpoint>, parts: map<Endpoint, Participant>, role: RoleId,
                                       x: Participant)
    requires keys <= parts.Keys && WellKeyed(parts)
    ensures multiset(OnRole(keys, parts, role))[x]
         == if x.data in keys && parts[x.data] == x && x.role == role then 1 else 0
  {
    if keys != {} {
      OnRoleCount(keys - {Least(keys)}, parts, role, x);
    }
  }

  lemma {:induction false} OnRangeCount(range: seq<RoleId>, parts: map<Endpoint, Participant>, x: Participant)
    requires WellKeyed(parts)
    ensures multiset(OnRange(range, parts))[x]
         == if x.data in parts && parts[x.data] == x then multiset(range)[x.role] else 0
  {
    if range != [] {
      OnRoleCount(parts.Keys, parts, range[0], x);
      OnRangeCount(range[1..], parts, x);
      MultisetHead(range);
    }
  }

  lemma {:induction false} LeftRangeCount(edges: seq<Edge>, a: RoleId, b: RoleId)
    ensures multiset(LeftRange(edges, a))[b] == multiset(edges)[Edge(a, b)]
  {
    if edges != [] {
      LeftRangeCount(edges[1..], a, b);
      MultisetHead(edges);
      assert edges[0] == Edge(edges[0].from, edges[0].to);
      if edges[0].from == a {
        MultisetHead(LeftRange(edges, a));
        assert LeftRange(edges, a)[1..] == LeftRange(edges[1..], a);
      }
    }
  }

  lemma {:induction false} RightRangeCount(edges: seq<Edge>, a: RoleId, b: RoleId)
    ensures multiset(RightRange(edges, a))[b] == multiset(edges)[Edge(b, a)]
  {
    if edges != [] {
      RightRangeCount(edges[1..], a, b);
      MultisetHead(edges);
      assert edges[0] == Edge(edges[0].from, edges[0].to);
      if edges[0].to == a {
        MultisetHead(RightRange(edges, a));
        assert RightRange(edges, a)[1..] == RightRange(edges[1..], a);
      }
    }
  }

  /**
   * `executeOnNeighbor` calls back once per participant and per edge between the two roles,
   * whichever way the edge points, and for nobody else.
   */
  lemma NeighbourCount(edges: seq<Edge>, parts: map<Endpoint, Participant>, role: RoleId, x: Participant)
    requires WellKeyed(parts)
    ensures multiset(Neighbours(edges, parts, role))[x]
         == if x.data in parts && parts[x.data] == x then Links(edges, role, x.role) else 0
  {
    OnRangeCount(LeftRange(edges, role), parts, x);
    OnRangeCount(RightRange(edges, role), parts, x);
    LeftRangeCount(edges, role, x.role);
    RightRangeCount(edges, role, x.role);
  }

  lemma NeighbourMembers(edges: seq<Edge>, parts: map<Endpoint, Participant>, role: RoleId)
    requires WellKeyed(parts)
    ensures forall x :: x in Neighbours(edges, parts, role) ==> x.data in parts && parts[x.data] == x
  {
    forall x | x in Neighbours(edges, parts, role)
      ensures x.data in parts && parts[x.data] == x
    {
      assert multiset(Neighbours(edges, parts, role))[x] > 0;
      NeighbourCount(edges, parts, role, x);
    }
  }

  // ---------------------------------------------------------------------------------------
  // What one recipient gets out of a batch
  // ---------------------------------------------------------------------------------------

  lemma {:induction false} AddressedBroadcast(xs: seq<Participant>, msg: Message, x: Participant)
    requires forall y :: y in xs && y.manager == x.manager ==> y == x
    ensures Addressed(Broadcast(xs, msg), x.manager) == Repeat(msg, multiset(xs)[x])
  {
    if xs != [] {
      AddressedBroadcast(xs[1..], msg, x);
      MultisetHead(xs);
      assert Broadcast(xs, msg)[1..] == Broadcast(xs[1..], msg);
      assert xs[0] in xs;
    }
  }

  lemma {:induction false} AddressedNobody(out: seq<Envelope>, to: Endpoint)
    requires forall i :: 0 <= i < |out| ==> out[i].to != to
    ensures Addressed(out, to) == []
  {
    if out != [] {
      AddressedNobody(out[1..], to);
    }
  }

  lemma {:induction false} AddressedToAll(eps: seq<Endpoint>, msg: Message, to: Endpoint)
    requires NoDuplicates(eps)
    ensures Addressed(ToAll(eps, msg), to) == if to in eps then [msg] else []
  {
    if eps != [] {
      AddressedToAll(eps[1..], msg, to);
      assert ToAll(eps, msg)[1..] == ToAll(eps[1..], msg);
      assert eps == [eps[0]] + eps[1..];
    }
  }

  /** All the announcements go to the newcomer, one per visit. */
  lemma {:induction false} AddressedAnnouncements(xs: seq<Participant>, to: Endpoint)
    ensures |Addressed(AnnounceAll(xs, to), to)| == |xs|
    ensures forall i :: 0 <= i < |xs| ==> Addressed(AnnounceAll(xs, to), to)[i] == Announce(xs[i].data, xs[i].role)
  {
    if xs != [] {
      AddressedAnnouncements(xs[1..], to);
      assert AnnounceAll(xs, to)[1..] == AnnounceAll(xs[1..], to);
    }
  }

  lemma {:induction false} AnnouncedCount(xs: seq<Participant>, log: seq<Message>, x: Participant)
    requires |log| == |xs|
    requires forall i :: 0 <= i < |xs| ==> log[i] == Announce(xs[i].data, xs[i].role)
    requires forall y :: y in xs && y.data == x.data ==> y == x
    ensures Introductions(log, x.data) == multiset(xs)[x]
  {
    if xs != [] {
      var n := |xs| - 1;
      AnnouncedCount(xs[..n], log[..n], x);
      MultisetLast(xs);
      assert xs[n] in xs;
    }
  }

  lemma OnRoleLeast(visited: seq<Participant>, rest: set<Endpoint>, parts: map<Endpoint, Participant>, role: RoleId,
                    k: Endpoint)
    requires rest <= parts.Keys
    requires k in rest && forall j :: j in rest ==> k <= j
    ensures visited + OnRole(rest, parts, role)
         == (if parts[k].role == role then visited + [parts[k]] else visited) + OnRole(rest - {k}, parts, role)
  {
    LeastUnique(rest, k);
  }

  // ---------------------------------------------------------------------------------------
  // The object
  // ---------------------------------------------------------------------------------------

  class CracenServer {
    var phase: Phase
    var edges: seq<Edge>
    var participants: map<Endpoint, Participant>
    var registerQueue: seq<Endpoint>
    var running: bool
    var failed: bool

    ghost function Snapshot(): State
      reads this
    {
      State(phase, edges, participants, registerQueue, running, failed)
    }

    constructor ()
      ensures Snapshot() == INITIAL
    {
      phase, edges, participants := ContextUninitialised, [], map[];
      registerQueue, running, failed := [], true, false;
    }

    method ExecuteOnRole(role: RoleId) returns (visited: seq<Participant>)
      ensures visited == OnRole(participants.Keys, participants, role)
    {
      visited := [];
      var rest := participants.Keys;
      while rest != {}
        invariant rest <= participants.Keys
        invariant visited + OnRole(rest, participants, role) == OnRole(participants.Keys, participants, role)
        decreases rest
      {
        LeastExists(rest);
        var k :| k in rest && forall j :: j in rest ==> k <= j;
        OnRoleLeast(visited, rest, participants, role, k);
        if participants[k].role == role {
          visited := visited + [participants[k]];
        }
        rest := rest - {k};
      }
    }

    method ExecuteOnRange(range: seq<RoleId>) returns (visited: seq<Participant>)
      ensures visited == OnRange(range, participants)
    {
      visited := [];
      var i := 0;
      assert range[0..] == range;
      while i < |range|
        invariant 0 <= i <= |range|
        invariant visited + OnRange(range[i..], participants) == OnRange(range, participants)
      {
        var some := ExecuteOnRole(range[i]);
        assert range[i..][1..] == range[i + 1..];
        visited := visited + some;
        i := i + 1;
      }
    }

    method ExecuteOnNeighbor(role: RoleId) returns (visited: seq<Participant>)
      ensures visited == Neighbours(edges, participants, role)
    {
      var left := ExecuteOnRange(LeftRange(edges, role));
      var right := ExecuteOnRange(RightRange(edges, role));
      visited := left + right;
    }

    method SendToAll(eps: seq<Endpoint>, msg: Message) returns (out: seq<Envelope>)
      ensures out == ToAll(eps, msg)
    {
      out := [];
      for i := 0 to |eps|
        invariant out == ToAll(eps[..i], msg)
      {
        out := out + [Envelope(eps[i], msg)];
      }
      assert eps[..|eps|] == eps;
    }

    /** One turn of the receive loop: dispatches a message to its handler. */
    method Receive(from: Endpoint, msg: Message) returns (out: seq<Envelope>)
      requires running
      modifies this
      ensures Reaction(Snapshot(), out) == React(old(Snapshot()), from, msg)
      ensures !failed ==> (running <==> !msg.ServerClose?)
      ensures failed <==>
                || old(failed) || msg.RoleGraphRequest? || msg.Announce?
                || (msg.Disembody? && msg.endpoint !in old(participants))
      ensures failed ==> !running || old(failed)
      ensures failed && !old(failed) ==>
                && phase == old(phase) && edges == old(edges) && registerQueue == old(registerQueue)
                && participants == old(participants)
    {
      out := [];
      match msg {
        case Register =>
          match phase {
            case ContextUninitialised =>
              phase := ContextInitialising;
              out := [Envelope(from, RoleGraphRequest)];
              registerQueue := registerQueue + [from];
            case ContextInitialising =>
              registerQueue := registerQueue + [from];
            case ContextInitialised =>
              out := [Envelope(from, RolesComplete)];
          }
        case AddRoleConnection(edge) =>
          edges := edges + [edge];
          out := [Envelope(from, msg)];
        case RolesComplete =>
          phase := ContextInitialised;
          out := SendToAll(registerQueue, msg);
        case Embody(endpoint, role) =>
          var participant := Participant(endpoint, from, role);
          var near := ExecuteOnNeighbor(role);
          out := AnnounceAll(near, from);
          var again := ExecuteOnNeighbor(role);
          out := out + Broadcast(again, msg);
          participants := participants[endpoint := participant];
        case Disembody(endpoint) =>
          out := [Envelope(from, msg)];
          if endpoint in participants {
            var participant := participants[endpoint];
            var near := ExecuteOnNeighbor(participant.role);
            out := out + Broadcast(near, Disembody(participant.data));
            participants := participants - {endpoint};
          } else {
            running, failed := false, true;
          }
        case ServerClose =>
          running := false;
        case _ =>
          running, failed := false, true;
      }
    }
  }
}
