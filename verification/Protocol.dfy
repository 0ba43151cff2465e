/**
 * The messages of the membership protocol, and what a history of them means.
 *
 * A link between the server and one client is reliable and first-in-first-out
 * in both directions, so a direction is a sequence of messages.
 */
module Protocol {
  import opened Wrappers
  import opened Sequences

  type Endpoint = nat
  type RoleId = n: nat | n < 0x1_0000_0000

  datatype Edge = Edge(from: RoleId, to: RoleId)

  datatype Message =
    | Register
    | RoleGraphRequest
    | AddRoleConnection(edge: Edge)
    | RolesComplete
    | Embody(endpoint: Endpoint, role: RoleId)
    | Announce(endpoint: Endpoint, role: RoleId)
    | Disembody(endpoint: Endpoint)
    | ServerClose

  datatype Envelope = Envelope(to: Endpoint, msg: Message)

  /** How many role-graph edges join two roles, in either direction; a self loop counts twice. */
  function Links(edges: seq<Edge>, a: RoleId, b: RoleId): nat {
    multiset(edges)[Edge(a, b)] + multiset(edges)[Edge(b, a)]
  }

  /** The part of a batch of envelopes that one recipient gets, in order. */
  function Addressed(out: seq<Envelope>, to: Endpoint): seq<Message> {
    if out == [] then []
    else if out[0].to == to then [out[0].msg] + Addressed(out[1..], to)
    else Addressed(out[1..], to)
  }

  lemma {:induction false} AddressedConcat(a: seq<Envelope>, b: seq<Envelope>, to: Endpoint)
    ensures Addressed(a + b, to) == Addressed(a, to) + Addressed(b, to)
  {
    if a == [] {
      assert a + b == b;
    } else {
      AddressedConcat(a[1..], b, to);
      assert (a + b)[1..] == a[1..] + b;
      if a[0].to == to {
        assert [a[0].msg] + (Addressed(a[1..], to) + Addressed(b, to)) == Addressed(a, to) + Addressed(b, to);
      }
    }
  }

  predicate IsIntroduction(m: Message) {
    m.Embody? || m.Announce?
  }

  predicate IsMembership(m: Message) {
    IsIntroduction(m) || m.Disembody?
  }

  predicate AllMembership(log: seq<Message>) {
    forall i :: 0 <= i < |log| ==> IsMembership(log[i])
  }

  /**
   * Folding a history for one endpoint: every introduction adds a copy, every withdrawal
   * removes one, and withdrawing what is not there is an underflow (None).
   */
  function Known(log: seq<Message>, e: Endpoint): Option<nat> {
    if log == [] then Some(0)
    else
      var m := log[|log| - 1];
      match Known(log[..|log| - 1], e)
      case None => None
      case Some(n) =>
        if IsIntroduction(m) && m.endpoint == e then Some(n + 1)
        else if m == Disembody(e) then (if n > 0 then Some(n - 1) else None)
        else Some(n)
  }

  /** Messages that do not name an endpoint leave its fold alone. */
  lemma {:induction false} KnownQuiet(log: seq<Message>, more: seq<Message>, e: Endpoint)
    requires forall i :: 0 <= i < |more| ==> !(IsMembership(more[i]) && more[i].endpoint == e)
    ensures Known(log + more, e) == Known(log, e)
  {
    if more == [] {
      assert log + more == log;
    } else {
      var n := |more| - 1;
      KnownQuiet(log, more[..n], e);
      assert (log + more)[..|log + more| - 1] == log + more[..n];
    }
  }

  lemma {:induction false} KnownIntroduced(log: seq<Message>, more: seq<Message>, e: Endpoint)
    requires Known(log, e).Some?
    requires forall i :: 0 <= i < |more| ==> IsIntroduction(more[i])
    ensures Known(log + more, e) == Some(Known(log, e).value + Introductions(more, e))
  {
    if more == [] {
      assert log + more == log;
    } else {
      var n := |more| - 1;
      KnownIntroduced(log, more[..n], e);
      assert (log + more)[..|log + more| - 1] == log + more[..n];
    }
  }

  lemma {:induction false} KnownWithdrawn(log: seq<Message>, e: Endpoint, n: nat)
    requires Known(log, e).Some? && n <= Known(log, e).value
    ensures Known(log + Repeat(Disembody(e), n), e) == Some(Known(log, e).value - n)
  {
    if n == 0 {
      assert log + Repeat(Disembody(e), 0) == log;
    } else {
      KnownWithdrawn(log, e, n - 1);
      assert (log + Repeat(Disembody(e), n))[..|log| + n - 1] == log + Repeat(Disembody(e), n - 1);
    }
  }

  /** How often a history introduces, and how often it withdraws, one endpoint. */
  function Introductions(log: seq<Message>, e: Endpoint): nat {
    if log == [] then 0
    else
      var m := log[|log| - 1];
      Introductions(log[..|log| - 1], e) + if IsIntroduction(m) && m.endpoint == e then 1 else 0
  }

  function Departures(log: seq<Message>, e: Endpoint): nat {
    if log == [] then 0
    else Departures(log[..|log| - 1], e) + if log[|log| - 1] == Disembody(e) then 1 else 0
  }

  /** A history that never underflows balances: known = introduced - withdrawn. */
  lemma {:induction false} KnownBalance(log: seq<Message>, e: Endpoint)
    requires Known(log, e).Some?
    ensures Introductions(log, e) == Known(log, e).value + Departures(log, e)
  {
    if log != [] {
      KnownBalance(log[..|log| - 1], e);
    }
  }

  lemma {:induction false} KnownPrefix(log: seq<Message>, e: Endpoint, n: nat)
    requires Known(log, e).Some? && n <= |log|
    ensures Known(log[..n], e).Some?
  {
    if n == |log| {
      assert log[..n] == log;
    } else {
      KnownPrefix(log[..|log| - 1], e, n);
      assert log[..|log| - 1][..n] == log[..n];
    }
  }

  lemma {:induction false} DepartureAt(log: seq<Message>, e: Endpoint)
    ensures Departures(log, e) == 0 <==> Disembody(e) !in log
  {
    if log != [] {
      DepartureAt(log[..|log| - 1], e);
      assert log == log[..|log| - 1] + [log[|log| - 1]];
    }
  }

  lemma {:induction false} IntroductionsOfCopies(m: Message, n: nat, e: Endpoint)
    requires IsIntroduction(m)
    ensures Introductions(Repeat(m, n), e) == if m.endpoint == e then n else 0
  {
    if n > 0 {
      IntroductionsOfCopies(m, n - 1, e);
      assert Repeat(m, n)[..n - 1] == Repeat(m, n - 1);
    }
  }
}
