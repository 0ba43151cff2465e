/** The round-robin send policy: a 32-bit counter that picks one endpoint of a role's list. */
module RoundRobin {
  import opened Sequences

  type Endpoint = nat
  type RoleId = n: nat | n < 0x1_0000_0000

  const RANGE := 0x1_0000_0000

  /** The counter after one call, for a list of length `n`. */
  function Advance(counter: RoleId, n: nat): RoleId
    requires n > 0
  {
    (counter % n + 1) % RANGE
  }

  class RoundRobin {
    const roleId: RoleId
    var counter: RoleId

    constructor (roleId: RoleId)
      ensures this.roleId == roleId && counter == 0
    {
      this.roleId, counter := roleId, 0;
    }

    /**
     * Picks the position of the counter, reduced to the list's length, and moves on; an absent or
     * empty list yields nothing.
     */
    method Run(endpoints: map<RoleId, seq<Endpoint>>) returns (sendTo: seq<Endpoint>)
      modifies this`counter
      ensures roleId in endpoints && endpoints[roleId] != [] ==>
                var list := endpoints[roleId];
                && sendTo == [list[old(counter) % |list|]]
                && counter == (old(counter) % |list| + 1) % 0x1_0000_0000
      ensures roleId !in endpoints || endpoints[roleId] == [] ==>
                sendTo == [] && counter == (old(counter) + 1) % 0x1_0000_0000
    {
      sendTo := [];
      if roleId in endpoints {
        var epVec := endpoints[roleId];
        if |epVec| > 0 {
          counter := counter % |epVec|;
          sendTo := sendTo + [epVec[counter]];
        }
      }
      counter := (counter + 1) % RANGE;
    }

    /** `k` calls on one policy object with an unchanged list. */
    method RunMany(endpoints: map<RoleId, seq<Endpoint>>, k: nat) returns (sendTo: seq<Endpoint>)
      requires roleId in endpoints && endpoints[roleId] != []
      modifies this`counter
      ensures |sendTo| == k
      ensures var list := endpoints[roleId];
        forall i :: 0 <= i < k ==> sendTo[i] == list[Choices(old(counter), |list|, k)[i]]
    {
      ghost var start := counter;
      ghost var list := endpoints[roleId];
      ghost var at: seq<nat> := [];
      sendTo := [];
      for i := 0 to k
        invariant |sendTo| == i && |at| == i
        invariant Choices(start, |list|, k) == at + Choices(counter, |list|, k - i)
        invariant forall j :: 0 <= j < i ==> at[j] < |list| && sendTo[j] == list[at[j]]
      {
        ghost var choice := counter % |list|;
        ChoicesFirst(counter, |list|, k - i);
        Concat3(at, [choice], Choices(Advance(counter, |list|), |list|, k - i - 1));
        var one := Run(endpoints);
        at := at + [choice];
        sendTo := sendTo + one;
      }
    }
  }

  lemma ChoicesFirst(counter: RoleId, n: nat, k: nat)
    requires n > 0 && k > 0
    ensures counter % n < n
    ensures Choices(counter, n, k) == [counter % n] + Choices(Advance(counter, n), n, k - 1)
    ensures Advance(counter, n) == (counter % n + 1) % 0x1_0000_0000
  {
  }

  /** The positions `k` consecutive calls pick in a list of length `n`. */
  function Choices(counter: RoleId, n: nat, k: nat): (r: seq<nat>)
    requires n > 0
    ensures |r| == k
    ensures forall i :: 0 <= i < k ==> r[i] < n
    decreases k
  {
    if k == 0 then [] else [counter % n] + Choices(Advance(counter, n), n, k - 1)
  }

  lemma {:induction false} MulMonotonic(n: nat, a: nat, b: nat)
    requires a <= b
    ensures n * a <= n * b
  {
    if a < b {
      MulMonotonic(n, a, b - 1);
      assert n * b == n * (b - 1) + n;
    }
  }

  lemma Euclid(x: nat, n: nat)
    requires n > 0
    ensures x == n * (x / n) + x % n && 0 <= x % n < n
  {
  }

  lemma QuotientAtMost(k: nat, n: nat, p: nat)
    requires n > 0 && k < n * (p + 1)
    ensures k / n <= p
  {
    Euclid(k, n);
    if k / n >= p + 1 {
      MulMonotonic(n, p + 1, k / n);
    }
  }

  lemma QuotientAtLeast(k: nat, n: nat, p: nat)
    requires n > 0 && n * p <= k
    ensures p <= k / n
  {
    Euclid(k, n);
    if k / n + 1 <= p {
      MulMonotonic(n, k / n + 1, p);
    }
  }

  lemma Reduced(x: nat, n: nat)
    requires 0 < n && x <= n
    ensures x % n == if x == n then 0 else x
  {
  }

  lemma RemainderAtMost(x: nat, n: nat)
    requires n > 0
    ensures x % n <= x
  {
    Euclid(x, n);
    MulMonotonic(n, 0, x / n);
  }

  /** Up to 2^32 endpoints the 32-bit counter walks through the list cyclically; the wrap does no harm. */
  lemma AdvanceCycles(counter: RoleId, n: nat)
    requires 0 < n <= RANGE
    ensures Advance(counter, n) % n == if counter % n + 1 == n then 0 else counter % n + 1
  {
    var r := counter % n;
    Reduced(r + 1, RANGE);
    Reduced(r + 1, n);
    Reduced(0, n);
  }

  /** How often a position is picked. */
  function Picks(counter: RoleId, n: nat, k: nat, p: nat): nat
    requires n > 0
  {
    multiset(Choices(counter, n, k))[p]
  }

  lemma PicksFirst(counter: RoleId, n: nat, k: nat, p: nat)
    requires n > 0 && k > 0
    ensures Picks(counter, n, k, p) == (if counter % n == p then 1 else 0) + Picks(Advance(counter, n), n, k - 1, p)
  {
    var rest := Choices(Advance(counter, n), n, k - 1);
    assert multiset([counter % n] + rest) == multiset{counter % n} + multiset(rest);
  }

  /** m / n, counted step by step. */
  function Rounds(m: nat, n: nat): nat
    requires n > 0
    decreases m
  {
    if m < n then 0 else 1 + Rounds(m - n, n)
  }

  lemma {:induction false} RoundsBounds(m: nat, n: nat)
    requires n > 0
    ensures n * Rounds(m, n) <= m < n * (Rounds(m, n) + 1)
    decreases m
  {
    if m >= n {
      RoundsBounds(m - n, n);
      var r := Rounds(m - n, n);
      assert n * (r + 1) == n * r + n && n * (r + 2) == n * (r + 1) + n;
    }
  }

  lemma RoundsIsDivision(m: nat, n: nat)
    requires n > 0
    ensures Rounds(m, n) == m / n
  {
    RoundsBounds(m, n);
    QuotientAtMost(m, n, Rounds(m, n));
    QuotientAtLeast(m, n, Rounds(m, n));
  }

  /** How far ahead of the counter a position lies. */
  function Distance(counter: RoleId, n: nat, p: nat): nat
    requires 0 < n && p < n
  {
    if counter % n <= p then p - counter % n else n - counter % n + p
  }

  lemma DistanceAfter(counter: RoleId, n: nat, p: nat)
    requires 0 < n <= RANGE && p < n
    ensures counter % n == p <==> Distance(counter, n, p) == 0
    ensures Distance(Advance(counter, n), n, p)
         == if Distance(counter, n, p) == 0 then n - 1 else Distance(counter, n, p) - 1
  {
    AdvanceCycles(counter, n);
  }

  /** A position is picked first after its distance, and then once in every round. */
  lemma {:induction false} PicksExactly(counter: RoleId, n: nat, k: nat, p: nat)
    requires 0 < n <= RANGE && p < n
    ensures Picks(counter, n, k, p)
         == if k <= Distance(counter, n, p) then 0 else 1 + Rounds(k - 1 - Distance(counter, n, p), n)
    decreases k
  {
    if k > 0 {
      PicksFirst(counter, n, k, p);
      PicksExactly(Advance(counter, n), n, k - 1, p);
      DistanceAfter(counter, n, p);
    }
  }

  lemma {:induction false} RoundsMonotonic(a: nat, b: nat, n: nat)
    requires n > 0 && a <= b
    ensures Rounds(a, n) <= Rounds(b, n)
    decreases b
  {
    if a >= n {
      RoundsMonotonic(a - n, b - n, n);
    }
  }

  ghost predicate Fair(counter: RoleId, n: nat, k: nat, p: nat)
    requires n > 0
  {
    k / n <= Picks(counter, n, k, p) <= (k + n - 1) / n
  }

  /**
   * Fairness: in `k` consecutive calls with an unchanged list of up to 2^32 endpoints, from any
   * counter value, each position is picked at least floor(k/n) and at most ceil(k/n) times.
   */
  lemma Fairness(counter: RoleId, n: nat, k: nat, p: nat)
    requires 0 < n <= RANGE && p < n
    ensures Fair(counter, n, k, p)
  {
    PicksExactly(counter, n, k, p);
    var d := Distance(counter, n, p);
    RoundsIsDivision(k, n);
    RoundsIsDivision(k + n - 1, n);
    if k > d {
      RoundsMonotonic(k, k - 1 - d + n, n);
      RoundsMonotonic(k - 1 - d + n, k + n - 1, n);
    }
  }

  /** Beyond 2^32 endpoints the policy is unfair: the positions from 2^32 on are never picked. */
  lemma {:induction false} UnfairBeyondRange(counter: RoleId, n: nat, k: nat, p: nat)
    requires RANGE <= p < n
    ensures Picks(counter, n, k, p) == 0
    decreases k
  {
    if k > 0 {
      PicksFirst(counter, n, k, p);
      RemainderAtMost(counter, n);
      UnfairBeyondRange(Advance(counter, n), n, k - 1, p);
    }
  }

  /** The policy is fair from every counter, for every number of calls and position, exactly up to 2^32 endpoints. */
  lemma FairIff(n: nat)
    requires n > 0
    ensures (forall counter: RoleId, k: nat, p: nat :: p < n ==> Fair(counter, n, k, p)) <==> n <= RANGE
  {
    if n <= RANGE {
      forall counter: RoleId, k: nat, p: nat | p < n
        ensures Fair(counter, n, k, p)
      {
        Fairness(counter, n, k, p);
      }
    } else {
      UnfairBeyondRange(0, n, n, RANGE);
      QuotientAtLeast(n, n, 1);
      assert !Fair(0, n, n, RANGE);
    }
  }
}
