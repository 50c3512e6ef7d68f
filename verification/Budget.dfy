// Two limits the kernel enforces itself: deadlines and the context budget.

module Budgets {

  /** The absolute deadline of a delivery: the tighter of what the chain was given
      and what this edge asks for; zero is "none". */
  function InheritDeadline(inherited: int, localMS: int, now: int): int {
    var local := if localMS > 0 then now + localMS else 0;
    if inherited == 0 then local
    else if local == 0 then inherited
    else if local < inherited then local
    else inherited
  }

  predicate Expired(deadline: int, now: int) {
    deadline > 0 && now > deadline
  }

  /** One hop of a chain: what its edge asks for, and when it was reached. */
  datatype HopTime = HopTime(deadlineMS: int, now: int)

  function Fold(start: int, hops: seq<HopTime>): int {
    if hops == [] then start
    else
      var last := hops[|hops| - 1];
      InheritDeadline(Fold(start, hops[..|hops| - 1]), last.deadlineMS, last.now)
  }

  /** The nonzero deadlines a chain accumulates: the client's, then one per edge that declares one. */
  function Declared(start: int, hops: seq<HopTime>): seq<int> {
    if hops == [] then (if start == 0 then [] else [start])
    else
      var last := hops[|hops| - 1];
      var before := Declared(start, hops[..|hops| - 1]);
      if last.deadlineMS > 0 && last.now + last.deadlineMS != 0 then before + [last.now + last.deadlineMS] else before
  }

  /** However long the chain, its deadline is the least one declared along it, and
      none if none was: no hop can extend what an earlier one allowed. */
  lemma {:induction false} ChainDeadlineIsLeast(start: int, hops: seq<HopTime>)
    ensures Declared(start, hops) == [] <==> Fold(start, hops) == 0
    ensures Declared(start, hops) != [] ==> Fold(start, hops) in Declared(start, hops)
    ensures forall d :: d in Declared(start, hops) ==> Fold(start, hops) <= d
  {
    if hops != [] {
      ChainDeadlineIsLeast(start, hops[..|hops| - 1]);
      var last := hops[|hops| - 1];
      var before := Declared(start, hops[..|hops| - 1]);
      if last.deadlineMS > 0 && last.now + last.deadlineMS != 0 {
        assert Declared(start, hops) == before + [last.now + last.deadlineMS];
      }
    }
  }

  const BYTES_PER_TOKEN := 4

  /** contextLedger: the tokens charged so far, and the limit they are charged against. */
  class ContextLedger {
    const budget: int
    var consumed: nat

    constructor (budget: int)
      ensures this.budget == budget && consumed == 0
    {
      this.budget := budget;
      consumed := 0;
    }

    method Charge(bytes: nat) returns (over: bool)
      modifies this
      ensures (consumed, over) == ChargeF(budget, old(consumed), bytes)
    {
      if budget <= 0 {
        return false;
      }
      consumed := consumed + bytes / BYTES_PER_TOKEN;
      over := consumed > budget;
    }
  }

  function ChargeF(budget: int, consumed: nat, bytes: nat): (nat, bool) {
    if budget <= 0 then (consumed, false)
    else (consumed + bytes / BYTES_PER_TOKEN, consumed + bytes / BYTES_PER_TOKEN > budget)
  }
}
