// The dynamic half of policy: a fixed-window counter per limited capability.

module RateLimits {
  import opened Options
  import opened BoundedFifo
  import opened Policies

  /** Instants and durations are in nanoseconds. */
  const MINUTE := 60_000_000_000

  /** The bucket map is cleared when a new capability arrives and it holds more. */
  const MAX_BUCKETS := 1024

  datatype Bucket = Bucket(windowStart: int, count: int)

  /** One capability's counter meets one delivery at `now`. */
  function Admit(b: Bucket, perMinute: int, now: int): (Bucket, bool) {
    var w := if now - b.windowStart >= MINUTE then Bucket(now, 0) else b;
    if w.count >= perMinute then (w, false) else (w.(count := w.count + 1), true)
  }

  function AllowRateF(buckets: map<string, Bucket>, capability: string, perMinute: int, now: int)
    : (map<string, Bucket>, bool)
  {
    var kept := if capability !in buckets && |buckets| > MAX_BUCKETS then map[] else buckets;
    var b := if capability in kept then kept[capability] else Bucket(now, 0);
    var (after, ok) := Admit(b, perMinute, now);
    (kept[capability := after], ok)
  }

  predicate Limited(pol: Policy, capability: string) {
    var limit := Decide(pol, capability).1;
    limit.Some? && limit.value > 0
  }

  function PerMinute(pol: Policy, capability: string): int
    requires Limited(pol, capability)
  {
    Decide(pol, capability).1.value
  }

  function CheckRateF(pol: Policy, buckets: map<string, Bucket>, capability: string, now: int)
    : (map<string, Bucket>, bool)
  {
    if Limited(pol, capability) then AllowRateF(buckets, capability, PerMinute(pol, capability), now)
    else (buckets, true)
  }

  /** The limiter shared by every session of the node. */
  class RateLimiter {
    const pol: Policy
    var buckets: map<string, Bucket>

    constructor (pol: Policy)
      ensures this.pol == pol && buckets == map[]
    {
      this.pol := pol;
      buckets := map[];
    }

    method CheckRate(capability: string, now: int) returns (ok: bool)
      modifies this
      ensures (buckets, ok) == CheckRateF(pol, old(buckets), capability, now)
    {
      var (_, limit) := Decide(pol, capability);
      if limit == None || limit.value <= 0 {
        return true;
      }
      ok := AllowRate(capability, limit.value, now);
    }

    method AllowRate(capability: string, perMinute: int, now: int) returns (ok: bool)
      modifies this
      ensures (buckets, ok) == AllowRateF(old(buckets), capability, perMinute, now)
    {
      ghost var kept := buckets;
      if capability !in buckets {
        if |buckets| > MAX_BUCKETS {
          buckets := map[];
        }
        kept := buckets;
        buckets := buckets[capability := Bucket(now, 0)];
      }
      var b := buckets[capability];
      if now - b.windowStart >= MINUTE {
        b := Bucket(now, 0);
      }
      ok := b.count < perMinute;
      if ok {
        b := b.(count := b.count + 1);
      }
      buckets := buckets[capability := b];
      assert buckets == kept[capability := b];
    }
  }

  // ---- Whole runs: any interleaving of deliveries to any capabilities. ----

  datatype Call = Call(capability: string, now: int)

  function Buckets(pol: Policy, calls: seq<Call>): map<string, Bucket> {
    if calls == [] then map[]
    else
      var c := calls[|calls| - 1];
      CheckRateF(pol, Buckets(pol, calls[..|calls| - 1]), c.capability, c.now).0
  }

  /** Whether the last call of a run was admitted. */
  predicate LastAdmitted(pol: Policy, calls: seq<Call>)
    requires calls != []
  {
    var c := calls[|calls| - 1];
    CheckRateF(pol, Buckets(pol, calls[..|calls| - 1]), c.capability, c.now).1
  }

  /** How many deliveries to a capability were admitted at instants in [from, to). */
  function Admitted(pol: Policy, calls: seq<Call>, capability: string, from: int, to: int): nat {
    if calls == [] then 0
    else
      var c := calls[|calls| - 1];
      Admitted(pol, calls[..|calls| - 1], capability, from, to) +
      if c.capability == capability && from <= c.now < to && LastAdmitted(pol, calls) then 1 else 0
  }

  ghost predicate ClockNeverStepsBack(calls: seq<Call>) {
    forall i, j :: 0 <= i < j < |calls| ==> calls[i].now <= calls[j].now
  }

  /** The limited capabilities a run touches. */
  function LimitedIn(pol: Policy, calls: seq<Call>): set<string> {
    set c | c in calls && Limited(pol, c.capability) :: c.capability
  }

  function Ceil(x: int): int {
    if x <= 0 then 0 else (x + MINUTE - 1) / MINUTE
  }

  /** What a limit admits over the minutes begun in `length` nanoseconds. */
  function Allowance(perMinute: int, length: int): int {
    perMinute * Ceil(length)
  }

  lemma AllowanceStep(perMinute: int, x: int, y: int)
    requires perMinute >= 0 && y >= x + MINUTE && y > 0
    ensures Allowance(perMinute, y) >= Allowance(perMinute, x) + perMinute
  {
    assert Ceil(y) >= Ceil(x) + 1;
    var more := Ceil(y) - Ceil(x) - 1;
    assert perMinute * Ceil(y) == perMinute * Ceil(x) + perMinute + perMinute * more;
  }

  lemma AllowanceMonotone(perMinute: int, x: int, y: int)
    requires perMinute >= 0
    ensures x <= y ==> Allowance(perMinute, x) <= Allowance(perMinute, y)
    ensures x <= 0 ==> Allowance(perMinute, x) == 0
    ensures 0 < x <= MINUTE ==> Allowance(perMinute, x) == perMinute
  {
    if x <= y {
      assert Ceil(x) <= Ceil(y);
      var more := Ceil(y) - Ceil(x);
      assert perMinute * Ceil(y) == perMinute * Ceil(x) + perMinute * more;
    }
  }

  lemma BucketsAreLimited(pol: Policy, calls: seq<Call>)
    ensures Buckets(pol, calls).Keys <= LimitedIn(pol, calls)
  {
    if calls != [] {
      var before, c := calls[..|calls| - 1], calls[|calls| - 1];
      BucketsAreLimited(pol, before);
      assert c in calls;
      assert LimitedIn(pol, before) <= LimitedIn(pol, calls);
    }
  }

  /** While the map was never cleared, one capability's counter is the counter it
      would have had alone. */
  lemma LastCallAlone(pol: Policy, calls: seq<Call>, capability: string)
    requires calls != [] && |LimitedIn(pol, calls)| <= MAX_BUCKETS + 1
    requires Limited(pol, capability)
    ensures var before, after := Buckets(pol, calls[..|calls| - 1]), Buckets(pol, calls);
            var c := calls[|calls| - 1];
            if c.capability != capability then
              (capability in after <==> capability in before)
              && (capability in before ==> after[capability] == before[capability])
            else
              var b := if capability in before then before[capability] else Bucket(c.now, 0);
              && capability in after
              && (after[capability], LastAdmitted(pol, calls)) == Admit(b, PerMinute(pol, capability), c.now)
  {
    var prior, c := calls[..|calls| - 1], calls[|calls| - 1];
    var before := Buckets(pol, prior);
    BucketsAreLimited(pol, prior);
    if Limited(pol, c.capability) && c.capability !in before {
      assert c in calls;
      assert before.Keys + {c.capability} <= LimitedIn(pol, calls);
      Fewer(before.Keys + {c.capability}, LimitedIn(pol, calls));
      assert |before.Keys + {c.capability}| == |before| + 1;
    }
  }

  /** What the counter knows about the past: everything admitted since `from` is
      in the current window, or in one of the whole minutes before it. */
  ghost predicate CounterCovers(pol: Policy, calls: seq<Call>, capability: string, from: int, end: int)
    requires Limited(pol, capability)
  {
    var n := Admitted(pol, calls, capability, from, end);
    if capability !in Buckets(pol, calls) then n == 0
    else
      var b := Buckets(pol, calls)[capability];
      && 0 <= b.count <= PerMinute(pol, capability)
      && n <= b.count + Allowance(PerMinute(pol, capability), b.windowStart - from)
      && (from >= b.windowStart + MINUTE ==> n == 0)
      && b.windowStart < end
  }

  lemma {:induction false} CounterCoversRun(pol: Policy, calls: seq<Call>, capability: string, from: int, end: int)
    requires Limited(pol, capability)
    requires ClockNeverStepsBack(calls) && |LimitedIn(pol, calls)| <= MAX_BUCKETS + 1
    requires forall c :: c in calls ==> c.now < end
    ensures CounterCovers(pol, calls, capability, from, end)
  {
    if calls != [] {
      var before, c := calls[..|calls| - 1], calls[|calls| - 1];
      assert LimitedIn(pol, before) <= LimitedIn(pol, calls);
      Fewer(LimitedIn(pol, before), LimitedIn(pol, calls));
      assert c in calls;
      CounterCoversRun(pol, before, capability, from, end);
      CounterLast(pol, calls, capability, from, end);
    }
  }

  lemma AdmittedLast(pol: Policy, calls: seq<Call>, capability: string, from: int, end: int)
    requires Limited(pol, capability) && calls != []
    ensures var before, c := calls[..|calls| - 1], calls[|calls| - 1];
            Admitted(pol, calls, capability, from, end)
            == Admitted(pol, before, capability, from, end)
               + if c.capability == capability && from <= c.now < end && LastAdmitted(pol, calls) then 1 else 0
    ensures PerMinute(pol, capability) >= 1
  {
  }

  lemma CounterLast(pol: Policy, calls: seq<Call>, capability: string, from: int, end: int)
    requires Limited(pol, capability) && calls != [] && |LimitedIn(pol, calls)| <= MAX_BUCKETS + 1
    requires calls[|calls| - 1].now < end
    requires CounterCovers(pol, calls[..|calls| - 1], capability, from, end)
    ensures CounterCovers(pol, calls, capability, from, end)
  {
    hide Allowance, LimitedIn, Admit, Buckets, PerMinute, Admitted, Limited, LastAdmitted;
    var before, c := calls[..|calls| - 1], calls[|calls| - 1];
    LastCallAlone(pol, calls, capability);
    AdmittedLast(pol, calls, capability, from, end);
    var n, perMinute := Admitted(pol, before, capability, from, end), PerMinute(pol, capability);
    if c.capability == capability {
      var b := if capability in Buckets(pol, before) then Buckets(pol, before)[capability] else Bucket(c.now, 0);
      AllowanceMonotone(perMinute, 0, b.windowStart - from);
      AllowanceMonotone(perMinute, b.windowStart - from, 0);
      CounterStep(b, perMinute, n, from, c.now);
      AdmitKeeps(b, perMinute, c.now, end);
    }
  }

  lemma AdmitKeeps(b: Bucket, perMinute: int, now: int, end: int)
    requires b.windowStart < end && now < end
    ensures Admit(b, perMinute, now).0.windowStart < end
  {
  }

  /** One delivery: whatever the counter covered before, it covers after. */
  lemma CounterStep(b: Bucket, perMinute: int, n: nat, from: int, now: int)
    requires perMinute >= 1 && 0 <= b.count <= perMinute
    requires n <= b.count + Allowance(perMinute, b.windowStart - from)
    requires from >= b.windowStart + MINUTE ==> n == 0
    ensures var (after, ok) := Admit(b, perMinute, now);
            var m := n + if from <= now && ok then 1 else 0;
            && 0 <= after.count <= perMinute
            && m <= after.count + Allowance(perMinute, after.windowStart - from)
            && (from >= after.windowStart + MINUTE ==> m == 0)
  {
    hide Allowance;
    if now - b.windowStart >= MINUTE && from < now {
      AllowanceStep(perMinute, b.windowStart - from, now - from);
    } else {
      AllowanceMonotone(perMinute, now - from, now - from);
    }
  }

  lemma {:induction false} LaterCallsDoNotCount(pol: Policy, calls: seq<Call>, capability: string, from: int, to: int)
    requires ClockNeverStepsBack(calls)
    ensures exists k :: 0 <= k <= |calls| && (forall c :: c in calls[..k] ==> c.now < to)
                        && Admitted(pol, calls, capability, from, to) == Admitted(pol, calls[..k], capability, from, to)
  {
    if calls == [] || calls[|calls| - 1].now < to {
      assert calls[..|calls|] == calls;
    } else {
      var before := calls[..|calls| - 1];
      LaterCallsDoNotCount(pol, before, capability, from, to);
      var k :| 0 <= k <= |before| && (forall c :: c in before[..k] ==> c.now < to)
               && Admitted(pol, before, capability, from, to) == Admitted(pol, before[..k], capability, from, to);
      assert before[..k] == calls[..k];
    }
  }

  /** Over any run of a node with at most 1025 limited capabilities, the deliveries
      admitted for one of them in any interval of `length` nanoseconds number at
      most per_minute times the minutes begun in it, plus one more minute's worth. */
  lemma RateBound(pol: Policy, calls: seq<Call>, capability: string, from: int, length: nat)
    requires Limited(pol, capability)
    requires ClockNeverStepsBack(calls) && |LimitedIn(pol, calls)| <= MAX_BUCKETS + 1
    ensures Admitted(pol, calls, capability, from, from + length)
         <= PerMinute(pol, capability) + Allowance(PerMinute(pol, capability), length)
    ensures length <= MINUTE ==>
              Admitted(pol, calls, capability, from, from + length) <= 2 * PerMinute(pol, capability)
  {
    hide Allowance, Admitted, Buckets;
    var to := from + length;
    LaterCallsDoNotCount(pol, calls, capability, from, to);
    var k :| 0 <= k <= |calls| && (forall c :: c in calls[..k] ==> c.now < to)
             && Admitted(pol, calls, capability, from, to) == Admitted(pol, calls[..k], capability, from, to);
    var early, perMinute := calls[..k], PerMinute(pol, capability);
    assert LimitedIn(pol, early) <= LimitedIn(pol, calls);
    Fewer(LimitedIn(pol, early), LimitedIn(pol, calls));
    CounterCoversRun(pol, early, capability, from, to);
    AllowanceMonotone(perMinute, 0, length);
    AllowanceMonotone(perMinute, length, MINUTE);
    AllowanceMonotone(perMinute, MINUTE, MINUTE);
    if capability in Buckets(pol, early) {
      AllowanceMonotone(perMinute, Buckets(pol, early)[capability].windowStart - from, length);
    }
  }

  /** Why the number of limited capabilities matters. A capability that has used up
      its minute is admitted again right after another's call exactly when its
      minute is over, or that call was the first of a capability arriving at a map
      already past its bound, which clears every counter. */
  lemma LimitForgottenIff(buckets: map<string, Bucket>, capability: string, perMinute: int, other: string, limit: int, now: int)
    requires capability in buckets && other != capability && buckets[capability].count >= perMinute >= 1
    ensures AllowRateF(AllowRateF(buckets, other, limit, now).0, capability, perMinute, now).1
            <==> now - buckets[capability].windowStart >= MINUTE || (other !in buckets && |buckets| > MAX_BUCKETS)
  {
  }
}
