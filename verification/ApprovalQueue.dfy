// The out-of-band approval queue: questions parked until an operator, a timer or the
// caller itself is done with them, under every interleaving of the three.

module ApprovalQueue {
  import opened Options

  /** One unanswered question. */
  datatype Pending = Pending(id: string, question: string, requested: int, expires: int, required: seq<string>)

  /** One resolution: the verdict and the operator's unverified signature. */
  datatype Answer = Answer(approve: bool, signature: Option<string>)

  /** What the expiry timer answers with. */
  const EXPIRED := Answer(false, None)

  // ---- The registry: what happens under its lock ----

  class Registry {
    var items: map<string, Pending>
    var required: seq<string>
    const ttl: int

    ghost predicate Keyed()
      reads this
    {
      forall id :: id in items ==> items[id].id == id
    }

    constructor (ttl: int)
      ensures Keyed() && items == map[] && required == [] && this.ttl == ttl
    {
      this.ttl := ttl;
      items, required := map[], [];
    }

    /** Open, up to the arming of its timer. `q` is a state of the queue below whose
        waiting questions are this registry's. */
    method Park(p: Pending, now: int, ghost q: Queue)
      requires Keyed() && q.items == items
      modifies this`items
      ensures Keyed() && items == old(items)[p.id := Stamped(p, now, ttl, required)]
      ensures items == StepF(q, Open(Stamped(p, now, ttl, required))).items
    {
      var q := p.(requested := now, expires := now + ttl);
      q := q.(required := required);
      items := items[q.id := q];
    }

    /** The locked half of Resolve: whoever finds the question takes it away. */
    method Take(id: string, ghost q: Queue) returns (ok: bool)
      requires Keyed() && q.items == items
      modifies this`items
      ensures Keyed() && ok == (id in old(items)) && items == old(items) - {id}
      ensures forall answer, origin :: TakeF(q, id, answer, origin).items == items
      ensures forall answer, origin :: TakeF(q, id, answer, origin).working
                                       == if ok then q.working + [Resolver(id, answer, origin, Sending)] else q.working
    {
      ok := id in items;
      if ok {
        items := items - {id};
      }
    }

    /** The locked half of release. */
    method Drop(id: string, ghost q: Queue)
      requires Keyed() && q.items == items
      modifies this`items
      ensures Keyed() && items == old(items) - {id} && items == StepF(q, Release(id)).items
    {
      items := items - {id};
    }

    /** The questions still waiting, oldest first. */
    method List() returns (out: array<Pending>)
      requires Keyed()
      ensures fresh(out) && multiset(out[..]) == multiset(items.Values) && out.Length == |items|
      ensures OldestFirst(out[..])
    {
      out := Collect(items);
      SortByRequest(out);
    }

    method Get(id: string) returns (p: Option<Pending>)
      ensures p == if id in items then Some(items[id]) else None
    {
      p := if id in items then Some(items[id]) else None;
    }
  }

  /** A question as it is parked: when it was asked, until when it waits, and what an
      answer has to show. */
  function Stamped(p: Pending, now: int, ttl: int, required: seq<string>): Pending {
    p.(requested := now, expires := now + ttl, required := required)
  }

  ghost predicate OldestFirst(s: seq<Pending>) {
    forall i, j :: 0 <= i < j < |s| ==> s[i].requested <= s[j].requested
  }

  /** Copies a map's questions out, in whatever order the map gives them. */
  method Collect(items: map<string, Pending>) returns (out: array<Pending>)
    requires forall id :: id in items ==> items[id].id == id
    ensures fresh(out) && multiset(out[..]) == multiset(items.Values) && out.Length == |items|
  {
    var got: seq<Pending> := [];
    var left := items;
    while left != map[]
      invariant forall id :: id in left ==> id in items && left[id] == items[id]
      invariant multiset(got) + multiset(left.Values) == multiset(items.Values)
      invariant |got| + |left| == |items|
      decreases |left|
    {
      var id :| id in left;
      PickQuestion(left, id);
      got := got + [left[id]];
      left := left - {id};
    }
    out := new Pending[|got|](i requires 0 <= i < |got| => got[i]);
    assert out[..] == got;
  }

  lemma PickQuestion(left: map<string, Pending>, id: string)
    requires id in left && forall k :: k in left ==> left[k].id == k
    ensures multiset(left.Values) == multiset((left - {id}).Values) + multiset{left[id]}
    ensures |left| == |left - {id}| + 1
  {
    var rest := left - {id};
    assert left.Keys == rest.Keys + {id};
    assert left.Values == rest.Values + {left[id]} by {
      forall p | p in left.Values ensures p in rest.Values + {left[id]} {
        var k :| k in left && left[k] == p;
        if k != id { assert k in rest && rest[k] == p; }
      }
    }
    assert left[id] !in rest.Values;
  }

  ghost predicate SortedBut(s: seq<Pending>, n: nat, j: nat) {
    forall p, q :: 0 <= p < q < n && q < |s| && q != j ==> s[p].requested <= s[q].requested
  }

  lemma SwapDown(s: seq<Pending>, t: seq<Pending>, n: nat, j: nat)
    requires 0 < j < n <= |s| && SortedBut(s, n, j) && s[j].requested < s[j - 1].requested
    requires t == s[j := s[j - 1]][j - 1 := s[j]]
    ensures SortedBut(t, n, j - 1) && multiset(t) == multiset(s)
  {
    forall p, q | 0 <= p < q < n && q < |t| && q != j - 1 ensures t[p].requested <= t[q].requested {
      if q == j {
        assert t[q] == s[j - 1];
        if p < j - 1 { assert s[p].requested <= s[j - 1].requested; }
      }
    }
  }

  /** An in-place insertion sort by the time of asking. */
  method SortByRequest(a: array<Pending>)
    modifies a
    ensures multiset(a[..]) == multiset(old(a[..])) && OldestFirst(a[..])
  {
    var i := 1;
    while i < a.Length
      invariant 1 <= i && (i <= a.Length || a.Length == 0)
      invariant multiset(a[..]) == multiset(old(a[..]))
      invariant SortedBut(a[..], i, i)
    {
      var j := i;
      while j > 0 && a[j].requested < a[j - 1].requested
        invariant 0 <= j <= i < a.Length
        invariant multiset(a[..]) == multiset(old(a[..]))
        invariant SortedBut(a[..], i + 1, j)
      {
        ghost var s := a[..];
        a[j], a[j - 1] := a[j - 1], a[j];
        assert a[..] == s[j := s[j - 1]][j - 1 := s[j]];
        SwapDown(s, a[..], i + 1, j);
        j := j - 1;
      }
      Settled(a[..], i + 1, j);
      i := i + 1;
    }
  }

  lemma Settled(s: seq<Pending>, n: nat, j: nat)
    requires j < n <= |s| && SortedBut(s, n, j)
    requires j == 0 || s[j - 1].requested <= s[j].requested
    ensures SortedBut(s, n, n)
  {
    forall p, q | 0 <= p < q < n && q < |s| ensures s[p].requested <= s[q].requested {
      if q == j && p < j - 1 { assert s[p].requested <= s[j - 1].requested; }
    }
  }

  // ---- Interleavings ----

  datatype Origin = Operator | Timer

  /** A Resolve that took its question goes on without the lock: send, then close. */
  datatype Stage = Sending | Closing | Finished

  datatype Resolver = Resolver(id: string, answer: Answer, origin: Origin, stage: Stage)

  /** The channel a caller blocks on: what was sent on it and how often it was closed. */
  datatype Channel = Channel(answers: seq<Answer>, closes: nat)

  /** `armed` timers have not fired; `fired` ones are on their way to Resolve. History:
      `released` are the questions a release found still waiting. */
  datatype Queue = Queue(
    items: map<string, Pending>,
    channels: map<string, Channel>,
    armed: set<string>,
    fired: multiset<string>,
    working: seq<Resolver>,
    released: set<string>)

  datatype Step =
    | Open(p: Pending)
    | Arm(id: string)
    | Resolve(id: string, answer: Answer)
    | Fire(id: string)
    | Expire(id: string)
    | Stop(id: string)
    | Release(id: string)
    | Advance(k: nat)

  function TakeF(q: Queue, id: string, answer: Answer, origin: Origin): Queue {
    if id in q.items then
      q.(items := q.items - {id}, working := q.working + [Resolver(id, answer, origin, Sending)])
    else q
  }

  function AdvanceF(q: Queue, k: nat): Queue {
    if k >= |q.working| || q.working[k].id !in q.channels then q
    else
      var r := q.working[k];
      var c := q.channels[r.id];
      match r.stage
      case Sending => q.(channels := q.channels[r.id := c.(answers := c.answers + [r.answer])],
                         working := q.working[k := r.(stage := Closing)])
      case Closing => q.(channels := q.channels[r.id := c.(closes := c.closes + 1)],
                         working := q.working[k := r.(stage := Finished)])
      case Finished => q
  }

  function StepF(q: Queue, s: Step): Queue {
    match s
    case Open(p) => q.(items := q.items[p.id := p], channels := q.channels[p.id := Channel([], 0)])
    case Arm(id) => q.(armed := q.armed + {id})
    case Resolve(id, answer) => TakeF(q, id, answer, Operator)
    case Fire(id) => if id in q.armed then q.(armed := q.armed - {id}, fired := q.fired + multiset{id}) else q
    case Expire(id) => if id in q.fired then TakeF(q.(fired := q.fired - multiset{id}), id, EXPIRED, Timer) else q
    case Stop(id) => q.(armed := q.armed - {id})
    case Release(id) => q.(items := q.items - {id}, released := if id in q.items then q.released + {id} else q.released)
    case Advance(k) => AdvanceF(q, k)
  }

  function RunQueue(steps: seq<Step>): Queue {
    if steps == [] then Queue(map[], map[], {}, multiset{}, [], {})
    else StepF(RunQueue(steps[..|steps| - 1]), steps[|steps| - 1])
  }

  /** No id is opened twice. */
  ghost predicate DistinctIds(steps: seq<Step>) {
    forall i, j :: 0 <= i < j < |steps| && steps[i].Open? && steps[j].Open? ==> steps[i].p.id != steps[j].p.id
  }

  ghost predicate Taken(q: Queue, id: string) {
    exists k :: 0 <= k < |q.working| && q.working[k].id == id
  }

  /** What one resolver has done to its channel so far. */
  ghost predicate Does(r: Resolver, c: Channel) {
    match r.stage
    case Sending => c == Channel([], 0)
    case Closing => c == Channel([r.answer], 0)
    case Finished => c == Channel([r.answer], 1)
  }

  /** Every question opened is waiting, taken by one resolver, or given up, and never
      two of these; only a resolver touches its channel. */
  ghost predicate Sound(q: Queue) {
    && (forall id :: id in q.items ==> id in q.channels && !Taken(q, id) && id !in q.released)
    && (forall id :: id in q.released ==> id in q.channels && !Taken(q, id))
    && (forall id :: id in q.channels && !Taken(q, id) ==>
          q.channels[id] == Channel([], 0) && (id in q.items || id in q.released))
    && (forall k, l :: 0 <= k < l < |q.working| ==> q.working[k].id != q.working[l].id)
    && (forall k :: 0 <= k < |q.working| ==>
          && q.working[k].id in q.channels && Does(q.working[k], q.channels[q.working[k].id])
          && (q.working[k].origin == Timer ==> q.working[k].answer == EXPIRED))
  }

  lemma TakeSound(q: Queue, id: string, answer: Answer, origin: Origin)
    requires Sound(q) && (origin == Timer ==> answer == EXPIRED)
    ensures Sound(TakeF(q, id, answer, origin))
  {
    if id in q.items {
      var t := TakeF(q, id, answer, origin);
      forall x ensures Taken(t, x) <==> Taken(q, x) || x == id {
        if Taken(q, x) {
          var k :| 0 <= k < |q.working| && q.working[k].id == x;
          assert t.working[k].id == x;
        }
        assert t.working[|q.working|].id == id;
      }
      forall k, l | 0 <= k < l < |t.working| ensures t.working[k].id != t.working[l].id {
        if l == |q.working| { assert Taken(q, t.working[k].id); }
      }
    }
  }

  lemma AdvanceTakes(q: Queue, k: nat)
    ensures |AdvanceF(q, k).working| == |q.working|
    ensures forall n :: 0 <= n < |q.working| ==>
              AdvanceF(q, k).working[n] == q.working[n].(stage := AdvanceF(q, k).working[n].stage)
    ensures forall x :: Taken(AdvanceF(q, k), x) <==> Taken(q, x)
  {
    var t := AdvanceF(q, k);
    forall x ensures Taken(t, x) <==> Taken(q, x) {
      if Taken(q, x) {
        var n :| 0 <= n < |q.working| && q.working[n].id == x;
        assert t.working[n].id == x;
      }
      if Taken(t, x) {
        var n :| 0 <= n < |t.working| && t.working[n].id == x;
        assert q.working[n].id == x;
      }
    }
  }

  lemma AdvanceSound(q: Queue, k: nat)
    requires Sound(q)
    ensures Sound(AdvanceF(q, k))
  {
    var t := AdvanceF(q, k);
    AdvanceTakes(q, k);
    if t != q {
      assert Taken(q, q.working[k].id);
      hide Taken;
      forall n | 0 <= n < |t.working| ensures Does(t.working[n], t.channels[t.working[n].id]) {
        assert Does(q.working[n], q.channels[q.working[n].id]);
      }
    }
  }

  lemma StepSound(q: Queue, s: Step)
    requires Sound(q) && (s.Open? ==> s.p.id !in q.channels)
    ensures Sound(StepF(q, s))
  {
    match s {
      case Open(p) =>
        var t := StepF(q, s);
        assert forall x :: Taken(t, x) <==> Taken(q, x);
        assert !Taken(q, p.id);
      case Arm(id) =>
        assert forall x :: Taken(StepF(q, s), x) <==> Taken(q, x);
      case Resolve(id, answer) => TakeSound(q, id, answer, Operator);
      case Fire(id) =>
        assert forall x :: Taken(StepF(q, s), x) <==> Taken(q, x);
      case Expire(id) =>
        var t := q.(fired := q.fired - multiset{id});
        assert forall x :: Taken(t, x) <==> Taken(q, x);
        TakeSound(t, id, EXPIRED, Timer);
      case Stop(id) =>
        assert forall x :: Taken(StepF(q, s), x) <==> Taken(q, x);
      case Release(id) =>
        assert forall x :: Taken(StepF(q, s), x) <==> Taken(q, x);
      case Advance(k) => AdvanceSound(q, k);
    }
  }

  lemma {:induction false} ChannelsAreOpened(steps: seq<Step>)
    ensures forall id :: id in RunQueue(steps).channels ==> exists i :: 0 <= i < |steps| && steps[i].Open? && steps[i].p.id == id
  {
    if steps != [] {
      var before := steps[..|steps| - 1];
      ChannelsAreOpened(before);
      forall id | id in RunQueue(steps).channels
        ensures exists i :: 0 <= i < |steps| && steps[i].Open? && steps[i].p.id == id
      {
        if id in RunQueue(before).channels {
          var i :| 0 <= i < |before| && before[i].Open? && before[i].p.id == id;
          assert steps[i] == before[i];
        } else {
          assert steps[|steps| - 1].Open?;
        }
      }
    }
  }

  lemma {:induction false} SoundInEveryRun(steps: seq<Step>)
    requires DistinctIds(steps)
    ensures Sound(RunQueue(steps))
  {
    if steps != [] {
      var before, last := steps[..|steps| - 1], steps[|steps| - 1];
      SoundInEveryRun(before);
      ChannelsAreOpened(before);
      if last.Open? {
        forall i | 0 <= i < |before| && before[i].Open? ensures before[i].p.id != last.p.id {
          assert steps[i] == before[i];
        }
      }
      StepSound(RunQueue(before), last);
    }
  }

  lemma {:induction false} OperatorsSpoke(steps: seq<Step>, k: nat)
    requires k < |RunQueue(steps).working| && RunQueue(steps).working[k].origin == Operator
    ensures Resolve(RunQueue(steps).working[k].id, RunQueue(steps).working[k].answer) in steps
  {
    if steps != [] {
      var before, last := steps[..|steps| - 1], steps[|steps| - 1];
      WorkingStep(RunQueue(before), last);
      hide StepF;
      if k < |RunQueue(before).working| {
        OperatorsSpoke(before, k);
      }
    }
  }

  /** A step leaves every resolver its question and answer, and adds at most its own. */
  lemma WorkingStep(q: Queue, s: Step)
    ensures var t := StepF(q, s);
            && |q.working| <= |t.working| <= |q.working| + 1
            && (forall k :: 0 <= k < |q.working| ==> t.working[k] == q.working[k].(stage := t.working[k].stage))
            && (|t.working| > |q.working| ==>
                  var r := t.working[|q.working|]; r.origin == Operator ==> s == Resolve(r.id, r.answer))
  {
    if s.Advance? { AdvanceTakes(q, s.k); }
  }

  /** Under every interleaving of answers, timers and releases, a question's channel
      carries at most one answer and is closed at most once, never before the answer
      was sent; and an answer that approves was given by an explicit resolve. */
  lemma OneAnswerEach(steps: seq<Step>, id: string)
    requires DistinctIds(steps) && id in RunQueue(steps).channels
    ensures var c := RunQueue(steps).channels[id];
            && |c.answers| <= 1 && c.closes <= |c.answers|
            && forall a :: a in c.answers && a.approve ==> Resolve(id, a) in steps
  {
    SoundInEveryRun(steps);
    var q := RunQueue(steps);
    if Taken(q, id) {
      var k :| 0 <= k < |q.working| && q.working[k].id == id;
      assert Does(q.working[k], q.channels[id]);
      if q.working[k].origin == Operator { OperatorsSpoke(steps, k); }
    }
  }

  lemma {:induction false} ReleasedStays(steps: seq<Step>, more: seq<Step>, id: string)
    requires id in RunQueue(steps).released && steps <= more
    ensures id in RunQueue(more).released
    decreases |more|
  {
    if |more| == |steps| {
      assert more == steps;
    } else {
      var before := more[..|more| - 1];
      StepKeepsReleased(RunQueue(before), more[|more| - 1]);
      hide StepF;
      ReleasedStays(steps, before, id);
    }
  }

  lemma StepKeepsReleased(q: Queue, s: Step)
    ensures q.released <= StepF(q, s).released
  {
  }

  /** A release that finds its question still waiting wins for good: nothing is ever
      delivered to it, whatever operators and timers do afterwards. */
  lemma ReleaseWins(steps: seq<Step>, id: string, more: seq<Step>)
    requires steps + [Release(id)] <= more && DistinctIds(more)
    requires id in RunQueue(steps).items
    ensures id in RunQueue(more).channels && RunQueue(more).channels[id] == Channel([], 0)
  {
    var upTo := steps + [Release(id)];
    assert upTo[..|upTo| - 1] == steps;
    ReleasedStays(upTo, more, id);
    SoundInEveryRun(more);
  }

  /** A question can only be taken while it waits: answering it twice, or after its
      timer or its caller was done with it, changes nothing. */
  lemma SecondResolveIsNoOp(steps: seq<Step>, id: string, answer: Answer)
    requires DistinctIds(steps) && id in RunQueue(steps).channels
    ensures StepF(RunQueue(steps), Resolve(id, answer)) == RunQueue(steps)
            <==> Taken(RunQueue(steps), id) || id in RunQueue(steps).released
  {
    SoundInEveryRun(steps);
    var q := RunQueue(steps);
    if id in q.items {
      assert |TakeF(q, id, answer, Operator).working| == |q.working| + 1;
    }
  }
}
