// The life of a gate: opened once, answered at most once, and each answer worth at
// most one delivery.

module Gates {
  import opened Options
  import opened Envelopes
  import opened BoundedFifo
  import opened Indexes
  import opened Policies
  import opened Wiring
  import opened Speculation
  import opened Kernel
  import opened Books
  import opened Frames

  function OpenedCount(gates: seq<GateEvent>): nat {
    if gates == [] then 0
    else OpenedCount(gates[..|gates| - 1]) + if gates[|gates| - 1].Opened? then 1 else 0
  }

  function ReleasedCount(gates: seq<GateEvent>): nat {
    if gates == [] then 0
    else ReleasedCount(gates[..|gates| - 1]) + if gates[|gates| - 1].Released? then 1 else 0
  }

  function RefusedCount(gates: seq<GateEvent>): nat {
    if gates == [] then 0
    else RefusedCount(gates[..|gates| - 1]) + if gates[|gates| - 1].Refused? then 1 else 0
  }

  /** No request is opened twice, and none is answered twice. */
  ghost predicate Once(gates: seq<GateEvent>) {
    forall k, l :: 0 <= k < l < |gates| && gates[k].Opened? == gates[l].Opened? ==> gates[k].req != gates[l].req
  }

  ghost predicate Answered(gates: seq<GateEvent>, req: Id) {
    exists k :: 0 <= k < |gates| && !gates[k].Opened? && gates[k].req == req
  }

  ghost predicate OpenedFor(gates: seq<GateEvent>, req: Id, held: Held) {
    exists k :: 0 <= k < |gates| && gates[k] == Opened(req, held)
  }

  /** What is pending is exactly what was opened and not yet answered. */
  ghost predicate PendingIsOpen(gates: seq<GateEvent>, pending: map<Id, Held>) {
    && (forall r :: r in pending ==> OpenedFor(gates, r, pending[r]) && !Answered(gates, r))
    && (forall k :: 0 <= k < |gates| && gates[k].Opened? && !Answered(gates, gates[k].req) ==> gates[k].req in pending)
    && (forall k :: 0 <= k < |gates| && !gates[k].Opened? ==> OpenedFor(gates, gates[k].req, gates[k].held))
  }

  ghost predicate EventsBelow(gates: seq<GateEvent>, mint: nat) {
    forall k :: 0 <= k < |gates| ==> Below(mint, gates[k].req)
  }

  ghost predicate Tally(gates: seq<GateEvent>, pending: map<Id, Held>) {
    OpenedCount(gates) == |pending| + ReleasedCount(gates) + RefusedCount(gates)
  }

  ghost predicate Linear(s: State) {
    && Once(s.gates)
    && PendingIsOpen(s.gates, s.pending)
    && EventsBelow(s.gates, s.mint)
    && Tally(s.gates, s.pending)
  }

  lemma OpenAdds(gates: seq<GateEvent>, e: GateEvent)
    requires e.Opened?
    ensures forall r :: Answered(gates + [e], r) <==> Answered(gates, r)
    ensures forall r, h :: OpenedFor(gates + [e], r, h) <==> OpenedFor(gates, r, h) || e == Opened(r, h)
  {
    var more := gates + [e];
    forall r ensures Answered(more, r) <==> Answered(gates, r) {
      if Answered(gates, r) {
        var k :| 0 <= k < |gates| && !gates[k].Opened? && gates[k].req == r;
        assert more[k] == gates[k];
      }
    }
    forall r, h ensures OpenedFor(more, r, h) <==> OpenedFor(gates, r, h) || e == Opened(r, h) {
      if OpenedFor(gates, r, h) {
        var k :| 0 <= k < |gates| && gates[k] == Opened(r, h);
        assert more[k] == gates[k];
      }
      assert more[|gates|] == e;
    }
  }

  lemma OpenPending(gates: seq<GateEvent>, pending: map<Id, Held>, req: Id, held: Held)
    requires PendingIsOpen(gates, pending) && !Answered(gates, req) && req !in pending
    ensures PendingIsOpen(gates + [Opened(req, held)], pending[req := held])
  {
    var e := Opened(req, held);
    OpenAdds(gates, e);
    hide Answered, OpenedFor;
    var more, now := gates + [e], pending[req := held];
    forall k | 0 <= k < |more| && more[k].Opened? && !Answered(more, more[k].req) ensures more[k].req in now {
      if k < |gates| { assert more[k] == gates[k]; }
    }
    forall k | 0 <= k < |more| && !more[k].Opened? ensures OpenedFor(more, more[k].req, more[k].held) {
      assert more[k] == gates[k];
    }
  }

  lemma OpenOnce(gates: seq<GateEvent>, mint: nat, held: Held)
    requires Once(gates) && EventsBelow(gates, mint)
    ensures Once(gates + [Opened(Minted(mint), held)]) && EventsBelow(gates + [Opened(Minted(mint), held)], mint + 1)
  {
    var more := gates + [Opened(Minted(mint), held)];
    forall k, l | 0 <= k < l < |more| && more[k].Opened? == more[l].Opened? ensures more[k].req != more[l].req {
      assert more[k] == gates[k];
      if l < |gates| { assert more[l] == gates[l]; }
    }
  }

  lemma OpenLinear(s: State, held: Held, t: State)
    requires Linear(s) && t.mint == s.mint + 1
    requires t.gates == s.gates + [Opened(Minted(s.mint), held)]
    requires t.pending == s.pending[Minted(s.mint) := held]
    ensures Linear(t)
  {
    var req := Minted(s.mint);
    forall r | r in s.pending ensures r != req {
      assert OpenedFor(s.gates, r, s.pending[r]);
    }
    assert !Answered(s.gates, req);
    OpenOnce(s.gates, s.mint, held);
    OpenPending(s.gates, s.pending, req, held);
    assert t.gates[..|t.gates| - 1] == s.gates;
    hide Once, PendingIsOpen, EventsBelow;
  }

  /** One more answer: it answers its own request, and every other fact stands. */
  lemma AnswerAdds(gates: seq<GateEvent>, e: GateEvent)
    requires !e.Opened?
    ensures forall r :: Answered(gates + [e], r) <==> Answered(gates, r) || r == e.req
    ensures forall r, h :: OpenedFor(gates + [e], r, h) <==> OpenedFor(gates, r, h)
  {
    var more := gates + [e];
    forall r ensures Answered(more, r) <==> Answered(gates, r) || r == e.req {
      if Answered(gates, r) {
        var k :| 0 <= k < |gates| && !gates[k].Opened? && gates[k].req == r;
        assert more[k] == gates[k];
      }
      assert more[|gates|] == e;
    }
    forall r, h ensures OpenedFor(more, r, h) <==> OpenedFor(gates, r, h) {
      if OpenedFor(gates, r, h) {
        var k :| 0 <= k < |gates| && gates[k] == Opened(r, h);
        assert more[k] == gates[k];
      }
    }
  }

  lemma AnswerOnce(gates: seq<GateEvent>, e: GateEvent)
    requires Once(gates) && !e.Opened? && !Answered(gates, e.req)
    ensures Once(gates + [e])
  {
    var more := gates + [e];
    forall k, l | 0 <= k < l < |more| && more[k].Opened? == more[l].Opened? ensures more[k].req != more[l].req {
      assert more[k] == gates[k];
    }
  }

  lemma AnswerLinear(s: State, e: GateEvent, t: State)
    requires Linear(s) && t.mint >= s.mint
    requires !e.Opened? && e.req in s.pending && e.held == s.pending[e.req]
    requires t.gates == s.gates + [e] && t.pending == s.pending - {e.req}
    ensures Linear(t)
  {
    AnswerAdds(s.gates, e);
    AnswerOnce(s.gates, e);
    assert OpenedFor(s.gates, e.req, e.held);
    assert Below(s.mint, e.req);
    assert EventsBelow(t.gates, t.mint);
    assert t.gates[..|t.gates| - 1] == s.gates;
    assert |t.pending| == |s.pending| - 1;
    assert Tally(t.gates, t.pending);
    AnswerPending(s.gates, s.pending, e);
  }

  lemma AnswerPending(gates: seq<GateEvent>, pending: map<Id, Held>, e: GateEvent)
    requires PendingIsOpen(gates, pending)
    requires !e.Opened? && e.req in pending && e.held == pending[e.req]
    ensures PendingIsOpen(gates + [e], pending - {e.req})
  {
    AnswerAdds(gates, e);
    hide Answered, OpenedFor;
    var more, left := gates + [e], pending - {e.req};
    forall k | 0 <= k < |more| && more[k].Opened? && !Answered(more, more[k].req) ensures more[k].req in left {
      assert more[k] == gates[k];
    }
    forall k | 0 <= k < |more| && !more[k].Opened? ensures OpenedFor(more, more[k].req, more[k].held) {
      if k < |gates| { assert more[k] == gates[k]; }
    }
  }

  lemma SameGates(s: State, t: State)
    requires Linear(s) && t.mint >= s.mint && t.gates == s.gates && t.pending == s.pending
    ensures Linear(t)
  {
  }

  lemma ToDestsLinear(c: Config, w: World, s: State, env: Envelope, dests: seq<Dest>, root: Id)
    requires Linear(s)
    ensures Linear(ToDestsF(c, w, s, env, dests, root))
  {
    hide ForwardF, ForwardSpeculativelyF, Linear;
    if dests != [] {
      var before, d := dests[..|dests| - 1], dests[|dests| - 1];
      ToDestsLinear(c, w, s, env, before, root);
      var s1 := ToDestsF(c, w, s, env, before, root);
      ForwardFrame(c, w, s1, env, d, NoId);
      SpeculativeFrame(c, w, s1, env, d, root);
      var t := ToDestF(c, w, s1, env, d, root);
      if !d.speculative && d.gate == HumanApproval {
        OpenLinear(s1, Held(env, d), t);
      } else {
        SameGates(s1, t);
      }
    }
  }

  lemma ResolveLinear(c: Config, w: World, s: State, answer: Envelope)
    requires Linear(s)
    ensures Linear(ResolveGateF(c, w, s, answer))
  {
    hide ForwardF, AuthorizeGate, Linear;
    if answer.cause in s.pending {
      var held := s.pending[answer.cause];
      var t := ResolveGateF(c, w, s, answer);
      var s1 := s.(pending := s.pending - {answer.cause}, log := s.log + [answer]);
      match AuthorizeGate(c, w.roster, held, answer.payload) {
        case Rejected => AnswerLinear(s, Refused(answer.cause, held, answer), t);
        case Denies(a) => AnswerLinear(s, Refused(answer.cause, held, answer), t);
        case Approves(a) =>
          var parked := if a.Some? then s1.(approved := s1.approved[held.env.id := a.value]) else s1;
          var e := Released(answer.cause, held, answer, a, w.roster);
          ForwardFrame(c, w, parked.(gates := s1.gates + [e]), held.env, held.to, answer.cause);
          AnswerLinear(s, e, t);
      }
    }
  }

  lemma RouteLinear(c: Config, w: World, s: State, env: Envelope)
    requires Linear(s)
    ensures Linear(RouteF(c, w, s, env))
  {
    hide ToDestsF, ResolveGateF, Duplicate, CancelTarget, AttestF, SeenF, Linear;
    var logged := s.(log := s.log + [env]);
    SameGates(s, logged);
    if env.kind == Cancel {
      SameGates(s, HandleCancelF(logged, env));
    } else if !Duplicate(s, env) {
      var seen := if env.kind == Data then logged.(dedup := SeenF(s.dedup, env.idem)) else logged;
      SameGates(s, seen);
      ResolveLinear(c, w, seen, env);
      var noted := seen.(attests := if env.attest == "" then seen.attests
                                    else AttestF(seen.attests, MAX_ATTEST_PER_ROOT, RootOf(seen, env), w.attest(env.attest)));
      SameGates(s, noted);
      ToDestsLinear(c, w, noted, env, DestsAt(c.routes, Source(env)), RootOf(seen, env));
    }
  }
}
