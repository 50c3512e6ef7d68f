// What still goes out for a cancelled chain: the gates that waited when it was
// cancelled, once they are approved.

module LateGates {
  import opened Options
  import opened Envelopes
  import opened BoundedFifo
  import opened Indexes
  import opened Policies
  import opened RateLimits
  import opened Wiring
  import opened Budgets
  import opened Speculation
  import opened Kernel
  import opened Frames
  import opened Books
  import opened Chains
  import opened Gates
  import opened Resumes
  import opened Restarts
  import opened Cancels
  import opened Sends
  import opened Streams
  import opened PlainSteps

  // ---- When a forward sends ----

  /** Neither the rate limiter nor the context budget refuses the delivery, nor policy for
      want of a seal, and it is not too late. */
  ghost predicate Goes(c: Config, w: World, s: State, src: Envelope, d: Dest) {
    var out := Outgoing(w, s, src, d);
    && !RateRefused(c, w, s, src, d) && !ContextF(c, s, out).1
    && !(c.hasLedger && IsEffectDelivery(d, out.kind) && !w.seal(s.mint) && c.pol.refuseOnSealFailure)
    && !Dropped(w, out)
  }

  ghost predicate SendsOne(s: State, t: State) {
    exists k :: |s.sent| <= k < |t.sent| && Numbered(t.sent[k])
  }

  lemma DeliverSendsIff(c: Config, w: World, s: State, src: Envelope, out: Envelope, d: Dest, via: Id)
    requires out.id.Minted? && out.seqNo > 0
    ensures SendsOne(s, DeliverF(c, w, s, src, out, d, via)) <==> !Dropped(w, out)
  {
    hide Loggable, Dropped;
    if !Dropped(w, out) {
      var t := DeliverF(c, w, s, src, out, d, via);
      assert t.sent[|s.sent|] == Send(out, d, via, |s.log|);
    }
  }

  lemma CheckpointSendsIff(c: Config, w: World, s: State, src: Envelope, out: Envelope, d: Dest, root: Id, via: Id)
    requires out.id.Minted? && out.seqNo > 0
    ensures SendsOne(s, CheckpointF(c, w, s, src, out, d, root, via))
            <==> !(c.hasLedger && IsEffectDelivery(d, out.kind) && !w.seal(out.id.n) && c.pol.refuseOnSealFailure) && !Dropped(w, out)
  {
    hide DeliverF, DeliveredEntry, EmitErrorF;
    DeliverSendsIff(c, w, s, src, out, d, via);
    if c.hasLedger && IsEffectDelivery(d, out.kind) {
      var taken := s.(approved := s.approved - {out.cause});
      ErrorNotices(taken, src.id, via);
      DeliverSendsIff(c, w, taken, src, out, d, via);
      DeliverSendsIff(c, w, taken.(ledger := s.ledger + [DeliveredEntry(c, s, out, d, root, via)]),
                      src, out.(receipt := Some(|s.ledger|)), d, via);
    }
  }

  lemma ForwardSendsIff(c: Config, w: World, s: State, src: Envelope, d: Dest, via: Id)
    ensures SendsOne(s, ForwardF(c, w, s, src, d, via)) <==> Goes(c, w, s, src, d)
  {
    hide CheckpointF, EmitErrorF, Dropped;
    ErrorNotices(s, src.id, via);
    if !RateRefused(c, w, s, src, d) {
      var out := Outgoing(w, s, src, d);
      var (consumed, over) := ContextF(c, s, out);
      var s1 := s.(mint := s.mint + 1, seqNo := s.seqNo[Source(out) := out.seqNo], consumed := consumed);
      ErrorNotices(s1, src.id, via);
      CheckpointSendsIff(c, w, TrackF(s1, src, out), src, out, d, RootOf(s1, src), via);
    }
  }

  // ---- What an answer sends ----

  /** The answer opens a gate that waits and its delivery goes out. */
  ghost predicate Frees(c: Config, w: World, s: State, answer: Envelope) {
    && answer.kind == ConfirmResponse && answer.cause in s.pending
    && AuthorizeGate(c, w.roster, s.pending[answer.cause], answer.payload).Approves?
    && Goes(c, w, s, s.pending[answer.cause].env, s.pending[answer.cause].to)
  }

  lemma DenyNotices(c: Config, w: World, s: State, req: Id, held: Held, answer: Envelope, a: Option<Approval>)
    ensures OnlyNotices(s, DenyF(c, w, s, req, held, answer, a))
  {
  }

  lemma SameGoes(c: Config, w: World, s: State, t: State, src: Envelope, d: Dest)
    requires t.mint == s.mint && t.consumed == s.consumed && t.seqNo == s.seqNo
    ensures Goes(c, w, t, src, d) <==> Goes(c, w, s, src, d)
  {
  }

  /** An answer sends a delivery exactly when it frees one, and then what was held: no
      chain's having been cancelled plays a part in it. */
  lemma AnswerSendsIff(c: Config, w: World, s: State, answer: Envelope)
    requires answer.kind == ConfirmResponse
    ensures var t := RouteF(c, w, s, answer);
            && (SendsOne(s, t) <==> Frees(c, w, s, answer))
            && s.sent <= t.sent
            && (answer.cause in s.pending ==>
                  forall k :: |s.sent| <= k < |t.sent| && Numbered(t.sent[k]) ==>
                    Conveys(t.sent[k], s.pending[answer.cause].env, s.pending[answer.cause].to, answer.cause))
  {
    hide ForwardF, DenyF, AuthorizeGate, Goes, Conveys, Numbered;
    if answer.cause in s.pending {
      var held := s.pending[answer.cause];
      var s1 := s.(pending := s.pending - {answer.cause}, log := s.log + [answer] + [answer]);
      match AuthorizeGate(c, w.roster, held, answer.payload) {
        case Rejected => DenyNotices(c, w, s1, answer.cause, held, answer, None);
        case Denies(a) => DenyNotices(c, w, s1, answer.cause, held, answer, a);
        case Approves(a) =>
          var parked := if a.Some? then s1.(approved := s1.approved[held.env.id := a.value]) else s1;
          var s2 := parked.(gates := s1.gates + [Released(answer.cause, held, answer, a, w.roster)]);
          ForwardSendsIff(c, w, s2, held.env, held.to, answer.cause);
          ForwardHandsOn(c, w, s2, held.env, held.to, answer.cause);
          SameGoes(c, w, s, s2, held.env, held.to);
          assert RouteF(c, w, s, answer) == ForwardF(c, w, s2, held.env, held.to, answer.cause);
      }
    }
  }

  // ---- What still goes out for a cancelled chain ----

  /** A delivery made from `s` to `t` belongs to R's chain. */
  ghost predicate SendsFor(s: State, t: State, R: Id) {
    exists k :: |s.sent| <= k < |t.sent| && Numbered(t.sent[k]) && ChainRoot(t.log, t.sent[k].env) == R
  }

  lemma HeldChain(s: State, t: State, k: nat, held: Held, via: Id)
    requires Traced(s) && Traced(t) && s.log <= t.log && s.cancelIds == t.cancelIds && Arrived(s.log, held.env)
    requires k < |t.sent| && Conveys(t.sent[k], held.env, held.to, via)
    ensures ChainRoot(t.log, t.sent[k].env) == ChainRoot(s.log, held.env)
  {
    hide ChainRoot;
    assert SendOk(t.log, t.mint, t.sent[k]);
    ArrivedStays(s.log, t.log, held.env);
    ArrivedChain(s, t, held.env);
    OutgoingChain(t, held.env, t.sent[k].env);
  }

  /** Once R's chain is cancelled, one more arrival sends a delivery for it exactly when
      it approves a gate that waits with something of the chain's. */
  lemma LateSendIff(c: Config, w: World, s: State, env: Envelope, R: Id)
    requires Traced(s) && HoldsArrived(s.log, s.pending) && Linear(s) && Honest(s, env) && DistinctEdges(c)
    requires Roomy(s) && R != NoId && R in s.cancelled.m
    ensures SendsFor(s, RouteF(c, w, s, env), R)
            <==> Frees(c, w, s, env) && ChainRoot(s.log, s.pending[env.cause].env) == R
  {
    hide RouteF, Frees, Honest, Linear, Conveys, Numbered, ChainRoot, DistinctEdges;
    var t := RouteF(c, w, s, env);
    RouteTraced(c, w, s, env);
    if env.kind == ConfirmResponse {
      AnswerSendsIff(c, w, s, env);
      AnswerIds(c, w, s, env);
      FreesWhat(c, w, s, env);
      hide Traced;
      if env.cause in s.pending {
        forall k | |s.sent| <= k < |t.sent| && Numbered(t.sent[k])
          ensures ChainRoot(t.log, t.sent[k].env) == ChainRoot(s.log, s.pending[env.cause].env)
        {
          HeldChain(s, t, k, s.pending[env.cause], env.cause);
        }
      }
    } else {
      RouteSilent(c, w, s, env, R);
      QuietSends(c, w, s, env);
      FreesNot(c, w, s, env);
    }
  }

  lemma AnswerIds(c: Config, w: World, s: State, answer: Envelope)
    requires answer.kind == ConfirmResponse
    ensures RouteF(c, w, s, answer).cancelIds == s.cancelIds
  {
    hide ResolveGateF;
    ResolveVia(c, w, s.(log := s.log + [answer]), answer);
  }

  lemma FreesWhat(c: Config, w: World, s: State, env: Envelope)
    ensures Frees(c, w, s, env) ==> env.cause in s.pending
  {
  }

  lemma FreesNot(c: Config, w: World, s: State, env: Envelope)
    requires env.kind != ConfirmResponse
    ensures !Frees(c, w, s, env)
  {
  }

  /** What an arrival that is no answer sends names no gate, and is no cancel. */
  lemma QuietSends(c: Config, w: World, s: State, env: Envelope)
    requires env.kind != ConfirmResponse && DistinctEdges(c)
    ensures var t := RouteF(c, w, s, env);
            s.sent <= t.sent && forall k :: |s.sent| <= k < |t.sent| && Numbered(t.sent[k]) ==>
                                          t.sent[k].via == NoId && t.sent[k].env.kind != Cancel
  {
    hide RouteF, HandedAt, Numbered;
    RouteSends(c, w, s, env);
    var t, dests := RouteF(c, w, s, env), DestsAt(c.routes, Source(env));
    if Routed(s, env) {
      forall k | |s.sent| <= k < |t.sent| && Numbered(t.sent[k]) ensures t.sent[k].via == NoId && t.sent[k].env.kind == env.kind {
        var i: nat :| SentTo(s.spec, env, dests, i, RootOf(s, env), t.sent[k]);
      }
    }
  }

  // ---- Which gates those are ----

  /** Gates are opened only on what was just taken in. */
  lemma {:induction false} ToDestsHeld(c: Config, w: World, s: State, env: Envelope, dests: seq<Dest>, root: Id)
    ensures var t := ToDestsF(c, w, s, env, dests, root);
            forall r :: r in t.pending ==> (r in s.pending && t.pending[r] == s.pending[r]) || t.pending[r].env == env
  {
    hide ForwardF, ForwardSpeculativelyF;
    if dests != [] {
      var before, d := dests[..|dests| - 1], dests[|dests| - 1];
      ToDestsHeld(c, w, s, env, before, root);
      var s1 := ToDestsF(c, w, s, env, before, root);
      ForwardFrame(c, w, s1, env, d, NoId);
      SpeculativeFrame(c, w, s1, env, d, root);
    }
  }

  /** A gate that waits with something of a cancelled chain waited before this arrival. */
  lemma OlderGate(c: Config, w: World, s: State, env: Envelope, R: Id, req: Id)
    requires Traced(s) && HoldsArrived(s.log, s.pending) && Honest(s, env)
    requires Roomy(s) && R != NoId && R in s.cancelled.m
    requires var t := RouteF(c, w, s, env); req in t.pending && ChainRoot(t.log, t.pending[req].env) == R
    ensures var t := RouteF(c, w, s, env);
            req in s.pending && s.pending[req] == t.pending[req] && ChainRoot(s.log, s.pending[req].env) == R
  {
    hide PropagateF, ResolveGateF, SeenF, ChainRoot, Traced, Honest, HoldsArrived;
    var logged, t := s.(log := s.log + [env]), RouteF(c, w, s, env);
    RouteTraced(c, w, s, env);
    EnvLogged(s, env, logged);
    if req in s.pending && s.pending[req] == t.pending[req] {
      OldChain(c, w, s, env, req);
    } else {
      HandleCancelFrame(logged, env);
      var seen := if env.kind == Data then logged.(dedup := SeenF(s.dedup, env.idem)) else logged;
      TracedSame(logged, seen);
      ResolvePending(c, w, seen, env);
      assert env.kind != Cancel && env.kind != ConfirmResponse && !Duplicate(s, env);
      RouteDedup(c, w, s, env);
      assert t == PropagateF(c, w, seen, env);
      NewGate(c, w, seen, env, R, req);
    }
  }

  lemma ResolvePending(c: Config, w: World, s: State, answer: Envelope)
    ensures ResolveGateF(c, w, s, answer).pending == s.pending - {answer.cause}
  {
    hide ForwardF, AuthorizeGate;
    if answer.cause in s.pending {
      var held := s.pending[answer.cause];
      var s1 := s.(pending := s.pending - {answer.cause}, log := s.log + [answer]);
      match AuthorizeGate(c, w.roster, held, answer.payload) {
        case Rejected =>
        case Denies(a) =>
        case Approves(a) =>
          var parked := if a.Some? then s1.(approved := s1.approved[held.env.id := a.value]) else s1;
          ForwardFrame(c, w, parked.(gates := s1.gates + [Released(answer.cause, held, answer, a, w.roster)]),
                       held.env, held.to, answer.cause);
      }
    }
  }

  lemma OldChain(c: Config, w: World, s: State, env: Envelope, req: Id)
    requires Traced(s) && Traced(RouteF(c, w, s, env)) && s.log <= RouteF(c, w, s, env).log
    requires HoldsArrived(s.log, s.pending) && req in s.pending && Honest(s, env)
    ensures ChainRoot(RouteF(c, w, s, env).log, s.pending[req].env) == ChainRoot(s.log, s.pending[req].env)
  {
    hide RouteF, ChainRoot, Honest;
    var held := s.pending[req].env;
    assert Arrived(s.log, held);
    var k :| 0 <= k < |s.log| && SameHeader(s.log[k], held);
    SettledChain(s, RouteF(c, w, s, env), k);
    SameChain(s.log, s.log[k], held);
    SameChain(RouteF(c, w, s, env).log, s.log[k], held);
  }

  /** The chain of what arrived does not change, whatever is written or drawn later. */
  lemma SettledChain(s: State, t: State, k: nat)
    requires Traced(s) && Traced(t) && s.log <= t.log && k < |s.log| && s.log[k].id.External?
    ensures ChainRoot(t.log, s.log[k]) == ChainRoot(s.log, s.log[k])
  {
    hide ChainRoot;
    var e := s.log[k];
    assert Cites(s.log, s.cancelIds, k, e) && Cites(t.log, t.cancelIds, k, t.log[k]);
    CitedStable(s.log, s.cancelIds, k, e);
    CitedStable(t.log, t.cancelIds, k, e);
    assert t.log[..k] == s.log[..k];
  }

  lemma NewGate(c: Config, w: World, s: State, env: Envelope, R: Id, req: Id)
    requires Traced(s) && Arrived(s.log, env) && Roomy(s) && R != NoId && R in s.cancelled.m && Traced(PropagateF(c, w, s, env))
    requires s.log <= PropagateF(c, w, s, env).log
    requires var t := PropagateF(c, w, s, env);
             req in t.pending && !(req in s.pending && s.pending[req] == t.pending[req])
    ensures ChainRoot(PropagateF(c, w, s, env).log, PropagateF(c, w, s, env).pending[req].env) != R
  {
    hide ToDestsF, AttestF, Traced, Arrived, ChainRoot;
    var root, t := RootOf(s, env), PropagateF(c, w, s, env);
    RootIsTrue(s, env);
    if !CancelledF(s.cancelled, root) {
      var noted := s.(attests := if env.attest == "" then s.attests
                                 else AttestF(s.attests, MAX_ATTEST_PER_ROOT, root, w.attest(env.attest)));
      ToDestsHeld(c, w, noted, env, DestsAt(c.routes, Source(env)), root);
      ToDestsIds(c, w, noted, env, DestsAt(c.routes, Source(env)), root);
      ArrivedChain(s, t, env);
    }
  }

  /** Over the rest of the run, crashes included, a gate that waits with something of the
      cancelled chain waited already when the cancel came. */
  lemma {:induction false} LateGatesAreOld(c: Config, inputs: seq<Input>, n: nat, R: Id, req: Id)
    requires HonestRun(c, inputs) && RoomyRun(c, inputs) && DistinctEdges(c)
    requires n < |inputs| && inputs[n].Arrive?
    requires Names(Run(c, inputs[..n]).log + [inputs[n].env], |Run(c, inputs[..n]).log|, R)
    requires var s := Run(c, inputs); req in s.pending && ChainRoot(s.log, s.pending[req].env) == R
    ensures var earlier, s := Run(c, inputs[..n]), Run(c, inputs);
            req in earlier.pending && earlier.pending[req] == s.pending[req]
    decreases |inputs|
  {
    hide Run, Traced, Honest, Replay, RouteF, ResumeF, Linear, Restorable, HoldsArrived, ChainRoot, RoomyRun, WindowLogged, Valid;
    var before, last := inputs[..|inputs| - 1], inputs[|inputs| - 1];
    UpheldInEveryRun(c, before);
    LastStep(c, inputs);
    RoomyAt(c, inputs);
    var s := Run(c, before);
    if n == |inputs| - 1 {
      assert inputs[..n] == before;
      hide Names;
      CancelKeepsPending(c, last.w, s, last.env, R);
    } else {
      assert before[..n] == inputs[..n];
      CancelReachesTheChain(c, before, n, R);
      NamedRoot(c, before, n, R);
      hide Names;
      match last {
        case Arrive(env, w) =>
          OlderGate(c, w, s, env, R, req);
        case Crash =>
          ResumeKeeps(c, s);
          SameLogAfter(c, s);
      }
      LateGatesAreOld(c, before, n, R, req);
    }
  }

  lemma NamedRoot(c: Config, inputs: seq<Input>, n: nat, R: Id)
    requires n < |inputs| && inputs[n].Arrive?
    requires Names(Run(c, inputs[..n]).log + [inputs[n].env], |Run(c, inputs[..n]).log|, R)
    ensures R != NoId
  {
  }

  lemma LastStep(c: Config, inputs: seq<Input>)
    requires inputs != [] && HonestRun(c, inputs)
    ensures var before, last := inputs[..|inputs| - 1], inputs[|inputs| - 1];
            && Run(c, inputs) == Step(c, Run(c, before), last) && HonestRun(c, before)
            && if last.Arrive? then Honest(Run(c, before), last.env) else |Run(c, before).log| <= RESUME_LIMIT
  {
  }

  lemma RoomyAt(c: Config, inputs: seq<Input>)
    requires inputs != [] && RoomyRun(c, inputs)
    ensures RoomyRun(c, inputs[..|inputs| - 1]) && Roomy(Run(c, inputs[..|inputs| - 1]))
  {
  }

  lemma SameLogAfter(c: Config, s: State)
    ensures ResumeF(c, s).log == s.log
  {
  }

  lemma CancelKeepsPending(c: Config, w: World, s: State, env: Envelope, R: Id)
    requires Names(s.log + [env], |s.log|, R)
    ensures RouteF(c, w, s, env).pending == s.pending
  {
    HandleCancelFrame(s.(log := s.log + [env]), env);
  }

  /** After a cancel that names R, or work of its chain, for the rest of the run and
      whatever crashes: an arrival sends a delivery for the chain exactly when it
      approves a gate that waited already when the cancel came and waits still, and
      nothing but the cancel stands in the delivery's way. */
  lemma OnlyOldGatesRelease(c: Config, inputs: seq<Input>, n: nat, R: Id, env: Envelope, w: World)
    requires HonestRun(c, inputs) && RoomyRun(c, inputs) && DistinctEdges(c)
    requires n < |inputs| && inputs[n].Arrive?
    requires Names(Run(c, inputs[..n]).log + [inputs[n].env], |Run(c, inputs[..n]).log|, R)
    requires Honest(Run(c, inputs), env)
    ensures var earlier, s := Run(c, inputs[..n]), Run(c, inputs);
            SendsFor(s, RouteF(c, w, s, env), R)
            <==> && Frees(c, w, s, env) && ChainRoot(s.log, s.pending[env.cause].env) == R
                 && env.cause in earlier.pending && earlier.pending[env.cause] == s.pending[env.cause]
  {
    hide Run, Traced, Honest, Replay, RouteF, Linear, Restorable, HoldsArrived, ChainRoot, WindowLogged, Valid, HonestRun;
    UpheldInEveryRun(c, inputs);
    CancelReachesTheChain(c, inputs, n, R);
    NamedRoot(c, inputs, n, R);
    hide Names;
    var s := Run(c, inputs);
    LateSendIff(c, w, s, env, R);
    FreesWhat(c, w, s, env);
    hide Frees, SendsFor;
    if Frees(c, w, s, env) && ChainRoot(s.log, s.pending[env.cause].env) == R {
      LateGatesAreOld(c, inputs, n, R, env.cause);
    }
  }

  // ---- A run in which it happens ----

  /** A client's message that waits for a human, a cancel that names it, a human's yes. */
  ghost predicate Overtaken(c: Config, env: Envelope, d: Dest, x: Envelope, yes: Envelope) {
    && ClientSent(env) && env.kind == Data && env.attest == "" && env.deadline == 0
    && DestsAt(c.routes, Source(env)) == [d] && d.gate == HumanApproval && !d.speculative && PlainEdge(c, d)
    && ClientSent(x) && x.id != env.id && x.kind == Cancel && x.cause == env.id
    && ClientSent(yes) && yes.id != env.id && yes.id != x.id && yes.kind == ConfirmResponse && yes.cause == Minted(0)
    && yes.payload == Answer(true, None) && !SignedRequired(c.pol)
  }

  lemma WaitingAndCancelled(c: Config, w: World, env: Envelope, d: Dest, x: Envelope, yes: Envelope)
    requires Overtaken(c, env, d, x, yes)
    ensures var s := Run(c, [Arrive(env, w), Arrive(x, w)]);
            && HonestRun(c, [Arrive(env, w), Arrive(x, w)]) && Honest(s, yes) && Unforged(yes)
            && s.log == [env, RequestEnvelope(Minted(0), env, d), x] && s.pending == map[Minted(0) := Held(env, d)]
            && CancelledF(s.cancelled, env.id) && Roomy(s)
  {
    hide Run, HonestRun, RouteF;
    var one := [Arrive(env, w)];
    WaitingFirst(c, w, env, d, x, yes);
    var s := Run(c, one);
    RunOne(c, one, Arrive(x, w));
    HonestOne(c, one, Arrive(x, w));
    assert one + [Arrive(x, w)] == [Arrive(env, w), Arrive(x, w)];
    CancelWaiting(c, w, s, env, d, x);
    assert s.log + [x] == [env, RequestEnvelope(Minted(0), env, d), x];
  }

  lemma WaitingFirst(c: Config, w: World, env: Envelope, d: Dest, x: Envelope, yes: Envelope)
    requires Overtaken(c, env, d, x, yes)
    ensures var s := Run(c, [Arrive(env, w)]);
            && HonestRun(c, [Arrive(env, w)]) && Honest(s, x)
            && s.log == [env, RequestEnvelope(Minted(0), env, d)] && s.pending == map[Minted(0) := Held(env, d)]
            && s.causal == Empty(MAX_CAUSAL_ROOTS) && s.cancelled == Empty(MAX_CANCELLED)
  {
    var s0, one := Start(), [Arrive(env, w)];
    RunOne(c, [], Arrive(env, w));
    HonestOne(c, [], Arrive(env, w));
    assert [] + one == one;
    PlainRoute(c, w, s0, env);
    hide Run, HonestRun, RouteF, ToDestsF;
    OneDest(c, w, Taken(s0, env), env, d, env.id);
    assert Run(c, one) == HoldF(Taken(s0, env), env, d);
    assert Run(c, one).log == [env, RequestEnvelope(Minted(0), env, d)];
  }

  lemma CancelWaiting(c: Config, w: World, s: State, env: Envelope, d: Dest, x: Envelope)
    requires s.causal == Empty(MAX_CAUSAL_ROOTS) && s.cancelled == Empty(MAX_CANCELLED)
    requires x.kind == Cancel && x.cause == env.id && env.id.External?
    ensures var t := RouteF(c, w, s, x);
            t.log == s.log + [x] && t.pending == s.pending && CancelledF(t.cancelled, env.id) && Roomy(t)
  {
    assert |[] + [env.id]| == 1;
  }

  /** The client cancels a message whose delivery waits for a human; the human approves;
      the delivery of the cancelled chain goes out. */
  lemma ApprovedAfterTheCancel(c: Config, w: World, env: Envelope, d: Dest, x: Envelope, yes: Envelope)
    requires Overtaken(c, env, d, x, yes) && PlainSteps.Carries(w) && DistinctEdges(c)
    ensures var before := [Arrive(env, w), Arrive(x, w)];
            var s, t := Run(c, before), Run(c, before + [Arrive(yes, w)]);
            && HonestRun(c, before + [Arrive(yes, w)]) && CancelledF(s.cancelled, env.id) && SendsFor(s, t, env.id)
  {
    hide Run, HonestRun, RouteF, DistinctEdges, PlainEdge;
    var before := [Arrive(env, w), Arrive(x, w)];
    WaitingAndCancelled(c, w, env, d, x, yes);
    HonestOne(c, before, Arrive(yes, w));
    RunOne(c, before, Arrive(yes, w));
    UpheldInEveryRun(c, before);
    var s := Run(c, before);
    ApprovalGoes(c, w, s, env, d, x, yes);
    LateSendIff(c, w, s, yes, env.id);
  }

  lemma ApprovalGoes(c: Config, w: World, s: State, env: Envelope, d: Dest, x: Envelope, yes: Envelope)
    requires Overtaken(c, env, d, x, yes) && s.pending == map[Minted(0) := Held(env, d)]
    ensures Frees(c, w, s, yes) && ChainRoot(s.log, env) == env.id != NoId
  {
  }
}
