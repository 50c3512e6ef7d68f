// One answer, one effect: what a gate's answer is worth over a whole run.

module Answers {
  import opened Options
  import opened Envelopes
  import opened BoundedFifo
  import opened Indexes
  import opened Policies
  import opened Wiring
  import opened Speculation
  import opened Kernel
  import opened Frames
  import opened Books
  import opened Chains
  import opened Gates
  import opened Resumes
  import opened Restarts
  import opened Cancels
  import opened Sends

  ghost predicate OneDelivery(sent: seq<Send>) {
    forall k, l :: 0 <= k < l < |sent| && Numbered(sent[k]) && Numbered(sent[l]) && sent[k].via != NoId ==>
      sent[k].via != sent[l].via
  }

  ghost predicate OneEntry(ledger: seq<Entry>) {
    forall k, l :: 0 <= k < l < |ledger| && ledger[k].via != NoId ==> ledger[k].via != ledger[l].via
  }

  ghost predicate ReleasedReq(gates: seq<GateEvent>, req: Id) {
    exists k :: 0 <= k < |gates| && gates[k].Released? && gates[k].req == req
  }

  ghost predicate Earned(gates: seq<GateEvent>, sent: seq<Send>, ledger: seq<Entry>) {
    && (forall k :: 0 <= k < |sent| && Numbered(sent[k]) && sent[k].via != NoId ==> ReleasedReq(gates, sent[k].via))
    && (forall n :: 0 <= n < |ledger| && ledger[n].via != NoId ==> Answered(gates, ledger[n].via))
  }

  ghost predicate Spent(s: State) {
    OneDelivery(s.sent) && OneEntry(s.ledger) && Earned(s.gates, s.sent, s.ledger)
  }

  /** What one forward adds: at most one delivery and at most one entry, for its gate. */
  ghost predicate AddsOnce(s: State, t: State, via: Id) {
    && s.sent <= t.sent && s.ledger <= t.ledger && |t.ledger| <= |s.ledger| + 1
    && (forall k :: |s.sent| <= k < |t.sent| ==> t.sent[k].via == via)
    && (forall k, l :: |s.sent| <= k < l < |t.sent| ==> !(Numbered(t.sent[k]) && Numbered(t.sent[l])))
    && (forall n :: |s.ledger| <= n < |t.ledger| ==> t.ledger[n].via == via)
  }

  lemma DeliverOnce(c: Config, w: World, s: State, src: Envelope, out: Envelope, d: Dest, via: Id)
    requires out.id.Minted?
    ensures AddsOnce(s, DeliverF(c, w, s, src, out, d, via), via)
    ensures DeliverF(c, w, s, src, out, d, via).ledger == s.ledger
  {
    hide Loggable, Dropped, ErrorEnvelope, Numbered;
    var s1 := s.(log := s.log + [Loggable(c, out, d.qos)], sent := s.sent + [Send(out, d, via, |s.log|)]);
    ErrorOnce(s1, src.id, via);
  }

  /** The kernel's own notices are no deliveries. */
  lemma ErrorOnce(s: State, cause: Id, via: Id)
    ensures var t := EmitErrorF(s, cause, via);
            t.ledger == s.ledger && |t.sent| == |s.sent| + 1 && s.sent <= t.sent
            && t.sent[|s.sent|].via == via && !Numbered(t.sent[|s.sent|])
  {
  }

  lemma CheckpointOnce(c: Config, w: World, s: State, src: Envelope, out: Envelope, d: Dest, root: Id, via: Id)
    requires out.id.Minted?
    ensures AddsOnce(s, CheckpointF(c, w, s, src, out, d, root, via), via)
  {
    hide DeliverF, EmitErrorF, DeliveredEntry, Numbered;
    DeliverOnce(c, w, s, src, out, d, via);
    if c.hasLedger && IsEffectDelivery(d, out.kind) {
      var taken := s.(approved := s.approved - {out.cause});
      EntryVia(c, s, out, d, root, via);
      ErrorOnce(taken, src.id, via);
      DeliverOnce(c, w, taken, src, out, d, via);
      DeliverOnce(c, w, taken.(ledger := s.ledger + [DeliveredEntry(c, s, out, d, root, via)]),
                  src, out.(receipt := Some(|s.ledger|)), d, via);
    }
  }

  lemma EntryVia(c: Config, s: State, out: Envelope, d: Dest, root: Id, via: Id)
    requires d.skill.Some?
    ensures DeliveredEntry(c, s, out, d, root, via).via == via
  {
  }

  lemma ForwardOnce(c: Config, w: World, s: State, src: Envelope, d: Dest, via: Id)
    ensures AddsOnce(s, ForwardF(c, w, s, src, d, via), via)
  {
    hide CheckpointF;
    if !RateRefused(c, w, s, src, d) {
      var out := Outgoing(w, s, src, d);
      var (consumed, over) := ContextF(c, s, out);
      var s1 := s.(mint := s.mint + 1, seqNo := s.seqNo[Source(out) := out.seqNo], consumed := consumed);
      CheckpointOnce(c, w, TrackF(s1, src, out), src, out, d, RootOf(s1, src), via);
    }
  }

  /** What routing adds apart from answers: nothing that names a gate. */
  ghost predicate AddsFree(s: State, t: State) {
    && s.sent <= t.sent && s.ledger <= t.ledger
    && (forall k :: |s.sent| <= k < |t.sent| ==> t.sent[k].via == NoId)
    && (forall n :: |s.ledger| <= n < |t.ledger| ==> t.ledger[n].via == NoId)
    && (forall r :: ReleasedReq(s.gates, r) ==> ReleasedReq(t.gates, r))
    && (forall r :: Answered(s.gates, r) ==> Answered(t.gates, r))
  }

  lemma FreeChain(s: State, t: State, u: State)
    requires AddsFree(s, t) && AddsFree(t, u)
    ensures AddsFree(s, u)
  {
    hide ReleasedReq, Answered;
  }

  lemma ForwardFree(c: Config, w: World, s: State, src: Envelope, d: Dest)
    ensures AddsFree(s, ForwardF(c, w, s, src, d, NoId))
  {
    hide ForwardF;
    ForwardOnce(c, w, s, src, d, NoId);
    ForwardFrame(c, w, s, src, d, NoId);
  }

  lemma AbandonOneFree(s: State, id: Id, d: Dest)
    ensures AddsFree(s, AbandonF(s, id, d))
  {
    hide ReleasedReq, Answered;
  }

  lemma {:induction false} AbandonFree(s: State, ids: seq<Id>, d: Dest)
    ensures AddsFree(s, AbandonAllF(s, ids, d))
  {
    if ids != [] {
      var s1 := AbandonAllF(s, ids[..|ids| - 1], d);
      AbandonFree(s, ids[..|ids| - 1], d);
      AbandonOneFree(s1, ids[|ids| - 1], d);
      hide AddsFree, AbandonF;
      FreeChain(s, s1, AbandonAllF(s, ids, d));
    }
  }

  lemma SpeculativeFree(c: Config, w: World, s: State, env: Envelope, d: Dest, root: Id)
    ensures AddsFree(s, ForwardSpeculativelyF(c, w, s, env, d, root))
  {
    hide ForwardF, AbandonAllF, FoldF, ResolveF, SpeculateF, StaleF, RunningF, GuessStands, IsFinal, MarkFinal;
    hide ReleasedReq, Answered;
    var key := SpecKey(root, d.from);
    var folded := FoldF(s.spec, key, env.schema, env.payload);
    var running := RunningF(folded, key);
    var resolved := s.(spec := ResolveF(folded, key, running));
    var stale := StaleF(folded, key, running);
    ForwardFree(c, w, s, env, d);
    ForwardFree(c, w, s.(spec := folded), env.(payload := MarkFinal(running)), d);
    AbandonFree(resolved, stale, d);
    ForwardFree(c, w, AbandonAllF(resolved, stale, d), env.(payload := running), d);
  }

  lemma HoldFree(s: State, env: Envelope, d: Dest)
    ensures AddsFree(s, HoldF(s, env, d))
  {
    var t := HoldF(s, env, d);
    OpenAdds(s.gates, t.gates[|s.gates|]);
    forall r | ReleasedReq(s.gates, r) ensures ReleasedReq(t.gates, r) {
      var k :| 0 <= k < |s.gates| && s.gates[k].Released? && s.gates[k].req == r;
      assert t.gates[k] == s.gates[k];
    }
  }

  lemma {:induction false} ToDestsFree(c: Config, w: World, s: State, env: Envelope, dests: seq<Dest>, root: Id)
    ensures AddsFree(s, ToDestsF(c, w, s, env, dests, root))
  {
    hide ForwardF, ForwardSpeculativelyF, HoldF, ReleasedReq, Answered;
    if dests != [] {
      var before, d := dests[..|dests| - 1], dests[|dests| - 1];
      ToDestsFree(c, w, s, env, before, root);
      var s1 := ToDestsF(c, w, s, env, before, root);
      ForwardFree(c, w, s1, env, d);
      SpeculativeFree(c, w, s1, env, d, root);
      HoldFree(s1, env, d);
      FreeChain(s, s1, ToDestF(c, w, s1, env, d, root));
    }
  }

  lemma FreeSpent(s: State, t: State)
    requires Spent(s) && AddsFree(s, t)
    ensures Spent(t)
  {
    hide ReleasedReq, Answered, Numbered;
  }

  /** An answer to a gate nobody had answered yet. */
  lemma AnswerSpent(s: State, e: GateEvent, s1: State, t: State)
    requires Spent(s) && s1.sent == s.sent && s1.ledger == s.ledger && s1.gates == s.gates + [e] && t.gates == s1.gates
    requires !e.Opened? && !Answered(s.gates, e.req) && AddsOnce(s1, t, e.req)
    requires (exists k :: |s.sent| <= k < |t.sent| && Numbered(t.sent[k])) ==> e.Released?
    ensures Spent(t)
  {
    AnswerAdds(s.gates, e);
    forall r | ReleasedReq(s.gates, r) ensures ReleasedReq(t.gates, r) && Answered(s.gates, r) {
      var k :| 0 <= k < |s.gates| && s.gates[k].Released? && s.gates[k].req == r;
      assert t.gates[k] == s.gates[k];
    }
    assert e.Released? ==> ReleasedReq(t.gates, e.req) by { assert t.gates[|s.gates|] == e; }
    hide ReleasedReq, Answered, Numbered;
  }

  lemma DenyOnce(c: Config, w: World, s: State, req: Id, held: Held, answer: Envelope, a: Option<Approval>)
    ensures var t := DenyF(c, w, s, req, held, answer, a);
            && t.gates == s.gates + [Refused(req, held, answer)]
            && AddsOnce(s.(gates := t.gates), t, req) && forall k :: |s.sent| <= k < |t.sent| ==> !Numbered(t.sent[k])
  {
  }

  lemma ReleaseOnce(c: Config, w: World, s: State, req: Id, held: Held, answer: Envelope, a: Option<Approval>)
    ensures var t := ReleaseF(c, w, s, req, held, answer, a);
            && t.gates == s.gates + [Released(req, held, answer, a, w.roster)]
            && AddsOnce(s.(gates := t.gates), t, req)
  {
    hide ForwardF;
    var parked := if a.Some? then s.(approved := s.approved[held.env.id := a.value]) else s;
    var s1 := parked.(gates := s.gates + [Released(req, held, answer, a, w.roster)]);
    ForwardOnce(c, w, s1, held.env, held.to, req);
    ForwardFrame(c, w, s1, held.env, held.to, req);
  }

  lemma ResolveSpent(c: Config, w: World, s: State, answer: Envelope)
    requires Spent(s) && Linear(s)
    ensures Spent(ResolveGateF(c, w, s, answer))
  {
    hide DenyF, ReleaseF, AuthorizeGate, Spent, Answered;
    if answer.cause in s.pending {
      var held := s.pending[answer.cause];
      assert !Answered(s.gates, answer.cause);
      var s1 := s.(pending := s.pending - {answer.cause}, log := s.log + [answer]);
      var t := ResolveGateF(c, w, s, answer);
      hide Linear, Numbered;
      match AuthorizeGate(c, w.roster, held, answer.payload) {
        case Rejected =>
          DenyOnce(c, w, s1, answer.cause, held, answer, None);
          AnswerSpent(s, Refused(answer.cause, held, answer), s1.(gates := t.gates), t);
        case Denies(a) =>
          DenyOnce(c, w, s1, answer.cause, held, answer, a);
          AnswerSpent(s, Refused(answer.cause, held, answer), s1.(gates := t.gates), t);
        case Approves(a) =>
          ReleaseOnce(c, w, s1, answer.cause, held, answer, a);
          AnswerSpent(s, Released(answer.cause, held, answer, a, w.roster), s1.(gates := t.gates), t);
      }
    }
  }

  lemma RouteSpent(c: Config, w: World, s: State, env: Envelope)
    requires Spent(s) && Linear(s)
    ensures Spent(RouteF(c, w, s, env))
  {
    hide ToDestsF, ResolveGateF, AttestF, SeenF, Spent, Linear, AddsFree, CancelTarget;
    var logged := s.(log := s.log + [env]);
    if env.kind == Cancel {
      HandleCancelFrame(logged, env);
      SameSpent(s, RouteF(c, w, s, env));
    } else if Duplicate(s, env) {
      SameSpent(s, logged);
    } else {
      var seen := if env.kind == Data then logged.(dedup := SeenF(s.dedup, env.idem)) else logged;
      SameSpent(s, seen);
      SameGates(s, seen);
      ResolveSpent(c, w, seen, env);
      var noted := seen.(attests := if env.attest == "" then seen.attests
                                    else AttestF(seen.attests, MAX_ATTEST_PER_ROOT, RootOf(seen, env), w.attest(env.attest)));
      SameSpent(s, noted);
      ToDestsFree(c, w, noted, env, DestsAt(c.routes, Source(env)), RootOf(seen, env));
      FreeSpent(noted, ToDestsF(c, w, noted, env, DestsAt(c.routes, Source(env)), RootOf(seen, env)));
    }
  }

  lemma SameSpent(s: State, t: State)
    requires Spent(s) && t.sent == s.sent && t.gates == s.gates
    requires t.ledger == s.ledger
    ensures Spent(t)
  {
  }

  lemma {:induction false} SpentInEveryRun(c: Config, inputs: seq<Input>)
    requires HonestRun(c, inputs) && DistinctEdges(c)
    ensures Spent(Run(c, inputs))
  {
    if inputs != [] {
      var before, last := inputs[..|inputs| - 1], inputs[|inputs| - 1];
      SpentInEveryRun(c, before);
      UpheldInEveryRun(c, before);
      hide RouteF, Replay, Spent, Traced, Restorable;
      match last {
        case Arrive(env, w) => RouteSpent(c, w, Run(c, before), env);
        case Crash => SameSpent(Run(c, before), ResumeF(c, Run(c, before)));
      }
    }
  }

  ghost predicate Delivers(x: Send, req: Id) {
    Numbered(x) && x.via == req
  }

  ghost predicate RefusedReq(gates: seq<GateEvent>, req: Id) {
    exists k :: 0 <= k < |gates| && gates[k].Refused? && gates[k].req == req
  }

  /** Each gate is worth at most one delivery and at most one ledger entry, over any
      number of answers and restarts; a delivery only if it was released, and a gate
      that was refused never delivers. */
  lemma AnswerWorthOneDelivery(c: Config, inputs: seq<Input>, req: Id, k: nat, l: nat)
    requires HonestRun(c, inputs) && DistinctEdges(c) && req != NoId
    ensures var s := Run(c, inputs);
            && (k < l < |s.sent| && Delivers(s.sent[k], req) ==> !Delivers(s.sent[l], req))
            && (k < l < |s.ledger| && s.ledger[k].via == req ==> s.ledger[l].via != req)
            && (k < |s.sent| && Delivers(s.sent[k], req) ==> ReleasedReq(s.gates, req))
            && (RefusedReq(s.gates, req) ==> !ReleasedReq(s.gates, req))
  {
    SpentInEveryRun(c, inputs);
    GatesAreLinear(c, inputs);
    hide Run;
    SpentMeans(Run(c, inputs), req, k, l);
  }

  lemma SpentMeans(s: State, req: Id, k: nat, l: nat)
    requires Spent(s) && Once(s.gates) && req != NoId
    ensures k < l < |s.sent| && Delivers(s.sent[k], req) ==> !Delivers(s.sent[l], req)
    ensures k < l < |s.ledger| && s.ledger[k].via == req ==> s.ledger[l].via != req
    ensures k < |s.sent| && Delivers(s.sent[k], req) ==> ReleasedReq(s.gates, req)
    ensures RefusedReq(s.gates, req) ==> !ReleasedReq(s.gates, req)
  {
  }
}
