// Effects in every run: on whose word each was sent, and the ledger entry behind it.

module Effects {
  import opened Options
  import opened Envelopes
  import opened BoundedFifo
  import opened Indexes
  import opened Policies
  import opened Graphs
  import opened Wiring
  import opened Approvers
  import opened Speculation
  import opened Kernel
  import opened Frames
  import opened Books
  import opened SeqNumbers

  ghost predicate WiredDest(c: Config, d: Dest) {
    exists from :: d in DestsAt(c.routes, from)
  }

  /** Envelope ids are drawn in order, so no two sends share one. */
  ghost predicate IdsRise(sent: seq<Send>, mint: nat) {
    && (forall k :: 0 <= k < |sent| ==> Below(mint, sent[k].env.id))
    && (forall k, l :: 0 <= k < l < |sent| ==> sent[k].env.id.n < sent[l].env.id.n)
  }

  /** A release answers the gate of this very held envelope and destination. */
  ghost predicate ReleasedTo(gates: seq<GateEvent>, req: Id, held: Id, to: Dest, approval: Option<Approval>) {
    exists k :: 0 <= k < |gates| && gates[k].Released? && gates[k].req == req
                && gates[k].held.env.id == held && gates[k].held.to == to && gates[k].approval == approval
  }

  ghost predicate Released(gates: seq<GateEvent>, req: Id, held: Id, to: Dest) {
    exists a :: ReleasedTo(gates, req, held, to, a)
  }

  /** Every release was an answer that says approve and, where policy asks for one,
      a signature that binds the held envelope, shows what must be shown and comes
      from an operator enrolled and unrevoked at that moment. */
  ghost predicate ReleasesOk(c: Config, gates: seq<GateEvent>) {
    forall k :: 0 <= k < |gates| && gates[k].Released? ==>
      AuthorizeGate(c, gates[k].roster, gates[k].held, gates[k].answer.payload) == Approves(gates[k].approval)
      && WiredDest(c, gates[k].held.to)
  }

  /** A numbered delivery went to a wired destination, either because no gate stood
      there or because an answer released exactly it. */
  ghost predicate SendEntitled(c: Config, gates: seq<GateEvent>, x: Send) {
    && (x.env.kind == Data ==> x.env.seqNo > 0)
    && (x.env.seqNo > 0 ==>
          && WiredDest(c, x.to)
          && if x.via == NoId then x.to.speculative || x.to.gate != HumanApproval
             else Released(gates, x.via, x.env.cause, x.to))
  }

  ghost predicate EntryFor(e: Entry, x: Send) {
    && e.envelope == x.env.id && e.cause == x.env.cause && e.delivered
    && x.to.skill == Some(e.skill) && e.waived == x.to.waived
    && e.decision == (if x.to.gate == HumanApproval then Gate else Allow)
    && e.payload == x.env.payload && e.via == x.via
  }

  /** A receipt is the position of an entry sealed for this very envelope; where
      policy refuses what it cannot seal, every effect sent carries one. */
  ghost predicate SendSealed(c: Config, ledger: seq<Entry>, x: Send) {
    && (x.env.receipt.Some? ==> x.env.receipt.value < |ledger| && EntryFor(ledger[x.env.receipt.value], x))
    && (c.hasLedger && c.pol.refuseOnSealFailure && IsEffectDelivery(x.to, x.env.kind) ==> x.env.receipt.Some?)
  }

  /** Under a policy that requires signatures, a gated effect's entry carries the
      approval of the answer that released it. */
  ghost predicate EntrySigned(c: Config, gates: seq<GateEvent>, e: Entry) {
    SignedRequired(c.pol) && e.delivered && e.decision == Gate ==>
      e.approver.Some? && exists to :: ReleasedTo(gates, e.via, e.cause, to, e.approver) && to.skill == Some(e.skill)
  }

  ghost predicate Sound(c: Config, sent: seq<Send>, gates: seq<GateEvent>, ledger: seq<Entry>) {
    && (forall k :: 0 <= k < |sent| ==> SendEntitled(c, gates, sent[k]))
    && (forall k :: 0 <= k < |sent| ==> SendSealed(c, ledger, sent[k]))
    && (forall n :: 0 <= n < |ledger| ==> EntrySigned(c, gates, ledger[n]))
    && ReleasesOk(c, gates)
  }

  ghost predicate EffectsOk(c: Config, s: State) {
    IdsRise(s.sent, s.mint) && Sound(c, s.sent, s.gates, s.ledger) && PendingWired(c, s.pending)
  }

  /** No destination that acts on the world speculates: what wiring guarantees. */
  ghost predicate MotorsWait(c: Config) {
    forall from, d :: d in DestsAt(c.routes, from) && d.skill.Some? && IsMotor(d.skill.value) ==> !d.speculative
  }

  /** What entitles one forward: no gate stands on its edge, or an answer already on
      record released it and its signature is parked for the seal. */
  ghost predicate Entitled(c: Config, s: State, src: Envelope, d: Dest, via: Id) {
    && WiredDest(c, d)
    && if via == NoId then d.speculative || d.gate != HumanApproval
       else exists a :: ReleasedTo(s.gates, via, src.id, d, a)
                        && (a.Some? ==> src.id in s.approved && s.approved[src.id] == a.value)
                        && (SignedRequired(c.pol) ==> a.Some?)
  }

  lemma GatesGrow(c: Config, sent: seq<Send>, gates: seq<GateEvent>, ledger: seq<Entry>, e: GateEvent)
    requires Sound(c, sent, gates, ledger)
    requires e.Released? ==> AuthorizeGate(c, e.roster, e.held, e.answer.payload) == Approves(e.approval)
                             && WiredDest(c, e.held.to)
    ensures Sound(c, sent, gates + [e], ledger)
  {
    hide AuthorizeGate;
    var more := gates + [e];
    forall req, held, to, a | ReleasedTo(gates, req, held, to, a) ensures ReleasedTo(more, req, held, to, a) {
      var k :| 0 <= k < |gates| && gates[k].Released? && gates[k].req == req
               && gates[k].held.env.id == held && gates[k].held.to == to && gates[k].approval == a;
      assert more[k] == gates[k];
    }
  }

  lemma SendMore(c: Config, sent: seq<Send>, gates: seq<GateEvent>, ledger: seq<Entry>, x: Send)
    requires Sound(c, sent, gates, ledger) && SendEntitled(c, gates, x) && SendSealed(c, ledger, x)
    ensures Sound(c, sent + [x], gates, ledger)
  {
    hide SendEntitled, SendSealed, EntrySigned, ReleasesOk;
  }

  lemma SealMore(c: Config, sent: seq<Send>, gates: seq<GateEvent>, ledger: seq<Entry>, e: Entry)
    requires Sound(c, sent, gates, ledger) && EntrySigned(c, gates, e)
    ensures Sound(c, sent, gates, ledger + [e])
  {
    hide SendEntitled, EntrySigned, ReleasesOk;
    forall k | 0 <= k < |sent| ensures SendSealed(c, ledger + [e], sent[k]) {
      assert SendSealed(c, ledger, sent[k]);
    }
  }

  lemma NoticeSound(c: Config, s: State, x: Send, t: State)
    requires EffectsOk(c, s) && x.env.id == Minted(s.mint) && x.env.seqNo == 0 && x.env.receipt.None?
    requires x.env.kind != Data
    requires t.sent == s.sent + [x] && t.mint == s.mint + 1 && t.gates == s.gates && t.ledger == s.ledger
    requires t.pending == s.pending
    ensures EffectsOk(c, t)
  {
    SendMore(c, s.sent, s.gates, s.ledger, x);
  }

  lemma EmitErrorSound(c: Config, s: State, cause: Id, via: Id)
    requires EffectsOk(c, s)
    ensures EffectsOk(c, EmitErrorF(s, cause, via))
  {
    var e := ErrorEnvelope(Minted(s.mint), cause);
    NoticeSound(c, s, Send(e, ClientDest("text_in"), via, |s.log|), EmitErrorF(s, cause, via));
  }

  lemma DeliverSound(c: Config, w: World, s: State, src: Envelope, out: Envelope, d: Dest, via: Id)
    requires Sound(c, s.sent, s.gates, s.ledger) && PendingWired(c, s.pending)
    requires out.id.Minted? && s.mint == out.id.n + 1 && IdsRise(s.sent, out.id.n)
    requires SendEntitled(c, s.gates, Send(out, d, via, |s.log|)) && SendSealed(c, s.ledger, Send(out, d, via, |s.log|))
    ensures EffectsOk(c, DeliverF(c, w, s, src, out, d, via))
  {
    hide Sound, PendingWired;
    if !Dropped(w, out) {
      var x := Send(out, d, via, |s.log|);
      var s1 := s.(log := s.log + [Loggable(c, out, d.qos)], sent := s.sent + [x]);
      SendMore(c, s.sent, s.gates, s.ledger, x);
      EmitErrorSound(c, s1, src.id, via);
    }
  }

  lemma CheckpointSound(c: Config, w: World, s: State, src: Envelope, out: Envelope, d: Dest, root: Id, via: Id)
    requires MotorsWait(c) && EffectsOk(c, s) && Entitled(c, s, src, d, via)
    requires out.id.Minted? && s.mint == out.id.n + 1 && IdsRise(s.sent, out.id.n)
    requires out.cause == src.id && out.receipt.None? && out.seqNo > 0
    ensures EffectsOk(c, CheckpointF(c, w, s, src, out, d, root, via))
  {
    hide DeliverF, EmitErrorF, Sound, PendingWired, IdsRise;
    assert SendEntitled(c, s.gates, Send(out, d, via, |s.log|)) by {
      if via != NoId {
        var a :| ReleasedTo(s.gates, via, src.id, d, a);
      }
    }
    if !c.hasLedger || !IsEffectDelivery(d, out.kind) {
      DeliverSound(c, w, s, src, out, d, via);
    } else {
      var taken := s.(approved := s.approved - {out.cause});
      if w.seal(out.id.n) {
        var e := DeliveredEntry(c, s, out, d, root, via);
        EntryIsSigned(c, s, src, out, d, root, via);
        SealMore(c, s.sent, s.gates, s.ledger, e);
        var sealed := out.(receipt := Some(|s.ledger|));
        assert SendEntitled(c, s.gates, Send(sealed, d, via, |s.log|));
        DeliverSound(c, w, taken.(ledger := s.ledger + [e]), src, sealed, d, via);
      } else if c.pol.refuseOnSealFailure {
        EmitErrorSound(c, taken, src.id, via);
      } else {
        DeliverSound(c, w, taken, src, out, d, via);
      }
    }
  }

  lemma EntryIsSigned(c: Config, s: State, src: Envelope, out: Envelope, d: Dest, root: Id, via: Id)
    requires MotorsWait(c) && Entitled(c, s, src, d, via) && IsEffectDelivery(d, out.kind) && out.cause == src.id
    ensures EntrySigned(c, s.gates, DeliveredEntry(c, s, out, d, root, via))
  {
    if via != NoId {
      var a :| ReleasedTo(s.gates, via, src.id, d, a)
               && (a.Some? ==> src.id in s.approved && s.approved[src.id] == a.value)
               && (SignedRequired(c.pol) ==> a.Some?);
    }
  }

  lemma ForwardSound(c: Config, w: World, s: State, src: Envelope, d: Dest, via: Id)
    requires MotorsWait(c) && EffectsOk(c, s) && Entitled(c, s, src, d, via)
    ensures EffectsOk(c, ForwardF(c, w, s, src, d, via))
  {
    hide CheckpointF, EmitErrorF, Sound, PendingWired;
    EmitErrorSound(c, s, src.id, via);
    if !RateRefused(c, w, s, src, d) {
      var out := Outgoing(w, s, src, d);
      var (consumed, over) := ContextF(c, s, out);
      var s1 := s.(mint := s.mint + 1, seqNo := s.seqNo[Source(out) := out.seqNo], consumed := consumed);
      EmitErrorSound(c, s1, src.id, via);
      var s2 := TrackF(s1, src, out);
      assert Entitled(c, s2, src, d, via);
      CheckpointSound(c, w, s2, src, out, d, RootOf(s1, src), via);
    }
  }

  lemma AbandonSound(c: Config, s: State, ids: seq<Id>, d: Dest)
    requires EffectsOk(c, s)
    ensures EffectsOk(c, AbandonAllF(s, ids, d))
  {
    hide EffectsOk;
    if ids != [] {
      var before, id := ids[..|ids| - 1], ids[|ids| - 1];
      AbandonSound(c, s, before, d);
      var s1 := AbandonAllF(s, before, d);
      AbandonOneSound(c, s1, id, d);
    }
  }

  lemma AbandonOneSound(c: Config, s: State, id: Id, d: Dest)
    requires EffectsOk(c, s)
    ensures EffectsOk(c, AbandonF(s, id, d))
  {
    if d.skill.Some? {
      var e := KernelEnvelope(Minted(s.mint), id, d.ref, d.port, Cancel, "", Notice("superseded"));
      NoticeSound(c, s, Send(e, d, NoId, |s.log|), AbandonF(s, id, d));
    }
  }

  lemma SpeculativeSound(c: Config, w: World, s: State, env: Envelope, d: Dest, root: Id)
    requires MotorsWait(c) && EffectsOk(c, s) && WiredDest(c, d) && d.speculative
    ensures EffectsOk(c, ForwardSpeculativelyF(c, w, s, env, d, root))
  {
    hide ForwardF, FoldF, ResolveF, SpeculateF, StaleF, AbandonAllF, RunningF, GuessStands, IsFinal, MarkFinal;
    hide Sound, PendingWired, IdsRise;
    if env.kind != Data || root == NoId {
      ForwardSound(c, w, s, env, d, NoId);
    } else {
      var key := SpecKey(root, d.from);
      var folded := FoldF(s.spec, key, env.schema, env.payload);
      var running := RunningF(folded, key);
      if !IsFinal(env.payload) {
        ForwardSound(c, w, s.(spec := folded), env.(payload := MarkFinal(running)), d, NoId);
      } else {
        var resolved := s.(spec := ResolveF(folded, key, running));
        var stale := StaleF(folded, key, running);
        AbandonSound(c, resolved, stale, d);
        ForwardSound(c, w, AbandonAllF(resolved, stale, d), env.(payload := running), d, NoId);
      }
    }
  }

  lemma HoldSound(c: Config, s: State, env: Envelope, d: Dest)
    requires EffectsOk(c, s) && d in DestsAt(c.routes, Source(env))
    ensures EffectsOk(c, HoldF(s, env, d))
  {
    var req := RequestEnvelope(Minted(s.mint), env, d);
    var t := HoldF(s, env, d);
    GatesGrow(c, s.sent, s.gates, s.ledger, Opened(req.id, Held(env, d)));
    NoticeSound(c, s.(gates := t.gates), Send(req, ClientDest("confirm_in"), NoId, |s.log|), t.(pending := s.pending));
  }

  lemma ToDestsSound(c: Config, w: World, s: State, env: Envelope, dests: seq<Dest>, root: Id)
    requires MotorsWait(c) && EffectsOk(c, s) && forall d :: d in dests ==> d in DestsAt(c.routes, Source(env))
    ensures EffectsOk(c, ToDestsF(c, w, s, env, dests, root))
  {
    hide ForwardF, ForwardSpeculativelyF, HoldF, EffectsOk;
    if dests != [] {
      var before, d := dests[..|dests| - 1], dests[|dests| - 1];
      assert d in dests;
      ToDestsSound(c, w, s, env, before, root);
      var s1 := ToDestsF(c, w, s, env, before, root);
      if d.speculative {
        SpeculativeSound(c, w, s1, env, d, root);
      } else if d.gate == HumanApproval {
        HoldSound(c, s1, env, d);
      } else {
        ForwardSound(c, w, s1, env, d, NoId);
      }
    }
  }

  lemma DenySound(c: Config, w: World, s: State, req: Id, held: Held, answer: Envelope, a: Option<Approval>)
    requires EffectsOk(c, s)
    ensures EffectsOk(c, DenyF(c, w, s, req, held, answer, a))
  {
    hide AuthorizeGate;
    var refused := s.(gates := s.gates + [Refused(req, held, answer)]);
    GatesGrow(c, s.sent, s.gates, s.ledger, Refused(req, held, answer));
    var t := SealDenialF(c, w, refused, held, a, req);
    if t.ledger != refused.ledger {
      SealMore(c, s.sent, refused.gates, s.ledger, t.ledger[|s.ledger|]);
    }
    EmitErrorSound(c, t, answer.id, req);
  }

  lemma ReleaseSound(c: Config, w: World, s: State, req: Id, held: Held, answer: Envelope, a: Option<Approval>)
    requires MotorsWait(c) && EffectsOk(c, s) && req != NoId && WiredDest(c, held.to)
    requires AuthorizeGate(c, w.roster, held, answer.payload) == Approves(a)
    ensures EffectsOk(c, ReleaseF(c, w, s, req, held, answer, a))
  {
    var parked := if a.Some? then s.(approved := s.approved[held.env.id := a.value]) else s;
    var e := GateEvent.Released(req, held, answer, a, w.roster);
    var s1 := parked.(gates := s.gates + [e]);
    assert SignedRequired(c.pol) ==> a.Some?;
    hide AuthorizeGate, ForwardF;
    GatesGrow(c, s.sent, s.gates, s.ledger, e);
    assert s1.gates[|s.gates|] == e;
    assert ReleasedTo(s1.gates, req, held.env.id, held.to, a);
    ForwardSound(c, w, s1, held.env, held.to, req);
  }

  lemma ResolveSound(c: Config, w: World, s: State, answer: Envelope)
    requires MotorsWait(c) && EffectsOk(c, s) && NoId !in s.pending
    ensures EffectsOk(c, ResolveGateF(c, w, s, answer))
  {
    hide AuthorizeGate, DenyF, ReleaseF, Sound, IdsRise;
    if answer.cause in s.pending {
      var held := s.pending[answer.cause];
      var s1 := s.(pending := s.pending - {answer.cause}, log := s.log + [answer]);
      assert WiredDest(c, held.to);
      match AuthorizeGate(c, w.roster, held, answer.payload) {
        case Rejected => DenySound(c, w, s1, answer.cause, held, answer, None);
        case Denies(a) => DenySound(c, w, s1, answer.cause, held, answer, a);
        case Approves(a) => ReleaseSound(c, w, s1, answer.cause, held, answer, a);
      }
    }
  }

  lemma RouteSound(c: Config, w: World, s: State, env: Envelope)
    requires MotorsWait(c) && EffectsOk(c, s) && NoId !in s.pending
    ensures EffectsOk(c, RouteF(c, w, s, env))
  {
    hide ToDestsF, ResolveGateF, Duplicate, CancelTarget, AttestF, SeenF, Sound, PendingWired;
    var logged := s.(log := s.log + [env]);
    if env.kind != Cancel && !Duplicate(s, env) {
      var seen := if env.kind == Data then logged.(dedup := SeenF(s.dedup, env.idem)) else logged;
      ResolveSound(c, w, seen, env);
      var noted := seen.(attests := if env.attest == "" then seen.attests
                                    else AttestF(seen.attests, MAX_ATTEST_PER_ROOT, RootOf(seen, env), w.attest(env.attest)));
      ToDestsSound(c, w, noted, env, DestsAt(c.routes, Source(env)), RootOf(seen, env));
    }
  }

  // ---- Whole runs ----

  lemma {:induction false} ToDestsName(c: Config, w: World, s: State, env: Envelope, dests: seq<Dest>, root: Id)
    requires NoId !in s.pending
    ensures NoId !in ToDestsF(c, w, s, env, dests, root).pending
  {
    hide ForwardF, ForwardSpeculativelyF;
    if dests != [] {
      var before, d := dests[..|dests| - 1], dests[|dests| - 1];
      ToDestsName(c, w, s, env, before, root);
      var s1 := ToDestsF(c, w, s, env, before, root);
      ForwardFrame(c, w, s1, env, d, NoId);
      SpeculativeFrame(c, w, s1, env, d, root);
    }
  }

  lemma ReleaseFrame(c: Config, w: World, s: State, req: Id, held: Held, answer: Envelope, a: Option<Approval>)
    ensures ReleaseF(c, w, s, req, held, answer, a).pending == s.pending
  {
    hide ForwardF;
    var parked := if a.Some? then s.(approved := s.approved[held.env.id := a.value]) else s;
    ForwardFrame(c, w, parked.(gates := s.gates + [GateEvent.Released(req, held, answer, a, w.roster)]), held.env, held.to, req);
  }

  lemma RouteNames(c: Config, w: World, s: State, env: Envelope)
    requires NoId !in s.pending
    ensures NoId !in RouteF(c, w, s, env).pending
  {
    hide ToDestsF, Duplicate, CancelTarget, AttestF, SeenF, AuthorizeGate, ReleaseF;
    var logged := s.(log := s.log + [env]);
    if env.kind != Cancel && !Duplicate(s, env) {
      var seen := if env.kind == Data then logged.(dedup := SeenF(s.dedup, env.idem)) else logged;
      if env.kind == ConfirmResponse && env.cause in s.pending {
        var held := s.pending[env.cause];
        var s1 := seen.(pending := s.pending - {env.cause}, log := seen.log + [env]);
        match AuthorizeGate(c, w.roster, held, env.payload) {
          case Rejected =>
          case Denies(a) =>
          case Approves(a) => ReleaseFrame(c, w, s1, env.cause, held, env, a);
        }
      } else if env.kind != ConfirmResponse {
        var noted := seen.(attests := if env.attest == "" then seen.attests
                                      else AttestF(seen.attests, MAX_ATTEST_PER_ROOT, RootOf(seen, env), w.attest(env.attest)));
        ToDestsName(c, w, noted, env, DestsAt(c.routes, Source(env)), RootOf(seen, env));
      }
    }
  }

  lemma {:induction false} ReplayedNames(c: Config, log: seq<Envelope>)
    requires forall i :: 0 <= i < |log| ==> log[i].id != NoId
    ensures NoId !in Replay(c, log).candidates
  {
    if log != [] {
      ReplayedNames(c, log[..|log| - 1]);
    }
  }

  lemma ResumeSound(c: Config, s: State)
    requires EffectsOk(c, s) && Ordered(s)
    ensures EffectsOk(c, ResumeF(c, s)) && NoId !in ResumeF(c, s).pending
  {
    var log := Readable(s.log);
    forall i | 0 <= i < |log| ensures log[i].id != NoId {
      assert EntryOk(s.log, s.mint, i);
    }
    ReplayedNames(c, log);
    hide Replay;
    RebuiltIsWired(c, Replay(c, log));
  }

  /** The effect invariant of every run, crashes anywhere included. */
  lemma {:induction false} EffectsInEveryRun(c: Config, inputs: seq<Input>)
    requires MotorsWait(c) && forall i :: i in inputs ==> FromOutside(i)
    ensures EffectsOk(c, Run(c, inputs)) && Ordered(Run(c, inputs)) && NoId !in Run(c, inputs).pending
  {
    if inputs != [] {
      var before, last := inputs[..|inputs| - 1], inputs[|inputs| - 1];
      EffectsInEveryRun(c, before);
      assert last in inputs;
      match last {
        case Arrive(env, w) =>
          RouteSound(c, w, Run(c, before), env);
          RouteOrdered(c, w, Run(c, before), env);
          RouteNames(c, w, Run(c, before), env);
        case Crash =>
          ResumeSound(c, Run(c, before));
          ResumeOrdered(c, Run(c, before));
      }
    }
  }

  /** The config a graph's edges wire under a policy. */
  ghost predicate WiredFrom(c: Config, edges: seq<Edge>, resolved: map<string, Skill>, published: bool) {
    Splittable(edges) && Wire(edges, resolved, c.pol, published) == Ok(c.routes)
  }

  lemma WiredMotorsWait(c: Config, edges: seq<Edge>, resolved: map<string, Skill>, published: bool)
    requires WiredFrom(c, edges, resolved, published)
    ensures MotorsWait(c)
  {
    forall from, d | d in DestsAt(c.routes, from) && d.skill.Some? && IsMotor(d.skill.value) ensures !d.speculative {
      WiredIsAuthorized(edges, resolved, c.pol, published, from, d);
      MotorDestination(edges, resolved, c.pol, published, d);
    }
  }

  /** An approving answer to exactly this held envelope and destination. */
  ghost predicate ApprovedFor(c: Config, gates: seq<GateEvent>, x: Send) {
    exists k :: 0 <= k < |gates| && gates[k].Released? && gates[k].req == x.via
                && gates[k].held.env.id == x.env.cause && gates[k].held.to == x.to
                && AuthorizeGate(c, gates[k].roster, gates[k].held, gates[k].answer.payload) == Approves(gates[k].approval)
  }

  /** No unauthorized effect in any run: data reaches a skill that acts on the world
      only if no rule denies it and either the node itself left its edge ungated
      (allowing it, or honouring this graph's waiver outside published mode) or an
      approving answer released exactly this held envelope to this destination. */
  lemma NoUnauthorizedEffect(c: Config, edges: seq<Edge>, resolved: map<string, Skill>, published: bool,
                             inputs: seq<Input>, k: nat)
    requires WiredFrom(c, edges, resolved, published) && forall i :: i in inputs ==> FromOutside(i)
    requires k < |Run(c, inputs).sent|
    requires IsEffectDelivery(Run(c, inputs).sent[k].to, Run(c, inputs).sent[k].env.kind)
    ensures var s := Run(c, inputs);
            var x := s.sent[k];
            var capability := x.to.skill.value.capability;
            && Decide(c.pol, capability).0 != Deny
            && if x.via == NoId then
                 && x.to.gate == Ungated
                 && (exists e :: e in edges && ApplyPolicy(Asked(e, resolved), c.pol, published) == Ok(x.to)
                                 && UngatedByRight(c.pol, published, capability, GateOf(e.gate), x.to.waived))
               else ApprovedFor(c, s.gates, x)
  {
    hide AuthorizeGate, SendSealed, IdsRise, PendingWired, EntrySigned, Ordered;
    WiredMotorsWait(c, edges, resolved, published);
    EffectsInEveryRun(c, inputs);
    var s := Run(c, inputs);
    var x := s.sent[k];
    hide Run;
    assert SendEntitled(c, s.gates, x);
    var from :| x.to in DestsAt(c.routes, from);
    WiredIsAuthorized(edges, resolved, c.pol, published, from, x.to);
    MotorDestination(edges, resolved, c.pol, published, x.to);
    if x.via != NoId {
      var a :| ReleasedTo(s.gates, x.via, x.env.cause, x.to, a);
      var n :| 0 <= n < |s.gates| && s.gates[n].Released? && s.gates[n].req == x.via
               && s.gates[n].held.env.id == x.env.cause && s.gates[n].held.to == x.to && s.gates[n].approval == a;
    }
  }

  /** Seal before send: where policy refuses what it cannot seal, every effect sent
      carries the receipt of an entry for it alone, marked gated exactly when its
      edge is and waived exactly when the graph's waiver is why it is not. */
  lemma SealBeforeSend(c: Config, edges: seq<Edge>, resolved: map<string, Skill>, published: bool,
                       inputs: seq<Input>, k: nat, l: nat)
    requires WiredFrom(c, edges, resolved, published) && forall i :: i in inputs ==> FromOutside(i)
    requires c.hasLedger && c.pol.refuseOnSealFailure
    requires k < |Run(c, inputs).sent| && l < |Run(c, inputs).sent|
    requires IsEffectDelivery(Run(c, inputs).sent[k].to, Run(c, inputs).sent[k].env.kind)
    requires IsEffectDelivery(Run(c, inputs).sent[l].to, Run(c, inputs).sent[l].env.kind)
    ensures var s := Run(c, inputs);
            var x, y := s.sent[k], s.sent[l];
            && x.env.receipt.Some? && x.env.receipt.value < |s.ledger|
            && EntryFor(s.ledger[x.env.receipt.value], x)
            && (k != l ==> x.env.receipt != y.env.receipt)
  {
    WiredMotorsWait(c, edges, resolved, published);
    EffectsInEveryRun(c, inputs);
    hide Run;
    var s := Run(c, inputs);
    assert SendSealed(c, s.ledger, s.sent[k]) && SendSealed(c, s.ledger, s.sent[l]);
    assert k < l ==> s.sent[k].env.id.n < s.sent[l].env.id.n;
    assert l < k ==> s.sent[l].env.id.n < s.sent[k].env.id.n;
  }

  /** The transport took one of the sends made since the `from`-th. */
  ghost predicate Took(w: World, sent: seq<Send>, from: nat, id: Id) {
    id.Minted? && w.send(id.n) && exists k :: from <= k < |sent| && sent[k].env.id == id
  }

  /** The converse fails: expiry is tested after sealing, and so is the transport, so
      the ledger records as delivered an effect that nobody received, exactly when its
      deadline had passed or the transport refused it. In the second case alone a send
      was tried, and the client is told. */
  lemma SealedButDropped(c: Config, w: World, s: State, src: Envelope, out: Envelope, d: Dest, root: Id, via: Id)
    requires out.id.Minted? && c.hasLedger && IsEffectDelivery(d, out.kind) && w.seal(out.id.n)
    ensures var t := CheckpointF(c, w, s, src, out, d, root, via);
            && |t.ledger| == |s.ledger| + 1 && t.ledger[|s.ledger|].delivered && t.ledger[|s.ledger|].envelope == out.id
            && (!Took(w, t.sent, |s.sent|, out.id) <==> Dropped(w, out) || !w.send(out.id.n))
            && (t.sent == s.sent <==> Dropped(w, out))
            && (|t.sent| == |s.sent| + 2 <==> !Dropped(w, out) && !w.send(out.id.n))
  {
    hide DeliverF;
    DroppedUnsent(c, w, s.(approved := s.approved - {out.cause}, ledger := s.ledger + [DeliveredEntry(c, s, out, d, root, via)]),
                  src, out.(receipt := Some(|s.ledger|)), d, via);
  }

  lemma DroppedUnsent(c: Config, w: World, s: State, src: Envelope, out: Envelope, d: Dest, via: Id)
    requires out.id.Minted?
    ensures var t := DeliverF(c, w, s, src, out, d, via);
            && t.ledger == s.ledger && (t.sent == s.sent <==> Dropped(w, out))
            && (!Took(w, t.sent, |s.sent|, out.id) <==> Dropped(w, out) || !w.send(out.id.n))
            && (|t.sent| == |s.sent| + 2 <==> !Dropped(w, out) && !w.send(out.id.n))
  {
    var t := DeliverF(c, w, s, src, out, d, via);
    if !Dropped(w, out) {
      assert t.sent[|s.sent|].env == out;
    }
  }

  /** What an answer has to be for a gate to open on it. */
  lemma WhatApproves(c: Config, roster: Option<Roster>, held: Held, payload: Payload)
    ensures AuthorizeGate(c, roster, held, payload).Approves? <==>
              var (approve, signature) := DecodeAnswer(payload);
              && approve
              && (signature.None? ==> !SignedRequired(c.pol))
              && (signature.Some? ==>
                    && roster.Some? && Check(roster.value, signature.value, held.env.id, c.signed)
                    && CoversAll(signature.value, c.pol.requireContext)
                    && signature.value.decision == APPROVE)
    ensures AuthorizeGate(c, roster, held, payload).Approves? ==>
              AuthorizeGate(c, roster, held, payload).approval == DecodeAnswer(payload).1
  {
  }

  /** Signed-approval integrity: where policy requires signatures, an effect sealed
      as gated and delivered carries an approval that says approve, binds the
      envelope that was held, covers every required label, and was checked, when
      it was given, against an operator enrolled under its key and not revoked;
      and it is the approval of the very answer that released that effect. */
  lemma SignedApprovalIntegrity(c: Config, edges: seq<Edge>, resolved: map<string, Skill>, published: bool,
                                inputs: seq<Input>, n: nat)
    requires WiredFrom(c, edges, resolved, published) && forall i :: i in inputs ==> FromOutside(i)
    requires SignedRequired(c.pol) && n < |Run(c, inputs).ledger|
    requires Run(c, inputs).ledger[n].delivered && Run(c, inputs).ledger[n].decision == Gate
    ensures var s := Run(c, inputs);
            var e := s.ledger[n];
            && e.approver.Some? && e.approver.value.decision == APPROVE && e.approver.value.envelope == e.cause
            && CoversAll(e.approver.value, c.pol.requireContext)
            && exists k :: 0 <= k < |s.gates| && Approved(s.gates[k], e)
  {
    WiredMotorsWait(c, edges, resolved, published);
    EffectsInEveryRun(c, inputs);
    hide Run, WiredFrom, MotorsWait, SendEntitled, SendSealed, IdsRise, PendingWired, EntrySigned, ReleasesOk;
    var s := Run(c, inputs);
    assert EntrySigned(c, s.gates, s.ledger[n]);
    EntryApproved(c, s.gates, s.ledger[n]);
  }

  /** The answer behind an entry: it released this very effect, and its signature was
      good for it when it was given. */
  ghost predicate Approved(g: GateEvent, e: Entry) {
    && g.Released? && g.req == e.via && g.held.env.id == e.cause && g.approval == e.approver
    && g.held.to.skill == Some(e.skill)
    && e.approver.Some? && g.roster.Some? && Enrolled(g.roster.value, e.approver.value)
  }

  lemma EntryApproved(c: Config, gates: seq<GateEvent>, e: Entry)
    requires SignedRequired(c.pol) && e.delivered && e.decision == Gate
    requires EntrySigned(c, gates, e) && ReleasesOk(c, gates)
    ensures e.approver.Some? && e.approver.value.decision == APPROVE && e.approver.value.envelope == e.cause
    ensures CoversAll(e.approver.value, c.pol.requireContext)
    ensures exists k :: 0 <= k < |gates| && Approved(gates[k], e)
  {
    hide AuthorizeGate, CoversAll;
    var to :| ReleasedTo(gates, e.via, e.cause, to, e.approver) && to.skill == Some(e.skill);
    var k :| 0 <= k < |gates| && gates[k].Released? && gates[k].req == e.via
             && gates[k].held.env.id == e.cause && gates[k].held.to == to && gates[k].approval == e.approver;
    WhatApproves(c, gates[k].roster, gates[k].held, gates[k].answer.payload);
    assert Approved(gates[k], e);
  }

  /** Without that policy an entry may carry another answer's signature. A release is
      sealed with the approval of the answer that made it exactly when that answer
      was signed or no earlier signature for the same held envelope is still parked. */
  lemma SealCarriesItsOwnAnswer(c: Config, s: State, out: Envelope, held: Held, root: Id, a: Option<Approval>, via: Id)
    requires out.cause == held.env.id && held.to.skill.Some?
    ensures var parked := if a.Some? then s.(approved := s.approved[held.env.id := a.value]) else s;
            DeliveredEntry(c, parked, out, held.to, root, via).approver == a
            <==> a.Some? || held.env.id !in s.approved
  {
  }

  /** When a signature stays parked after the release it was for: exactly when the
      delivery is no effect that is sealed, or the rate limiter or the context budget
      refuses it. */
  lemma ApprovalOutlivesItsRelease(c: Config, w: World, s: State, req: Id, held: Held, answer: Envelope, a: Approval)
    ensures var t := ReleaseF(c, w, s, req, held, answer, Some(a));
            && (held.env.id in t.approved <==>
                  !c.hasLedger || !IsEffectDelivery(held.to, held.env.kind) || RateRefused(c, w, s, held.env, held.to)
                  || ContextF(c, s, Outgoing(w, s, held.env, held.to)).1)
            && (held.env.id in t.approved ==> t.approved[held.env.id] == a)
  {
    var s1 := s.(approved := s.approved[held.env.id := a],
                 gates := s.gates + [GateEvent.Released(req, held, answer, Some(a), w.roster)]);
    hide CheckpointF;
    if !RateRefused(c, w, s1, held.env, held.to) {
      var out := Outgoing(w, s1, held.env, held.to);
      var (consumed, over) := ContextF(c, s1, out);
      var s2 := s1.(mint := s.mint + 1, seqNo := s.seqNo[Source(out) := out.seqNo], consumed := consumed);
      CheckpointApproved(c, w, TrackF(s2, held.env, out), held.env, out, held.to, RootOf(s2, held.env), req);
    }
  }

  /** The checkpoint takes what is parked exactly for effects that are sealed. */
  lemma CheckpointApproved(c: Config, w: World, s: State, src: Envelope, out: Envelope, d: Dest, root: Id, via: Id)
    requires out.id.Minted?
    ensures CheckpointF(c, w, s, src, out, d, root, via).approved
         == if c.hasLedger && IsEffectDelivery(d, out.kind) then s.approved - {out.cause} else s.approved
  {
    hide DeliverF;
    DeliverFrame(c, w, s, src, out, d, via);
    var taken := s.(approved := s.approved - {out.cause});
    DeliverFrame(c, w, taken, src, out, d, via);
    if c.hasLedger && IsEffectDelivery(d, out.kind) {
      DeliverFrame(c, w, taken.(ledger := s.ledger + [DeliveredEntry(c, s, out, d, root, via)]),
                   src, out.(receipt := Some(|s.ledger|)), d, via);
    }
  }
}
