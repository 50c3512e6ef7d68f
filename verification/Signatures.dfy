// One signature, one effect: when an approval can be sealed twice.

module Signatures {
  import opened Options
  import opened Envelopes
  import opened BoundedFifo
  import opened Indexes
  import opened Policies
  import opened Graphs
  import opened Wiring
  import opened Approvers
  import opened Budgets
  import opened Speculation
  import opened Kernel
  import opened Frames
  import opened Books
  import opened SeqNumbers
  import opened Chains
  import opened Gates
  import opened Resumes
  import opened Restarts
  import opened Answers
  import opened Effects
  import opened PlainSteps

  // ---- What a signature binds ----

  /** A signed answer that opens one gate opens another, under the same roster, exactly
      when both hold the same envelope: neither the gate nor its destination is bound. */
  lemma OneSignatureTwoGatesIff(c: Config, roster: Option<Roster>, h1: Held, h2: Held, answer: Payload)
    requires AuthorizeGate(c, roster, h1, answer).Approves? && DecodeAnswer(answer).1.Some?
    ensures AuthorizeGate(c, roster, h2, answer).Approves? <==> h1.env.id == h2.env.id
  {
  }

  // ---- What is sealed is what was held ----

  /** A delivery held for a human that acts on the world. */
  ghost predicate HeldEffect(h: Held) {
    IsEffectDelivery(h.to, h.env.kind)
  }

  ghost predicate SealsFor(s: State, t: State, src: Envelope, d: Dest, via: Id) {
    t.ledger == s.ledger
    || (&& s.ledger <= t.ledger && |t.ledger| == |s.ledger| + 1
        && IsEffectDelivery(d, src.kind)
        && t.ledger[|s.ledger|].via == via && t.ledger[|s.ledger|].cause == src.id)
  }

  lemma CheckpointSeals(c: Config, w: World, s: State, src: Envelope, out: Envelope, d: Dest, root: Id, via: Id)
    requires out.id.Minted? && out.kind == src.kind && out.cause == src.id
    ensures SealsFor(s, CheckpointF(c, w, s, src, out, d, root, via), src, d, via)
  {
    hide DeliverF;
    DeliverFrame(c, w, s, src, out, d, via);
    if c.hasLedger && IsEffectDelivery(d, out.kind) {
      var taken := s.(approved := s.approved - {out.cause});
      DeliverFrame(c, w, taken, src, out, d, via);
      DeliverFrame(c, w, taken.(ledger := s.ledger + [DeliveredEntry(c, s, out, d, root, via)]),
                   src, out.(receipt := Some(|s.ledger|)), d, via);
    }
  }

  lemma ForwardSeals(c: Config, w: World, s: State, src: Envelope, d: Dest, via: Id)
    ensures SealsFor(s, ForwardF(c, w, s, src, d, via), src, d, via)
  {
    hide CheckpointF;
    if !RateRefused(c, w, s, src, d) {
      var out := Outgoing(w, s, src, d);
      var (consumed, over) := ContextF(c, s, out);
      var s1 := s.(mint := s.mint + 1, seqNo := s.seqNo[Source(out) := out.seqNo], consumed := consumed);
      CheckpointSeals(c, w, TrackF(s1, src, out), src, out, d, RootOf(s1, src), via);
    }
  }

  /** A delivered entry that names a gate seals the effect that gate held. */
  ghost predicate Sourced(gates: seq<GateEvent>, e: Entry) {
    e.delivered && e.via != NoId ==>
      exists k :: 0 <= k < |gates| && gates[k].Released? && gates[k].req == e.via
                  && gates[k].held.env.id == e.cause && HeldEffect(gates[k].held)
  }

  ghost predicate AllSourced(gates: seq<GateEvent>, ledger: seq<Entry>) {
    forall n :: 0 <= n < |ledger| ==> Sourced(gates, ledger[n])
  }

  /** No envelope waits, or ever waited, at two gates to effects. */
  ghost predicate HeldApart(gates: seq<GateEvent>) {
    forall k, l :: 0 <= k < l < |gates| && gates[k].Opened? && gates[l].Opened?
                   && HeldEffect(gates[k].held) && HeldEffect(gates[l].held) ==>
      gates[k].held.env.id != gates[l].held.env.id
  }

  ghost predicate WouldRefuse(s: State, env: Envelope) {
    env.idem != "" && env.idem in s.dedup.m
  }

  /** What was held is on record, and its key would be refused. */
  ghost predicate HeldTaken(s: State) {
    forall k :: 0 <= k < |s.gates| && s.gates[k].Opened? && HeldEffect(s.gates[k].held) ==>
      s.gates[k].held.env in s.log && WouldRefuse(s, s.gates[k].held.env)
  }

  ghost predicate Apart(s: State) {
    AllSourced(s.gates, s.ledger) && HeldApart(s.gates) && HeldTaken(s) && Valid(s.dedup)
  }

  // ---- Every step keeps it ----

  lemma {:induction false} SourcedGrows(gates: seq<GateEvent>, more: seq<GateEvent>, ledger: seq<Entry>)
    requires AllSourced(gates, ledger) && gates <= more
    ensures AllSourced(more, ledger)
  {
    forall n | 0 <= n < |ledger| ensures Sourced(more, ledger[n]) {
      assert Sourced(gates, ledger[n]);
      if ledger[n].delivered && ledger[n].via != NoId {
        var k :| 0 <= k < |gates| && gates[k].Released? && gates[k].req == ledger[n].via
                 && gates[k].held.env.id == ledger[n].cause && HeldEffect(gates[k].held);
        assert more[k] == gates[k];
      }
    }
  }

  /** Nothing held, nothing answered; whatever was sealed names no gate. */
  lemma QuietApart(s: State, t: State)
    requires Apart(s) && t.gates == s.gates && s.log <= t.log && s.ledger <= t.ledger
    requires Valid(t.dedup) && s.dedup.m.Keys <= t.dedup.m.Keys
    requires forall n :: |s.ledger| <= n < |t.ledger| ==> t.ledger[n].via == NoId
    ensures Apart(t)
  {
    hide HeldEffect;
  }

  /** An endpoint hands its effects to at most one gate. */
  ghost predicate EffectGate(d: Dest) {
    d.gate == HumanApproval && d.skill.Some? && IsMotor(d.skill.value)
  }

  ghost predicate OneGate(dests: seq<Dest>) {
    forall i, j :: 0 <= i < j < |dests| ==> !(EffectGate(dests[i]) && EffectGate(dests[j]))
  }

  ghost predicate OneGateEach(c: Config) {
    forall from :: OneGate(DestsAt(c.routes, from))
  }

  lemma HoldApart(s: State, env: Envelope, d: Dest)
    requires Apart(s) && env in s.log && d.gate == HumanApproval
    requires env.kind == Data ==> WouldRefuse(s, env)
    requires env.kind == Data && EffectGate(d) ==>
               forall k :: 0 <= k < |s.gates| && s.gates[k].Opened? && HeldEffect(s.gates[k].held) ==> s.gates[k].held.env.id != env.id
    ensures Apart(HoldF(s, env, d))
  {
    var t := HoldF(s, env, d);
    SourcedGrows(s.gates, t.gates, s.ledger);
    hide IsMotor, Sourced;
    forall k | 0 <= k < |t.gates| && t.gates[k].Opened? && HeldEffect(t.gates[k].held)
      ensures t.gates[k].held.env in t.log && WouldRefuse(t, t.gates[k].held.env)
    {
      if k < |s.gates| { assert t.gates[k] == s.gates[k]; }
      assert env in t.log;
    }
  }

  /** The gates opened for this envelope lead where these destinations do. */
  ghost predicate OpenedAmong(gates: seq<GateEvent>, env: Envelope, dests: seq<Dest>) {
    forall k :: 0 <= k < |gates| && gates[k].Opened? && HeldEffect(gates[k].held) && gates[k].held.env.id == env.id ==>
      gates[k].held.to in dests && EffectGate(gates[k].held.to)
  }

  lemma {:induction false} ToDestsApart(c: Config, w: World, s: State, env: Envelope, dests: seq<Dest>, root: Id)
    requires Apart(s) && env in s.log && (env.kind == Data ==> WouldRefuse(s, env)) && OneGate(dests)
    requires OpenedAmong(s.gates, env, [])
    ensures var t := ToDestsF(c, w, s, env, dests, root);
            Apart(t) && env in t.log && t.dedup == s.dedup && OpenedAmong(t.gates, env, dests)
  {
    hide ForwardF, ForwardSpeculativelyF, Apart, EffectGate, HeldEffect;
    if dests != [] {
      var before, d := dests[..|dests| - 1], dests[|dests| - 1];
      ToDestsApart(c, w, s, env, before, root);
      var s1, t := ToDestsF(c, w, s, env, before, root), ToDestsF(c, w, s, env, dests, root);
      AmongMore(s1.gates, env, before, d);
      if d.speculative || d.gate != HumanApproval {
        EdgeApart(c, w, s1, env, d, root);
      } else {
        HoldAmong(s1, env, before, d);
      }
    }
  }

  lemma AmongMore(gates: seq<GateEvent>, env: Envelope, before: seq<Dest>, d: Dest)
    requires OpenedAmong(gates, env, before)
    ensures OpenedAmong(gates, env, before + [d])
  {
    hide HeldEffect, EffectGate;
  }

  lemma EdgeApart(c: Config, w: World, s: State, env: Envelope, d: Dest, root: Id)
    requires Apart(s) && env in s.log && (d.speculative || d.gate != HumanApproval)
    ensures var t := ToDestF(c, w, s, env, d, root); Apart(t) && env in t.log && t.dedup == s.dedup && t.gates == s.gates
  {
    hide ForwardF, ForwardSpeculativelyF, Apart;
    var t := ToDestF(c, w, s, env, d, root);
    if d.speculative {
      SpeculativeFree(c, w, s, env, d, root);
      SpeculativeFrame(c, w, s, env, d, root);
      SpeculativeAdds(c, w, s, env, d, root);
    } else {
      ForwardFree(c, w, s, env, d);
      ForwardFrame(c, w, s, env, d, NoId);
      ForwardAdds(c, w, s, env, d, NoId);
    }
    ApartDedup(s);
    QuietApart(s, t);
  }

  lemma ApartDedup(s: State)
    requires Apart(s)
    ensures Valid(s.dedup)
  {
  }

  lemma HoldAmong(s: State, env: Envelope, before: seq<Dest>, d: Dest)
    requires Apart(s) && env in s.log && (env.kind == Data ==> WouldRefuse(s, env))
    requires OpenedAmong(s.gates, env, before) && OneGate(before + [d]) && d.gate == HumanApproval
    ensures var t := HoldF(s, env, d);
            Apart(t) && env in t.log && t.dedup == s.dedup && OpenedAmong(t.gates, env, before + [d])
  {
    hide Apart, HeldEffect, EffectGate;
    if EffectGate(d) {
      forall k | 0 <= k < |s.gates| && s.gates[k].Opened? && HeldEffect(s.gates[k].held)
        ensures s.gates[k].held.env.id != env.id
      {
        OtherEffectGate(before, d, s.gates[k].held.to);
      }
    }
    HoldApart(s, env, d);
    AmongMore(s.gates, env, before, d);
    var t := HoldF(s, env, d);
    forall k | 0 <= k < |t.gates| && t.gates[k].Opened? && HeldEffect(t.gates[k].held) && t.gates[k].held.env.id == env.id
      ensures t.gates[k].held.to in before + [d] && EffectGate(t.gates[k].held.to)
    {
      if k < |s.gates| { assert t.gates[k] == s.gates[k]; } else { GateOfEffect(t.gates[k].held); }
    }
  }

  lemma OtherEffectGate(before: seq<Dest>, d: Dest, to: Dest)
    requires OneGate(before + [d]) && EffectGate(d)
    ensures to in before ==> !EffectGate(to)
  {
    hide EffectGate;
    if to in before {
      var i :| 0 <= i < |before| && before[i] == to;
      assert (before + [d])[i] == to && (before + [d])[|before|] == d;
    }
  }

  lemma GateOfEffect(h: Held)
    requires HeldEffect(h) && h.to.gate == HumanApproval
    ensures EffectGate(h.to)
  {
  }

  lemma DenyApart(c: Config, w: World, s: State, req: Id, held: Held, answer: Envelope, a: Option<Approval>)
    requires Apart(s)
    ensures Apart(DenyF(c, w, s, req, held, answer, a))
  {
    var t := DenyF(c, w, s, req, held, answer, a);
    SourcedGrows(s.gates, t.gates, s.ledger);
    hide HeldEffect, IsMotor;
    forall n | 0 <= n < |t.ledger| ensures Sourced(t.gates, t.ledger[n]) {
      if n < |s.ledger| { assert t.ledger[n] == s.ledger[n]; }
    }
    AnswerHeld(s, t);
  }

  /** An answer opens nothing. */
  lemma AnswerHeld(s: State, t: State)
    requires HeldApart(s.gates) && HeldTaken(s) && s.log <= t.log && t.dedup == s.dedup
    requires s.gates <= t.gates && |t.gates| == |s.gates| + 1 && !t.gates[|s.gates|].Opened?
    ensures HeldApart(t.gates) && HeldTaken(t)
  {
    hide HeldEffect;
    assert forall k :: 0 <= k < |t.gates| && t.gates[k].Opened? ==> k < |s.gates| && t.gates[k] == s.gates[k];
  }

  lemma ReleaseApart(c: Config, w: World, s: State, req: Id, held: Held, answer: Envelope, a: Option<Approval>)
    requires Apart(s)
    ensures Apart(ReleaseF(c, w, s, req, held, answer, a))
  {
    hide ForwardF;
    var parked := if a.Some? then s.(approved := s.approved[held.env.id := a.value]) else s;
    var s1 := parked.(gates := s.gates + [GateEvent.Released(req, held, answer, a, w.roster)]);
    var t := ForwardF(c, w, s1, held.env, held.to, req);
    ForwardSeals(c, w, s1, held.env, held.to, req);
    ForwardFrame(c, w, s1, held.env, held.to, req);
    ForwardAdds(c, w, s1, held.env, held.to, req);
    SourcedGrows(s.gates, t.gates, s.ledger);
    hide HeldEffect;
    if t.ledger != s.ledger {
      assert t.gates[|s.gates|].Released?;
      assert HeldEffect(held) by { SealedIsEffect(s1, t, held, req); }
      assert Sourced(t.gates, t.ledger[|s.ledger|]);
      assert forall n :: 0 <= n < |s.ledger| ==> t.ledger[n] == s.ledger[n];
    }
    AnswerHeld(s, t);
  }

  lemma SealedIsEffect(s: State, t: State, held: Held, req: Id)
    requires SealsFor(s, t, held.env, held.to, req) && t.ledger != s.ledger
    ensures HeldEffect(held)
  {
  }

  lemma ResolveApart(c: Config, w: World, s: State, answer: Envelope)
    requires Apart(s)
    ensures Apart(ResolveGateF(c, w, s, answer))
  {
    hide DenyF, ReleaseF, AuthorizeGate, Apart;
    if answer.cause in s.pending {
      var held := s.pending[answer.cause];
      var s1 := s.(pending := s.pending - {answer.cause}, log := s.log + [answer]);
      ApartDedup(s);
      QuietApart(s, s1);
      match AuthorizeGate(c, w.roster, held, answer.payload) {
        case Rejected => DenyApart(c, w, s1, answer.cause, held, answer, None);
        case Denies(a) => DenyApart(c, w, s1, answer.cause, held, answer, a);
        case Approves(a) => ReleaseApart(c, w, s1, answer.cause, held, answer, a);
      }
    }
  }

  /** A data envelope has a key and a schema, as ingress demands, and the window that
      remembers keys has room. */
  ghost predicate Orderly(s: State, env: Envelope) {
    env.kind == Data ==>
      env.idem != "" && env.schema != "" && |s.dedup.order| < s.dedup.max
  }

  /** What was held before is not what is being taken in: the window refused that. */
  lemma NotHeldYet(s: State, env: Envelope)
    requires Apart(s) && Unique(s.log + [env]) && (env.kind == Data ==> !Duplicate(s, env) && env.idem != "")
    ensures OpenedAmong(s.gates, env, [])
  {
    forall k | 0 <= k < |s.gates| && s.gates[k].Opened? && HeldEffect(s.gates[k].held) ensures s.gates[k].held.env.id != env.id {
      var h := s.gates[k].held.env;
      var i :| 0 <= i < |s.log| && s.log[i] == h;
      assert (s.log + [env])[i] == h && (s.log + [env])[|s.log|] == env;
    }
  }

  lemma RouteApart(c: Config, w: World, s: State, env: Envelope)
    requires Apart(s) && Traced(s) && Honest(s, env) && Orderly(s, env) && OneGateEach(c)
    ensures Apart(RouteF(c, w, s, env))
  {
    hide PropagateF, ResolveGateF, HandleCancelF, Apart, SeenF, OneGateEach, CancelledF;
    var logged := s.(log := s.log + [env]);
    EnvLogged(s, env, logged);
    assert Unique(logged.log);
    hide Traced, Honest;
    ApartDedup(s);
    QuietApart(s, logged);
    if env.kind == Cancel {
      HandleCancelFrame(logged, env);
      CancelKeepsLedger(logged, env);
      QuietApart(logged, HandleCancelF(logged, env));
    } else if !Duplicate(s, env) {
      var seen := if env.kind == Data then logged.(dedup := SeenF(s.dedup, env.idem)) else logged;
      SeenGrows(s.dedup, env);
      QuietApart(logged, seen);
      if env.kind == ConfirmResponse {
        ResolveApart(c, w, seen, env);
      } else {
        NotHeldYet(s, env);
        PropagateApart(c, w, seen, env);
      }
    }
  }

  lemma CancelKeepsLedger(s: State, env: Envelope)
    ensures HandleCancelF(s, env).ledger == s.ledger && HandleCancelF(s, env).dedup == s.dedup
  {
  }

  lemma SeenGrows(f: Fifo<string, ()>, env: Envelope)
    requires Valid(f) && (env.kind == Data ==> env.idem != "" && |f.order| < f.max)
    ensures env.kind == Data ==>
              Valid(SeenF(f, env.idem)) && f.m.Keys <= SeenF(f, env.idem).m.Keys && env.idem in SeenF(f, env.idem).m
  {
    if env.kind == Data { PutValid(f, env.idem, ()); }
  }

  lemma PropagateApart(c: Config, w: World, s: State, env: Envelope)
    requires Apart(s) && env in s.log && (env.kind == Data ==> WouldRefuse(s, env))
    requires OpenedAmong(s.gates, env, []) && OneGateEach(c)
    ensures Apart(PropagateF(c, w, s, env))
  {
    hide ToDestsF, AttestF, Apart, OpenedAmong, OneGate;
    var root := RootOf(s, env);
    if !CancelledF(s.cancelled, root) {
      var noted := s.(attests := if env.attest == "" then s.attests
                                 else AttestF(s.attests, MAX_ATTEST_PER_ROOT, root, w.attest(env.attest)));
      ApartDedup(s);
      QuietApart(s, noted);
      ToDestsApart(c, w, noted, env, DestsAt(c.routes, Source(env)), root);
    }
  }

  /** A restart refuses again every key that is on record. */
  lemma ResumeApart(c: Config, s: State)
    requires Apart(s) && |s.log| <= RESUME_LIMIT
    ensures Apart(ResumeF(c, s))
  {
    hide Replay;
    ReplayedWindow(c, s.log);
    var t := ResumeF(c, s);
    forall k | 0 <= k < |t.gates| && t.gates[k].Opened? && HeldEffect(t.gates[k].held)
      ensures t.gates[k].held.env in t.log && WouldRefuse(t, t.gates[k].held.env)
    {
      var h := s.gates[k].held.env;
      var i :| 0 <= i < |s.log| && s.log[i] == h;
      assert Processed(s.log, h.idem);
    }
  }

  // ---- Whole runs ----

  /** Honest, and every data envelope carries a key into a window with room for it. */
  ghost predicate OrderlyRun(c: Config, inputs: seq<Input>) {
    HonestRun(c, inputs)
    && (inputs != [] ==>
          var before, last := inputs[..|inputs| - 1], inputs[|inputs| - 1];
          OrderlyRun(c, before) && (last.Arrive? ==> Orderly(Run(c, before), last.env)))
  }

  lemma {:induction false} ApartInEveryRun(c: Config, inputs: seq<Input>)
    requires OrderlyRun(c, inputs) && DistinctEdges(c) && OneGateEach(c)
    ensures Apart(Run(c, inputs))
  {
    hide RouteF, ResumeF, Honest, Traced, Orderly;
    if inputs != [] {
      var before, last := inputs[..|inputs| - 1], inputs[|inputs| - 1];
      ApartInEveryRun(c, before);
      UpheldInEveryRun(c, before);
      hide Apart, HonestRun;
      match last {
        case Arrive(env, w) =>
          LastHonest(c, inputs);
          RouteApart(c, w, Run(c, before), env);
        case Crash =>
          LastHonest(c, inputs);
          ResumeApart(c, Run(c, before));
      }
    }
  }

  lemma LastHonest(c: Config, inputs: seq<Input>)
    requires HonestRun(c, inputs) && inputs != []
    ensures var before, last := inputs[..|inputs| - 1], inputs[|inputs| - 1];
            if last.Arrive? then Honest(Run(c, before), last.env) else |Run(c, before).log| <= RESUME_LIMIT
  {
  }

  /** Recorded as done because a human said so. */
  ghost predicate ByHand(e: Entry) {
    e.delivered && e.decision == Gate
  }

  /** Every gated effect on the ledger has an approval of its own. */
  ghost predicate SpentOnce(ledger: seq<Entry>) {
    forall k, l :: 0 <= k < l < |ledger| && ByHand(ledger[k]) && ByHand(ledger[l]) ==>
      ledger[k].approver != ledger[l].approver && ledger[k].cause != ledger[l].cause
  }

  lemma {:induction false} HonestIsOutside(c: Config, inputs: seq<Input>)
    requires HonestRun(c, inputs)
    ensures forall i :: i in inputs ==> FromOutside(i)
  {
    if inputs != [] {
      var before, last := inputs[..|inputs| - 1], inputs[|inputs| - 1];
      HonestIsOutside(c, before);
      assert inputs == before + [last];
    }
  }

  /** The gate behind an entry, as it was opened. */
  lemma EntryGate(c: Config, s: State, n: nat) returns (k: nat)
    requires Apart(s) && Linear(s) && n < |s.ledger| && ByHand(s.ledger[n])
    requires SignedRequired(c.pol) && EntrySigned(c, s.gates, s.ledger[n])
    ensures s.ledger[n].via != NoId && k < |s.gates| && s.gates[k].Opened? && s.gates[k].req == s.ledger[n].via
    ensures HeldEffect(s.gates[k].held) && s.gates[k].held.env.id == s.ledger[n].cause
  {
    hide HeldEffect, Tally, Once, HeldApart, HeldTaken;
    var e := s.ledger[n];
    var to :| ReleasedTo(s.gates, e.via, e.cause, to, e.approver);
    var i :| 0 <= i < |s.gates| && s.gates[i].Released? && s.gates[i].req == e.via;
    assert Below(s.mint, s.gates[i].req);
    assert Sourced(s.gates, e);
    var j :| 0 <= j < |s.gates| && s.gates[j].Released? && s.gates[j].req == e.via
             && s.gates[j].held.env.id == e.cause && HeldEffect(s.gates[j].held);
    assert OpenedFor(s.gates, s.gates[j].req, s.gates[j].held);
    k :| 0 <= k < |s.gates| && s.gates[k] == Opened(s.gates[j].req, s.gates[j].held);
  }

  lemma EntriesApart(c: Config, s: State, k: nat, l: nat)
    requires Apart(s) && Linear(s) && OneEntry(s.ledger) && SignedRequired(c.pol)
    requires k < l < |s.ledger| && ByHand(s.ledger[k]) && ByHand(s.ledger[l])
    requires EntrySigned(c, s.gates, s.ledger[k]) && EntrySigned(c, s.gates, s.ledger[l])
    ensures s.ledger[k].cause != s.ledger[l].cause
  {
    var i := EntryGate(c, s, k);
    var j := EntryGate(c, s, l);
    hide HeldEffect, AllSourced, HeldTaken, Linear, EntrySigned;
    assert s.ledger[k].via != s.ledger[l].via;
    assert i != j;
  }

  /** One signature, one effect: where policy requires signatures and no endpoint has
      two gated destinations that act on the world, no two gated effects on the
      ledger of an orderly run, crashes included, share their approval. */
  lemma SignaturesSpentOnce(c: Config, inputs: seq<Input>)
    requires OrderlyRun(c, inputs) && DistinctEdges(c) && MotorsWait(c) && OneGateEach(c) && SignedRequired(c.pol)
    ensures SpentOnce(Run(c, inputs).ledger)
  {
    ApartInEveryRun(c, inputs);
    UpheldInEveryRun(c, inputs);
    SpentInEveryRun(c, inputs);
    HonestIsOutside(c, inputs);
    EffectsInEveryRun(c, inputs);
    var s := Run(c, inputs);
    hide Run, Apart, Linear, EntrySigned, ReleasesOk, IdsRise, PendingWired, SendEntitled, SendSealed, SignedRequired;
    forall k, l | 0 <= k < l < |s.ledger| && ByHand(s.ledger[k]) && ByHand(s.ledger[l])
      ensures s.ledger[k].approver != s.ledger[l].approver && s.ledger[k].cause != s.ledger[l].cause
    {
      EntriesApart(c, s, k, l);
      EntryApproved(c, s.gates, s.ledger[k]);
      EntryApproved(c, s.gates, s.ledger[l]);
    }
  }

  // ---- Two gates, one signature: the run that seals it twice ----

  /** An operator can sign: a good approval of some envelope of a sender's choosing. */
  ghost predicate Signable(c: Config, a: Approval, roster: Roster) {
    && a.envelope.External? && Check(roster, a, a.envelope, c.signed)
    && CoversAll(a, c.pol.requireContext) && a.decision == APPROVE
  }

  /** Nothing is refused on the way to the ledger, and no payload costs nothing. */
  ghost predicate Seals(c: Config, w: World) {
    c.hasLedger && c.bytes(Absent) == 0 && forall n :: w.admit(n) && w.seal(n)
  }

  ghost predicate Signs(x: Envelope, req: Id, a: Approval) {
    x.id.External? && x.node == CLIENT && x.kind == ConfirmResponse && x.cause == req && x.payload == Answer(true, Some(a))
  }

  lemma SignedOpens(c: Config, a: Approval, roster: Roster, h: Held)
    requires Signable(c, a, roster) && h.env.id == a.envelope
    ensures AuthorizeGate(c, Some(roster), h, Answer(true, Some(a))) == Approves(Some(a))
  {
  }

  lemma ReleaseEntry(c: Config, w: World, s: State, req: Id, held: Held, answer: Envelope, a: Approval) returns (e: Entry)
    requires Seals(c, w) && HeldEffect(held) && held.to.gate == HumanApproval && held.env.payload == Absent && s.consumed == 0
    ensures var t := ReleaseF(c, w, s, req, held, answer, Some(a)); t.ledger == s.ledger + [e] && t.consumed == 0
    ensures ByHand(e) && e.approver == Some(a) && e.cause == held.env.id
  {
    hide DeliverF;
    var s1 := s.(approved := s.approved[held.env.id := a],
                 gates := s.gates + [GateEvent.Released(req, held, answer, Some(a), w.roster)]);
    var out := Outgoing(w, s1, held.env, held.to);
    var (consumed, over) := ContextF(c, s1, out);
    var s2 := s1.(mint := s.mint + 1, seqNo := s.seqNo[Source(out) := out.seqNo], consumed := consumed);
    var s3 := TrackF(s2, held.env, out);
    e := DeliveredEntry(c, s3, out, held.to, RootOf(s2, held.env), req);
    var taken := s3.(approved := s3.approved - {out.cause});
    DeliverFrame(c, w, taken.(ledger := s.ledger + [e]), held.env, out.(receipt := Some(|s.ledger|)), held.to, req);
  }

  /** One signed answer to a gate that waits. */
  lemma AnswerSealed(c: Config, w: World, s: State, x: Envelope, a: Approval, roster: Roster) returns (e: Entry)
    requires Seals(c, w) && w.roster == Some(roster) && Signable(c, a, roster)
    requires x.cause in s.pending && Signs(x, x.cause, a)
    requires var h := s.pending[x.cause];
             HeldEffect(h) && h.to.gate == HumanApproval && h.env.id == a.envelope && h.env.payload == Absent
    requires s.consumed == 0
    ensures var t := RouteF(c, w, s, x);
            && t.ledger == s.ledger + [e] && t.consumed == 0 && t.pending == s.pending - {x.cause}
            && s.log + [x] + [x] <= t.log && forall i :: |s.log| + 2 <= i < |t.log| ==> t.log[i].id.Minted?
    ensures ByHand(e) && e.approver == Some(a)
  {
    hide ReleaseF, Signable, AuthorizeGate, HeldEffect;
    var h := s.pending[x.cause];
    var s1 := s.(pending := s.pending - {x.cause}, log := s.log + [x] + [x]);
    SignedOpens(c, a, roster, h);
    e := ReleaseEntry(c, w, s1, x.cause, h, x, a);
    ReleaseLog(c, w, s1, x.cause, h, x, Some(a));
    ReleaseFrame(c, w, s1, x.cause, h, x, Some(a));
    assert RouteF(c, w, s, x) == ReleaseF(c, w, s1, x.cause, h, x, Some(a));
  }

  lemma ReleaseLog(c: Config, w: World, s: State, req: Id, held: Held, answer: Envelope, a: Option<Approval>)
    ensures var t := ReleaseF(c, w, s, req, held, answer, a);
            s.log <= t.log && forall i :: |s.log| <= i < |t.log| ==> t.log[i].id.Minted?
  {
    hide ForwardF;
    var parked := if a.Some? then s.(approved := s.approved[held.env.id := a.value]) else s;
    ForwardAdds(c, w, parked.(gates := s.gates + [GateEvent.Released(req, held, answer, a, w.roster)]), held.env, held.to, req);
  }

  ghost predicate PendingBelow(s: State) {
    forall r :: r in s.pending ==> Below(s.mint, r)
  }

  ghost predicate WaitsAt(s: State, env: Envelope, d: Dest) {
    exists r :: r in s.pending && s.pending[r] == Held(env, d)
  }

  /** Each gated destination of an envelope gets a gate of its own. */
  lemma {:induction false} EachGateOpens(c: Config, w: World, s: State, env: Envelope, dests: seq<Dest>, root: Id, d: Dest)
    requires PendingBelow(s) && EffectGate(d) && !d.speculative
    ensures var t := ToDestsF(c, w, s, env, dests, root);
            PendingBelow(t) && s.mint <= t.mint && (WaitsAt(s, env, d) || d in dests ==> WaitsAt(t, env, d))
  {
    hide ForwardF, ForwardSpeculativelyF;
    if dests != [] {
      var before, x := dests[..|dests| - 1], dests[|dests| - 1];
      EachGateOpens(c, w, s, env, before, root, d);
      var s1 := ToDestsF(c, w, s, env, before, root);
      ForwardFrame(c, w, s1, env, x, NoId);
      SpeculativeFrame(c, w, s1, env, x, root);
      assert d in dests ==> d in before || x == d;
      var t := ToDestF(c, w, s1, env, x, root);
      assert x == d ==> t == HoldF(s1, env, d) && t.pending[Minted(s1.mint)] == Held(env, d);
      if WaitsAt(s1, env, d) {
        var r :| r in s1.pending && s1.pending[r] == Held(env, d);
        assert r in t.pending && t.pending[r] == Held(env, d);
      }
    }
  }

  /** No stream has anything folded. */
  ghost predicate SpecBlank(x: SpecValue) {
    forall k :: k in x.states.m ==> x.states.m[k].accumulated == Absent
  }

  lemma ForwardCosts(c: Config, w: World, s: State, src: Envelope, d: Dest, via: Id)
    requires c.bytes(Absent) == 0 && src.payload == Absent && s.consumed == 0
    ensures ForwardF(c, w, s, src, d, via).consumed == 0
  {
    hide CheckpointF;
    if !RateRefused(c, w, s, src, d) {
      var out := Outgoing(w, s, src, d);
      var (consumed, over) := ContextF(c, s, out);
      var s1 := s.(mint := s.mint + 1, seqNo := s.seqNo[Source(out) := out.seqNo], consumed := consumed);
      CheckpointFrame(c, w, TrackF(s1, src, out), src, out, d, RootOf(s1, src), via);
    }
  }

  lemma BlankFold(x: SpecValue, k: SpecKey, schema: string, id: Id)
    requires SpecBlank(x) && schema != SCHEMA_TEXT
    ensures var y := FoldF(x, k, schema, Absent); SpecBlank(y) && RunningF(y, k) == Absent && SpecBlank(SpeculateF(y, k, id))
  {
  }

  /** An envelope without a payload is handed on at no cost, guessed on or not. */
  lemma {:induction false} ToDestsCost(c: Config, w: World, s: State, env: Envelope, dests: seq<Dest>, root: Id)
    requires c.bytes(Absent) == 0 && env.payload == Absent && env.schema != SCHEMA_TEXT && s.consumed == 0 && SpecBlank(s.spec)
    ensures var t := ToDestsF(c, w, s, env, dests, root); t.consumed == 0 && SpecBlank(t.spec)
  {
    hide ForwardF, FoldF, SpeculateF, RunningF;
    if dests != [] {
      var before, d := dests[..|dests| - 1], dests[|dests| - 1];
      ToDestsCost(c, w, s, env, before, root);
      var s1 := ToDestsF(c, w, s, env, before, root);
      var key := SpecKey(root, d.from);
      BlankFold(s1.spec, key, env.schema, env.id);
      var folded := s1.(spec := FoldF(s1.spec, key, env.schema, env.payload));
      assert env.(payload := Absent) == env && MarkFinal(Absent) == Absent && !IsFinal(Absent);
      ForwardCosts(c, w, s1, env, d, NoId);
      ForwardFrame(c, w, s1, env, d, NoId);
      ForwardCosts(c, w, folded, env, d, NoId);
      ForwardFrame(c, w, folded, env, d, NoId);
    }
  }

  /** An envelope of the endpoint's own, the first a session sees. */
  ghost predicate First(env: Envelope, from: Endpoint) {
    && env.id.External? && Source(env) == from && env.kind == Data && env.cause == NoId && env.idem != ""
    && env.attest == "" && env.deadline == 0 && env.payload == Absent && env.schema != "" && env.schema != SCHEMA_TEXT
  }

  lemma FirstArrives(c: Config, w: World, env: Envelope, from: Endpoint, d1: Dest, d2: Dest) returns (r1: Id, r2: Id)
    requires First(env, from) && d1 in DestsAt(c.routes, from) && d2 in DestsAt(c.routes, from) && d1 != d2
    requires EffectGate(d1) && EffectGate(d2) && !d1.speculative && !d2.speculative && c.bytes(Absent) == 0
    ensures var s := Run(c, [Arrive(env, w)]);
            && s.consumed == 0
            && OrderlyRun(c, [Arrive(env, w)])
            && r1 in s.pending && s.pending[r1] == Held(env, d1) && r2 in s.pending && s.pending[r2] == Held(env, d2)
            && r1 != r2 && forall i :: 0 <= i < |s.log| && s.log[i] != env ==> s.log[i].id.Minted?
  {
    var s0 := Start();
    RunOne(c, [], Arrive(env, w));
    HonestOne(c, [], Arrive(env, w));
    assert [] + [Arrive(env, w)] == [Arrive(env, w)];
    assert [Arrive(env, w)][..0] == [];
    PlainRoute(c, w, s0, env);
    var root, dests := RootOf(s0, env), DestsAt(c.routes, from);
    var s1 := Taken(s0, env);
    hide Run, HonestRun, RouteF, ToDestsF, EffectGate;
    EachGateOpens(c, w, s1, env, dests, root, d1);
    EachGateOpens(c, w, s1, env, dests, root, d2);
    ToDestsAdds(c, w, s1, env, dests, root);
    ToDestsCost(c, w, s1, env, dests, root);
    var s := Run(c, [Arrive(env, w)]);
    r1 :| r1 in s.pending && s.pending[r1] == Held(env, d1);
    r2 :| r2 in s.pending && s.pending[r2] == Held(env, d2);
    assert s1.log == [env];
  }

  /** The next arrival an orderly run may go on with. */
  lemma OrderlyOne(c: Config, inputs: seq<Input>, x: Envelope, w: World)
    requires OrderlyRun(c, inputs) && x.kind == ConfirmResponse && x.node == CLIENT && x.id.External?
    requires forall i :: 0 <= i < |Run(c, inputs).log| ==> Run(c, inputs).log[i].id != x.id
    ensures OrderlyRun(c, inputs + [Arrive(x, w)])
  {
    hide Run;
    HonestOne(c, inputs, Arrive(x, w));
    assert (inputs + [Arrive(x, w)])[..|inputs + [Arrive(x, w)]| - 1] == inputs;
  }

  /** One approval, two effects: an envelope held at two gates, each answered with the
      same signed approval, is sealed at both as done by it. */
  lemma OneSignatureSealsTwo(c: Config, w: World, env: Envelope, from: Endpoint, d1: Dest, d2: Dest,
                             a: Approval, roster: Roster, n1: string, n2: string) returns (inputs: seq<Input>)
    requires First(env, from) && d1 in DestsAt(c.routes, from) && d2 in DestsAt(c.routes, from) && d1 != d2
    requires EffectGate(d1) && EffectGate(d2) && !d1.speculative && !d2.speculative
    requires Seals(c, w) && w.roster == Some(roster) && Signable(c, a, roster) && a.envelope == env.id
    requires n1 != n2 && External(n1) != env.id && External(n2) != env.id
    ensures OrderlyRun(c, inputs)
    ensures var ledger := Run(c, inputs).ledger;
            exists k, l :: 0 <= k < l < |ledger| && ByHand(ledger[k]) && ByHand(ledger[l])
                           && ledger[k].approver == ledger[l].approver == Some(a)
  {
    hide Run, OrderlyRun, RouteF, First, Signable, EffectGate;
    assert c.bytes(Absent) == 0;
    hide Seals;
    var r1, r2 := FirstArrives(c, w, env, from, d1, d2);
    var one := [Arrive(env, w)];
    var x1, x2 := Reply(External(n1), r1, a), Reply(External(n2), r2, a);
    var s := Run(c, one);
    GatedEffect(env, from, d1);
    GatedEffect(env, from, d2);
    var e1 := AnswerSealed(c, w, s, x1, a, roster);
    OrderlyOne(c, one, x1, w);
    var two := one + [Arrive(x1, w)];
    RunOne(c, one, Arrive(x1, w));
    var t := Run(c, two);
    var e2 := AnswerSealed(c, w, t, x2, a, roster);
    OrderlyOne(c, two, x2, w);
    inputs := two + [Arrive(x2, w)];
    RunOne(c, two, Arrive(x2, w));
    var ledger := Run(c, inputs).ledger;
    assert ledger == s.ledger + [e1] + [e2];
    assert ledger[|s.ledger|] == e1 && ledger[|s.ledger| + 1] == e2;
  }

  ghost function Reply(id: Id, req: Id, a: Approval): Envelope {
    Envelope(id, req, CLIENT, "confirm_out", 0, "", "std/confirmation@1", ConfirmResponse, Answer(true, Some(a)), None, "", 0, 0, false)
  }

  lemma GatedEffect(env: Envelope, from: Endpoint, d: Dest)
    requires First(env, from) && EffectGate(d)
    ensures HeldEffect(Held(env, d)) && d.gate == HumanApproval && env.payload == Absent
  {
  }

  /** Where policy requires signatures, someone can sign, and an absent payload has no
      bytes: every gated effect of
      every orderly run has a signature of its own exactly when no endpoint has two
      gated destinations that act on the world. */
  lemma SpentOnceIff(c: Config, a: Approval, roster: Roster)
    requires c.hasLedger && c.bytes(Absent) == 0 && SignedRequired(c.pol) && MotorsWait(c) && DistinctEdges(c)
    requires Signable(c, a, roster)
    ensures (forall inputs :: OrderlyRun(c, inputs) ==> SpentOnce(Run(c, inputs).ledger)) <==> OneGateEach(c)
  {
    hide OrderlyRun, Run, SpentOnce, Signable, SignedRequired, EffectGate;
    if OneGateEach(c) {
      forall inputs | OrderlyRun(c, inputs) ensures SpentOnce(Run(c, inputs).ledger) {
        SignaturesSpentOnce(c, inputs);
      }
    } else {
      var inputs := SharedSignature(c, a, roster);
    }
  }

  lemma SharedSignature(c: Config, a: Approval, roster: Roster) returns (inputs: seq<Input>)
    requires c.hasLedger && c.bytes(Absent) == 0 && MotorsWait(c) && DistinctEdges(c) && Signable(c, a, roster) && !OneGateEach(c)
    ensures OrderlyRun(c, inputs) && !SpentOnce(Run(c, inputs).ledger)
  {
    var from :| !OneGate(DestsAt(c.routes, from));
    var dests := DestsAt(c.routes, from);
    var i, j :| 0 <= i < j < |dests| && EffectGate(dests[i]) && EffectGate(dests[j]);
    var d1, d2 := dests[i], dests[j];
    assert d1 != d2 && !d1.speculative && !d2.speculative;
    var w := World(n => 0, n => 0, n => true, n => true, n => true, s => "", Some(roster));
    var env := Envelope(a.envelope, NoId, from.node, from.port, 0, "k", "std/signal@1", Data, Absent, None, "", 0, 0, false);
    var n := a.envelope.name;
    assert |n + "1"| == |n| + 1 && (n + "1")[|n|] == '1' && (n + "2")[|n|] == '2';
    hide OrderlyRun, Run, Signable, EffectGate, DistinctEdges, MotorsWait;
    inputs := OneSignatureSealsTwo(c, w, env, from, d1, d2, a, roster, n + "1", n + "2");
    var ledger := Run(c, inputs).ledger;
    var k, l :| 0 <= k < l < |ledger| && ByHand(ledger[k]) && ByHand(ledger[l])
                && ledger[k].approver == ledger[l].approver == Some(a);
    assert !SpentOnce(ledger);
  }
}
