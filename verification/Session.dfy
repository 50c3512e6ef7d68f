// The session executor as the program runs it: one object, its indexes edited in
// place, its log appended to, each method proved against the kernel's definitions.

module Sessions {
  import opened Options
  import opened Envelopes
  import opened BoundedFifo
  import opened Indexes
  import opened Policies
  import opened RateLimits
  import opened Graphs
  import opened Wiring
  import opened Approvers
  import opened Budgets
  import opened Speculation
  import opened Kernel

  /** Every hop is filed under the place it names. */
  ghost predicate Keyed(hops: map<Endpoint, Hop>) {
    forall ep :: ep in hops ==> hops[ep].to == ep
  }

  ghost predicate AllKeyed(f: Fifo<Id, map<Endpoint, Hop>>) {
    forall root :: root in f.m ==> Keyed(f.m[root])
  }

  lemma RecordKeyed(f: Fifo<Id, map<Endpoint, Hop>>, root: Id, h: Hop)
    requires Valid(f) && AllKeyed(f)
    ensures AllKeyed(RecordF(f, root, h))
  {
    if root != NoId && h.to.node != CLIENT {
      PutValid(f, root, Get(f, root, map[])[h.to := h]);
    }
    hide Put;
  }

  /** Picking the hops of a map one by one picks each of its values once. */
  lemma PickHop(hops: map<Endpoint, Hop>, ep: Endpoint)
    requires Keyed(hops) && ep in hops
    ensures multiset(hops.Values) == multiset((hops - {ep}).Values) + multiset{hops[ep]}
    ensures |hops| == |hops - {ep}| + 1 && Keyed(hops - {ep})
  {
    var rest := hops - {ep};
    assert hops.Keys == rest.Keys + {ep};
    assert hops.Values == rest.Values + {hops[ep]} by {
      forall h | h in hops.Values ensures h in rest.Values + {hops[ep]} {
        var e :| e in hops && hops[e] == h;
        if e != ep { assert e in rest && rest[e] == h; }
      }
    }
    assert hops[ep] !in rest.Values;
  }

  class Session {
    const c: Config
    const dedup: Dedup
    const causal: CausalIndex
    const inFlight: InFlightIndex
    const cancelled: CancelledSet
    const attests: AttestIndex
    const spec: SpecIndex
    const ctxLedger: ContextLedger

    var seqNo: map<Endpoint, nat>
    var pending: map<Id, Held>
    var approved: map<Id, Approval>
    var log: seq<Envelope>
    var ledger: seq<Entry>
    var mint: nat

    ghost var sent: seq<Send>
    ghost var cancelsSent: multiset<Hop>
    ghost var cancelIds: set<Id>
    ghost var cuts: map<Id, nat>
    ghost var gates: seq<GateEvent>

    ghost function Model(): State
      reads this, dedup, causal, inFlight, cancelled, attests, spec, ctxLedger
    {
      State(seqNo, dedup.Value(), pending, approved, causal.Value(), inFlight.Value(), cancelled.Value(),
            attests.Value(), spec.Value(), ctxLedger.consumed,
            log, ledger, mint, sent, cancelsSent, cancelIds, cuts, gates)
    }

    ghost predicate Ready()
      reads this, dedup, causal, inFlight, cancelled, attests, spec, ctxLedger
    {
      && Valid(dedup.Value()) && Valid(causal.Value()) && Valid(cancelled.Value()) && Valid(spec.Value().states)
      && Valid(inFlight.Value()) && AllKeyed(inFlight.Value())
      && attests.Sound() && attests.maxPerRoot == MAX_ATTEST_PER_ROOT
      && ctxLedger.budget == c.budget
    }

    /** A new session over what earlier instances left in the store. */
    constructor (c: Config, log: seq<Envelope>, ledger: seq<Entry>, mint: nat, ghost past: State)
      requires past.log == log && past.ledger == ledger && past.mint == mint
      ensures this.c == c && Ready()
      ensures Model() == Start().(log := log, ledger := ledger, mint := mint, sent := past.sent,
                                  cancelsSent := past.cancelsSent, cancelIds := past.cancelIds, cuts := past.cuts,
                                  gates := past.gates)
    {
      this.c, this.log, this.ledger, this.mint := c, log, ledger, mint;
      seqNo, pending, approved := map[], map[], map[];
      dedup := new Dedup(MAX_DEDUP);
      causal := new CausalIndex(MAX_CAUSAL_ROOTS);
      inFlight := new InFlightIndex(MAX_IN_FLIGHT_ROOTS);
      cancelled := new CancelledSet(MAX_CANCELLED);
      attests := new AttestIndex(MAX_ATTEST_ROOTS, MAX_ATTEST_PER_ROOT);
      spec := new SpecIndex(MAX_SPEC_ROOTS);
      ctxLedger := new ContextLedger(c.budget);
      sent, cancelsSent, cancelIds, cuts, gates := past.sent, past.cancelsSent, past.cancelIds, past.cuts, past.gates;
    }

    method NewId() returns (id: Id)
      modifies this`mint
      ensures id == Minted(old(mint)) && mint == old(mint) + 1
    {
      id := Minted(mint);
      mint := mint + 1;
    }

    method Append(e: Envelope)
      modifies this`log
      ensures log == old(log) + [e]
    {
      log := log + [e];
    }

    /** rootOf */
    method FindRoot(env: Envelope) returns (root: Id)
      ensures root == RootOf(Model(), env)
    {
      if env.node == CLIENT {
        return env.id;
      }
      root := causal.Lookup(env.cause);
    }

    /** Log an envelope of the kernel's own, then send it. */
    method Tell(e: Envelope, d: Dest)
      requires Ready()
      modifies this`log, this`sent
      ensures var s := old(Model());
              Model() == s.(log := s.log + [e], sent := s.sent + [Send(e, d, NoId, |s.log|)])
      ensures Ready()
    {
      sent := sent + [Send(e, d, NoId, |log|)];
      Append(e);
    }

    method EmitError(cause: Id, via: Id)
      requires Ready()
      modifies this`mint, this`log, this`sent
      ensures Model() == EmitErrorF(old(Model()), cause, via) && Ready()
    {
      var id := NewId();
      var e := ErrorEnvelope(id, cause);
      sent := sent + [Send(e, ClientDest("text_in"), via, |log|)];
      Append(e);
    }

    // ---- Forwarding ----

    /** chargeContext */
    method ChargeContext(out: Envelope) returns (over: bool)
      requires Ready()
      modifies ctxLedger
      ensures (ctxLedger.consumed, over) == ContextF(c, old(Model()), out)
    {
      if out.kind != Data || out.node == CLIENT {
        return false;
      }
      over := ctxLedger.Charge(c.bytes(out.payload));
    }

    /** takeApproval: hands back, once, the approval that released a held delivery. */
    method TakeApproval(held: Id) returns (a: Option<Approval>)
      modifies this`approved
      ensures a == if held in old(approved) then Some(old(approved)[held]) else None
      ensures approved == old(approved) - {held}
    {
      a := None;
      if held in approved {
        a := Some(approved[held]);
        approved := approved - {held};
      }
    }

    /** sealEffect: one entry for this delivery, or none if sealing fails. */
    method SealEffect(w: World, out: Envelope, d: Dest, root: Id, via: Id)
      returns (ok: bool, receipt: Option<nat>)
      requires Ready() && out.id.Minted? && out.receipt.None?
      modifies this`approved, this`ledger
      ensures Ready()
      ensures ok == (!c.hasLedger || !IsEffectDelivery(d, out.kind) || w.seal(out.id.n))
      ensures var s := old(Model());
              if !c.hasLedger || !IsEffectDelivery(d, out.kind) then Model() == s && receipt == None
              else if w.seal(out.id.n) then
                receipt == Some(|s.ledger|)
                && Model() == s.(approved := s.approved - {out.cause},
                                 ledger := s.ledger + [DeliveredEntry(c, s, out, d, root, via)])
              else receipt == None && Model() == s.(approved := s.approved - {out.cause})
    {
      if !c.hasLedger || !IsEffectDelivery(d, out.kind) {
        return true, None;
      }
      var decision := if d.gate == HumanApproval then Gate else Allow;
      var cited := attests.Cited(root);
      var approver := TakeApproval(out.cause);
      if !w.seal(out.id.n) {
        return false, None;
      }
      receipt := Some(|ledger|);
      ledger := ledger + [Entry(out.id, out.cause, d.skill.value, decision, true, out.payload, d.waived, c.undoOf,
                                cited.hashes, approver, via)];
      ok := true;
    }

    /** The tail of forward: drop what is late, otherwise log it and hand it over. */
    method Deliver(w: World, src: Envelope, out: Envelope, d: Dest, via: Id)
      requires Ready() && out.id.Minted?
      modifies this`mint, this`log, this`sent
      ensures Model() == DeliverF(c, w, old(Model()), src, out, d, via) && Ready()
    {
      if out.kind == Data && Expired(out.deadline, w.late(out.id.n)) {
        Append(out.(payload := Elided));
        return;
      }
      sent := sent + [Send(out, d, via, |log|)];
      Append(Loggable(c, out, d.qos));
      if !w.send(out.id.n) {
        EmitError(src.id, via);
      }
    }

    /** From the seal on. */
    method Checkpoint(w: World, src: Envelope, out: Envelope, d: Dest, root: Id, via: Id)
      requires Ready() && out.id.Minted? && out.receipt.None?
      modifies this`mint, this`log, this`sent, this`approved, this`ledger
      ensures Model() == CheckpointF(c, w, old(Model()), src, out, d, root, via) && Ready()
    {
      hide DeliverF, EmitErrorF, DeliveredEntry;
      var ok, receipt := SealEffect(w, out, d, root, via);
      if !ok && c.pol.refuseOnSealFailure {
        EmitError(src.id, via);
        return;
      }
      Deliver(w, src, if receipt.Some? then out.(receipt := receipt) else out, d, via);
    }

    /** Keep the chain traceable, and remember who is working on it. */
    method Track(src: Envelope, out: Envelope) returns (root: Id)
      requires Ready()
      modifies causal, inFlight
      ensures Model() == TrackF(old(Model()), src, out) && Ready()
      ensures root == RootOf(old(Model()), src)
    {
      root := FindRoot(src);
      RecordKeyed(inFlight.Value(), root, Hop(Source(out), src.id));
      if root != NoId {
        causal.Set(out.id, root);
        inFlight.Record(root, Hop(Source(out), src.id));
      }
    }

    /** The hop's next number, a new id, and the envelope that carries them. */
    method Stamp(w: World, src: Envelope, d: Dest) returns (out: Envelope)
      requires Ready()
      modifies this`mint, this`seqNo
      ensures out == Outgoing(w, old(Model()), src, d) && Ready()
      ensures var s := old(Model());
              Model() == s.(mint := s.mint + 1, seqNo := s.seqNo[Source(out) := out.seqNo])
    {
      hide Valid, AllKeyed;
      var hop := Endpoint(d.ref, d.port);
      var n := (if hop in seqNo then seqNo[hop] else 0) + 1;
      seqNo := seqNo[hop := n];
      var now := w.clock(mint);
      var id := NewId();
      out := Envelope(id, src.id, d.ref, d.port, n, HopKey(src.idem, hop), src.schema, src.kind, src.payload,
                      None, "", InheritDeadline(src.deadline, d.deadlineMS, now), d.priority, d.speculative);
    }

    method Forward(w: World, src: Envelope, d: Dest, via: Id)
      requires Ready()
      modifies this, causal, inFlight, ctxLedger
      ensures Model() == ForwardF(c, w, old(Model()), src, d, via) && Ready()
    {
      hide DispatchF, EmitErrorF, Valid, AllKeyed;
      if d.skill.Some? && src.kind == Data && Limited(c.pol, d.skill.value.capability) && !w.admit(mint) {
        EmitError(src.id, via);
        return;
      }
      Dispatch(w, src, d, via);
    }

    method Dispatch(w: World, src: Envelope, d: Dest, via: Id)
      requires Ready()
      modifies this, causal, inFlight, ctxLedger
      ensures Model() == DispatchF(c, w, old(Model()), src, d, via) && Ready()
    {
      hide CheckpointF, EmitErrorF, TrackF, Outgoing, ContextF, Valid, AllKeyed;
      ghost var s := Model();
      var out := Stamp(w, src, d);
      ghost var stamped := Model();
      assert out.id.Minted? && out.receipt.None? by { OutgoingIs(w, s, src, d); }
      var over := ChargeContext(out);
      SameCharge(c, s, stamped, out);
      assert Model() == stamped.(consumed := ctxLedger.consumed);
      if over {
        EmitError(src.id, via);
        return;
      }
      var root := Track(src, out);
      Checkpoint(w, src, out, d, root, via);
    }

    // ---- Gates ----

    method HoldForApproval(env: Envelope, d: Dest)
      requires Ready()
      modifies this`mint, this`pending, this`log, this`sent, this`gates
      ensures Model() == HoldF(old(Model()), env, d) && Ready()
    {
      hide Valid, AllKeyed, RequestEnvelope, ClientDest;
      var id := NewId();
      RequestIs(id, env, d);
      pending := pending[id := Held(env, d)];
      gates := gates + [Opened(id, Held(env, d))];
      Tell(RequestEnvelope(id, env, d), ClientDest("confirm_in"));
    }

    /** authorizeGate */
    method Judge(w: World, held: Held, approve: bool, a: Option<Approval>) returns (v: Verdict)
      ensures forall p :: DecodeAnswer(p) == (approve, a) ==> v == AuthorizeGate(c, w.roster, held, p)
    {
      if a.None? {
        if SignedRequired(c.pol) {
          return Rejected;
        }
        return if approve then Approves(None) else Denies(None);
      }
      if w.roster.None? {
        return Rejected;
      }
      if !Check(w.roster.value, a.value, held.env.id, c.signed) {
        return Rejected;
      }
      var shown := CoversAll(a.value, c.pol.requireContext);
      if !shown {
        return Rejected;
      }
      var signed := a.value.decision == APPROVE;
      if signed != approve {
        return Rejected;
      }
      v := if signed then Approves(a) else Denies(a);
    }

    method SealDenial(w: World, held: Held, approval: Option<Approval>, via: Id)
      requires Ready()
      modifies this`ledger
      ensures Model() == SealDenialF(c, w, old(Model()), held, approval, via) && Ready()
    {
      if !c.hasLedger || held.to.skill.None? {
        return;
      }
      var root := FindRoot(held.env);
      var cited := attests.Cited(root);
      if w.seal(mint) {
        ledger := ledger + [Entry(held.env.id, held.env.cause, held.to.skill.value, Gate, false, held.env.payload, false,
                                  c.undoOf, cited.hashes, approval, via)];
      }
    }

    method Deny(w: World, req: Id, held: Held, answer: Envelope, approval: Option<Approval>)
      requires Ready()
      modifies this
      ensures Model() == DenyF(c, w, old(Model()), req, held, answer, approval) && Ready()
    {
      hide EmitErrorF, SealDenialF, Valid, AllKeyed;
      gates := gates + [Refused(req, held, answer)];
      SealDenial(w, held, approval, req);
      EmitError(answer.id, req);
    }

    method Release(w: World, req: Id, held: Held, answer: Envelope, approval: Option<Approval>)
      requires Ready()
      modifies this, causal, inFlight, ctxLedger
      ensures Model() == ReleaseF(c, w, old(Model()), req, held, answer, approval) && Ready()
    {
      hide ForwardF, Valid, AllKeyed;
      if approval.Some? {
        approved := approved[held.env.id := approval.value];
      }
      gates := gates + [Released(req, held, answer, approval, w.roster)];
      Forward(w, held.env, held.to, req);
    }

    method ResolveGate(w: World, answer: Envelope)
      requires Ready()
      modifies this, causal, inFlight, ctxLedger
      ensures Model() == ResolveGateF(c, w, old(Model()), answer) && Ready()
    {
      hide DenyF, ReleaseF, AuthorizeGate, Valid, AllKeyed;
      if answer.cause !in pending {
        return;
      }
      var held := pending[answer.cause];
      pending := pending - {answer.cause};
      Append(answer);
      var (approve, approval) := DecodeAnswer(answer.payload);
      var v := Judge(w, held, approve, approval);
      match v {
        case Rejected => Deny(w, answer.cause, held, answer, None);
        case Denies(a) => Deny(w, answer.cause, held, answer, a);
        case Approves(a) => Release(w, answer.cause, held, answer, a);
      }
    }

    // ---- Speculation ----

    method AbandonSpeculation(id: Id, d: Dest)
      requires Ready()
      modifies this, cancelled
      ensures Model() == AbandonF(old(Model()), id, d) && Ready()
    {
      hide AllKeyed, CancelF;
      cancelled.Add(id);
      if d.skill.None? {
        return;
      }
      var drawn := NewId();
      Tell(KernelEnvelope(drawn, id, d.ref, d.port, Cancel, "", Notice("superseded")), d);
    }

    method AbandonAll(stale: seq<Id>, d: Dest)
      requires Ready()
      modifies this, cancelled
      ensures Model() == AbandonAllF(old(Model()), stale, d) && Ready()
    {
      hide AbandonF, Valid, AllKeyed;
      ghost var s := Model();
      for i := 0 to |stale|
        invariant Model() == AbandonAllF(s, stale[..i], d) && Ready()
      {
        AbandonSpeculation(stale[i], d);
        assert stale[..i + 1][..i] == stale[..i];
      }
      assert stale[..|stale|] == stale;
    }

    method ForwardSpeculatively(w: World, env: Envelope, d: Dest, root: Id)
      requires Ready()
      modifies this, causal, inFlight, ctxLedger, cancelled, spec
      ensures Model() == ForwardSpeculativelyF(c, w, old(Model()), env, d, root) && Ready()
    {
      hide ForwardF, AbandonAllF, FoldF, ResolveF, SpeculateF, StaleF, RunningF, GuessStands, IsFinal, MarkFinal;
      hide Valid, AllKeyed;
      if env.kind != Data || root == NoId {
        Forward(w, env, d, NoId);
        return;
      }
      var key := SpecKey(root, d.from);
      var running := spec.Fold(key, env.schema, env.payload);
      if !IsFinal(env.payload) {
        Forward(w, env.(payload := MarkFinal(running)), d, NoId);
        spec.Speculate(key, env.id);
        return;
      }
      var hit, stale := spec.Resolve(key, running);
      if hit {
        return;
      }
      AbandonAll(stale, d);
      Forward(w, env.(payload := running), d, NoId);
    }

    // ---- Routing ----

    method HandleCancel(env: Envelope)
      requires Ready()
      modifies this`mint, this`cancelsSent, this`cancelIds, this`cuts, inFlight, cancelled
      ensures Model() == HandleCancelF(old(Model()), env) && Ready()
    {
      hide AllKeyed, CancelF;
      var root := env.cause;
      var r := causal.Lookup(env.cause);
      if r != NoId {
        root := r;
      }
      if root == NoId {
        return;
      }
      Abandon(root);
    }

    method Abandon(root: Id)
      requires Ready() && root != NoId
      modifies this`mint, this`cancelsSent, this`cancelIds, this`cuts, inFlight, cancelled
      ensures Model() == AbandonChainF(old(Model()), root) && Ready()
    {
      hide AllKeyed, Valid, CancelF, Remove, Drawn;
      Suppress(root);
      var hops := TakeHops(root);
      AskAll(root, hops);
    }

    method AskAll(root: Id, hops: map<Endpoint, Hop>)
      requires Ready() && Keyed(hops)
      modifies this`mint, this`cancelsSent, this`cancelIds, this`cuts
      ensures var s := old(Model());
              Model() == s.(mint := s.mint + |hops|, cancelsSent := s.cancelsSent + multiset(hops.Values),
                            cancelIds := s.cancelIds + Drawn(s.mint, |hops|), cuts := s.cuts[root := |s.log|])
      ensures Ready()
    {
      hide AllKeyed, Valid, Drawn;
      cuts := cuts[root := |log|];
      AskHops(hops);
    }

    method Suppress(root: Id)
      requires Ready()
      modifies cancelled
      ensures Model() == old(Model()).(cancelled := CancelF(old(Model()).cancelled, root)) && Ready()
    {
      hide AllKeyed, CancelF;
      cancelled.Add(root);
    }

    method TakeHops(root: Id) returns (hops: map<Endpoint, Hop>)
      requires Ready()
      modifies inFlight
      ensures hops == Get(old(Model()).inFlight, root, map[]) && Keyed(hops)
      ensures Model() == old(Model()).(inFlight := Remove(old(Model()).inFlight, root)) && Ready()
    {
      ghost var index := inFlight.Value();
      RemoveKeyed(index, root);
      hide AllKeyed, Remove;
      hops := inFlight.Take(root);
    }

    /** One cancel to each hop, in whatever order the map gives them. */
    method AskHops(hops: map<Endpoint, Hop>)
      requires Keyed(hops)
      modifies this`mint, this`cancelsSent, this`cancelIds
      ensures mint == old(mint) + |hops|
      ensures cancelsSent == old(cancelsSent) + multiset(hops.Values)
      ensures cancelIds == old(cancelIds) + Drawn(old(mint), |hops|)
    {
      var left := hops;
      while left != map[]
        invariant Keyed(left) && old(mint) <= mint && mint + |left| == old(mint) + |hops|
        invariant cancelsSent + multiset(left.Values) == old(cancelsSent) + multiset(hops.Values)
        invariant cancelIds == old(cancelIds) + Drawn(old(mint), mint - old(mint))
        decreases |left|
      {
        var ep :| ep in left;
        PickHop(left, ep);
        var id := NewId();
        cancelsSent := cancelsSent + multiset{left[ep]};
        cancelIds := cancelIds + {id};
        left := left - {ep};
      }
    }

    method RecordAttestation(w: World, root: Id, env: Envelope)
      requires Ready()
      modifies attests
      ensures var s := old(Model());
              Model() == s.(attests := if env.attest == "" then s.attests
                                       else AttestF(s.attests, MAX_ATTEST_PER_ROOT, root, w.attest(env.attest)))
      ensures Ready()
    {
      if env.attest == "" || root == NoId {
        return;
      }
      var hash := w.attest(env.attest);
      attests.Add(root, hash);
    }

    method ToDest(w: World, env: Envelope, d: Dest, root: Id)
      requires Ready()
      modifies this, causal, inFlight, ctxLedger, cancelled, spec
      ensures Model() == ToDestF(c, w, old(Model()), env, d, root) && Ready()
    {
      hide ForwardF, ForwardSpeculativelyF, HoldF, Valid, AllKeyed;
      if d.speculative {
        ForwardSpeculatively(w, env, d, root);
      } else if d.gate == HumanApproval {
        HoldForApproval(env, d);
      } else {
        Forward(w, env, d, NoId);
      }
    }

    method Propagate(w: World, env: Envelope)
      requires Ready()
      modifies this, causal, inFlight, ctxLedger, cancelled, spec, attests
      ensures Model() == PropagateF(c, w, old(Model()), env) && Ready()
    {
      hide ToDestF, Valid, AllKeyed, AttestF;
      var root := FindRoot(env);
      var suppressed := cancelled.Has(root);
      if suppressed {
        return;
      }
      RecordAttestation(w, root, env);
      var dests := DestsAt(c.routes, Source(env));
      ghost var s := Model();
      for i := 0 to |dests|
        invariant Model() == ToDestsF(c, w, s, env, dests[..i], root) && Ready()
      {
        ToDest(w, env, dests[i], root);
        assert dests[..i + 1][..i] == dests[..i];
      }
      assert dests[..|dests|] == dests;
    }

    /** Route: log first, then decide. */
    method Route(w: World, env: Envelope)
      requires Ready()
      modifies this, causal, inFlight, ctxLedger, cancelled, spec, attests, dedup
      ensures Model() == RouteF(c, w, old(Model()), env) && Ready()
    {
      hide HandleCancelF, ResolveGateF, PropagateF, SeenF, AllKeyed;
      Append(env);
      if env.kind == Cancel {
        HandleCancel(env);
        return;
      }
      if env.kind == Data {
        ghost var window := dedup.Value();
        var already := dedup.Seen(env.idem);
        if already {
          SeenAgain(window, env.idem);
          return;
        }
      }
      if env.kind == ConfirmResponse {
        ResolveGate(w, env);
        return;
      }
      Propagate(w, env);
    }

    // ---- Resume ----

    /** The first gated destination with this name, as the resume loop finds it. */
    static method FindGate(dests: seq<Dest>, ref: string, port: string) returns (d: Option<Dest>)
      ensures d == GateFor(dests, ref, port)
    {
      d := None;
      for i := 0 to |dests|
        invariant GateFor(dests, ref, port) == GateFor(dests[i..], ref, port)
      {
        if dests[i].ref == ref && dests[i].port == port && dests[i].gate == HumanApproval {
          return Some(dests[i]);
        }
        assert dests[i..][1..] == dests[i + 1..];
      }
    }

    /** resumeFromLog, on a session that has just been built. */
    method ResumeFromLog(ghost past: State)
      requires Ready() && Model() == ResumeStart(past)
      modifies this, causal, inFlight, cancelled, dedup
      ensures Model() == ResumeF(c, past) && Ready()
    {
      hide Valid, AllKeyed, Replay, PendingFrom;
      var raw := Readable(log);
      EmptyReplay(c);
      var byId, candidates, maxSeq := ReadBack(raw);
      seqNo := maxSeq;
      RebuildPending(byId, candidates, Replay(c, raw));
    }

    /** The resume loop: one pass over the events, oldest first. */
    method ReadBack(raw: seq<Envelope>)
      returns (byId: map<Id, Envelope>, candidates: map<Id, Envelope>, maxSeq: map<Endpoint, nat>)
      requires Ready() && Replay(c, []) == Replayed(map[], map[], map[], dedup.Value(), causal.Value(),
                                                    inFlight.Value(), cancelled.Value())
      modifies causal, inFlight, cancelled, dedup
      ensures Ready() && Replay(c, raw) == Replayed(byId, candidates, maxSeq, dedup.Value(), causal.Value(),
                                                    inFlight.Value(), cancelled.Value())
      ensures Model() == old(Model()).(dedup := dedup.Value(), causal := causal.Value(),
                                       inFlight := inFlight.Value(), cancelled := cancelled.Value())
    {
      hide Valid, AllKeyed, Replay;
      var byDest := set from, d | from in c.routes && d in c.routes[from] :: Endpoint(d.ref, d.port);
      ByDest(c, byDest);
      byId, candidates, maxSeq := map[], map[], map[];
      assert raw[..0] == [];
      for i := 0 to |raw|
        invariant Ready() && Replay(c, raw[..i]) == Replayed(byId, candidates, maxSeq, dedup.Value(), causal.Value(),
                                                             inFlight.Value(), cancelled.Value())
      {
        assert raw[..i + 1][..i] == raw[..i];
        ReplayedNext(c, raw[..i + 1]);
        hide SetRootF, RecordF, CancelF, SeenF, IsDest;
        var env := raw[i];
        byId, candidates, maxSeq := Observe(env, Source(env) in byDest, byId, candidates, maxSeq);
        Reindex(env, Source(env) in byDest);
      }
      assert raw[..|raw|] == raw;
    }

    /** One log entry's effect on the tables the resume loop keeps for itself. */
    static method Observe(env: Envelope, delivered: bool, byId: map<Id, Envelope>, candidates: map<Id, Envelope>,
                          maxSeq: map<Endpoint, nat>)
      returns (byId': map<Id, Envelope>, candidates': map<Id, Envelope>, maxSeq': map<Endpoint, nat>)
      ensures byId' == byId[env.id := env]
      ensures candidates' == if env.kind == ConfirmRequest then candidates[env.id := env]
                             else if env.kind == ConfirmResponse then candidates - {env.cause} else candidates
      ensures var at := Source(env);
              maxSeq' == if delivered && env.seqNo > (if at in maxSeq then maxSeq[at] else 0) then maxSeq[at := env.seqNo]
                         else maxSeq
    {
      byId', candidates', maxSeq' := byId[env.id := env], candidates, maxSeq;
      var key := Source(env);
      if delivered && env.seqNo > (if key in maxSeq then maxSeq[key] else 0) {
        maxSeq' := maxSeq[key := env.seqNo];
      }
      if env.kind == ConfirmRequest {
        candidates' := candidates[env.id := env];
      } else if env.kind == ConfirmResponse {
        candidates' := candidates - {env.cause};
      }
    }

    /** One log entry's effect on the session's own indexes. */
    method Reindex(env: Envelope, delivered: bool)
      requires Ready()
      modifies causal, inFlight, cancelled, dedup
      ensures Ready()
      ensures var s := old(Model());
              var root := RootIn(s.causal, env);
              var causal' := SetRootF(s.causal, env.id, root);
              var named := RootF(causal', env.cause);
              Model() == s.(causal := causal',
                            inFlight := if delivered && env.kind == Data
                                        then RecordF(s.inFlight, root, Hop(Source(env), env.cause)) else s.inFlight,
                            cancelled := if env.kind == Cancel
                                         then CancelF(s.cancelled, if named != NoId then named else env.cause)
                                         else s.cancelled,
                            dedup := if env.kind == Data then SeenF(s.dedup, env.idem) else s.dedup)
    {
      hide Valid, AllKeyed, SetRootF, RecordF, CancelF, SeenF;
      var root := IndexRoot(env);
      if delivered && env.kind == Data {
        RecordKeyed(inFlight.Value(), root, Hop(Source(env), env.cause));
        inFlight.Record(root, Hop(Source(env), env.cause));
      }
      if env.kind == Cancel {
        var croot := env.cause;
        var r := causal.Lookup(env.cause);
        if r != NoId {
          croot := r;
        }
        Suppress(croot);
      } else if env.kind == Data {
        var already := dedup.Seen(env.idem);
      }
    }

    method IndexRoot(env: Envelope) returns (root: Id)
      requires Ready()
      modifies causal
      ensures root == RootIn(old(Model()).causal, env) && Ready()
      ensures Model() == old(Model()).(causal := SetRootF(old(Model()).causal, env.id, root))
    {
      hide AllKeyed;
      root := FindRoot(env);
      if root != NoId {
        causal.Set(env.id, root);
      }
    }

    /** Whatever question survived the pass is still pending. */
    method RebuildPending(byId: map<Id, Envelope>, candidates: map<Id, Envelope>, ghost r: Replayed)
      requires byId == r.byId && candidates == r.candidates && pending == map[]
      modifies this`pending
      ensures pending == PendingFrom(c, r)
    {
      hide HeldFor;
      var left := candidates.Keys;
      while left != {}
        invariant left <= candidates.Keys
        invariant forall id :: id in pending <==> id in candidates && id !in left && HeldFor(c, r, candidates[id]).Some?
        invariant forall id :: id in pending ==> HeldFor(c, r, candidates[id]) == Some(pending[id])
        decreases |left|
      {
        var id :| id in left;
        left := left - {id};
        var held := FindHeld(byId, candidates[id], r);
        if held.Some? {
          pending := pending[id := held.value];
        }
      }
    }

    /** The delivery a surviving question was about, and where it was to go. */
    method FindHeld(byId: map<Id, Envelope>, req: Envelope, ghost r: Replayed) returns (h: Option<Held>)
      requires byId == r.byId
      ensures h == HeldFor(c, r, req)
    {
      if req.cause !in byId {
        return None;
      }
      var held := byId[req.cause];
      var (ref, port) := match req.payload case Question(_, ref, port) => (ref, port) case _ => ("", "");
      var d := FindGate(DestsAt(c.routes, Source(held)), ref, port);
      h := if d.Some? then Some(Held(held, d.value)) else None;
    }
  }

  lemma RequestIs(id: Id, env: Envelope, d: Dest)
    ensures RequestEnvelope(id, env, d).id == id
  {
  }

  lemma RemoveKeyed(f: Fifo<Id, map<Endpoint, Hop>>, root: Id)
    requires Valid(f) && AllKeyed(f)
    ensures AllKeyed(Remove(f, root)) && Keyed(Get(f, root, map[]))
  {
    RemoveValid(f, root);
  }

  lemma OutgoingIs(w: World, s: State, src: Envelope, d: Dest)
    ensures Outgoing(w, s, src, d).id.Minted? && Outgoing(w, s, src, d).receipt.None?
  {
  }

  lemma SameCharge(c: Config, s: State, t: State, out: Envelope)
    requires t.consumed == s.consumed
    ensures ContextF(c, t, out) == ContextF(c, s, out)
  {
  }

  lemma SeenAgain(f: Fifo<string, ()>, key: string)
    ensures key in f.m ==> SeenF(f, key) == f
  {
  }

  /** A rebuilt session before it has read anything back. */
  ghost function ResumeStart(past: State): State {
    Start().(log := past.log, ledger := past.ledger, mint := past.mint, sent := past.sent,
             cancelsSent := past.cancelsSent, cancelIds := past.cancelIds, cuts := past.cuts, gates := past.gates)
  }

  lemma ByDest(c: Config, byDest: set<Endpoint>)
    requires byDest == set from, d | from in c.routes && d in c.routes[from] :: Endpoint(d.ref, d.port)
    ensures forall ep :: ep in byDest <==> IsDest(c, ep)
  {
    forall ep ensures ep in byDest <==> IsDest(c, ep) {
      if IsDest(c, ep) {
        var from :| from in c.routes && LeadsTo(c.routes[from], ep);
        var i :| 0 <= i < |c.routes[from]| && Endpoint(c.routes[from][i].ref, c.routes[from][i].port) == ep;
        assert c.routes[from][i] in c.routes[from];
      }
      if ep in byDest {
        var from, d :| from in c.routes && d in c.routes[from] && Endpoint(d.ref, d.port) == ep;
        var i :| 0 <= i < |c.routes[from]| && c.routes[from][i] == d;
        assert LeadsTo(c.routes[from], ep);
      }
    }
  }

  lemma EmptyReplay(c: Config)
    ensures var s := Start();
            Replay(c, []) == Replayed(map[], map[], map[], s.dedup, s.causal, s.inFlight, s.cancelled)
  {
  }

  lemma ReplayedNext(c: Config, log: seq<Envelope>)
    requires log != []
    ensures Replay(c, log) == ReplayStep(c, Replay(c, log[..|log| - 1]), log[|log| - 1])
  {
  }
}
