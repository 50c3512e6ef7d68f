// Hop sequence numbers across any number of restarts.

module SeqNumbers {
  import opened Options
  import opened Envelopes
  import opened BoundedFifo
  import opened Indexes
  import opened Policies
  import opened Wiring
  import opened Speculation
  import opened Kernel
  import opened Books
  import opened Frames

  /** On every hop the numbers sent only ever went up, and the counter is at least
      the last of them. The kernel's own notices carry no number. */
  ghost predicate Rising(sent: seq<Send>, seqNo: map<Endpoint, nat>) {
    && (forall k :: 0 <= k < |sent| ==> sent[k].env.seqNo <= At(seqNo, Source(sent[k].env)))
    && Increasing(sent)
  }

  ghost predicate Increasing(sent: seq<Send>) {
    forall k, l :: 0 <= k < l < |sent| && Source(sent[k].env) == Source(sent[l].env)
                   && sent[k].env.seqNo > 0 && sent[l].env.seqNo > 0 ==>
      sent[k].env.seqNo < sent[l].env.seqNo
  }

  ghost predicate SendsWired(c: Config, sent: seq<Send>) {
    forall k :: 0 <= k < |sent| && sent[k].env.seqNo > 0 ==> IsDest(c, Source(sent[k].env))
  }

  /** A held delivery waits at a destination its source is wired to. */
  ghost predicate PendingWired(c: Config, pending: map<Id, Held>) {
    forall r :: r in pending ==> pending[r].to in DestsAt(c.routes, Source(pending[r].env))
  }

  ghost predicate Numbering(c: Config, s: State) {
    Rising(s.sent, s.seqNo) && SendsWired(c, s.sent) && PendingWired(c, s.pending)
  }

  lemma WiredIsDest(c: Config, from: Endpoint, d: Dest)
    requires d in DestsAt(c.routes, from)
    ensures IsDest(c, Endpoint(d.ref, d.port))
  {
    var i :| 0 <= i < |c.routes[from]| && c.routes[from][i] == d;
    assert LeadsTo(c.routes[from], Endpoint(d.ref, d.port));
  }

  /** Sending one more envelope: unnumbered, or numbered by the advanced counter. */
  lemma SendRises(c: Config, s: State, x: Send, t: State)
    requires Numbering(c, s)
    requires t.sent == s.sent + [x] && t.pending == s.pending
    requires (x.env.seqNo == 0 && t.seqNo == s.seqNo)
             || (IsDest(c, Source(x.env)) && x.env.seqNo == At(s.seqNo, Source(x.env)) + 1
                 && t.seqNo == s.seqNo[Source(x.env) := x.env.seqNo])
    ensures Numbering(c, t)
  {
  }

  lemma CounterMoves(c: Config, s: State, hop: Endpoint, t: State)
    requires Numbering(c, s) && t.sent == s.sent && t.pending == s.pending
    requires t.seqNo == s.seqNo[hop := At(s.seqNo, hop) + 1]
    ensures Numbering(c, t)
  {
  }

  lemma EmitErrorNumbers(c: Config, s: State, cause: Id, via: Id)
    requires Numbering(c, s)
    ensures Numbering(c, EmitErrorF(s, cause, via))
  {
    var e := ErrorEnvelope(Minted(s.mint), cause);
    SendRises(c, s, Send(e, ClientDest("text_in"), via, |s.log|), EmitErrorF(s, cause, via));
  }

  /** `before` is the session before the hop's counter moved. */
  lemma DeliverNumbers(c: Config, w: World, before: State, s: State, src: Envelope, out: Envelope, d: Dest, via: Id)
    requires Numbering(c, before) && IsDest(c, Source(out)) && out.id.Minted?
    requires s.sent == before.sent && s.pending == before.pending
    requires out.seqNo == At(before.seqNo, Source(out)) + 1
    requires s.seqNo == before.seqNo[Source(out) := out.seqNo]
    ensures Numbering(c, DeliverF(c, w, s, src, out, d, via))
  {
    CounterMoves(c, before, Source(out), s);
    if !Dropped(w, out) {
      var x := Send(out, d, via, |s.log|);
      var s1 := s.(log := s.log + [Loggable(c, out, d.qos)], sent := s.sent + [x]);
      SendRises(c, before, x, s1);
      EmitErrorNumbers(c, s1, src.id, via);
    }
  }

  lemma ForwardNumbers(c: Config, w: World, s: State, src: Envelope, d: Dest, via: Id)
    requires Numbering(c, s) && IsDest(c, Endpoint(d.ref, d.port))
    ensures Numbering(c, ForwardF(c, w, s, src, d, via))
    ensures ForwardF(c, w, s, src, d, via).pending == s.pending
  {
    hide Rising, SendsWired, PendingWired;
    EmitErrorNumbers(c, s, src.id, via);
    if !RateRefused(c, w, s, src, d) {
      var out := Outgoing(w, s, src, d);
      var (consumed, over) := ContextF(c, s, out);
      var s1 := s.(mint := s.mint + 1, seqNo := s.seqNo[Source(out) := out.seqNo], consumed := consumed);
      CounterMoves(c, s, Source(out), s1);
      EmitErrorNumbers(c, s1, src.id, via);
      CheckpointNumbers(c, w, s, TrackF(s1, src, out), src, out, d, RootOf(s1, src), via);
    }
  }

  lemma CheckpointNumbers(c: Config, w: World, before: State, s: State, src: Envelope, out: Envelope, d: Dest, root: Id, via: Id)
    requires Numbering(c, before) && IsDest(c, Source(out)) && out.id.Minted?
    requires s.sent == before.sent && s.pending == before.pending
    requires out.seqNo == At(before.seqNo, Source(out)) + 1
    requires s.seqNo == before.seqNo[Source(out) := out.seqNo]
    ensures Numbering(c, CheckpointF(c, w, s, src, out, d, root, via))
    ensures CheckpointF(c, w, s, src, out, d, root, via).pending == s.pending
  {
    hide Rising, SendsWired, PendingWired, DeliverF, EmitErrorF;
    CheckpointFrame(c, w, s, src, out, d, root, via);
    DeliverNumbers(c, w, before, s, src, out, d, via);
    if c.hasLedger && IsEffectDelivery(d, out.kind) {
      var taken := s.(approved := s.approved - {out.cause});
      CounterMoves(c, before, Source(out), taken);
      EmitErrorNumbers(c, taken, src.id, via);
      DeliverNumbers(c, w, before, taken, src, out, d, via);
      DeliverNumbers(c, w, before, taken.(ledger := s.ledger + [DeliveredEntry(c, s, out, d, root, via)]),
                     src, out.(receipt := Some(|s.ledger|)), d, via);
    }
  }

  lemma AbandonNumbers(c: Config, s: State, ids: seq<Id>, d: Dest)
    requires Numbering(c, s)
    ensures Numbering(c, AbandonAllF(s, ids, d)) && AbandonAllF(s, ids, d).pending == s.pending
  {
    if ids != [] {
      var before, id := ids[..|ids| - 1], ids[|ids| - 1];
      AbandonNumbers(c, s, before, d);
      var s1 := AbandonAllF(s, before, d);
      if d.skill.Some? {
        var e := KernelEnvelope(Minted(s1.mint), id, d.ref, d.port, Cancel, "", Notice("superseded"));
        SendRises(c, s1, Send(e, d, NoId, |s1.log|), AbandonF(s1, id, d));
      }
    }
  }

  lemma ToDestsNumbers(c: Config, w: World, s: State, env: Envelope, dests: seq<Dest>, root: Id)
    requires Numbering(c, s) && forall d :: d in dests ==> d in DestsAt(c.routes, Source(env))
    ensures Numbering(c, ToDestsF(c, w, s, env, dests, root))
  {
    hide ForwardF, HoldF, ForwardSpeculativelyF;
    if dests != [] {
      var before, d := dests[..|dests| - 1], dests[|dests| - 1];
      assert d in dests;
      ToDestsNumbers(c, w, s, env, before, root);
      var s1 := ToDestsF(c, w, s, env, before, root);
      WiredIsDest(c, Source(env), d);
      ForwardNumbers(c, w, s1, env, d, NoId);
      SpeculativeNumbers(c, w, s1, env, d, root);
      HoldNumbers(c, s1, env, d);
    }
  }

  lemma HoldNumbers(c: Config, s: State, env: Envelope, d: Dest)
    requires Numbering(c, s) && d in DestsAt(c.routes, Source(env))
    ensures Numbering(c, HoldF(s, env, d))
  {
    var req := RequestEnvelope(Minted(s.mint), env, d);
    var t := HoldF(s, env, d);
    SendRises(c, s, Send(req, ClientDest("confirm_in"), NoId, |s.log|), t.(pending := s.pending));
  }

  lemma SpeculativeNumbers(c: Config, w: World, s: State, env: Envelope, d: Dest, root: Id)
    requires Numbering(c, s) && IsDest(c, Endpoint(d.ref, d.port))
    ensures Numbering(c, ForwardSpeculativelyF(c, w, s, env, d, root))
  {
    hide ForwardF, FoldF, ResolveF, SpeculateF, StaleF, AbandonAllF, RunningF, GuessStands, IsFinal, MarkFinal;
    hide Rising, SendsWired, PendingWired;
    if env.kind != Data || root == NoId {
      ForwardNumbers(c, w, s, env, d, NoId);
    } else {
      var key := SpecKey(root, d.from);
      var folded := FoldF(s.spec, key, env.schema, env.payload);
      var running := RunningF(folded, key);
      if !IsFinal(env.payload) {
        ForwardNumbers(c, w, s.(spec := folded), env.(payload := MarkFinal(running)), d, NoId);
      } else {
        var resolved := s.(spec := ResolveF(folded, key, running));
        var stale := StaleF(folded, key, running);
        AbandonNumbers(c, resolved, stale, d);
        ForwardNumbers(c, w, AbandonAllF(resolved, stale, d), env.(payload := running), d, NoId);
      }
    }
  }

  lemma ResolveNumbers(c: Config, w: World, s: State, answer: Envelope)
    requires Numbering(c, s)
    ensures Numbering(c, ResolveGateF(c, w, s, answer))
  {
    hide ForwardF, EmitErrorF, AuthorizeGate, Rising, SendsWired;
    if answer.cause in s.pending {
      var held := s.pending[answer.cause];
      var s1 := s.(pending := s.pending - {answer.cause}, log := s.log + [answer]);
      WiredIsDest(c, Source(held.env), held.to);
      match AuthorizeGate(c, w.roster, held, answer.payload) {
        case Rejected =>
          EmitErrorNumbers(c, SealDenialF(c, w, s1.(gates := s1.gates + [Refused(answer.cause, held, answer)]),
                                          held, None, answer.cause), answer.id, answer.cause);
        case Denies(a) =>
          EmitErrorNumbers(c, SealDenialF(c, w, s1.(gates := s1.gates + [Refused(answer.cause, held, answer)]),
                                          held, a, answer.cause), answer.id, answer.cause);
        case Approves(a) =>
          var parked := if a.Some? then s1.(approved := s1.approved[held.env.id := a.value]) else s1;
          ForwardNumbers(c, w, parked.(gates := s1.gates + [Released(answer.cause, held, answer, a, w.roster)]),
                         held.env, held.to, answer.cause);
      }
    }
  }

  lemma RouteNumbers(c: Config, w: World, s: State, env: Envelope)
    requires Numbering(c, s)
    ensures Numbering(c, RouteF(c, w, s, env))
  {
    hide ToDestsF, ResolveGateF, Duplicate, CancelTarget, AttestF, SeenF, Rising, SendsWired, PendingWired;
    var logged := s.(log := s.log + [env]);
    if env.kind != Cancel && !Duplicate(s, env) {
      var seen := if env.kind == Data then logged.(dedup := SeenF(s.dedup, env.idem)) else logged;
      ResolveNumbers(c, w, seen, env);
      var noted := seen.(attests := if env.attest == "" then seen.attests
                                    else AttestF(seen.attests, MAX_ATTEST_PER_ROOT, RootOf(seen, env), w.attest(env.attest)));
      ToDestsNumbers(c, w, noted, env, DestsAt(c.routes, Source(env)), RootOf(seen, env));
    }
  }

  lemma {:induction false} ReplayedMax(c: Config, log: seq<Envelope>, i: nat)
    requires i < |log| && IsDest(c, Source(log[i]))
    ensures log[i].seqNo <= At(Replay(c, log).maxSeq, Source(log[i]))
  {
    var before := log[..|log| - 1];
    if i < |before| {
      assert before[i] == log[i];
      ReplayedMax(c, before, i);
    }
  }

  lemma GateForFinds(dests: seq<Dest>, ref: string, port: string)
    ensures GateFor(dests, ref, port).Some? ==> GateFor(dests, ref, port).value in dests
    ensures GateFor(dests, ref, port).Some? ==> GateFor(dests, ref, port).value.gate == HumanApproval
  {
  }

  lemma RebuiltIsWired(c: Config, r: Replayed)
    ensures PendingWired(c, PendingFrom(c, r))
  {
    forall id | id in PendingFrom(c, r)
      ensures PendingFrom(c, r)[id].to in DestsAt(c.routes, Source(PendingFrom(c, r)[id].env))
    {
      var req := r.candidates[id];
      var (ref, port) := match req.payload case Question(_, ref, port) => (ref, port) case _ => ("", "");
      GateForFinds(DestsAt(c.routes, Source(r.byId[req.cause])), ref, port);
    }
  }

  lemma ResumeNumbers(c: Config, s: State)
    requires Numbering(c, s) && Ordered(s) && |s.log| <= RESUME_LIMIT
    ensures Numbering(c, ResumeF(c, s))
  {
    hide Replay;
    forall k | 0 <= k < |s.sent|
      ensures s.sent[k].env.seqNo <= At(Replay(c, s.log).maxSeq, Source(s.sent[k].env))
    {
      assert SendOk(s.log, s.mint, s.sent[k]);
      if s.sent[k].env.seqNo > 0 {
        ReplayedMax(c, s.log, s.sent[k].at);
      }
    }
    RebuiltIsWired(c, Replay(c, s.log));
  }

  /** Whatever is refused, dropped or lost in between, and however often the session
      is rebuilt from a log it can read whole, the numbers a hop is sent only rise. */
  lemma {:induction false} HopNumbersRise(c: Config, inputs: seq<Input>)
    requires Readably(c, inputs)
    ensures Numbering(c, Run(c, inputs)) && Ordered(Run(c, inputs))
    ensures Increasing(Run(c, inputs).sent)
  {
    if inputs != [] {
      var before, last := inputs[..|inputs| - 1], inputs[|inputs| - 1];
      HopNumbersRise(c, before);
      match last {
        case Arrive(env, w) =>
          RouteNumbers(c, w, Run(c, before), env);
          RouteOrdered(c, w, Run(c, before), env);
        case Crash =>
          ResumeNumbers(c, Run(c, before));
          ResumeOrdered(c, Run(c, before));
      }
    }
  }
}
