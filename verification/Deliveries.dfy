// What is delivered is what was emitted: the content, key and deadline of every
// delivery, over whole runs.

module Deliveries {
  import opened Options
  import opened Envelopes
  import opened BoundedFifo
  import opened Indexes
  import opened Policies
  import opened Graphs
  import opened Wiring
  import opened Budgets
  import opened Speculation
  import opened Kernel
  import opened Frames
  import opened Resumes

  /** No later than what the chain was given, if it was given anything. */
  ghost predicate Tightens(given: int, deadline: int) {
    given != 0 ==> deadline != 0 && deadline <= given
  }

  /** The delivery passes this envelope on: same kind, schema and content (a guess may
      replace the content on a speculating edge), the key the hop derives from its
      key, and no more time than it had left. */
  ghost predicate Carries(x: Send, src: Envelope) {
    && x.env.cause == src.id && x.env.kind == src.kind && x.env.schema == src.schema
    && (!x.to.speculative ==> x.env.payload == src.payload)
    && x.env.idem == HopKey(src.idem, Source(x.env)) && Source(x.env) == Endpoint(x.to.ref, x.to.port)
    && Tightens(src.deadline, x.env.deadline)
  }

  ghost predicate CarriesOneOf(log: seq<Envelope>, x: Send) {
    exists j :: 0 <= j < |log| && Carries(x, log[j])
  }

  ghost predicate Faithful(log: seq<Envelope>, sent: seq<Send>) {
    forall k :: 0 <= k < |sent| && sent[k].env.seqNo > 0 ==> CarriesOneOf(log, sent[k])
  }

  ghost predicate HoldsLogged(log: seq<Envelope>, pending: map<Id, Held>) {
    forall r :: r in pending ==> pending[r].env in log
  }

  ghost predicate PassedOn(s: State) {
    Faithful(s.log, s.sent) && HoldsLogged(s.log, s.pending)
  }

  /** From `s` to `t` only `src` was passed on. */
  ghost predicate Passes(s: State, t: State, src: Envelope) {
    && s.log <= t.log && s.sent <= t.sent && t.pending == s.pending
    && forall k :: |s.sent| <= k < |t.sent| && t.sent[k].env.seqNo > 0 ==> Carries(t.sent[k], src)
  }

  lemma PassedStays(s: State, t: State, src: Envelope)
    requires PassedOn(s) && Passes(s, t, src) && src in t.log
    ensures PassedOn(t)
  {
    forall k | 0 <= k < |t.sent| && t.sent[k].env.seqNo > 0 ensures CarriesOneOf(t.log, t.sent[k]) {
      if k < |s.sent| {
        assert CarriesOneOf(s.log, s.sent[k]);
        var j :| 0 <= j < |s.log| && Carries(s.sent[k], s.log[j]);
        assert Carries(t.sent[k], t.log[j]);
      } else {
        var j :| 0 <= j < |t.log| && t.log[j] == src;
        assert Carries(t.sent[k], t.log[j]);
      }
    }
    forall r | r in t.pending ensures t.pending[r].env in t.log {
      assert s.pending[r].env in s.log;
    }
  }

  lemma DeliverPasses(c: Config, w: World, s: State, src: Envelope, out: Envelope, d: Dest, via: Id)
    requires out.id.Minted? && forall at :: Carries(Send(out, d, via, at), src)
    ensures Passes(s, DeliverF(c, w, s, src, out, d, via), src)
  {
    hide Carries, EmitErrorF, Loggable;
    if !Dropped(w, out) {
      var s1 := s.(log := s.log + [Loggable(c, out, d.qos)], sent := s.sent + [Send(out, d, via, |s.log|)]);
      assert Passes(s, s1, src);
      ErrorPasses(s1, src.id, via, src);
      PassesChain(s, s1, EmitErrorF(s1, src.id, via), src);
    }
  }

  lemma ErrorPasses(s: State, cause: Id, via: Id, src: Envelope)
    ensures Passes(s, EmitErrorF(s, cause, via), src)
  {
    hide Carries;
  }

  lemma SealedCarries(x: Send, src: Envelope, receipt: Option<nat>)
    requires Carries(x, src)
    ensures Carries(x.(env := x.env.(receipt := receipt)), src)
  {
  }

  lemma CheckpointPasses(c: Config, w: World, s: State, src: Envelope, out: Envelope, d: Dest, root: Id, via: Id)
    requires out.id.Minted? && forall at :: Carries(Send(out, d, via, at), src)
    ensures Passes(s, CheckpointF(c, w, s, src, out, d, root, via), src)
  {
    hide DeliverF, EmitErrorF, Carries, DeliveredEntry;
    DeliverPasses(c, w, s, src, out, d, via);
    if c.hasLedger && IsEffectDelivery(d, out.kind) {
      var taken := s.(approved := s.approved - {out.cause});
      var sealed := out.(receipt := Some(|s.ledger|));
      forall at ensures Carries(Send(sealed, d, via, at), src) {
        SealedCarries(Send(out, d, via, at), src, sealed.receipt);
      }
      ErrorPasses(taken, src.id, via, src);
      DeliverPasses(c, w, taken, src, out, d, via);
      DeliverPasses(c, w, taken.(ledger := s.ledger + [DeliveredEntry(c, s, out, d, root, via)]), src, sealed, d, via);
    }
  }

  lemma OutgoingCarries(w: World, s: State, src: Envelope, d: Dest, via: Id)
    ensures forall at :: Carries(Send(Outgoing(w, s, src, d), d, via, at), src)
  {
  }

  lemma ForwardPasses(c: Config, w: World, s: State, src: Envelope, d: Dest, via: Id)
    ensures Passes(s, ForwardF(c, w, s, src, d, via), src)
  {
    hide CheckpointF, Carries;
    if !RateRefused(c, w, s, src, d) {
      var out := Outgoing(w, s, src, d);
      OutgoingCarries(w, s, src, d, via);
      hide Outgoing;
      OutgoingId(w, s, src, d);
      var (consumed, over) := ContextF(c, s, out);
      var s1 := s.(mint := s.mint + 1, seqNo := s.seqNo[Source(out) := out.seqNo], consumed := consumed);
      CheckpointPasses(c, w, TrackF(s1, src, out), src, out, d, RootOf(s1, src), via);
    }
  }

  lemma OutgoingId(w: World, s: State, src: Envelope, d: Dest)
    ensures Outgoing(w, s, src, d).id.Minted?
  {
  }

  /** On a speculating edge a guess stands in for the content only. */
  lemma GuessPasses(s: State, t: State, src: Envelope, p: Payload, d: Dest)
    requires Passes(s, t, src.(payload := p)) && d.speculative
    requires Only(s, t, d)
    ensures Passes(s, t, src)
  {
    forall k | |s.sent| <= k < |t.sent| && t.sent[k].env.seqNo > 0 ensures Carries(t.sent[k], src) {
      assert Carries(t.sent[k], src.(payload := p));
    }
  }

  lemma {:induction false} AbandonPasses(s: State, ids: seq<Id>, d: Dest, src: Envelope)
    ensures Passes(s, AbandonAllF(s, ids, d), src)
  {
    hide Carries, CancelF;
    if ids != [] {
      AbandonPasses(s, ids[..|ids| - 1], d, src);
    }
  }

  lemma PassesChain(s: State, t: State, u: State, src: Envelope)
    requires Passes(s, t, src) && Passes(t, u, src)
    ensures Passes(s, u, src)
  {
    hide Carries;
  }

  ghost predicate Only(s: State, t: State, d: Dest) {
    s.sent <= t.sent && forall k :: |s.sent| <= k < |t.sent| && t.sent[k].env.seqNo > 0 ==> t.sent[k].to == d
  }

  /** A forward delivers to its destination only. */
  lemma ForwardTo(c: Config, w: World, s: State, src: Envelope, d: Dest, via: Id)
    ensures Only(s, ForwardF(c, w, s, src, d, via), d)
  {
    hide CheckpointF, Outgoing;
    if !RateRefused(c, w, s, src, d) {
      var out := Outgoing(w, s, src, d);
      OutgoingId(w, s, src, d);
      var (consumed, over) := ContextF(c, s, out);
      var s1 := s.(mint := s.mint + 1, seqNo := s.seqNo[Source(out) := out.seqNo], consumed := consumed);
      CheckpointTo(c, w, TrackF(s1, src, out), src, out, d, RootOf(s1, src), via);
    }
  }

  lemma CheckpointTo(c: Config, w: World, s: State, src: Envelope, out: Envelope, d: Dest, root: Id, via: Id)
    requires out.id.Minted?
    ensures Only(s, CheckpointF(c, w, s, src, out, d, root, via), d)
  {
    hide DeliverF, DeliveredEntry, EmitErrorF, Only;
    DeliverTo(c, w, s, src, out, d, via);
    if c.hasLedger && IsEffectDelivery(d, out.kind) {
      var taken := s.(approved := s.approved - {out.cause});
      ErrorTo(s, taken, src.id, via, d);
      SameSent(s, taken, DeliverF(c, w, taken, src, out, d, via), d);
      var s1 := taken.(ledger := s.ledger + [DeliveredEntry(c, s, out, d, root, via)]);
      SameSent(s, s1, DeliverF(c, w, s1, src, out.(receipt := Some(|s.ledger|)), d, via), d);
      DeliverTo(c, w, taken, src, out, d, via);
      DeliverTo(c, w, taken.(ledger := s.ledger + [DeliveredEntry(c, s, out, d, root, via)]),
                src, out.(receipt := Some(|s.ledger|)), d, via);
    }
  }

  lemma ErrorTo(s: State, taken: State, cause: Id, via: Id, d: Dest)
    requires taken.sent == s.sent
    ensures Only(s, EmitErrorF(taken, cause, via), d)
  {
  }

  lemma SameSent(s: State, s1: State, t: State, d: Dest)
    requires s1.sent == s.sent
    ensures Only(s1, t, d) ==> Only(s, t, d)
  {
  }

  lemma DeliverTo(c: Config, w: World, s: State, src: Envelope, out: Envelope, d: Dest, via: Id)
    requires out.id.Minted?
    ensures Only(s, DeliverF(c, w, s, src, out, d, via), d)
  {
    hide Loggable;
  }

  lemma SpeculativePasses(c: Config, w: World, s: State, env: Envelope, d: Dest, root: Id)
    requires d.speculative
    ensures Passes(s, ForwardSpeculativelyF(c, w, s, env, d, root), env)
  {
    hide ForwardF, AbandonAllF, FoldF, ResolveF, SpeculateF, StaleF, RunningF, GuessStands, IsFinal, MarkFinal, Carries;
    var key := SpecKey(root, d.from);
    var folded := FoldF(s.spec, key, env.schema, env.payload);
    var running := RunningF(folded, key);
    if env.kind != Data || root == NoId {
      ForwardPasses(c, w, s, env, d, NoId);
    } else if !IsFinal(env.payload) {
      var s1, guess := s.(spec := folded), MarkFinal(running);
      ForwardPasses(c, w, s1, env.(payload := guess), d, NoId);
      ForwardTo(c, w, s1, env.(payload := guess), d, NoId);
      GuessPasses(s1, ForwardF(c, w, s1, env.(payload := guess), d, NoId), env, guess, d);
    } else {
      var resolved, stale := s.(spec := ResolveF(folded, key, running)), StaleF(folded, key, running);
      var s1 := AbandonAllF(resolved, stale, d);
      AbandonPasses(resolved, stale, d, env);
      ForwardPasses(c, w, s1, env.(payload := running), d, NoId);
      ForwardTo(c, w, s1, env.(payload := running), d, NoId);
      var t := ForwardF(c, w, s1, env.(payload := running), d, NoId);
      GuessPasses(s1, t, env, running, d);
      PassesChain(resolved, s1, t, env);
    }
  }

  lemma HoldPassed(s: State, env: Envelope, d: Dest)
    requires PassedOn(s) && env in s.log
    ensures PassedOn(HoldF(s, env, d)) && env in HoldF(s, env, d).log
  {
    var t := HoldF(s, env, d);
    var u := t.(pending := s.pending);
    assert Passes(s, u, env);
    hide Faithful;
    PassedStays(s, u, env);
  }

  lemma {:induction false} ToDestsPassed(c: Config, w: World, s: State, env: Envelope, dests: seq<Dest>, root: Id)
    requires PassedOn(s) && env in s.log
    ensures PassedOn(ToDestsF(c, w, s, env, dests, root)) && env in ToDestsF(c, w, s, env, dests, root).log
  {
    hide ForwardF, ForwardSpeculativelyF, HoldF, PassedOn, Carries;
    if dests != [] {
      var before, d := dests[..|dests| - 1], dests[|dests| - 1];
      ToDestsPassed(c, w, s, env, before, root);
      var s1 := ToDestsF(c, w, s, env, before, root);
      if d.speculative {
        SpeculativePasses(c, w, s1, env, d, root);
        PassedStays(s1, ForwardSpeculativelyF(c, w, s1, env, d, root), env);
      } else if d.gate == HumanApproval {
        HoldPassed(s1, env, d);
      } else {
        ForwardPasses(c, w, s1, env, d, NoId);
        PassedStays(s1, ForwardF(c, w, s1, env, d, NoId), env);
      }
    }
  }

  lemma Quiet(s: State, t: State)
    requires PassedOn(s) && s.log <= t.log && t.sent == s.sent && t.pending.Keys <= s.pending.Keys
    requires forall r :: r in t.pending ==> t.pending[r] == s.pending[r]
    ensures PassedOn(t)
  {
    forall k | 0 <= k < |t.sent| && t.sent[k].env.seqNo > 0 ensures CarriesOneOf(t.log, t.sent[k]) {
      assert CarriesOneOf(s.log, s.sent[k]);
      var j :| 0 <= j < |s.log| && Carries(s.sent[k], s.log[j]);
      assert Carries(t.sent[k], t.log[j]);
    }
    forall r | r in t.pending ensures t.pending[r].env in t.log {
      assert s.pending[r].env in s.log;
    }
  }

  lemma DenyPasses(c: Config, w: World, s: State, req: Id, held: Held, answer: Envelope, a: Option<Approval>)
    ensures Passes(s, DenyF(c, w, s, req, held, answer, a), held.env)
  {
    hide Carries;
  }

  lemma ReleasePasses(c: Config, w: World, s: State, req: Id, held: Held, answer: Envelope, a: Option<Approval>)
    ensures Passes(s, ReleaseF(c, w, s, req, held, answer, a), held.env)
  {
    hide ForwardF, Carries;
    var parked := if a.Some? then s.(approved := s.approved[held.env.id := a.value]) else s;
    ForwardPasses(c, w, parked.(gates := s.gates + [Released(req, held, answer, a, w.roster)]), held.env, held.to, req);
  }

  lemma ResolvePassed(c: Config, w: World, s: State, answer: Envelope)
    requires PassedOn(s)
    ensures PassedOn(ResolveGateF(c, w, s, answer))
  {
    hide DenyF, ReleaseF, AuthorizeGate, Faithful, Carries;
    if answer.cause in s.pending {
      var held := s.pending[answer.cause];
      var s1 := s.(pending := s.pending - {answer.cause}, log := s.log + [answer]);
      Quiet(s, s1);
      assert held.env in s.log;
      var t := ResolveGateF(c, w, s, answer);
      match AuthorizeGate(c, w.roster, held, answer.payload) {
        case Rejected => DenyPasses(c, w, s1, answer.cause, held, answer, None);
        case Denies(a) => DenyPasses(c, w, s1, answer.cause, held, answer, a);
        case Approves(a) => ReleasePasses(c, w, s1, answer.cause, held, answer, a);
      }
      PassedStays(s1, t, held.env);
    }
  }

  lemma RoutePassed(c: Config, w: World, s: State, env: Envelope)
    requires PassedOn(s)
    ensures PassedOn(RouteF(c, w, s, env))
  {
    hide ToDestsF, ResolveGateF, AttestF, SeenF, CancelTarget, AbandonChainF, PassedOn, Carries;
    var logged := s.(log := s.log + [env]);
    Quiet(s, logged);
    if env.kind == Cancel {
      CancelQuiet(logged, env);
      Quiet(logged, HandleCancelF(logged, env));
    } else if !Duplicate(s, env) {
      var seen := if env.kind == Data then logged.(dedup := SeenF(s.dedup, env.idem)) else logged;
      Quiet(logged, seen);
      ResolvePassed(c, w, seen, env);
      var noted := seen.(attests := if env.attest == "" then seen.attests
                                    else AttestF(seen.attests, MAX_ATTEST_PER_ROOT, RootOf(seen, env), w.attest(env.attest)));
      Quiet(seen, noted);
      ToDestsPassed(c, w, noted, env, DestsAt(c.routes, Source(env)), RootOf(seen, env));
    }
  }

  lemma CancelQuiet(s: State, env: Envelope)
    ensures HandleCancelF(s, env).log == s.log && HandleCancelF(s, env).sent == s.sent
    ensures HandleCancelF(s, env).pending == s.pending
  {
  }

  lemma ResumePassed(c: Config, s: State)
    requires PassedOn(s)
    ensures PassedOn(ResumeF(c, s))
  {
    hide Faithful;
    ReplayedAt(c, Readable(s.log));
    hide Replay;
  }

  lemma {:induction false} PassedInEveryRun(c: Config, inputs: seq<Input>)
    ensures PassedOn(Run(c, inputs))
  {
    hide RouteF, ResumeF, PassedOn;
    if inputs == [] {
      StartPassed();
    } else {
      var before := inputs[..|inputs| - 1];
      PassedInEveryRun(c, before);
      match inputs[|inputs| - 1] {
        case Arrive(env, w) => RoutePassed(c, w, Run(c, before), env);
        case Crash => ResumePassed(c, Run(c, before));
      }
    }
  }

  lemma StartPassed()
    ensures PassedOn(Start())
  {
  }

  /** In every run, whatever arrives and wherever it crashes, each delivery along an
      edge, released by a gate or not, carries an envelope on record: its kind, its
      schema, off speculating edges its very content, the key the hop derives from
      its key, and a deadline no later than the one it came with. */
  lemma DeliveredAsEmitted(c: Config, inputs: seq<Input>, k: nat)
    requires k < |Run(c, inputs).sent| && Run(c, inputs).sent[k].env.seqNo > 0
    ensures exists j :: 0 <= j < |Run(c, inputs).log| && Carries(Run(c, inputs).sent[k], Run(c, inputs).log[j])
  {
    PassedInEveryRun(c, inputs);
    hide Run, Carries;
    assert CarriesOneOf(Run(c, inputs).log, Run(c, inputs).sent[k]);
  }
}
