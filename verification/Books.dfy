// The log as a record: what a session wrote before it sent, in what order, and
// under which numbers, in every run.

module Books {
  import opened Options
  import opened Envelopes
  import opened BoundedFifo
  import opened Indexes
  import opened Policies
  import opened Wiring
  import opened Speculation
  import opened Kernel

  /** What arrives from outside carries an id its sender chose, never one of the
      kernel's. Nothing else is asked of clients and skills here. */
  ghost predicate FromOutside(i: Input) {
    i.Arrive? ==> i.env.id.External?
  }

  /** A restart can read the whole log only while it is short enough. */
  ghost predicate Readably(c: Config, inputs: seq<Input>) {
    inputs != [] ==>
      var before := inputs[..|inputs| - 1];
      && Readably(c, before)
      && FromOutside(inputs[|inputs| - 1])
      && (inputs[|inputs| - 1].Crash? ==> |Run(c, before).log| <= RESUME_LIMIT)
  }

  // ---- The log is a topological order of causality. ----

  ghost predicate KnownBefore(log: seq<Envelope>, i: nat, id: Id) {
    exists j :: 0 <= j < i && j < |log| && log[j].id == id
  }

  ghost predicate Known(s: State, id: Id) {
    KnownBefore(s.log, |s.log|, id)
  }

  ghost predicate Below(mint: nat, id: Id) {
    id.Minted? && id.n < mint
  }

  /** Every kernel-minted entry cites an entry before it, under a number already drawn. */
  ghost predicate EntryOk(log: seq<Envelope>, mint: nat, i: nat)
    requires i < |log|
  {
    log[i].id.External? || (Below(mint, log[i].id) && KnownBefore(log, i, log[i].cause))
  }

  ghost predicate LogOk(log: seq<Envelope>, mint: nat) {
    forall i :: 0 <= i < |log| ==> EntryOk(log, mint, i)
  }

  ghost predicate SameHeader(a: Envelope, b: Envelope) {
    a == b.(payload := a.payload)
  }

  /** A send names the log position its envelope was written at first. */
  ghost predicate SendOk(log: seq<Envelope>, mint: nat, x: Send) {
    x.at < |log| && SameHeader(log[x.at], x.env) && Below(mint, x.env.id)
  }

  ghost predicate SendsOk(log: seq<Envelope>, mint: nat, sent: seq<Send>) {
    forall k :: 0 <= k < |sent| ==> SendOk(log, mint, sent[k])
  }

  ghost predicate PendingKnown(log: seq<Envelope>, pending: map<Id, Held>) {
    forall r :: r in pending ==> KnownBefore(log, |log|, pending[r].env.id)
  }

  ghost predicate GuessesKnown(log: seq<Envelope>, spec: SpecValue) {
    forall k :: k in spec.states.m ==> AllKnown(log, spec.states.m[k].deliveries)
  }

  /** All of them arrived. */
  ghost predicate AllKnown(log: seq<Envelope>, ids: seq<Id>) {
    forall n :: 0 <= n < |ids| ==> ids[n].External? && KnownBefore(log, |log|, ids[n])
  }

  /** The order invariant of a session's record. */
  ghost predicate Ordered(s: State) {
    && LogOk(s.log, s.mint)
    && SendsOk(s.log, s.mint, s.sent)
    && PendingKnown(s.log, s.pending)
    && GuessesKnown(s.log, s.spec)
  }

  /** `t` only adds to what `s` recorded. */
  ghost predicate Extends(s: State, t: State) {
    s.log <= t.log && s.mint <= t.mint && s.sent <= t.sent
  }

  lemma KnownGrows(log: seq<Envelope>, more: seq<Envelope>)
    requires log <= more
    ensures forall i: nat, id :: i <= |log| && KnownBefore(log, i, id) ==> KnownBefore(more, i, id)
    ensures forall id :: KnownBefore(log, |log|, id) ==> KnownBefore(more, |more|, id)
  {
    forall i: nat, id | i <= |log| && KnownBefore(log, i, id)
      ensures KnownBefore(more, i, id) && KnownBefore(more, |more|, id)
    {
      var j :| 0 <= j < i && j < |log| && log[j].id == id;
      assert more[j].id == id;
    }
  }

  lemma LogAppend(log: seq<Envelope>, mint: nat, e: Envelope, mint': nat)
    requires LogOk(log, mint) && mint <= mint'
    requires e.id.External? || (Below(mint', e.id) && KnownBefore(log, |log|, e.cause))
    ensures LogOk(log + [e], mint')
  {
    var more := log + [e];
    KnownGrows(log, more);
    forall i | 0 <= i < |more| ensures EntryOk(more, mint', i) {
      if i < |log| {
        assert EntryOk(log, mint, i);
        assert more[i] == log[i];
      }
    }
  }

  lemma SendsKept(log: seq<Envelope>, mint: nat, sent: seq<Send>, more: seq<Envelope>, mint': nat)
    requires SendsOk(log, mint, sent) && log <= more && mint <= mint'
    ensures SendsOk(more, mint', sent)
  {
    forall k | 0 <= k < |sent| ensures SendOk(more, mint', sent[k]) {
      assert SendOk(log, mint, sent[k]);
    }
  }

  /** Writing one entry, and perhaps sending it, keeps the record in order. */
  lemma Write(s: State, e: Envelope, mint: nat, x: Send, t: State)
    requires Ordered(s) && s.mint <= mint
    requires e.id.External? || (Below(mint, e.id) && Known(s, e.cause))
    requires t.log == s.log + [e] && t.mint == mint && t.pending == s.pending && t.spec == s.spec
    requires t.sent == s.sent
             || (t.sent == s.sent + [x] && x.at == |s.log| && SameHeader(e, x.env) && e.id.Minted?)
    ensures Ordered(t) && Extends(s, t)
    ensures forall id :: Known(s, id) ==> Known(t, id)
    ensures Known(t, e.id)
  {
    LogAppend(s.log, s.mint, e, mint);
    SendsKept(s.log, s.mint, s.sent, t.log, mint);
    KnownGrows(s.log, t.log);
    assert t.log[|s.log|] == e;
    forall k | k in t.spec.states.m ensures AllKnown(t.log, t.spec.states.m[k].deliveries) {
      assert AllKnown(s.log, s.spec.states.m[k].deliveries);
    }
  }

  lemma EmitErrorOrdered(s: State, cause: Id, via: Id)
    requires Ordered(s) && Known(s, cause)
    ensures var t := EmitErrorF(s, cause, via);
            Ordered(t) && Extends(s, t) && (forall id :: Known(s, id) ==> Known(t, id))
  {
    var e := ErrorEnvelope(Minted(s.mint), cause);
    Write(s, e, s.mint + 1, Send(e, ClientDest("text_in"), via, |s.log|), EmitErrorF(s, cause, via));
  }

  lemma DeliverOrdered(c: Config, w: World, s: State, src: Envelope, out: Envelope, d: Dest, via: Id)
    requires Ordered(s) && Known(s, src.id) && out.cause == src.id && Below(s.mint, out.id)
    ensures var t := DeliverF(c, w, s, src, out, d, via);
            Ordered(t) && Extends(s, t) && (forall id :: Known(s, id) ==> Known(t, id))
  {
    hide EmitErrorF, LogOk, SendsOk, PendingKnown, GuessesKnown;
    var x := Send(out, d, via, |s.log|);
    if Dropped(w, out) {
      Write(s, out.(payload := Elided), s.mint, x, DeliverF(c, w, s, src, out, d, via));
    } else {
      var s1 := s.(log := s.log + [Loggable(c, out, d.qos)], sent := s.sent + [x]);
      Write(s, Loggable(c, out, d.qos), s.mint, x, s1);
      EmitErrorOrdered(s1, src.id, via);
    }
  }

  lemma CheckpointOrdered(c: Config, w: World, s: State, src: Envelope, out: Envelope, d: Dest, root: Id, via: Id)
    requires Ordered(s) && Known(s, src.id) && out.cause == src.id && Below(s.mint, out.id)
    ensures var t := CheckpointF(c, w, s, src, out, d, root, via);
            Ordered(t) && Extends(s, t) && (forall id :: Known(s, id) ==> Known(t, id))
  {
    hide DeliverF, EmitErrorF;
    DeliverOrdered(c, w, s, src, out, d, via);
    if c.hasLedger && IsEffectDelivery(d, out.kind) {
      var taken := s.(approved := s.approved - {out.cause});
      EmitErrorOrdered(taken, src.id, via);
      DeliverOrdered(c, w, taken, src, out, d, via);
      DeliverOrdered(c, w, taken.(ledger := s.ledger + [DeliveredEntry(c, s, out, d, root, via)]),
                     src, out.(receipt := Some(|s.ledger|)), d, via);
    }
  }

  lemma ForwardOrdered(c: Config, w: World, s: State, src: Envelope, d: Dest, via: Id)
    requires Ordered(s) && Known(s, src.id)
    ensures var t := ForwardF(c, w, s, src, d, via);
            Ordered(t) && Extends(s, t) && (forall id :: Known(s, id) ==> Known(t, id))
  {
    hide CheckpointF, EmitErrorF;
    EmitErrorOrdered(s, src.id, via);
    if !RateRefused(c, w, s, src, d) {
      var out := Outgoing(w, s, src, d);
      var (consumed, over) := ContextF(c, s, out);
      var s1 := s.(mint := s.mint + 1, seqNo := s.seqNo[Source(out) := out.seqNo], consumed := consumed);
      MintMore(s, s1);
      EmitErrorOrdered(s1, src.id, via);
      MintMore(s, TrackF(s1, src, out));
      CheckpointOrdered(c, w, TrackF(s1, src, out), src, out, d, RootOf(s1, src), via);
    }
  }

  /** Drawing numbers that are never written disturbs nothing. */
  lemma MintMore(s: State, t: State)
    requires Ordered(s) && t.log == s.log && t.sent == s.sent && s.mint <= t.mint
    requires t.pending == s.pending && t.spec == s.spec
    ensures Ordered(t)
  {
    forall i | 0 <= i < |t.log| ensures EntryOk(t.log, t.mint, i) {
      assert EntryOk(s.log, s.mint, i);
    }
    SendsKept(s.log, s.mint, s.sent, t.log, t.mint);
  }

  lemma HoldOrdered(s: State, env: Envelope, d: Dest)
    requires Ordered(s) && Known(s, env.id)
    ensures var t := HoldF(s, env, d);
            Ordered(t) && Extends(s, t) && (forall id :: Known(s, id) ==> Known(t, id))
  {
    var req := RequestEnvelope(Minted(s.mint), env, d);
    var t := HoldF(s, env, d);
    Write(s, req, s.mint + 1, Send(req, ClientDest("confirm_in"), NoId, |s.log|), t.(pending := s.pending));
  }

  lemma AbandonOrdered(s: State, ids: seq<Id>, d: Dest)
    requires Ordered(s) && AllKnown(s.log, ids)
    ensures var t := AbandonAllF(s, ids, d);
            Ordered(t) && Extends(s, t) && (forall id :: Known(s, id) ==> Known(t, id))
  {
    if ids != [] {
      var before, id := ids[..|ids| - 1], ids[|ids| - 1];
      assert AllKnown(s.log, before) by { assert forall n :: 0 <= n < |before| ==> before[n] == ids[n]; }
      AbandonOrdered(s, before, d);
      assert Known(s, ids[|ids| - 1]);
      var s1 := AbandonAllF(s, before, d);
      if d.skill.Some? {
        var e := KernelEnvelope(Minted(s1.mint), id, d.ref, d.port, Cancel, "", Notice("superseded"));
        Write(s1, e, s1.mint + 1, Send(e, d, NoId, |s1.log|), AbandonF(s1, id, d));
      }
    }
  }

  lemma FoldKeepsGuesses(log: seq<Envelope>, x: SpecValue, k: SpecKey, schema: string, p: Payload)
    requires GuessesKnown(log, x)
    ensures GuessesKnown(log, FoldF(x, k, schema, p))
    ensures forall final :: AllKnown(log, StaleF(FoldF(x, k, schema, p), k, final))
    ensures forall final :: GuessesKnown(log, ResolveF(FoldF(x, k, schema, p), k, final))
  {
    assert AllKnown(log, Get(x.states, k, FRESH).deliveries);
  }

  lemma SpeculateKeepsGuesses(log: seq<Envelope>, x: SpecValue, k: SpecKey, id: Id)
    requires GuessesKnown(log, x) && KnownBefore(log, |log|, id) && id.External?
    ensures GuessesKnown(log, SpeculateF(x, k, id))
  {
    var st := Get(x.states, k, FRESH);
    assert AllKnown(log, st.deliveries);
    assert AllKnown(log, st.deliveries + [id]);
  }

  lemma SpeculativeOrdered(c: Config, w: World, s: State, env: Envelope, d: Dest, root: Id)
    requires Ordered(s) && Known(s, env.id) && env.id.External?
    ensures var t := ForwardSpeculativelyF(c, w, s, env, d, root);
            Ordered(t) && Extends(s, t) && (forall id :: Known(s, id) ==> Known(t, id))
  {
    hide ForwardF, FoldF, ResolveF, SpeculateF, StaleF, AbandonAllF, RunningF, GuessStands, IsFinal, MarkFinal;
    if env.kind != Data || root == NoId {
      ForwardOrdered(c, w, s, env, d, NoId);
    } else {
      var key := SpecKey(root, d.from);
      var folded := FoldF(s.spec, key, env.schema, env.payload);
      var running := RunningF(folded, key);
      FoldKeepsGuesses(s.log, s.spec, key, env.schema, env.payload);
      if !IsFinal(env.payload) {
        ForwardOrdered(c, w, s.(spec := folded), env.(payload := MarkFinal(running)), d, NoId);
        var t := ForwardF(c, w, s.(spec := folded), env.(payload := MarkFinal(running)), d, NoId);
        SpeculateKeepsGuesses(t.log, t.spec, key, env.id);
      } else {
        var resolved := s.(spec := ResolveF(folded, key, running));
        var stale := StaleF(folded, key, running);
        AbandonOrdered(resolved, stale, d);
        ForwardOrdered(c, w, AbandonAllF(resolved, stale, d), env.(payload := running), d, NoId);
      }
    }
  }

  lemma ToDestsOrdered(c: Config, w: World, s: State, env: Envelope, dests: seq<Dest>, root: Id)
    requires Ordered(s) && Known(s, env.id) && env.id.External?
    ensures var t := ToDestsF(c, w, s, env, dests, root);
            Ordered(t) && Extends(s, t) && (forall id :: Known(s, id) ==> Known(t, id))
  {
    hide ForwardF, ForwardSpeculativelyF, HoldF;
    if dests != [] {
      var before, d := dests[..|dests| - 1], dests[|dests| - 1];
      ToDestsOrdered(c, w, s, env, before, root);
      var s1 := ToDestsF(c, w, s, env, before, root);
      SpeculativeOrdered(c, w, s1, env, d, root);
      HoldOrdered(s1, env, d);
      ForwardOrdered(c, w, s1, env, d, NoId);
    }
  }

  lemma ResolveOrdered(c: Config, w: World, s: State, answer: Envelope)
    requires Ordered(s) && answer.id.External?
    ensures var t := ResolveGateF(c, w, s, answer); Ordered(t) && Extends(s, t)
  {
    hide ForwardF, EmitErrorF, AuthorizeGate;
    if answer.cause in s.pending {
      var held := s.pending[answer.cause];
      var s1 := s.(pending := s.pending - {answer.cause}, log := s.log + [answer]);
      Write(s, answer, s.mint, Send(answer, held.to, NoId, 0), s1.(pending := s.pending));
      match AuthorizeGate(c, w.roster, held, answer.payload) {
        case Rejected => DenyOrdered(c, w, s1, answer.cause, held, answer, None);
        case Denies(a) => DenyOrdered(c, w, s1, answer.cause, held, answer, a);
        case Approves(a) =>
          var parked := if a.Some? then s1.(approved := s1.approved[held.env.id := a.value]) else s1;
          ForwardOrdered(c, w, parked.(gates := s1.gates + [Released(answer.cause, held, answer, a, w.roster)]),
                         held.env, held.to, answer.cause);
      }
    }
  }

  lemma DenyOrdered(c: Config, w: World, s: State, req: Id, held: Held, answer: Envelope, a: Option<Approval>)
    requires Ordered(s) && Known(s, answer.id)
    ensures var t := DenyF(c, w, s, req, held, answer, a); Ordered(t) && Extends(s, t)
  {
    EmitErrorOrdered(SealDenialF(c, w, s.(gates := s.gates + [Refused(req, held, answer)]), held, a, req), answer.id, req);
  }

  /** Routing any envelope keeps the record in order and only adds to it. */
  lemma RouteOrdered(c: Config, w: World, s: State, env: Envelope)
    requires Ordered(s) && env.id.External?
    ensures Ordered(RouteF(c, w, s, env)) && Extends(s, RouteF(c, w, s, env))
  {
    hide ToDestsF, ResolveGateF, Duplicate, CancelTarget, AttestF, SeenF;
    var logged := s.(log := s.log + [env]);
    Write(s, env, s.mint, Send(env, ClientDest(""), NoId, 0), logged);
    if env.kind == Cancel {
      MintMore(logged, HandleCancelF(logged, env));
    } else if !Duplicate(s, env) {
      var seen := if env.kind == Data then logged.(dedup := SeenF(s.dedup, env.idem)) else logged;
      ResolveOrdered(c, w, seen, env);
      var noted := seen.(attests := if env.attest == "" then seen.attests
                                    else AttestF(seen.attests, MAX_ATTEST_PER_ROOT, RootOf(seen, env), w.attest(env.attest)));
      ToDestsOrdered(c, w, noted, env, DestsAt(c.routes, Source(env)), RootOf(seen, env));
    }
  }

  lemma {:induction false} ReplayedById(c: Config, log: seq<Envelope>)
    ensures forall id :: id in Replay(c, log).byId ==> Replay(c, log).byId[id].id == id && KnownBefore(log, |log|, id)
  {
    if log != [] {
      var before, last := log[..|log| - 1], log[|log| - 1];
      ReplayedById(c, before);
      KnownGrows(before, log);
      assert log[|log| - 1].id == last.id;
    }
  }

  lemma ResumeOrdered(c: Config, s: State)
    requires Ordered(s)
    ensures Ordered(ResumeF(c, s)) && Extends(s, ResumeF(c, s))
  {
    hide Replay;
    ReplayedById(c, Readable(s.log));
    KnownGrows(Readable(s.log), s.log);
  }

  /** In every run, whatever clients and skills emit and wherever it crashes, each
      entry the kernel wrote cites an earlier one, and whatever it sent along an
      edge or to the client it had written first. */
  lemma {:induction false} RecordIsOrdered(c: Config, inputs: seq<Input>)
    requires forall i :: i in inputs ==> FromOutside(i)
    ensures Ordered(Run(c, inputs))
  {
    if inputs != [] {
      var before, last := inputs[..|inputs| - 1], inputs[|inputs| - 1];
      RecordIsOrdered(c, before);
      assert last in inputs;
      match last {
        case Arrive(env, w) => RouteOrdered(c, w, Run(c, before), env);
        case Crash => ResumeOrdered(c, Run(c, before));
      }
    }
  }
}
