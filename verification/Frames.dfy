// What forwarding leaves alone: the bookkeeping only routing, gates and cancels touch.

module Frames {
  import opened Options
  import opened Envelopes
  import opened BoundedFifo
  import opened Indexes
  import opened Wiring
  import opened Speculation
  import opened Kernel

  /** `t` differs from `s` at most as a delivery attempt makes it differ. */
  ghost predicate Kept(s: State, t: State) {
    && t.gates == s.gates && t.pending == s.pending && t.dedup == s.dedup && t.attests == s.attests
    && t.cancelsSent == s.cancelsSent && t.cancelIds == s.cancelIds && t.cuts == s.cuts
    && s.mint <= t.mint
  }

  lemma DeliverFrame(c: Config, w: World, s: State, src: Envelope, out: Envelope, d: Dest, via: Id)
    requires out.id.Minted?
    ensures var t := DeliverF(c, w, s, src, out, d, via);
            Kept(s, t) && t.cancelled == s.cancelled && t.spec == s.spec && t.causal == s.causal
            && t.inFlight == s.inFlight && t.approved == s.approved && t.ledger == s.ledger && t.consumed == s.consumed
  {
  }

  lemma CheckpointFrame(c: Config, w: World, s: State, src: Envelope, out: Envelope, d: Dest, root: Id, via: Id)
    requires out.id.Minted?
    ensures var t := CheckpointF(c, w, s, src, out, d, root, via);
            Kept(s, t) && t.cancelled == s.cancelled && t.spec == s.spec && t.causal == s.causal
            && t.inFlight == s.inFlight && t.consumed == s.consumed
  {
    hide DeliverF;
    DeliverFrame(c, w, s, src, out, d, via);
    if c.hasLedger && IsEffectDelivery(d, out.kind) {
      var taken := s.(approved := s.approved - {out.cause});
      DeliverFrame(c, w, taken, src, out, d, via);
      DeliverFrame(c, w, taken.(ledger := s.ledger + [DeliveredEntry(c, s, out, d, root, via)]),
                   src, out.(receipt := Some(|s.ledger|)), d, via);
    }
  }

  lemma ForwardFrame(c: Config, w: World, s: State, src: Envelope, d: Dest, via: Id)
    ensures var t := ForwardF(c, w, s, src, d, via);
            Kept(s, t) && t.cancelled == s.cancelled && t.spec == s.spec
  {
    hide CheckpointF;
    if !RateRefused(c, w, s, src, d) {
      var out := Outgoing(w, s, src, d);
      var (consumed, over) := ContextF(c, s, out);
      var s1 := s.(mint := s.mint + 1, seqNo := s.seqNo[Source(out) := out.seqNo], consumed := consumed);
      CheckpointFrame(c, w, TrackF(s1, src, out), src, out, d, RootOf(s1, src), via);
    }
  }

  lemma {:induction false} AbandonFrame(s: State, ids: seq<Id>, d: Dest)
    ensures var t := AbandonAllF(s, ids, d);
            Kept(s, t) && t.spec == s.spec && t.causal == s.causal && t.inFlight == s.inFlight
            && t.approved == s.approved && t.ledger == s.ledger
  {
    hide CancelF;
    if ids != [] { AbandonFrame(s, ids[..|ids| - 1], d); }
  }

  lemma SpeculativeFrame(c: Config, w: World, s: State, env: Envelope, d: Dest, root: Id)
    ensures Kept(s, ForwardSpeculativelyF(c, w, s, env, d, root))
  {
    hide ForwardF, AbandonAllF, FoldF, ResolveF, SpeculateF, StaleF, RunningF, GuessStands, IsFinal, MarkFinal;
    var key := SpecKey(root, d.from);
    var folded := FoldF(s.spec, key, env.schema, env.payload);
    var running := RunningF(folded, key);
    var resolved := s.(spec := ResolveF(folded, key, running));
    var stale := StaleF(folded, key, running);
    ForwardFrame(c, w, s, env, d, NoId);
    ForwardFrame(c, w, s.(spec := folded), env.(payload := MarkFinal(running)), d, NoId);
    AbandonFrame(resolved, stale, d);
    ForwardFrame(c, w, AbandonAllF(resolved, stale, d), env.(payload := running), d, NoId);
  }

  // ---- What routing one envelope writes and sends ----

  /** Written by the kernel on behalf of `src`: about it, or a note that work
      started on a guess is superseded. */
  ghost predicate OnBehalf(e: Envelope, src: Id, kinds: set<Kind>) {
    e.id.Minted? && e.kind in kinds && (e.kind == Cancel || e.cause == src)
  }

  ghost predicate LogAdds(log: seq<Envelope>, more: seq<Envelope>, src: Id, kinds: set<Kind>) {
    log <= more && forall i :: |log| <= i < |more| ==> OnBehalf(more[i], src, kinds)
  }

  ghost predicate SentAdds(sent: seq<Send>, more: seq<Send>, src: Id, via: Id, kinds: set<Kind>) {
    sent <= more && forall k :: |sent| <= k < |more| ==> more[k].via == via && OnBehalf(more[k].env, src, kinds)
  }

  ghost predicate Adds(s: State, t: State, src: Id, via: Id, kinds: set<Kind>) {
    LogAdds(s.log, t.log, src, kinds) && SentAdds(s.sent, t.sent, src, via, kinds)
  }

  function ForwardKinds(kind: Kind): set<Kind> {
    {kind, Error, Cancel}
  }

  lemma AddsChain(s: State, t: State, u: State, src: Id, via: Id, kinds: set<Kind>)
    requires Adds(s, t, src, via, kinds) && Adds(t, u, src, via, kinds)
    ensures Adds(s, u, src, via, kinds)
  {
  }

  lemma AddsMore(s: State, t: State, src: Id, via: Id, kinds: set<Kind>, more: set<Kind>)
    requires Adds(s, t, src, via, kinds) && kinds <= more
    ensures Adds(s, t, src, via, more)
  {
  }

  lemma ForwardAdds(c: Config, w: World, s: State, src: Envelope, d: Dest, via: Id)
    ensures Adds(s, ForwardF(c, w, s, src, d, via), src.id, via, ForwardKinds(src.kind))
  {
    hide CheckpointF;
    if !RateRefused(c, w, s, src, d) {
      var out := Outgoing(w, s, src, d);
      var (consumed, over) := ContextF(c, s, out);
      var s1 := s.(mint := s.mint + 1, seqNo := s.seqNo[Source(out) := out.seqNo], consumed := consumed);
      CheckpointAdds(c, w, TrackF(s1, src, out), src, out, d, RootOf(s1, src), via);
    }
  }

  lemma CheckpointAdds(c: Config, w: World, s: State, src: Envelope, out: Envelope, d: Dest, root: Id, via: Id)
    requires out.id.Minted? && out.cause == src.id && out.kind == src.kind
    ensures Adds(s, CheckpointF(c, w, s, src, out, d, root, via), src.id, via, ForwardKinds(src.kind))
  {
    hide DeliverF, LogAdds, SentAdds;
    DeliverAdds(c, w, s, src, out, d, via);
    if c.hasLedger && IsEffectDelivery(d, out.kind) {
      var taken := s.(approved := s.approved - {out.cause});
      ErrorAdds(taken, src.id, via, ForwardKinds(src.kind));
      DeliverAdds(c, w, taken, src, out, d, via);
      DeliverAdds(c, w, taken.(ledger := s.ledger + [DeliveredEntry(c, s, out, d, root, via)]),
                  src, out.(receipt := Some(|s.ledger|)), d, via);
    }
  }

  lemma DeliverAdds(c: Config, w: World, s: State, src: Envelope, out: Envelope, d: Dest, via: Id)
    requires out.id.Minted? && out.cause == src.id && out.kind == src.kind
    ensures Adds(s, DeliverF(c, w, s, src, out, d, via), src.id, via, ForwardKinds(src.kind))
  {
    hide EmitErrorF;
    if !Dropped(w, out) {
      var s1 := s.(log := s.log + [Loggable(c, out, d.qos)], sent := s.sent + [Send(out, d, via, |s.log|)]);
      assert OnBehalf(Loggable(c, out, d.qos), src.id, ForwardKinds(src.kind));
      assert Adds(s, s1, src.id, via, ForwardKinds(src.kind));
      ErrorAdds(s1, src.id, via, ForwardKinds(src.kind));
      hide Adds, Loggable;
      AddsChain(s, s1, EmitErrorF(s1, src.id, via), src.id, via, ForwardKinds(src.kind));
    }
  }

  lemma ErrorAdds(s: State, cause: Id, via: Id, kinds: set<Kind>)
    requires Error in kinds
    ensures Adds(s, EmitErrorF(s, cause, via), cause, via, kinds)
  {
  }

  lemma AbandonAdds(s: State, ids: seq<Id>, d: Dest, src: Id, kind: Kind)
    ensures Adds(s, AbandonAllF(s, ids, d), src, NoId, ForwardKinds(kind))
  {
    if ids != [] {
      var s1 := AbandonAllF(s, ids[..|ids| - 1], d);
      AbandonAdds(s, ids[..|ids| - 1], d, src, kind);
      assert Adds(s1, AbandonF(s1, ids[|ids| - 1], d), src, NoId, ForwardKinds(kind));
    }
  }

  lemma SpeculativeAdds(c: Config, w: World, s: State, env: Envelope, d: Dest, root: Id)
    ensures Adds(s, ForwardSpeculativelyF(c, w, s, env, d, root), env.id, NoId, ForwardKinds(env.kind))
  {
    hide ForwardF, AbandonAllF, FoldF, ResolveF, SpeculateF, StaleF, RunningF, GuessStands, IsFinal, MarkFinal;
    var key := SpecKey(root, d.from);
    var folded := FoldF(s.spec, key, env.schema, env.payload);
    var running := RunningF(folded, key);
    var resolved := s.(spec := ResolveF(folded, key, running));
    var stale := StaleF(folded, key, running);
    ForwardAdds(c, w, s, env, d, NoId);
    ForwardAdds(c, w, s.(spec := folded), env.(payload := MarkFinal(running)), d, NoId);
    AbandonAdds(resolved, stale, d, env.id, env.kind);
    ForwardAdds(c, w, AbandonAllF(resolved, stale, d), env.(payload := running), d, NoId);
  }

  function RouteKinds(kind: Kind): set<Kind> {
    {kind, Error, Cancel, ConfirmRequest}
  }

  lemma ToDestsAdds(c: Config, w: World, s: State, env: Envelope, dests: seq<Dest>, root: Id)
    ensures Adds(s, ToDestsF(c, w, s, env, dests, root), env.id, NoId, RouteKinds(env.kind))
  {
    hide ForwardF, ForwardSpeculativelyF, Adds;
    if dests != [] {
      var before, d := dests[..|dests| - 1], dests[|dests| - 1];
      ToDestsAdds(c, w, s, env, before, root);
      var s1 := ToDestsF(c, w, s, env, before, root);
      ForwardAdds(c, w, s1, env, d, NoId);
      SpeculativeAdds(c, w, s1, env, d, root);
      AddsMore(s1, if d.speculative then ForwardSpeculativelyF(c, w, s1, env, d, root) else ForwardF(c, w, s1, env, d, NoId),
               env.id, NoId, ForwardKinds(env.kind), RouteKinds(env.kind));
      HoldAdds(s1, env, d);
      AddsChain(s, s1, ToDestF(c, w, s1, env, d, root), env.id, NoId, RouteKinds(env.kind));
    } else {
      NothingAdded(s, env.id, NoId, RouteKinds(env.kind));
    }
  }

  lemma NothingAdded(s: State, src: Id, via: Id, kinds: set<Kind>)
    ensures Adds(s, s, src, via, kinds)
  {
  }

  lemma HoldAdds(s: State, env: Envelope, d: Dest)
    ensures Adds(s, HoldF(s, env, d), env.id, NoId, RouteKinds(env.kind))
  {
  }
}
