// What one forward hands to the transport.

module Sends {
  import opened Options
  import opened Envelopes
  import opened BoundedFifo
  import opened Indexes
  import opened Policies
  import opened Wiring
  import opened Speculation
  import opened Kernel
  import opened Frames

  /** A delivery along an edge, as opposed to the kernel's own notices. */
  ghost predicate Numbered(x: Send) {
    x.env.seqNo > 0
  }

  /** A delivery of this content, on behalf of `src`, to this destination. */
  ghost predicate Conveys(x: Send, src: Envelope, d: Dest, via: Id) {
    x.env.cause == src.id && x.env.kind == src.kind && x.env.payload == src.payload && x.to == d && x.via == via
    && Source(x.env) == Endpoint(d.ref, d.port)
  }

  /** From `s` to `t` at most one delivery was handed over, this one. */
  ghost predicate HandsOn(s: State, t: State, src: Envelope, d: Dest, via: Id) {
    && s.sent <= t.sent
    && (forall k :: |s.sent| <= k < |t.sent| && Numbered(t.sent[k]) ==> Conveys(t.sent[k], src, d, via))
    && (forall k, l :: |s.sent| <= k < l < |t.sent| ==> !(Numbered(t.sent[k]) && Numbered(t.sent[l])))
  }

  /** Only notices. */
  ghost predicate OnlyNotices(s: State, t: State) {
    s.sent <= t.sent && forall k :: |s.sent| <= k < |t.sent| ==> !Numbered(t.sent[k])
  }

  lemma DeliverHandsOn(c: Config, w: World, s: State, src: Envelope, out: Envelope, d: Dest, via: Id)
    requires out.id.Minted? && out.cause == src.id && out.kind == src.kind && out.payload == src.payload
    requires Source(out) == Endpoint(d.ref, d.port)
    ensures HandsOn(s, DeliverF(c, w, s, src, out, d, via), src, d, via)
  {
    hide Loggable, Dropped;
    var x := Send(out, d, via, |s.log|);
    assert Conveys(x, src, d, via);
    var s1 := s.(log := s.log + [Loggable(c, out, d.qos)], sent := s.sent + [x]);
    ErrorNotices(s1, src.id, via);
    hide EmitErrorF, Conveys;
    assert s1.sent[|s.sent|] == x;
  }

  lemma ErrorNotices(s: State, cause: Id, via: Id)
    ensures OnlyNotices(s, EmitErrorF(s, cause, via)) && |EmitErrorF(s, cause, via).sent| == |s.sent| + 1
  {
  }

  lemma CheckpointHandsOn(c: Config, w: World, s: State, src: Envelope, out: Envelope, d: Dest, root: Id, via: Id)
    requires out.id.Minted? && out.cause == src.id && out.kind == src.kind && out.payload == src.payload
    requires Source(out) == Endpoint(d.ref, d.port)
    ensures HandsOn(s, CheckpointF(c, w, s, src, out, d, root, via), src, d, via)
  {
    hide DeliverF, EmitErrorF, DeliveredEntry, Conveys, Numbered;
    DeliverHandsOn(c, w, s, src, out, d, via);
    if c.hasLedger && IsEffectDelivery(d, out.kind) {
      var taken := s.(approved := s.approved - {out.cause});
      ErrorNotices(taken, src.id, via);
      DeliverHandsOn(c, w, taken, src, out, d, via);
      DeliverHandsOn(c, w, taken.(ledger := s.ledger + [DeliveredEntry(c, s, out, d, root, via)]),
                     src, out.(receipt := Some(|s.ledger|)), d, via);
    }
  }

  lemma ForwardHandsOn(c: Config, w: World, s: State, src: Envelope, d: Dest, via: Id)
    ensures HandsOn(s, ForwardF(c, w, s, src, d, via), src, d, via)
  {
    hide CheckpointF, EmitErrorF, Conveys, Numbered;
    ErrorNotices(s, src.id, via);
    if !RateRefused(c, w, s, src, d) {
      var out := Outgoing(w, s, src, d);
      var (consumed, over) := ContextF(c, s, out);
      var s1 := s.(mint := s.mint + 1, seqNo := s.seqNo[Source(out) := out.seqNo], consumed := consumed);
      ErrorNotices(s1, src.id, via);
      CheckpointHandsOn(c, w, TrackF(s1, src, out), src, out, d, RootOf(s1, src), via);
    }
  }

  lemma {:induction false} AbandonNotices(s: State, ids: seq<Id>, d: Dest)
    ensures OnlyNotices(s, AbandonAllF(s, ids, d))
  {
    hide CancelF;
    if ids != [] {
      AbandonNotices(s, ids[..|ids| - 1], d);
      var s1, t := AbandonAllF(s, ids[..|ids| - 1], d), AbandonAllF(s, ids, d);
      assert forall k :: |s1.sent| <= k < |t.sent| ==> !Numbered(t.sent[k]);
    }
  }

  /** Notices before a delivery are no deliveries. */
  lemma NoticesThen(s: State, m: State, t: State, src: Envelope, d: Dest, via: Id)
    requires OnlyNotices(s, m) && HandsOn(m, t, src, d, via)
    ensures HandsOn(s, t, src, d, via)
  {
    hide Conveys, Numbered;
    assert forall k :: |s.sent| <= k < |m.sent| ==> t.sent[k] == m.sent[k];
  }

  lemma HoldNotices(s: State, env: Envelope, d: Dest)
    ensures OnlyNotices(s, HoldF(s, env, d))
  {
  }
}
