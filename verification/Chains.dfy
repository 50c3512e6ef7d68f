// Causal chains: which client message an envelope's work started from, as the log
// tells it, and the index that has to agree.

module Chains {
  import opened Options
  import opened Envelopes
  import opened BoundedFifo
  import opened Indexes
  import opened Policies
  import opened Wiring
  import opened Speculation
  import opened Kernel
  import opened Frames
  import opened Books

  // ---- The reference: walking the log. ----

  /** Where an id was first logged, or the length of the log. */
  ghost function FirstAt(log: seq<Envelope>, id: Id): (i: nat)
    ensures i <= |log| && (i < |log| ==> log[i].id == id)
    ensures forall j :: 0 <= j < i ==> log[j].id != id
  {
    if log == [] || log[0].id == id then 0
    else
      var i := FirstAt(log[1..], id);
      assert forall j :: 1 <= j < |log| ==> log[j] == log[1..][j - 1];
      1 + i
  }

  ghost predicate ClientSent(e: Envelope) {
    e.id.External? && e.node == CLIENT
  }

  /** The client message an envelope's chain began with: follow cause ids back
      through the log to an envelope the client itself sent. */
  ghost function ChainRoot(log: seq<Envelope>, e: Envelope): Id {
    if ClientSent(e) then e.id
    else
      var i := FirstAt(log, e.cause);
      if i < |log| then ChainRoot(log[..i], log[i]) else NoId
  }

  lemma FirstAtUnique(log: seq<Envelope>, id: Id, i: nat)
    requires i < |log| && log[i].id == id && forall j :: 0 <= j < i ==> log[j].id != id
    ensures FirstAt(log, id) == i
  {
  }

  lemma FirstAtAbsent(log: seq<Envelope>, id: Id)
    requires forall j :: 0 <= j < |log| ==> log[j].id != id
    ensures FirstAt(log, id) == |log|
  {
  }

  /** Once the cause of an envelope is on record, more log does not change its chain. */
  lemma ChainStable(log: seq<Envelope>, more: seq<Envelope>, e: Envelope)
    requires log <= more
    requires FirstAt(log, e.cause) < |log|
             || (forall j :: 0 <= j < |more| ==> more[j].id != e.cause)
    ensures ChainRoot(more, e) == ChainRoot(log, e)
  {
    var i := FirstAt(log, e.cause);
    if i < |log| {
      FirstAtUnique(more, e.cause, i);
      assert more[..i] == log[..i];
    } else {
      FirstAtAbsent(more, e.cause);
    }
  }

  lemma SameChain(log: seq<Envelope>, a: Envelope, b: Envelope)
    requires a.id == b.id && a.node == b.node && a.cause == b.cause
    ensures ChainRoot(log, a) == ChainRoot(log, b)
  {
  }

  // ---- The adversary. ----

  /** Work handed to a skill. */
  ghost predicate IsDelivery(e: Envelope) {
    e.id.Minted? && e.node != CLIENT && e.kind != Cancel
  }

  /** Clients send what they like. A skill may emit anything, as often as it likes,
      so long as what it cites, if anything, is work the kernel handed it or a
      cancel the kernel passed on. Two different envelopes never share an id. */
  ghost predicate Honest(s: State, env: Envelope) {
    && env.id.External?
    && (forall i :: 0 <= i < |s.log| && s.log[i].id == env.id ==> s.log[i] == env)
    && (env.node == CLIENT || env.cause == NoId || env.cause in s.cancelIds || Follows(s.log, |s.log|, env))
  }

  // ---- The shape of an honest log. ----

  /** What belongs to a chain: all that arrived, and all that skills were handed. */
  ghost predicate Tracked(e: Envelope) {
    e.id.External? || e.node != CLIENT
  }

  /** Skills cite deliveries, and deliveries cite what arrived. */
  ghost predicate Follows(log: seq<Envelope>, i: nat, e: Envelope) {
    exists j :: 0 <= j < i && j < |log| && log[j].id == e.cause
                && if e.id.External? then IsDelivery(log[j]) else log[j].id.External?
  }

  ghost predicate Unique(log: seq<Envelope>) {
    forall i, j :: 0 <= i < j < |log| && log[i].id == log[j].id ==> log[i] == log[j]
  }

  ghost predicate Cites(log: seq<Envelope>, cancels: set<Id>, i: nat, e: Envelope) {
    ClientSent(e) || e.cause == NoId || e.cause in cancels || Follows(log, i, e)
  }

  ghost predicate CitesHonestly(log: seq<Envelope>, cancels: set<Id>) {
    forall i :: 0 <= i < |log| && Tracked(log[i]) ==> Cites(log, cancels, i, log[i])
  }

  /** Neither the absent id nor a passed-on cancel is ever on record. */
  ghost predicate Unlogged(log: seq<Envelope>, cancels: set<Id>) {
    forall i :: 0 <= i < |log| ==> log[i].id != NoId && log[i].id !in cancels
  }

  ghost predicate HonestLog(log: seq<Envelope>, cancels: set<Id>) {
    Unique(log) && CitesHonestly(log, cancels) && Unlogged(log, cancels)
  }

  lemma FollowsGrows(log: seq<Envelope>, more: seq<Envelope>, i: nat, e: Envelope)
    requires log <= more && Follows(log, i, e)
    ensures Follows(more, i, e)
  {
    var j :| 0 <= j < i && j < |log| && log[j].id == e.cause
             && if e.id.External? then IsDelivery(log[j]) else log[j].id.External?;
    assert more[j] == log[j];
  }

  lemma FollowsLater(log: seq<Envelope>, i: nat, e: Envelope)
    requires Follows(log, i, e)
    ensures forall n: nat :: i <= n ==> Follows(log, n, e)
  {
  }

  lemma HonestAppend(log: seq<Envelope>, cancels: set<Id>, e: Envelope)
    requires HonestLog(log, cancels)
    requires forall i :: 0 <= i < |log| && log[i].id == e.id ==> log[i] == e
    requires e.id != NoId && e.id !in cancels && (Tracked(e) ==> Cites(log, cancels, |log|, e))
    ensures HonestLog(log + [e], cancels)
  {
    var more := log + [e];
    forall i | 0 <= i < |more| && Tracked(more[i]) ensures Cites(more, cancels, i, more[i]) {
      if i < |log| {
        assert more[i] == log[i];
        assert Cites(log, cancels, i, log[i]);
        if Follows(log, i, log[i]) { FollowsGrows(log, more, i, log[i]); }
      } else if Follows(log, |log|, e) {
        FollowsGrows(log, more, |log|, e);
      }
    }
  }

  lemma HonestPrefix(log: seq<Envelope>, cancels: set<Id>, n: nat)
    requires HonestLog(log, cancels) && n <= |log|
    ensures HonestLog(log[..n], cancels)
  {
    var part := log[..n];
    forall i | 0 <= i < |part| && Tracked(part[i]) ensures Cites(part, cancels, i, part[i]) {
      assert Cites(log, cancels, i, log[i]);
      if Follows(log, i, log[i]) {
        var j :| 0 <= j < i && j < |log| && log[j].id == log[i].cause
                 && if log[i].id.External? then IsDelivery(log[j]) else log[j].id.External?;
        assert part[j] == log[j];
      }
    }
  }

  /** The chain of what cites honestly at position `i` does not depend on what comes after. */
  lemma CitedStable(log: seq<Envelope>, cancels: set<Id>, i: nat, e: Envelope)
    requires Unlogged(log, cancels) && i <= |log| && Cites(log, cancels, i, e)
    ensures ChainRoot(log, e) == ChainRoot(log[..i], e)
  {
    if !ClientSent(e) {
      if Follows(log, i, e) {
        var j :| 0 <= j < i && j < |log| && log[j].id == e.cause
                 && if e.id.External? then IsDelivery(log[j]) else log[j].id.External?;
        assert log[..i][j].id == e.cause;
      }
      ChainStable(log[..i], log, e);
    }
  }

  /** What follows an entry shares its chain. */
  lemma FollowerRoot(log: seq<Envelope>, cancels: set<Id>, i: nat, e: Envelope) returns (j: nat)
    requires HonestLog(log, cancels) && i <= |log| && Follows(log, i, e) && !ClientSent(e)
    ensures j < i && j < |log| && log[j].id == e.cause && ChainRoot(log, e) == ChainRoot(log, log[j])
    ensures if e.id.External? then IsDelivery(log[j]) else log[j].id.External?
  {
    j :| 0 <= j < i && j < |log| && log[j].id == e.cause
         && if e.id.External? then IsDelivery(log[j]) else log[j].id.External?;
    var f := FirstAt(log, e.cause);
    assert log[f] == log[j];
    assert Cites(log, cancels, f, log[f]);
    CitedStable(log, cancels, f, log[f]);
  }

  lemma UncitedRoot(log: seq<Envelope>, cancels: set<Id>, e: Envelope)
    requires Unlogged(log, cancels) && !ClientSent(e) && (e.cause == NoId || e.cause in cancels)
    ensures ChainRoot(log, e) == NoId
  {
    FirstAtAbsent(log, e.cause);
  }

  // ---- The invariant tying the causal index to the log. ----

  ghost predicate CancelIdsApart(s: State) {
    forall id :: id in s.cancelIds ==> Below(s.mint, id) && id !in s.causal.m
  }

  /** Every delivery to a skill is indexed under the root the log gives it. */
  ghost predicate RootsTrue(log: seq<Envelope>, causal: Fifo<Id, Id>) {
    forall i :: 0 <= i < |log| && IsDelivery(log[i]) ==> RootF(causal, log[i].id) == ChainRoot(log, log[i])
  }

  ghost predicate OutsideKey(log: seq<Envelope>, id: Id, root: Id) {
    exists i :: 0 <= i < |log| && log[i].id == id && root == ChainRoot(log, log[i])
  }

  /** Kernel numbers in the index have been drawn; what else it holds is on record
      under its true root. */
  ghost predicate KeysTrue(log: seq<Envelope>, causal: Fifo<Id, Id>, mint: nat) {
    forall id :: id in causal.m ==>
      && id != NoId
      && (id.Minted? ==> id.n < mint)
      && (id.External? ==> OutsideKey(log, id, causal.m[id]))
  }

  ghost predicate Traced(s: State) {
    && Ordered(s)
    && HonestLog(s.log, s.cancelIds)
    && CancelIdsApart(s)
    && Valid(s.causal)
    && KeysTrue(s.log, s.causal, s.mint)
    && (|s.causal.order| < s.causal.max ==> RootsTrue(s.log, s.causal))
  }

  /** On record, up to the payload a speculating edge substitutes. */
  ghost predicate Arrived(log: seq<Envelope>, src: Envelope) {
    src.id.External? && exists k :: 0 <= k < |log| && SameHeader(log[k], src)
  }

  lemma ArrivedKnown(s: State, src: Envelope)
    requires Arrived(s.log, src)
    ensures Known(s, src.id)
  {
    var k :| 0 <= k < |s.log| && SameHeader(s.log[k], src);
  }

  lemma ArrivedStays(log: seq<Envelope>, more: seq<Envelope>, src: Envelope)
    requires Arrived(log, src) && log <= more
    ensures Arrived(more, src)
  {
    var k :| 0 <= k < |log| && SameHeader(log[k], src);
    assert more[k] == log[k];
  }

  /** The root the kernel looks up for an arrived envelope is the root of its chain
      in the log. */
  lemma RootIsTrue(s: State, src: Envelope)
    requires Traced(s) && Arrived(s.log, src) && |s.causal.order| < s.causal.max
    ensures RootOf(s, src) == ChainRoot(s.log, src)
  {
    var k :| 0 <= k < |s.log| && SameHeader(s.log[k], src);
    SameChain(s.log, s.log[k], src);
    if src.node != CLIENT {
      assert Cites(s.log, s.cancelIds, k, s.log[k]);
      if src.cause == NoId || src.cause in s.cancelIds {
        UncitedRoot(s.log, s.cancelIds, src);
      } else {
        var j := FollowerRoot(s.log, s.cancelIds, k, s.log[k]);
      }
    }
  }

  // ---- Every step keeps it. ----

  /** A number not on record yet, nor drawn for a passed-on cancel. */
  ghost predicate Unwritten(s: State, id: Id) {
    id.Minted? && !Known(s, id) && id !in s.cancelIds
  }

  /** The index already gives a delivery about to be logged its true root. */
  ghost predicate Indexed(s: State, e: Envelope) {
    |s.causal.order| < s.causal.max ==> RootF(s.causal, e.id) == ChainRoot(s.log, e)
  }

  /** Logging one more entry: an honest arrival, a notice, or an indexed delivery. */
  lemma LogTraced(s: State, e: Envelope, t: State)
    requires Traced(s) && Ordered(t) && t.log == s.log + [e] && t.mint >= s.mint
    requires t.causal == s.causal && t.cancelIds == s.cancelIds
    requires if e.id.External? then Honest(s, e) else Unwritten(s, e.id) && Known(s, e.cause)
    requires IsDelivery(e) ==> Indexed(s, e)
    requires Tracked(e) && e.id.Minted? ==> Follows(s.log, |s.log|, e)
    ensures Traced(t)
  {
    assert forall id :: id in s.cancelIds ==> Below(s.mint, id);
    HonestAppend(s.log, s.cancelIds, e);
    KeysGrow(s.log, s.cancelIds, t.log, s.causal, s.mint, t.mint);
    if |s.causal.order| < s.causal.max {
      RootsLogged(s.log, s.cancelIds, e, s.causal);
    }
  }

  lemma TrackedStable(log: seq<Envelope>, cancels: set<Id>, more: seq<Envelope>, i: nat)
    requires HonestLog(log, cancels) && HonestLog(more, cancels) && log <= more && i < |log| && Tracked(log[i])
    ensures ChainRoot(more, more[i]) == ChainRoot(log, log[i])
  {
    assert Cites(log, cancels, i, log[i]) && Cites(more, cancels, i, more[i]);
    CitedStable(log, cancels, i, log[i]);
    CitedStable(more, cancels, i, more[i]);
    assert more[..i] == log[..i];
  }

  lemma KeysGrow(log: seq<Envelope>, cancels: set<Id>, more: seq<Envelope>, causal: Fifo<Id, Id>, mint: nat, mint': nat)
    requires HonestLog(log, cancels) && HonestLog(more, cancels) && log <= more && mint <= mint'
    requires KeysTrue(log, causal, mint)
    ensures KeysTrue(more, causal, mint')
  {
    forall id | id in causal.m && id.External? ensures OutsideKey(more, id, causal.m[id]) {
      var i :| 0 <= i < |log| && log[i].id == id && causal.m[id] == ChainRoot(log, log[i]);
      TrackedStable(log, cancels, more, i);
    }
  }

  lemma RootsLogged(log: seq<Envelope>, cancels: set<Id>, e: Envelope, causal: Fifo<Id, Id>)
    requires HonestLog(log, cancels) && HonestLog(log + [e], cancels) && RootsTrue(log, causal)
    requires IsDelivery(e) ==> RootF(causal, e.id) == ChainRoot(log, e) && Follows(log, |log|, e)
    ensures RootsTrue(log + [e], causal)
  {
    var more := log + [e];
    forall i | 0 <= i < |more| && IsDelivery(more[i]) ensures RootF(causal, more[i].id) == ChainRoot(more, more[i]) {
      if i < |log| {
        TrackedStable(log, cancels, more, i);
      } else {
        FollowsGrows(log, more, |log|, e);
        CitedStable(more, cancels, |log|, e);
        assert more[..|log|] == log;
      }
    }
  }

  /** The number about to be drawn has not been written. */
  lemma NextUnwritten(s: State)
    requires Ordered(s) && CancelIdsApart(s)
    ensures Unwritten(s, Minted(s.mint))
  {
    forall j | 0 <= j < |s.log| ensures s.log[j].id != Minted(s.mint) {
      assert EntryOk(s.log, s.mint, j);
    }
  }

  lemma MoreMint(s: State, t: State)
    requires Traced(s) && t.log == s.log && t.sent == s.sent && s.mint <= t.mint
    requires t.pending == s.pending && t.spec == s.spec && t.causal == s.causal && t.cancelIds == s.cancelIds
    ensures Traced(t)
  {
    MintMore(s, t);
  }

  lemma EmitErrorTraced(s: State, cause: Id, via: Id)
    requires Traced(s) && Known(s, cause)
    ensures Traced(EmitErrorF(s, cause, via))
  {
    hide HonestLog, RootsTrue, KeysTrue;
    EmitErrorOrdered(s, cause, via);
    NextUnwritten(s);
    LogTraced(s, ErrorEnvelope(Minted(s.mint), cause), EmitErrorF(s, cause, via));
  }

  lemma DeliverTraced(c: Config, w: World, s: State, src: Envelope, out: Envelope, d: Dest, via: Id)
    requires Traced(s) && Arrived(s.log, src) && out.cause == src.id && Below(s.mint, out.id)
    requires Unwritten(s, out.id) && (IsDelivery(out) ==> Indexed(s, out))
    ensures Traced(DeliverF(c, w, s, src, out, d, via))
    ensures s.log <= DeliverF(c, w, s, src, out, d, via).log
  {
    hide HonestLog, RootsTrue, KeysTrue, Indexed;
    ArrivedKnown(s, src);
    DeliverOrdered(c, w, s, src, out, d, via);
    ArrivedFollows(s, src, out);
    if Dropped(w, out) {
      var e := out.(payload := Elided);
      SameIndexed(s, out, e);
      LogTraced(s, e, DeliverF(c, w, s, src, out, d, via));
    } else {
      var e := Loggable(c, out, d.qos);
      var s1 := s.(log := s.log + [e], sent := s.sent + [Send(out, d, via, |s.log|)]);
      Write(s, e, s.mint, Send(out, d, via, |s.log|), s1);
      SameIndexed(s, out, e);
      LogTraced(s, e, s1);
      EmitErrorTraced(s1, src.id, via);
    }
  }

  lemma SameIndexed(s: State, out: Envelope, e: Envelope)
    requires SameHeader(e, out) && (IsDelivery(out) ==> Indexed(s, out))
    ensures IsDelivery(e) ==> Indexed(s, e)
    ensures Follows(s.log, |s.log|, out) ==> Follows(s.log, |s.log|, e)
  {
    SameChain(s.log, out, e);
    if Follows(s.log, |s.log|, out) {
      var j :| 0 <= j < |s.log| && s.log[j].id == out.cause
               && if out.id.External? then IsDelivery(s.log[j]) else s.log[j].id.External?;
      assert s.log[j].id == e.cause;
    }
  }

  lemma ArrivedFollows(s: State, src: Envelope, out: Envelope)
    requires Arrived(s.log, src) && out.cause == src.id && out.id.Minted?
    ensures Follows(s.log, |s.log|, out)
  {
    var k :| 0 <= k < |s.log| && SameHeader(s.log[k], src);
    assert s.log[k].id == out.cause;
  }

  lemma CheckpointTraced(c: Config, w: World, s: State, src: Envelope, out: Envelope, d: Dest, root: Id, via: Id)
    requires Traced(s) && Arrived(s.log, src) && out.cause == src.id && Below(s.mint, out.id)
    requires Unwritten(s, out.id) && (IsDelivery(out) ==> Indexed(s, out))
    ensures Traced(CheckpointF(c, w, s, src, out, d, root, via))
    ensures s.log <= CheckpointF(c, w, s, src, out, d, root, via).log
  {
    hide DeliverF, EmitErrorF, Traced, Arrived, DeliveredEntry, ChainRoot;
    DeliverTraced(c, w, s, src, out, d, via);
    if c.hasLedger && IsEffectDelivery(d, out.kind) {
      var taken := s.(approved := s.approved - {out.cause});
      MoreMint(s, taken);
      ArrivedKnown(taken, src);
      EmitErrorTraced(taken, src.id, via);
      EmitErrorLogs(taken, src.id, via);
      DeliverTraced(c, w, taken, src, out, d, via);
      var sealed := out.(receipt := Some(|s.ledger|));
      var s1 := taken.(ledger := s.ledger + [DeliveredEntry(c, s, out, d, root, via)]);
      MoreMint(s, s1);
      SameChain(s.log, out, sealed);
      DeliverTraced(c, w, s1, src, sealed, d, via);
    }
  }

  lemma EmitErrorLogs(s: State, cause: Id, via: Id)
    ensures s.log <= EmitErrorF(s, cause, via).log
  {
  }

  /** Drawing the next number, and indexing it under the source's root. */
  lemma TrackTraced(w: World, s: State, src: Envelope, d: Dest, s1: State)
    requires Traced(s) && Arrived(s.log, src)
    requires s1 == s.(mint := s.mint + 1, seqNo := s1.seqNo, consumed := s1.consumed)
    ensures var out := Outgoing(w, s, src, d); var t := TrackF(s1, src, out);
            && Traced(t) && Unwritten(t, out.id) && (IsDelivery(out) ==> Indexed(t, out))
            && |s.causal.order| <= |t.causal.order| && t.causal.max == s.causal.max
  {
    hide HonestLog, RootsTrue, KeysTrue;
    var out := Outgoing(w, s, src, d);
    var t := TrackF(s1, src, out);
    MintMore(s, t);
    NextUnwritten(s);
    TrackIndexes(s, src, out, t.causal);
    assert RootOf(s1, src) == RootOf(s, src);
    assert forall id :: id in s.cancelIds ==> id != out.id;
    assert Unwritten(t, out.id);
  }

  lemma TrackIndexes(s: State, src: Envelope, out: Envelope, causal: Fifo<Id, Id>)
    requires Traced(s) && Arrived(s.log, src)
    requires out.id == Minted(s.mint) && out.cause == src.id
    requires causal == SetRootF(s.causal, out.id, RootOf(s, src))
    ensures Valid(causal) && causal.max == s.causal.max && |s.causal.order| <= |causal.order|
    ensures KeysTrue(s.log, causal, s.mint + 1)
    ensures causal.m.Keys <= s.causal.m.Keys + {out.id}
    ensures |causal.order| < causal.max ==> RootsTrue(s.log, causal) && RootF(causal, out.id) == ChainRoot(s.log, out)
  {
    hide HonestLog, Put;
    var root := RootOf(s, src);
    if root != NoId {
      PutValid(s.causal, out.id, root);
    }
    if |causal.order| < causal.max {
      RootIsTrue(s, src);
      OutgoingChain(s, src, out);
      forall i | 0 <= i < |s.log| && IsDelivery(s.log[i]) ensures RootF(causal, s.log[i].id) == RootF(s.causal, s.log[i].id) {
        assert EntryOk(s.log, s.mint, i);
      }
    }
  }

  /** A delivery belongs to the chain of what it delivers. */
  lemma OutgoingChain(s: State, src: Envelope, out: Envelope)
    requires Traced(s) && Arrived(s.log, src) && out.cause == src.id && out.id.Minted?
    ensures ChainRoot(s.log, out) == ChainRoot(s.log, src)
  {
    ArrivedFollows(s, src, out);
    var j := FollowerRoot(s.log, s.cancelIds, |s.log|, out);
    var k :| 0 <= k < |s.log| && SameHeader(s.log[k], src);
    assert s.log[j] == s.log[k];
    SameChain(s.log, s.log[k], src);
  }

  lemma ForwardTraced(c: Config, w: World, s: State, src: Envelope, d: Dest, via: Id)
    requires Traced(s) && Arrived(s.log, src)
    ensures var t := ForwardF(c, w, s, src, d, via);
            Traced(t) && s.log <= t.log && |s.causal.order| <= |t.causal.order| && t.causal.max == s.causal.max
  {
    hide CheckpointF, EmitErrorF, RootsTrue, HonestLog, KeysTrue, TrackF, Valid;
    ArrivedKnown(s, src);
    EmitErrorTraced(s, src.id, via);
    EmitErrorOrdered(s, src.id, via);
    EmitErrorFrame(s, src.id, via);
    if !RateRefused(c, w, s, src, d) {
      var out := Outgoing(w, s, src, d);
      var (consumed, over) := ContextF(c, s, out);
      var s1 := s.(mint := s.mint + 1, seqNo := s.seqNo[Source(out) := out.seqNo], consumed := consumed);
      if over {
        MoreMint(s, s1);
        EmitErrorTraced(s1, src.id, via);
        EmitErrorOrdered(s1, src.id, via);
        EmitErrorFrame(s1, src.id, via);
      } else {
        TrackTraced(w, s, src, d, s1);
        var s2 := TrackF(s1, src, out);
        TrackLogs(s1, src, out);
        CheckpointTraced(c, w, s2, src, out, d, RootOf(s1, src), via);
        CheckpointFrame(c, w, s2, src, out, d, RootOf(s1, src), via);
      }
    }
  }

  lemma TrackLogs(s: State, src: Envelope, out: Envelope)
    ensures TrackF(s, src, out).log == s.log && TrackF(s, src, out).mint == s.mint
  {
  }

  lemma EmitErrorFrame(s: State, cause: Id, via: Id)
    ensures EmitErrorF(s, cause, via).causal == s.causal
  {
  }

  lemma HoldTraced(s: State, env: Envelope, d: Dest)
    requires Traced(s) && Arrived(s.log, env)
    ensures Traced(HoldF(s, env, d))
  {
    hide HonestLog, RootsTrue, KeysTrue;
    ArrivedKnown(s, env);
    HoldOrdered(s, env, d);
    NextUnwritten(s);
    LogTraced(s, RequestEnvelope(Minted(s.mint), env, d), HoldF(s, env, d));
  }

  lemma AbandonTraced(s: State, ids: seq<Id>, d: Dest)
    requires Traced(s) && AllKnown(s.log, ids)
    ensures var t := AbandonAllF(s, ids, d); Traced(t) && s.log <= t.log && t.causal == s.causal
  {
    hide HonestLog, RootsTrue, KeysTrue, CancelF;
    if ids != [] {
      var before, id := ids[..|ids| - 1], ids[|ids| - 1];
      assert AllKnown(s.log, before) by { assert forall n :: 0 <= n < |before| ==> before[n] == ids[n]; }
      AbandonTraced(s, before, d);
      AbandonOrdered(s, before, d);
      AbandonOrdered(s, ids, d);
      assert Known(s, id);
      var s1 := AbandonAllF(s, before, d);
      if d.skill.Some? {
        NextUnwritten(s1);
        KnownFollows(s1.log, id, KernelEnvelope(Minted(s1.mint), id, d.ref, d.port, Cancel, "", Notice("superseded")));
        LogTraced(s1, KernelEnvelope(Minted(s1.mint), id, d.ref, d.port, Cancel, "", Notice("superseded")), AbandonF(s1, id, d));
      } else {
        MoreMint(s1, AbandonF(s1, id, d));
      }
    }
  }

  lemma KnownFollows(log: seq<Envelope>, id: Id, e: Envelope)
    requires id.External? && KnownBefore(log, |log|, id) && e.cause == id && e.id.Minted?
    ensures Follows(log, |log|, e)
  {
    var j :| 0 <= j < |log| && log[j].id == id;
    assert log[j].id == e.cause;
  }

  lemma SpeculativeTraced(c: Config, w: World, s: State, env: Envelope, d: Dest, root: Id)
    requires Traced(s) && Arrived(s.log, env)
    ensures var t := ForwardSpeculativelyF(c, w, s, env, d, root);
            Traced(t) && s.log <= t.log && |s.causal.order| <= |t.causal.order| && t.causal.max == s.causal.max
  {
    hide ForwardF, FoldF, ResolveF, SpeculateF, StaleF, AbandonAllF, RunningF, GuessStands, IsFinal, MarkFinal;
    hide HonestLog, RootsTrue, KeysTrue, Valid, CancelIdsApart;
    ArrivedKnown(s, env);
    SpeculativeOrdered(c, w, s, env, d, root);
    hide Ordered, SendsOk, LogOk;
    if env.kind != Data || root == NoId {
      ForwardTraced(c, w, s, env, d, NoId);
    } else {
      var key := SpecKey(root, d.from);
      var folded := FoldF(s.spec, key, env.schema, env.payload);
      var running := RunningF(folded, key);
      FoldKeepsGuesses(s.log, s.spec, key, env.schema, env.payload);
      if !IsFinal(env.payload) {
        var s1 := s.(spec := folded);
        Respec(s, s1);
        Repaid(s.log, env, MarkFinal(running));
        ForwardTraced(c, w, s1, env.(payload := MarkFinal(running)), d, NoId);
        Respec(ForwardF(c, w, s1, env.(payload := MarkFinal(running)), d, NoId), ForwardSpeculativelyF(c, w, s, env, d, root));
      } else {
        var resolved := s.(spec := ResolveF(folded, key, running));
        var stale := StaleF(folded, key, running);
        Respec(s, resolved);
        AbandonTraced(resolved, stale, d);
        var s1 := AbandonAllF(resolved, stale, d);
        ArrivedStays(s.log, s1.log, env);
        Repaid(s1.log, env, running);
        ForwardTraced(c, w, s1, env.(payload := running), d, NoId);
      }
    }
  }

  /** What speculation remembers plays no part in the chains. */
  lemma Respec(s: State, t: State)
    requires Traced(s) && (GuessesKnown(s.log, t.spec) || Ordered(t)) && t == s.(spec := t.spec)
    ensures Traced(t)
  {
    hide HonestLog, RootsTrue, KeysTrue;
  }

  lemma Repaid(log: seq<Envelope>, env: Envelope, p: Payload)
    requires Arrived(log, env)
    ensures Arrived(log, env.(payload := p))
  {
    var k :| 0 <= k < |log| && SameHeader(log[k], env);
    assert SameHeader(log[k], env.(payload := p));
  }

  lemma ToDestsTraced(c: Config, w: World, s: State, env: Envelope, dests: seq<Dest>, root: Id)
    requires Traced(s) && Arrived(s.log, env)
    ensures var t := ToDestsF(c, w, s, env, dests, root);
            Traced(t) && s.log <= t.log && |s.causal.order| <= |t.causal.order| && t.causal.max == s.causal.max
  {
    hide ForwardF, ForwardSpeculativelyF, Traced;
    if dests != [] {
      var before, d := dests[..|dests| - 1], dests[|dests| - 1];
      ToDestsTraced(c, w, s, env, before, root);
      var s1 := ToDestsF(c, w, s, env, before, root);
      ArrivedStays(s.log, s1.log, env);
      if d.speculative {
        SpeculativeTraced(c, w, s1, env, d, root);
      } else if d.gate == HumanApproval {
        HoldTraced(s1, env, d);
      } else {
        ForwardTraced(c, w, s1, env, d, NoId);
      }
    }
  }

  // ---- Gates hold what arrived. ----

  ghost predicate HoldsArrived(log: seq<Envelope>, pending: map<Id, Held>) {
    forall r :: r in pending ==> Arrived(log, pending[r].env)
  }

  lemma HoldsStay(log: seq<Envelope>, more: seq<Envelope>, pending: map<Id, Held>)
    requires HoldsArrived(log, pending) && log <= more
    ensures HoldsArrived(more, pending)
  {
    forall r | r in pending ensures Arrived(more, pending[r].env) {
      ArrivedStays(log, more, pending[r].env);
    }
  }

  lemma ToDestsHold(c: Config, w: World, s: State, env: Envelope, dests: seq<Dest>, root: Id)
    requires Traced(s) && Arrived(s.log, env) && HoldsArrived(s.log, s.pending)
    ensures var t := ToDestsF(c, w, s, env, dests, root); HoldsArrived(t.log, t.pending)
  {
    hide ForwardF, ForwardSpeculativelyF, Traced, Arrived;
    if dests != [] {
      var before, d := dests[..|dests| - 1], dests[|dests| - 1];
      ToDestsHold(c, w, s, env, before, root);
      ToDestsTraced(c, w, s, env, before, root);
      var s1 := ToDestsF(c, w, s, env, before, root);
      ArrivedStays(s.log, s1.log, env);
      SpeculativeFrame(c, w, s1, env, d, root);
      ForwardFrame(c, w, s1, env, d, NoId);
      ToDestGrows(c, w, s1, env, d, root);
      HoldsStay(s1.log, ToDestF(c, w, s1, env, d, root).log, s1.pending);
      ArrivedStays(s1.log, ToDestF(c, w, s1, env, d, root).log, env);
    }
  }

  lemma ToDestGrows(c: Config, w: World, s: State, env: Envelope, d: Dest, root: Id)
    requires Traced(s) && Arrived(s.log, env)
    ensures s.log <= ToDestF(c, w, s, env, d, root).log
  {
    hide ForwardF, ForwardSpeculativelyF, Traced;
    if d.speculative {
      SpeculativeTraced(c, w, s, env, d, root);
    } else if d.gate != HumanApproval {
      ForwardTraced(c, w, s, env, d, NoId);
    }
  }

  lemma DenyTraced(c: Config, w: World, s: State, req: Id, held: Held, answer: Envelope, a: Option<Approval>)
    requires Traced(s) && Known(s, answer.id)
    ensures var t := DenyF(c, w, s, req, held, answer, a);
            Traced(t) && t.pending == s.pending && s.log <= t.log && t.causal == s.causal
  {
    var s1 := SealDenialF(c, w, s.(gates := s.gates + [Refused(req, held, answer)]), held, a, req);
    MoreMint(s, s1);
    EmitErrorTraced(s1, answer.id, req);
  }

  lemma ReleaseTraced(c: Config, w: World, s: State, req: Id, held: Held, answer: Envelope, a: Option<Approval>)
    requires Traced(s) && Arrived(s.log, held.env)
    ensures var t := ReleaseF(c, w, s, req, held, answer, a);
            && Traced(t) && t.pending == s.pending && s.log <= t.log
            && |s.causal.order| <= |t.causal.order| && t.causal.max == s.causal.max
  {
    hide ForwardF;
    var parked := if a.Some? then s.(approved := s.approved[held.env.id := a.value]) else s;
    var s1 := parked.(gates := s.gates + [Released(req, held, answer, a, w.roster)]);
    MoreMint(s, s1);
    ForwardTraced(c, w, s1, held.env, held.to, req);
    ForwardFrame(c, w, s1, held.env, held.to, req);
  }

  lemma ResolveTraced(c: Config, w: World, s: State, answer: Envelope)
    requires Traced(s) && HoldsArrived(s.log, s.pending) && Honest(s, answer)
    ensures var t := ResolveGateF(c, w, s, answer);
            && Traced(t) && HoldsArrived(t.log, t.pending) && s.log <= t.log
            && |s.causal.order| <= |t.causal.order| && t.causal.max == s.causal.max
  {
    hide DenyF, ReleaseF, AuthorizeGate, Arrived;
    if answer.cause in s.pending {
      var held := s.pending[answer.cause];
      var s1 := s.(pending := s.pending - {answer.cause}, log := s.log + [answer]);
      AnswerLogged(s, answer, s1);
      hide Traced, Honest;
      ArrivedStays(s.log, s1.log, held.env);
      HoldsStay(s.log, s1.log, s1.pending);
      match AuthorizeGate(c, w.roster, held, answer.payload) {
        case Rejected => DenyTraced(c, w, s1, answer.cause, held, answer, None);
        case Denies(a) => DenyTraced(c, w, s1, answer.cause, held, answer, a);
        case Approves(a) => ReleaseTraced(c, w, s1, answer.cause, held, answer, a);
      }
      HoldsStay(s1.log, ResolveGateF(c, w, s, answer).log, s1.pending);
    }
  }

  lemma AnswerLogged(s: State, answer: Envelope, s1: State)
    requires Traced(s) && Honest(s, answer)
    requires s1 == s.(pending := s.pending - {answer.cause}, log := s.log + [answer])
    ensures Traced(s1) && Known(s1, answer.id)
  {
    hide HonestLog, RootsTrue, KeysTrue;
    Write(s, answer, s.mint, Send(answer, ClientDest(""), NoId, 0), s1.(pending := s.pending));
    LogTraced(s, answer, s1);
  }

  lemma HandleCancelTraced(s: State, env: Envelope)
    requires Traced(s)
    ensures Traced(HandleCancelF(s, env))
  {
    hide CancelTarget, HonestLog, RootsTrue, KeysTrue;
    var t := HandleCancelF(s, env);
    MintMore(s, t);
    NumbersUnused(s.log, s.causal, s.mint, t.mint);
    DrawnUnlogged(s.log, s.mint, s.cancelIds, |Get(s.inFlight, CancelTarget(s, env.cause), map[])|);
  }

  lemma NumbersUnused(log: seq<Envelope>, causal: Fifo<Id, Id>, mint: nat, more: nat)
    requires KeysTrue(log, causal, mint) && mint <= more
    ensures KeysTrue(log, causal, more) && forall n :: mint <= n < more ==> Minted(n) !in causal.m
  {
  }

  /** Numbers drawn for cancels are on no record. */
  lemma DrawnUnlogged(log: seq<Envelope>, mint: nat, cancels: set<Id>, k: nat)
    requires HonestLog(log, cancels) && LogOk(log, mint)
    ensures HonestLog(log, cancels + Drawn(mint, k))
  {
    hide Follows;
    forall i | 0 <= i < |log| ensures log[i].id !in Drawn(mint, k) {
      assert EntryOk(log, mint, i);
    }
  }

  /** Routing whatever an honest run delivers keeps the index true. */
  lemma RouteTraced(c: Config, w: World, s: State, env: Envelope)
    requires Traced(s) && HoldsArrived(s.log, s.pending) && Honest(s, env)
    ensures var t := RouteF(c, w, s, env);
            && Traced(t) && HoldsArrived(t.log, t.pending) && s.log <= t.log
            && |s.causal.order| <= |t.causal.order| && t.causal.max == s.causal.max
  {
    hide PropagateF, ResolveGateF, Duplicate, HandleCancelF, SeenF, Arrived, Traced, HoldsArrived, Honest;
    var logged := s.(log := s.log + [env]);
    EnvLogged(s, env, logged);
    HoldsStay(s.log, logged.log, s.pending);
    if env.kind == Cancel {
      HandleCancelTraced(logged, env);
      HandleCancelFrame(logged, env);
    } else if !Duplicate(s, env) {
      var seen := if env.kind == Data then logged.(dedup := SeenF(s.dedup, env.idem)) else logged;
      MoreMint(logged, seen);
      SameHonest(logged, seen, env);
      if env.kind == ConfirmResponse {
        ResolveTraced(c, w, seen, env);
      } else {
        PropagateTraced(c, w, seen, env);
      }
    }
  }

  lemma SameHonest(s: State, t: State, env: Envelope)
    requires Honest(s, env) && t.log == s.log && t.cancelIds == s.cancelIds
    ensures Honest(t, env)
  {
  }

  lemma PropagateTraced(c: Config, w: World, s: State, env: Envelope)
    requires Traced(s) && HoldsArrived(s.log, s.pending) && Arrived(s.log, env)
    ensures var t := PropagateF(c, w, s, env);
            && Traced(t) && HoldsArrived(t.log, t.pending) && s.log <= t.log
            && |s.causal.order| <= |t.causal.order| && t.causal.max == s.causal.max
  {
    hide ToDestsF, AttestF, Arrived, Traced, HoldsArrived;
    var noted := s.(attests := if env.attest == "" then s.attests
                               else AttestF(s.attests, MAX_ATTEST_PER_ROOT, RootOf(s, env), w.attest(env.attest)));
    MoreMint(s, noted);
    ToDestsTraced(c, w, noted, env, DestsAt(c.routes, Source(env)), RootOf(s, env));
    ToDestsHold(c, w, noted, env, DestsAt(c.routes, Source(env)), RootOf(s, env));
  }

  lemma EnvLogged(s: State, env: Envelope, logged: State)
    requires Traced(s) && Honest(s, env) && logged == s.(log := s.log + [env])
    ensures Traced(logged) && Arrived(logged.log, env) && Honest(logged, env)
  {
    hide HonestLog, RootsTrue, KeysTrue;
    Write(s, env, s.mint, Send(env, ClientDest(""), NoId, 0), logged);
    LogTraced(s, env, logged);
    assert SameHeader(logged.log[|s.log|], env);
    if Follows(s.log, |s.log|, env) {
      FollowsGrows(s.log, logged.log, |s.log|, env);
      FollowsLater(logged.log, |s.log|, env);
    }
  }

  lemma HandleCancelFrame(s: State, env: Envelope)
    ensures var t := HandleCancelF(s, env);
            && t.log == s.log && t.pending == s.pending && t.causal == s.causal && t.sent == s.sent && t.gates == s.gates
            && s.mint <= t.mint
  {
  }
}
