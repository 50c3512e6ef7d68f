// Who a cancel asks to stop: every skill a chain was handed to since it was last
// cancelled, each under the cause id it will recognise.

module Hops {
  import opened Options
  import opened Envelopes
  import opened BoundedFifo
  import opened Indexes
  import opened Policies
  import opened Wiring
  import opened Speculation
  import opened Kernel
  import opened Frames
  import opened Books
  import opened Chains
  import opened Gates
  import opened Resumes
  import opened Restarts
  import opened Cancels

  /** Read off the log: the places work of R's chain was delivered to from position
      `from` on, each with the cause of the latest delivery there, besides those in
      `base`. */
  ghost function HopsOnto(base: map<Endpoint, Hop>, log: seq<Envelope>, from: nat, R: Id): map<Endpoint, Hop> {
    if |log| <= from then base
    else
      var before, e := log[..|log| - 1], log[|log| - 1];
      var hops := HopsOnto(base, before, from, R);
      if IsDelivery(e) && ChainRoot(before, e) == R then hops[Source(e) := Hop(Source(e), e.cause)] else hops
  }

  ghost function HopsSince(log: seq<Envelope>, from: nat, R: Id): map<Endpoint, Hop> {
    HopsOnto(map[], log, from, R)
  }

  /** What a rebuilt session takes for work in flight: the places data of R's chain is
      on record for, from the first event on, each with the latest cause. */
  ghost function DataHops(c: Config, log: seq<Envelope>, R: Id): map<Endpoint, Hop> {
    if log == [] then map[]
    else
      var before, e := DataHops(c, log[..|log| - 1], R), log[|log| - 1];
      if e.kind == Data && e.node != CLIENT && IsDest(c, Source(e)) && ChainRoot(log, e) == R
      then before[Source(e) := Hop(Source(e), e.cause)] else before
  }

  /** The hops of a chain last cancelled when the log had `cut` entries, in a session
      last rebuilt when it had `since`: those since the cancel or, when the session
      was rebuilt after it, all that was read back and those since. */
  ghost function LiveHops(c: Config, log: seq<Envelope>, since: nat, cut: nat, R: Id): map<Endpoint, Hop>
    requires since <= |log|
  {
    if cut > since then HopsSince(log, cut, R) else HopsOnto(DataHops(c, log[..since], R), log, since, R)
  }

  lemma LiveHopsMore(c: Config, log: seq<Envelope>, e: Envelope, since: nat, cut: nat, R: Id)
    requires since <= |log| && cut <= |log|
    ensures LiveHops(c, log + [e], since, cut, R)
         == if IsDelivery(e) && ChainRoot(log, e) == R then LiveHops(c, log, since, cut, R)[Source(e) := Hop(Source(e), e.cause)]
            else LiveHops(c, log, since, cut, R)
  {
    hide ChainRoot, IsDelivery, DataHops;
    var more := log + [e];
    assert more[..|more| - 1] == log && more[..since] == log[..since];
  }

  ghost predicate WorkedAt(log: seq<Envelope>, R: Id, i: nat, ep: Endpoint)
    requires i < |log|
  {
    IsDelivery(log[i]) && Source(log[i]) == ep && ChainRoot(log[..i], log[i]) == R
  }

  /** `i` is the last delivery of the chain to this place. */
  ghost predicate LatestAt(log: seq<Envelope>, R: Id, i: nat, ep: Endpoint)
    requires i < |log|
  {
    WorkedAt(log, R, i, ep) && forall j :: i < j < |log| ==> !WorkedAt(log, R, j, ep)
  }

  ghost predicate HopFor(log: seq<Envelope>, from: nat, R: Id, ep: Endpoint, h: Hop) {
    exists i :: from <= i < |log| && LatestAt(log, R, i, ep) && h == Hop(ep, log[i].cause)
  }

  ghost predicate Unvisited(log: seq<Envelope>, from: nat, R: Id, ep: Endpoint) {
    forall i :: from <= i < |log| ==> !WorkedAt(log, R, i, ep)
  }

  lemma WorkedEarlier(log: seq<Envelope>, R: Id, ep: Endpoint)
    requires log != []
    ensures forall i :: 0 <= i < |log| - 1 ==> WorkedAt(log[..|log| - 1], R, i, ep) == WorkedAt(log, R, i, ep)
  {
    var before := log[..|log| - 1];
    forall i | 0 <= i < |before| ensures WorkedAt(before, R, i, ep) == WorkedAt(log, R, i, ep) {
      assert before[..i] == log[..i];
    }
  }

  lemma HopStays(log: seq<Envelope>, from: nat, R: Id, ep: Endpoint, h: Hop)
    requires log != [] && !WorkedAt(log, R, |log| - 1, ep)
    requires HopFor(log[..|log| - 1], from, R, ep, h)
    ensures HopFor(log, from, R, ep, h)
  {
    var before := log[..|log| - 1];
    WorkedEarlier(log, R, ep);
    hide WorkedAt;
    var i :| from <= i < |before| && LatestAt(before, R, i, ep) && h == Hop(ep, before[i].cause);
    assert LatestAt(log, R, i, ep);
  }

  lemma StaysUnvisited(log: seq<Envelope>, from: nat, R: Id, ep: Endpoint)
    requires log != [] && !WorkedAt(log, R, |log| - 1, ep)
    requires Unvisited(log[..|log| - 1], from, R, ep)
    ensures Unvisited(log, from, R, ep)
  {
    WorkedEarlier(log, R, ep);
    hide WorkedAt;
    var before := log[..|log| - 1];
    forall i | from <= i < |log| ensures !WorkedAt(log, R, i, ep) {
      if i < |before| { assert !WorkedAt(before, R, i, ep); }
    }
  }

  /** What `HopsSince` means: a place is in it exactly when work of the chain was
      delivered there since, with the cause of the latest such delivery. */
  lemma {:induction false} HopsAreTheLatest(log: seq<Envelope>, from: nat, R: Id, ep: Endpoint)
    ensures var hops := HopsSince(log, from, R);
            if ep in hops then HopFor(log, from, R, ep, hops[ep]) else Unvisited(log, from, R, ep)
  {
    if |log| > from {
      var n := |log| - 1;
      var before := log[..n];
      HopsAreTheLatest(before, from, R, ep);
      assert WorkedAt(log, R, n, ep) <==> IsDelivery(log[n]) && Source(log[n]) == ep && ChainRoot(before, log[n]) == R;
      if WorkedAt(log, R, n, ep) {
        hide WorkedAt;
        assert LatestAt(log, R, n, ep);
      } else if ep in HopsSince(before, from, R) {
        HopStays(log, from, R, ep, HopsSince(before, from, R)[ep]);
      } else {
        StaysUnvisited(log, from, R, ep);
      }
    }
  }

  ghost function Cut(s: State, R: Id): nat {
    if R in s.cuts then s.cuts[R] else 0
  }

  /** The in-flight index holds, for every chain, exactly what the log says. */
  ghost predicate InFlightTrue(c: Config, since: nat, s: State)
    requires since <= |s.log|
  {
    forall R :: R != NoId ==> Get(s.inFlight, R, map[]) == LiveHops(c, s.log, since, Cut(s, R), R)
  }

  ghost predicate CutsPast(s: State) {
    forall R :: R in s.cuts ==> s.cuts[R] <= |s.log|
  }

  /** Nothing was ever evicted: both indexes still have room. */
  ghost predicate Roomy2(s: State) {
    |s.causal.order| < s.causal.max && |s.inFlight.order| < s.inFlight.max
  }

  ghost predicate Tracking(c: Config, since: nat, s: State) {
    Valid(s.inFlight) && CutsPast(s) && since <= |s.log| && (Roomy2(s) ==> InFlightTrue(c, since, s))
  }

  /** Where policy refuses what it cannot seal, sealing works. */
  ghost predicate Sealable(c: Config, w: World) {
    c.hasLedger && c.pol.refuseOnSealFailure ==> forall n :: w.seal(n)
  }

  /** `t` wrote one more entry and left the chains' bookkeeping alone. */
  lemma EntryTracked(c: Config, since: nat, s: State, e: Envelope, t: State)
    requires Tracking(c, since, s) && t.log == s.log + [e] && t.inFlight == s.inFlight && t.cuts == s.cuts && t.causal == s.causal
    requires !IsDelivery(e)
    ensures Tracking(c, since, t)
  {
    hide LiveHops, Valid;
    forall R | R != NoId ensures Cut(s, R) <= |s.log| && LiveHops(c, t.log, since, Cut(t, R), R) == LiveHops(c, s.log, since, Cut(s, R), R) {
      LiveHopsMore(c, s.log, e, since, Cut(s, R), R);
    }
  }

  lemma ErrorTracked(c: Config, since: nat, s: State, cause: Id, via: Id)
    requires Tracking(c, since, s)
    ensures Tracking(c, since, EmitErrorF(s, cause, via))
  {
    EntryTracked(c, since, s, ErrorEnvelope(Minted(s.mint), cause), EmitErrorF(s, cause, via));
  }

  /** A delivery, recorded under its chain's root and then written, stays in step. */
  lemma DeliveryTracked(c: Config, since: nat, s: State, root: Id, e: Envelope, t: State)
    requires Tracking(c, since, s) && t.log == s.log + [e] && t.cuts == s.cuts
    requires t.inFlight == RecordF(s.inFlight, root, Hop(Source(e), e.cause)) && |s.causal.order| <= |t.causal.order|
    requires t.causal.max == s.causal.max && e.id.Minted? && e.kind != Cancel
    requires |t.causal.order| < t.causal.max ==> ChainRoot(s.log, e) == root
    ensures Tracking(c, since, t)
  {
    if root != NoId && e.node != CLIENT {
      PutValid(s.inFlight, root, Get(s.inFlight, root, map[])[Source(e) := Hop(Source(e), e.cause)]);
    }
    hide Put, LiveHops, Valid;
    if Roomy2(t) {
      forall R | R != NoId ensures Get(t.inFlight, R, map[]) == LiveHops(c, t.log, since, Cut(t, R), R) {
        LiveHopsMore(c, s.log, e, since, Cut(s, R), R);
        assert Get(s.inFlight, R, map[]) == LiveHops(c, s.log, since, Cut(s, R), R);
      }
    }
  }

  ghost predicate Writes(s: State, t: State, out: Envelope) {
    && |t.log| > |s.log| && t.log[..|s.log|] == s.log && SameHeader(t.log[|s.log|], out)
    && (t.log == s.log + [t.log[|s.log|]]
        || (|t.log| == |s.log| + 2 && t.log[|s.log| + 1].node == CLIENT && t.log[|s.log| + 1].seqNo == 0))
    && t.cuts == s.cuts && t.inFlight == s.inFlight && t.causal == s.causal
  }

  lemma DeliverWrites(c: Config, w: World, s: State, src: Envelope, out: Envelope, d: Dest, via: Id)
    requires out.id.Minted?
    ensures Writes(s, DeliverF(c, w, s, src, out, d, via), out)
  {
    hide EmitErrorF;
    var t := DeliverF(c, w, s, src, out, d, via);
    var e := if Dropped(w, out) then out.(payload := Elided) else Loggable(c, out, d.qos);
    if !Dropped(w, out) && !w.send(out.id.n) {
      ErrorWrites(s.(log := s.log + [e], sent := s.sent + [Send(out, d, via, |s.log|)]), src.id, via);
      assert |t.log| == |s.log| + 2;
    } else {
      assert t.log == s.log + [e];
    }
    assert t.log[..|s.log|] == s.log && t.log[|s.log|] == e;
  }

  lemma ErrorWrites(s: State, cause: Id, via: Id)
    ensures var t := EmitErrorF(s, cause, via);
            && t.log == s.log + [ErrorEnvelope(Minted(s.mint), cause)] && ErrorEnvelope(Minted(s.mint), cause).node == CLIENT
            && t.cuts == s.cuts && t.inFlight == s.inFlight && t.causal == s.causal
  {
  }

  lemma CheckpointWrites(c: Config, w: World, s: State, src: Envelope, out: Envelope, d: Dest, root: Id, via: Id)
    requires out.id.Minted? && Sealable(c, w)
    ensures exists r :: Writes(s, CheckpointF(c, w, s, src, out, d, root, via), out.(receipt := r))
  {
    hide DeliverF, EmitErrorF;
    var t := CheckpointF(c, w, s, src, out, d, root, via);
    if !c.hasLedger || !IsEffectDelivery(d, out.kind) {
      DeliverWrites(c, w, s, src, out, d, via);
      assert Writes(s, t, out.(receipt := out.receipt));
    } else {
      var taken := s.(approved := s.approved - {out.cause});
      if w.seal(out.id.n) {
        var sealed := out.(receipt := Some(|s.ledger|));
        var s1 := taken.(ledger := s.ledger + [DeliveredEntry(c, s, out, d, root, via)]);
        DeliverWrites(c, w, s1, src, sealed, d, via);
        assert Writes(s, t, out.(receipt := sealed.receipt));
      } else {
        DeliverWrites(c, w, taken, src, out, d, via);
        assert Writes(s, t, out.(receipt := out.receipt));
      }
    }
  }

  /** Writing a recorded delivery, and perhaps the note that it could not be sent. */
  lemma WritesTracked(c: Config, since: nat, s: State, root: Id, s2: State, out: Envelope, t: State)
    requires Tracking(c, since, s) && s2.log == s.log && s2.cuts == s.cuts && Writes(s2, t, out)
    requires s2.inFlight == RecordF(s.inFlight, root, Hop(Source(out), out.cause)) && |s.causal.order| <= |s2.causal.order|
    requires s2.causal.max == s.causal.max && out.id.Minted? && out.kind != Cancel
    requires |s2.causal.order| < s2.causal.max ==> ChainRoot(s.log, out) == root
    ensures Tracking(c, since, t)
  {
    hide Tracking;
    var e := t.log[|s.log|];
    SameChain(s.log, e, out);
    var mid := s2.(log := s.log + [e]);
    DeliveryTracked(c, since, s, root, e, mid);
    if t.log != mid.log {
      assert t.log == mid.log + [t.log[|s.log| + 1]];
      EntryTracked(c, since, mid, t.log[|s.log| + 1], t);
    } else {
      TrackingSame(c, since, mid, t);
    }
  }

  lemma TrackingSame(c: Config, since: nat, s: State, t: State)
    requires Tracking(c, since, s) && t.log == s.log && t.cuts == s.cuts && t.inFlight == s.inFlight && t.causal == s.causal
    ensures Tracking(c, since, t)
  {
    assert forall R :: Cut(t, R) == Cut(s, R);
  }

  lemma ForwardTracked(c: Config, w: World, since: nat, s: State, src: Envelope, d: Dest, via: Id)
    requires Tracking(c, since, s) && Traced(s) && Arrived(s.log, src) && src.kind != Cancel && Sealable(c, w)
    ensures Tracking(c, since, ForwardF(c, w, s, src, d, via))
  {
    hide CheckpointF, EmitErrorF, Traced, Tracking, Arrived, Writes, RecordF, SetRootF, Valid;
    ErrorTracked(c, since, s, src.id, via);
    if !RateRefused(c, w, s, src, d) {
      var out := Outgoing(w, s, src, d);
      var (consumed, over) := ContextF(c, s, out);
      var s1 := s.(mint := s.mint + 1, seqNo := s.seqNo[Source(out) := out.seqNo], consumed := consumed);
      TrackingSame(c, since, s, s1);
      ErrorTracked(c, since, s1, src.id, via);
      if !over {
        var s2, root := TrackF(s1, src, out), RootOf(s1, src);
        TrackTraced(w, s, src, d, s1);
        TrackRoot(w, s, src, d, s1);
        CheckpointWrites(c, w, s2, src, out, d, RootOf(s1, src), via);
        var t := CheckpointF(c, w, s2, src, out, d, RootOf(s1, src), via);
        var r :| Writes(s2, t, out.(receipt := r));
        var e := out.(receipt := r);
        SameChain(s.log, e, out);
        WritesTracked(c, since, s, root, s2, e, t);
      }
    }
  }

  lemma TrackRoot(w: World, s: State, src: Envelope, d: Dest, s1: State)
    requires Traced(s) && Arrived(s.log, src)
    requires s1 == s.(mint := s.mint + 1, seqNo := s1.seqNo, consumed := s1.consumed)
    ensures var out := Outgoing(w, s, src, d);
            |TrackF(s1, src, out).causal.order| < s.causal.max ==> ChainRoot(s.log, out) == RootOf(s1, src)
  {
    var out := Outgoing(w, s, src, d);
    TrackIndexes(s, src, out, TrackF(s1, src, out).causal);
    OutgoingChain(s, src, out);
    hide Traced, Arrived;
    if |s.causal.order| < s.causal.max { RootIsTrue(s, src); }
  }

  lemma {:induction false} AbandonTracked(c: Config, since: nat, s: State, ids: seq<Id>, d: Dest)
    requires Tracking(c, since, s)
    ensures Tracking(c, since, AbandonAllF(s, ids, d))
  {
    hide Tracking, CancelF;
    if ids != [] {
      var s1, id := AbandonAllF(s, ids[..|ids| - 1], d), ids[|ids| - 1];
      AbandonTracked(c, since, s, ids[..|ids| - 1], d);
      if d.skill.Some? {
        EntryTracked(c, since, s1, KernelEnvelope(Minted(s1.mint), id, d.ref, d.port, Cancel, "", Notice("superseded")), AbandonF(s1, id, d));
      } else {
        TrackingSame(c, since, s1, AbandonF(s1, id, d));
      }
    }
  }

  lemma SpeculativeTracked(c: Config, w: World, since: nat, s: State, env: Envelope, d: Dest, root: Id)
    requires Tracking(c, since, s) && Traced(s) && Arrived(s.log, env) && env.kind != Cancel && Sealable(c, w)
    ensures Tracking(c, since, ForwardSpeculativelyF(c, w, s, env, d, root))
  {
    hide ForwardF, FoldF, ResolveF, SpeculateF, StaleF, AbandonAllF, RunningF, GuessStands, IsFinal, MarkFinal;
    hide Tracking, Traced, Sealable, GuessesKnown, Arrived;
    if env.kind != Data || root == NoId {
      ForwardTracked(c, w, since, s, env, d, NoId);
    } else {
      var key := SpecKey(root, d.from);
      var folded := FoldF(s.spec, key, env.schema, env.payload);
      var running := RunningF(folded, key);
      TracedGuesses(s);
      FoldKeepsGuesses(s.log, s.spec, key, env.schema, env.payload);
      if !IsFinal(env.payload) {
        var s1, guess := s.(spec := folded), env.(payload := MarkFinal(running));
        Respec(s, s1);
        TrackingSame(c, since, s, s1);
        Repaid(s.log, env, MarkFinal(running));
        ForwardTracked(c, w, since, s1, guess, d, NoId);
        TrackingSame(c, since, ForwardF(c, w, s1, guess, d, NoId), ForwardSpeculativelyF(c, w, s, env, d, root));
      } else {
        var resolved := s.(spec := ResolveF(folded, key, running));
        var stale := StaleF(folded, key, running);
        Respec(s, resolved);
        TrackingSame(c, since, s, resolved);
        AbandonTracked(c, since, resolved, stale, d);
        AbandonTraced(resolved, stale, d);
        var s1 := AbandonAllF(resolved, stale, d);
        ArrivedStays(s.log, s1.log, env);
        Repaid(s1.log, env, running);
        ForwardTracked(c, w, since, s1, env.(payload := running), d, NoId);
      }
    }
  }

  lemma TracedGuesses(s: State)
    requires Traced(s)
    ensures GuessesKnown(s.log, s.spec)
  {
  }

  lemma {:induction false} ToDestsTracked(c: Config, w: World, since: nat, s: State, env: Envelope, dests: seq<Dest>, root: Id)
    requires Tracking(c, since, s) && Traced(s) && Arrived(s.log, env) && env.kind != Cancel && Sealable(c, w)
    ensures Tracking(c, since, ToDestsF(c, w, s, env, dests, root))
  {
    hide ForwardF, ForwardSpeculativelyF, Tracking, Traced, Sealable, Arrived;
    if dests != [] {
      var before, d := dests[..|dests| - 1], dests[|dests| - 1];
      ToDestsTracked(c, w, since, s, env, before, root);
      ToDestsTraced(c, w, s, env, before, root);
      var s1 := ToDestsF(c, w, s, env, before, root);
      ArrivedStays(s.log, s1.log, env);
      if d.speculative {
        SpeculativeTracked(c, w, since, s1, env, d, root);
      } else if d.gate == HumanApproval {
        EntryTracked(c, since, s1, RequestEnvelope(Minted(s1.mint), env, d), HoldF(s1, env, d));
      } else {
        ForwardTracked(c, w, since, s1, env, d, NoId);
      }
    }
  }

  /** No gate holds a cancel. */
  ghost predicate HoldsWork(pending: map<Id, Held>) {
    forall r :: r in pending ==> pending[r].env.kind != Cancel
  }

  lemma {:induction false} ToDestsHoldsWork(c: Config, w: World, s: State, env: Envelope, dests: seq<Dest>, root: Id)
    requires HoldsWork(s.pending) && env.kind != Cancel
    ensures HoldsWork(ToDestsF(c, w, s, env, dests, root).pending)
  {
    hide ForwardF, ForwardSpeculativelyF;
    if dests != [] {
      var before, d := dests[..|dests| - 1], dests[|dests| - 1];
      ToDestsHoldsWork(c, w, s, env, before, root);
      var s1 := ToDestsF(c, w, s, env, before, root);
      ForwardFrame(c, w, s1, env, d, NoId);
      SpeculativeFrame(c, w, s1, env, d, root);
    }
  }

  lemma ResolveTracked(c: Config, w: World, since: nat, s: State, answer: Envelope)
    requires Tracking(c, since, s) && Traced(s) && HoldsArrived(s.log, s.pending) && HoldsWork(s.pending)
    requires Honest(s, answer) && Sealable(c, w)
    ensures Tracking(c, since, ResolveGateF(c, w, s, answer)) && HoldsWork(ResolveGateF(c, w, s, answer).pending)
  {
    hide ForwardF, EmitErrorF, AuthorizeGate, Arrived, Sealable, Tracking;
    if answer.cause in s.pending {
      var held := s.pending[answer.cause];
      var s1 := s.(pending := s.pending - {answer.cause}, log := s.log + [answer]);
      AnswerLogged(s, answer, s1);
      assert answer.id.External?;
      hide Traced, Honest;
      EntryTracked(c, since, s, answer, s1);
      ArrivedStays(s.log, s1.log, held.env);
      match AuthorizeGate(c, w.roster, held, answer.payload) {
        case Rejected => DenyTracked(c, w, since, s1, answer.cause, held, answer, None);
        case Denies(a) => DenyTracked(c, w, since, s1, answer.cause, held, answer, a);
        case Approves(a) => ReleaseTracked(c, w, since, s1, answer.cause, held, answer, a);
      }
    }
  }

  lemma DenyTracked(c: Config, w: World, since: nat, s: State, req: Id, held: Held, answer: Envelope, a: Option<Approval>)
    requires Tracking(c, since, s)
    ensures var t := DenyF(c, w, s, req, held, answer, a); Tracking(c, since, t) && t.pending == s.pending
  {
    var s1 := SealDenialF(c, w, s.(gates := s.gates + [Refused(req, held, answer)]), held, a, req);
    TrackingSame(c, since, s, s1);
    ErrorTracked(c, since, s1, answer.id, req);
  }

  lemma ReleaseTracked(c: Config, w: World, since: nat, s: State, req: Id, held: Held, answer: Envelope, a: Option<Approval>)
    requires Tracking(c, since, s) && Traced(s) && Arrived(s.log, held.env) && held.env.kind != Cancel && Sealable(c, w)
    ensures var t := ReleaseF(c, w, s, req, held, answer, a); Tracking(c, since, t) && t.pending == s.pending
  {
    hide ForwardF;
    var parked := if a.Some? then s.(approved := s.approved[held.env.id := a.value]) else s;
    var s1 := parked.(gates := s.gates + [Released(req, held, answer, a, w.roster)]);
    MoreMint(s, s1);
    TrackingSame(c, since, s, s1);
    ForwardTracked(c, w, since, s1, held.env, held.to, req);
    ForwardFrame(c, w, s1, held.env, held.to, req);
  }

  lemma CancelTracked(c: Config, since: nat, s: State, env: Envelope)
    requires Tracking(c, since, s) && Roomy2(s) && since < |s.log|
    ensures Tracking(c, since, HandleCancelF(s, env))
  {
    hide CancelTarget, AbandonChainF;
    var root := CancelTarget(s, env.cause);
    if root != NoId {
      ChainTracked(c, since, s, root);
    }
  }

  lemma ChainTracked(c: Config, since: nat, s: State, root: Id)
    requires Tracking(c, since, s) && Roomy2(s) && root != NoId && since < |s.log|
    ensures Tracking(c, since, AbandonChainF(s, root))
  {
    hide CancelF, Remove, Drawn, Valid, LiveHops;
    var t := AbandonChainF(s, root);
    RemoveValid(s.inFlight, root);
    CutClears(c, s.log, since, root);
    forall R | R != NoId ensures Get(t.inFlight, R, map[]) == LiveHops(c, t.log, since, Cut(t, R), R) {
      assert Get(s.inFlight, R, map[]) == LiveHops(c, s.log, since, Cut(s, R), R);
    }
  }

  lemma CutClears(c: Config, log: seq<Envelope>, since: nat, R: Id)
    requires since < |log|
    ensures LiveHops(c, log, since, |log|, R) == map[]
  {
  }

  lemma RouteTracked(c: Config, w: World, since: nat, s: State, env: Envelope)
    requires Tracking(c, since, s) && Traced(s) && HoldsArrived(s.log, s.pending) && HoldsWork(s.pending)
    requires Honest(s, env) && Sealable(c, w) && Roomy2(s)
    ensures Tracking(c, since, RouteF(c, w, s, env)) && HoldsWork(RouteF(c, w, s, env).pending)
  {
    hide PropagateF, ResolveGateF, HandleCancelF, SeenF, Sealable, Tracking;
    var logged := s.(log := s.log + [env]);
    EnvLogged(s, env, logged);
    assert env.id.External?;
    EntryTracked(c, since, s, env, logged);
    HoldsStay(s.log, logged.log, s.pending);
    hide Traced, Honest, Arrived, HoldsArrived;
    if env.kind == Cancel {
      TrackingCuts(c, since, s);
      CancelTracked(c, since, logged, env);
      HandleCancelFrame(logged, env);
    } else if !Duplicate(s, env) {
      var seen := if env.kind == Data then logged.(dedup := SeenF(s.dedup, env.idem)) else logged;
      TracedSame(logged, seen);
      TrackingSame(c, since, logged, seen);
      if env.kind == ConfirmResponse {
        ResolveTracked(c, w, since, seen, env);
      } else {
        PropagateTracked(c, w, since, seen, env);
      }
    }
  }

  lemma PropagateTracked(c: Config, w: World, since: nat, s: State, env: Envelope)
    requires Tracking(c, since, s) && Traced(s) && HoldsWork(s.pending) && Arrived(s.log, env) && env.kind != Cancel && Sealable(c, w)
    ensures Tracking(c, since, PropagateF(c, w, s, env)) && HoldsWork(PropagateF(c, w, s, env).pending)
  {
    hide ToDestsF, AttestF, Sealable, Tracking, Traced, Arrived;
    var root := RootOf(s, env);
    if !CancelledF(s.cancelled, root) {
      var noted := s.(attests := if env.attest == "" then s.attests
                                 else AttestF(s.attests, MAX_ATTEST_PER_ROOT, root, w.attest(env.attest)));
      TracedSame(s, noted);
      TrackingSame(c, since, s, noted);
      ToDestsTracked(c, w, since, noted, env, DestsAt(c.routes, Source(env)), root);
      ToDestsHoldsWork(c, w, noted, env, DestsAt(c.routes, Source(env)), root);
    }
  }

  // ---- Whole runs ----

  /** No effect refused for want of a seal, and room in both indexes. */
  ghost predicate SteadyRun(c: Config, inputs: seq<Input>) {
    && Roomy2(Run(c, inputs))
    && (inputs != [] ==>
          && SteadyRun(c, inputs[..|inputs| - 1])
          && (inputs[|inputs| - 1].Arrive? ==> Sealable(c, inputs[|inputs| - 1].w)))
  }

  /** How long the log was when the session was last rebuilt. */
  ghost function Since(c: Config, inputs: seq<Input>): nat {
    if inputs == [] then 0
    else
      var before := inputs[..|inputs| - 1];
      if inputs[|inputs| - 1].Crash? then |Run(c, before).log| else Since(c, before)
  }

  lemma {:induction false} TrackedInEveryRun(c: Config, inputs: seq<Input>)
    requires HonestRun(c, inputs) && SteadyRun(c, inputs) && DistinctEdges(c)
    ensures Tracking(c, Since(c, inputs), Run(c, inputs)) && HoldsWork(Run(c, inputs).pending)
  {
    hide RouteF, ResumeF, Honest, Traced;
    if inputs == [] {
      assert forall R: Id :: LiveHops(c, [], 0, 0, R) == map[];
    } else {
      var before, last := inputs[..|inputs| - 1], inputs[|inputs| - 1];
      TrackedInEveryRun(c, before);
      UpheldInEveryRun(c, before);
      hide Tracking;
      match last {
        case Arrive(env, w) => RouteTracked(c, w, Since(c, before), Run(c, before), env);
        case Crash => ResumeTracked(c, Since(c, before), Run(c, before));
      }
    }
  }

  lemma ResumeTracked(c: Config, since: nat, s: State)
    requires Tracking(c, since, s) && Upheld(c, s) && HoldsWork(s.pending) && |s.log| <= RESUME_LIMIT
    ensures Tracking(c, |s.log|, ResumeF(c, s)) && HoldsWork(ResumeF(c, s).pending)
  {
    ResumeKeeps(c, s);
    ResumeHolds(c, s);
    assert HonestLog(s.log, s.cancelIds);
    hide ResumeF, Replay, HonestLog, Upheld, Traced, DataHops;
    var t := ResumeF(c, s);
    RebuiltHops(c, s.log, s.cancelIds, External(""));
    assert s.log[..|s.log|] == s.log;
    forall R | R != NoId ensures Get(t.inFlight, R, map[]) == LiveHops(c, t.log, |s.log|, Cut(t, R), R) {
      RebuiltHops(c, s.log, s.cancelIds, R);
    }
  }

  lemma ResumeHolds(c: Config, s: State)
    requires |s.log| <= RESUME_LIMIT
    ensures var t := ResumeF(c, s);
            && t.log == s.log && t.cancelsSent == s.cancelsSent && t.cancelIds == s.cancelIds && t.cuts == s.cuts
            && t.inFlight == Replay(c, s.log).inFlight
  {
  }

  /** A cancel of R's chain asks every skill the chain was handed to since it was
      last cancelled to stop, each exactly once and under the cause of the latest
      delivery made to it, and asks no one else. A session rebuilt since then asks, of
      what it read back, everyone the chain's data was ever handed to. */
  lemma CancelAsksEveryHop(c: Config, inputs: seq<Input>, env: Envelope, w: World, R: Id)
    requires HonestRun(c, inputs) && SteadyRun(c, inputs) && DistinctEdges(c)
    requires Honest(Run(c, inputs), env)
    requires Names(Run(c, inputs).log + [env], |Run(c, inputs).log|, R)
    ensures var s := Run(c, inputs);
            var t := RouteF(c, w, s, env);
            && Since(c, inputs) <= |s.log|
            && t.cancelsSent == s.cancelsSent + multiset(LiveHops(c, s.log, Since(c, inputs), Cut(s, R), R).Values)
            && HopsSince(t.log, Cut(t, R), R) == map[]
  {
    TrackedInEveryRun(c, inputs);
    UpheldInEveryRun(c, inputs);
    var s := Run(c, inputs);
    hide Run, Since;
    var logged := s.(log := s.log + [env]);
    EnvLogged(s, env, logged);
    CancelAims(logged, env, R);
    assert Get(s.inFlight, R, map[]) == LiveHops(c, s.log, Since(c, inputs), Cut(s, R), R);
    assert RouteF(c, w, s, env) == HandleCancelF(logged, env);
  }

  /** After a cancel, until someone answers a gate, the chain is handed to no one: a
      second cancel of it would ask nobody. */
  lemma {:induction false} NothingLeftToAsk(c: Config, inputs: seq<Input>, n: nat, R: Id)
    requires HonestRun(c, inputs) && RoomyRun(c, inputs) && DistinctEdges(c)
    requires n < |inputs| && inputs[n].Arrive?
    requires Names(Run(c, inputs[..n]).log + [inputs[n].env], |Run(c, inputs[..n]).log|, R)
    requires forall i :: n < i < |inputs| ==> inputs[i].Arrive? && inputs[i].env.kind != ConfirmResponse
    ensures Unworked(Run(c, inputs).log, |Run(c, inputs[..n]).log|, R)
    ensures |Run(c, inputs[..n]).log| <= |Run(c, inputs).log|
    decreases |inputs|
  {
    assert R != NoId;
    hide Traced, Honest, Replay, RouteF, Linear, Restorable, Names, HoldsArrived, WindowLogged, Valid;
    var before, last := inputs[..|inputs| - 1], inputs[|inputs| - 1];
    UpheldInEveryRun(c, before);
    var s := Run(c, before);
    if n == |inputs| - 1 {
      CancelledSetIsValid(c, before);
      CancelSuppresses(c, last.w, s, last.env, R);
      NamedIsArrival(s, last.env, R);
    } else {
      assert before[..n] == inputs[..n];
      NothingLeftToAsk(c, before, n, R);
      CancelReachesTheChain(c, before, n, R);
      hide Run;
      RouteSilent(c, last.w, s, last.env, R);
      RouteTraced(c, last.w, s, last.env);
      UnworkedStays(s, RouteF(c, last.w, s, last.env), |Run(c, inputs[..n]).log|, R);
    }
  }

  lemma NamedIsArrival(s: State, env: Envelope, R: Id)
    requires Honest(s, env)
    ensures Unworked(s.log + [env], |s.log|, R)
  {
  }

  lemma UnworkedStays(s: State, t: State, from: nat, R: Id)
    requires Traced(s) && Traced(t) && s.log <= t.log
    requires Unworked(s.log, from, R) && Unworked(t.log, |s.log|, R)
    ensures Unworked(t.log, from, R)
  {
    forall i | from <= i < |s.log| && IsDelivery(t.log[i]) ensures ChainRoot(t.log, t.log[i]) != R {
      assert EntryOk(s.log, s.mint, i);
      var j :| 0 <= j < i && s.log[j].id == s.log[i].cause;
      ChainStable(s.log, t.log, s.log[i]);
    }
  }

  lemma {:induction false} UnworkedHasNoHops(log: seq<Envelope>, mint: nat, from: nat, R: Id)
    requires LogOk(log, mint) && Unworked(log, from, R)
    ensures HopsSince(log, from, R) == map[]
  {
    if |log| > from {
      var before, e := log[..|log| - 1], log[|log| - 1];
      forall i | 0 <= i < |before| ensures EntryOk(before, mint, i) {
        assert EntryOk(log, mint, i);
        KnownGrowsBack(log, before, i);
      }
      forall i | from <= i < |before| && IsDelivery(before[i]) ensures ChainRoot(before, before[i]) != R {
        assert IsDelivery(log[i]);
        EntryChain(log, mint, before, i);
      }
      UnworkedHasNoHops(before, mint, from, R);
      if IsDelivery(e) {
        EntryChain(log, mint, before, |log| - 1);
      }
    }
  }

  lemma KnownGrowsBack(log: seq<Envelope>, before: seq<Envelope>, i: nat)
    requires before <= log && i < |before|
    ensures KnownBefore(log, i, log[i].cause) ==> KnownBefore(before, i, before[i].cause)
  {
    if KnownBefore(log, i, log[i].cause) {
      var j :| 0 <= j < i && j < |log| && log[j].id == log[i].cause;
      assert before[j].id == before[i].cause;
    }
  }

  /** The chain of a written delivery is the same read from any log that holds its cause. */
  lemma EntryChain(log: seq<Envelope>, mint: nat, before: seq<Envelope>, i: nat)
    requires LogOk(log, mint) && before <= log && i < |log| && i <= |before| && IsDelivery(log[i])
    ensures ChainRoot(before, log[i]) == ChainRoot(log, log[i])
  {
    assert EntryOk(log, mint, i);
    var j :| 0 <= j < i && log[j].id == log[i].cause;
    assert before[j].id == log[i].cause;
    ChainStable(before, log, log[i]);
  }

  lemma RouteCuts(c: Config, w: World, s: State, env: Envelope, R: Id)
    requires CutsPast(s)
    ensures Cut(s, R) <= Cut(RouteF(c, w, s, env), R)
    ensures env.kind == Cancel && CancelTarget(s.(log := s.log + [env]), env.cause) == R && R != NoId ==>
              Cut(RouteF(c, w, s, env), R) == |s.log| + 1
  {
    hide ToDestsF, ResolveGateF, AttestF, SeenF, CancelTarget;
    if env.kind != Cancel && !Duplicate(s, env) {
      var logged := s.(log := s.log + [env]);
      var seen := if env.kind == Data then logged.(dedup := SeenF(s.dedup, env.idem)) else logged;
      ResolveVia(c, w, seen, env);
      var noted := seen.(attests := if env.attest == "" then seen.attests
                                    else AttestF(seen.attests, MAX_ATTEST_PER_ROOT, RootOf(seen, env), w.attest(env.attest)));
      ToDestsIds(c, w, noted, env, DestsAt(c.routes, Source(env)), RootOf(seen, env));
    }
  }

  /** A cancel cuts past everything read back, so long as no crash follows it. */
  lemma {:induction false} CutIsPast(c: Config, inputs: seq<Input>, n: nat, R: Id)
    requires HonestRun(c, inputs) && SteadyRun(c, inputs) && DistinctEdges(c)
    requires n < |inputs| && forall i :: n <= i < |inputs| ==> inputs[i].Arrive?
    requires Names(Run(c, inputs[..n]).log + [inputs[n].env], |Run(c, inputs[..n]).log|, R)
    ensures Cut(Run(c, inputs), R) > |Run(c, inputs[..n]).log| >= Since(c, inputs)
    decreases |inputs|
  {
    hide Run, Honest, Traced, CancelTarget, RouteF, Names, Tracking, Sealable;
    var before, last := inputs[..|inputs| - 1], inputs[|inputs| - 1];
    TrackedInEveryRun(c, before);
    UpheldInEveryRun(c, before);
    var s := Run(c, before);
    RunLast(c, inputs);
    TrackingCuts(c, Since(c, before), s);
    if n == |inputs| - 1 {
      SteadyRoom(c, before);
      FirstCut(s, last.env, R);
    } else {
      assert before[..n] == inputs[..n];
      CutIsPast(c, before, n, R);
    }
    RouteCuts(c, last.w, s, last.env, R);
  }

  lemma RunLast(c: Config, inputs: seq<Input>)
    requires inputs != []
    ensures Run(c, inputs) == Step(c, Run(c, inputs[..|inputs| - 1]), inputs[|inputs| - 1])
  {
  }

  lemma SteadyRoom(c: Config, inputs: seq<Input>)
    requires SteadyRun(c, inputs)
    ensures Roomy2(Run(c, inputs))
  {
  }

  lemma TrackingCuts(c: Config, since: nat, s: State)
    requires Tracking(c, since, s)
    ensures CutsPast(s) && since <= |s.log|
  {
  }

  lemma FirstCut(s: State, env: Envelope, R: Id)
    requires Traced(s) && Honest(s, env) && |s.causal.order| < s.causal.max && Names(s.log + [env], |s.log|, R)
    ensures CancelTarget(s.(log := s.log + [env]), env.cause) == R && R != NoId && env.kind == Cancel
  {
    var logged := s.(log := s.log + [env]);
    EnvLogged(s, env, logged);
    CancelAims(logged, env, R);
  }

  /** Exactly one cancel per hop: naming the same chain again asks nobody, unless a
      gate answer came in between. */
  lemma SecondCancelAsksNobody(c: Config, inputs: seq<Input>, n: nat, env: Envelope, w: World, R: Id)
    requires HonestRun(c, inputs) && RoomyRun(c, inputs) && SteadyRun(c, inputs) && DistinctEdges(c)
    requires n < |inputs| && inputs[n].Arrive?
    requires Names(Run(c, inputs[..n]).log + [inputs[n].env], |Run(c, inputs[..n]).log|, R)
    requires forall i :: n < i < |inputs| ==> inputs[i].Arrive? && inputs[i].env.kind != ConfirmResponse
    requires Honest(Run(c, inputs), env)
    requires Names(Run(c, inputs).log + [env], |Run(c, inputs).log|, R)
    ensures RouteF(c, w, Run(c, inputs), env).cancelsSent == Run(c, inputs).cancelsSent
  {
    hide Run, Names, Honest, SteadyRun, RoomyRun, HonestRun, RouteF, LogOk, Since, HopsOnto;
    NothingLeftToAsk(c, inputs, n, R);
    CutIsPast(c, inputs, n, R);
    UpheldInEveryRun(c, inputs);
    UnworkedHasNoHops(Run(c, inputs).log, Run(c, inputs).mint, Cut(Run(c, inputs), R), R);
    CancelAsksEveryHop(c, inputs, env, w, R);
  }

  // ---- After a restart ----

  /** The rebuilt index holds exactly those: chains cancelled before the restart
      included, and whatever was handed on that was no data left out. */
  lemma {:induction false} RebuiltHops(c: Config, log: seq<Envelope>, cancels: set<Id>, R: Id)
    requires HonestLog(log, cancels) && |log| <= RESUME_LIMIT && R != NoId
    ensures var f := Replay(c, log).inFlight;
            Valid(f) && f.max == MAX_IN_FLIGHT_ROOTS && |f.order| <= |log| && Get(f, R, map[]) == DataHops(c, log, R)
  {
    if log != [] {
      var before, e := log[..|log| - 1], log[|log| - 1];
      HonestPrefix(log, cancels, |log| - 1);
      RebuiltHops(c, before, cancels, R);
      ReplayRebuilds(c, before, cancels);
      assert before + [e] == log;
      hide Replay, HonestLog, ChainRoot, Rebuilt, IsDest;
      if e.kind == Data && e.node != CLIENT && IsDest(c, Source(e)) {
        ReplayedRoot(before, cancels, Replay(c, before).causal, e);
      }
      HopReplayed(c, before, e, R, ChainRoot(log, e));
    }
  }

  lemma HopReplayed(c: Config, log: seq<Envelope>, e: Envelope, R: Id, root: Id)
    requires var f := Replay(c, log).inFlight; Valid(f) && f.max == MAX_IN_FLIGHT_ROOTS && |f.order| <= |log| < RESUME_LIMIT
    requires e.kind == Data && e.node != CLIENT && IsDest(c, Source(e)) ==> RootIn(Replay(c, log).causal, e) == root
    requires R != NoId
    ensures var f, g := Replay(c, log).inFlight, Replay(c, log + [e]).inFlight;
            && Valid(g) && g.max == MAX_IN_FLIGHT_ROOTS && |g.order| <= |log| + 1
            && Get(g, R, map[]) == if e.kind == Data && e.node != CLIENT && IsDest(c, Source(e)) && root == R
                                   then Get(f, R, map[])[Source(e) := Hop(Source(e), e.cause)] else Get(f, R, map[])
  {
    ReplayOne(c, log, e);
    hide Replay, IsDest, SetRootF, RootIn, SeenF, CancelF, Put;
    var f := Replay(c, log).inFlight;
    if root != NoId { PutValid(f, root, Get(f, root, map[])[Source(e) := Hop(Source(e), e.cause)]); }
  }
}
