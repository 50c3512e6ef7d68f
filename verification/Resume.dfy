// Restart: what a session rebuilt from its own log knows again, against what the
// session that crashed knew.

module Resumes {
  import opened Options
  import opened Envelopes
  import opened BoundedFifo
  import opened Indexes
  import opened Policies
  import opened Wiring
  import opened Speculation
  import opened Kernel
  import opened Frames
  import opened Books
  import opened Chains
  import opened Gates

  // ---- The causal index. ----

  /** `causal` gives everything tracked its root in the log, and names nothing else. */
  ghost predicate Rebuilt(log: seq<Envelope>, causal: Fifo<Id, Id>) {
    && Valid(causal) && causal.max == MAX_CAUSAL_ROOTS && |causal.order| <= |log|
    && (forall id :: id in causal.m ==> KnownBefore(log, |log|, id))
    && (forall i :: 0 <= i < |log| && Tracked(log[i]) ==> RootF(causal, log[i].id) == ChainRoot(log, log[i]))
  }

  lemma ReplayedRoot(log: seq<Envelope>, cancels: set<Id>, causal: Fifo<Id, Id>, e: Envelope)
    requires Rebuilt(log, causal) && HonestLog(log, cancels) && HonestLog(log + [e], cancels) && Tracked(e)
    ensures RootIn(causal, e) == ChainRoot(log + [e], e)
  {
    var more := log + [e];
    if e.node != CLIENT {
      assert more[|log|] == e && Cites(more, cancels, |log|, e);
      if e.cause == NoId || e.cause in cancels {
        UncitedRoot(more, cancels, e);
        assert forall i :: 0 <= i < |log| ==> log[i].id != e.cause;
      } else {
        var j := FollowerRoot(more, cancels, |log|, e);
        assert Tracked(log[j]);
        TrackedStable(log, cancels, more, j);
      }
    }
  }

  /** An entry already on record is indexed as it was, whatever is put beside it. */
  lemma RebuiltOld(log: seq<Envelope>, cancels: set<Id>, causal: Fifo<Id, Id>, e: Envelope, now: Fifo<Id, Id>, i: nat)
    requires Rebuilt(log, causal) && HonestLog(log, cancels) && HonestLog(log + [e], cancels)
    requires i < |log| && Tracked(log[i]) && log[i].id != e.id
    requires forall id :: id != e.id ==> RootF(now, id) == RootF(causal, id)
    ensures RootF(now, log[i].id) == ChainRoot(log + [e], log[i])
  {
    hide ChainRoot;
    TrackedStable(log, cancels, log + [e], i);
  }

  /** The entry being read is indexed under its root, whether or not it was before. */
  lemma RebuiltNew(log: seq<Envelope>, cancels: set<Id>, causal: Fifo<Id, Id>, e: Envelope, now: Fifo<Id, Id>)
    requires Rebuilt(log, causal) && HonestLog(log, cancels) && HonestLog(log + [e], cancels) && Tracked(e)
    requires var root := RootIn(causal, e);
             RootF(now, e.id) == if root != NoId then root else RootF(causal, e.id)
    ensures RootF(now, e.id) == ChainRoot(log + [e], e)
  {
    hide ChainRoot;
    ReplayedRoot(log, cancels, causal, e);
    if RootIn(causal, e) == NoId && RootF(causal, e.id) != NoId {
      var j :| 0 <= j < |log| && log[j].id == e.id;
      SameEntry(log + [e], cancels, j, |log|);
      TrackedStable(log, cancels, log + [e], j);
    }
  }

  lemma SameEntry(log: seq<Envelope>, cancels: set<Id>, i: nat, j: nat)
    requires HonestLog(log, cancels) && i < |log| && j < |log| && log[i].id == log[j].id
    ensures log[i] == log[j]
  {
  }

  lemma RebuiltStep(log: seq<Envelope>, cancels: set<Id>, causal: Fifo<Id, Id>, e: Envelope)
    requires Rebuilt(log, causal) && HonestLog(log, cancels) && HonestLog(log + [e], cancels)
    requires |log| < MAX_CAUSAL_ROOTS
    ensures Rebuilt(log + [e], SetRootF(causal, e.id, RootIn(causal, e)))
  {
    hide Put, ChainRoot, HonestLog, RootIn, Tracked;
    var more, root := log + [e], RootIn(causal, e);
    var now := SetRootF(causal, e.id, root);
    if root != NoId && e.id != NoId {
      PutValid(causal, e.id, root);
    }
    KnownGrows(log, more);
    assert more[|log|].id == e.id;
    forall id | id in now.m ensures KnownBefore(more, |more|, id) {
      assert id == e.id || id in causal.m;
    }
    NeverLogged(more, cancels, |log|);
    forall i | 0 <= i < |more| && Tracked(more[i]) ensures RootF(now, more[i].id) == ChainRoot(more, more[i]) {
      if more[i].id == e.id {
        SameEntry(more, cancels, i, |log|);
        RebuiltNew(log, cancels, causal, e, now);
      } else {
        RebuiltOld(log, cancels, causal, e, now, i);
      }
    }
  }

  lemma {:induction false} ReplayRebuilds(c: Config, log: seq<Envelope>, cancels: set<Id>)
    requires HonestLog(log, cancels) && |log| <= RESUME_LIMIT
    ensures Rebuilt(log, Replay(c, log).causal)
  {
    if log != [] {
      var before, last := log[..|log| - 1], log[|log| - 1];
      HonestPrefix(log, cancels, |log| - 1);
      ReplayRebuilds(c, before, cancels);
      assert before + [last] == log;
      RebuiltStep(before, cancels, Replay(c, before).causal, last);
    }
  }

  /** After a restart the index is as true as before it. */
  lemma ResumeTraced(c: Config, s: State)
    requires Traced(s) && |s.log| <= RESUME_LIMIT
    ensures Traced(ResumeF(c, s)) && Rebuilt(s.log, ResumeF(c, s).causal)
  {
    ReplayRebuilds(c, s.log, s.cancelIds);
    ResumeOrdered(c, s);
    hide Replay, HonestLog;
    var t := ResumeF(c, s);
    forall id | id in t.causal.m
      ensures id != NoId && (id.Minted? ==> id.n < s.mint) && id !in s.cancelIds
      ensures id.External? ==> OutsideKey(s.log, id, t.causal.m[id])
    {
      var i :| 0 <= i < |s.log| && s.log[i].id == id;
      assert EntryOk(s.log, s.mint, i);
      assert HonestLog(s.log, s.cancelIds);
      NeverLogged(s.log, s.cancelIds, i);
      if id.External? {
        assert Tracked(s.log[i]);
      }
    }
  }

  lemma NeverLogged(log: seq<Envelope>, cancels: set<Id>, i: nat)
    requires HonestLog(log, cancels) && i < |log|
    ensures log[i].id != NoId && log[i].id !in cancels
  {
  }

  // ---- The pending gates. ----

  /** No two edges of a graph join the same two endpoints. */
  ghost predicate DistinctEdges(c: Config) {
    forall from, i, j :: 0 <= i < j < |DestsAt(c.routes, from)| ==>
      Endpoint(DestsAt(c.routes, from)[i].ref, DestsAt(c.routes, from)[i].port)
      != Endpoint(DestsAt(c.routes, from)[j].ref, DestsAt(c.routes, from)[j].port)
  }

  lemma {:induction false} GateForIs(dests: seq<Dest>, n: nat)
    requires n < |dests| && dests[n].gate == HumanApproval
    requires forall i, j :: 0 <= i < j < |dests| ==>
               Endpoint(dests[i].ref, dests[i].port) != Endpoint(dests[j].ref, dests[j].port)
    ensures GateFor(dests, dests[n].ref, dests[n].port) == Some(dests[n])
  {
    if n > 0 {
      GateForIs(dests[1..], n - 1);
    }
  }

  /** A question on record that leads back to exactly the delivery held. */
  ghost predicate Asks(c: Config, r: Replayed, req: Envelope, held: Held) {
    && req.cause == held.env.id && held.env.id.External?
    && req.payload == Question(held.env.id, held.to.ref, held.to.port)
    && held.env.id in r.byId && r.byId[held.env.id] == held.env
    && GateFor(DestsAt(c.routes, Source(held.env)), held.to.ref, held.to.port) == Some(held.to)
  }

  /** The open questions in the log are the pending gates. */
  ghost predicate MirrorsIn(c: Config, r: Replayed, pending: map<Id, Held>) {
    r.candidates.Keys == pending.Keys && forall id :: id in pending ==> Asks(c, r, r.candidates[id], pending[id])
  }

  ghost predicate Mirrors(c: Config, log: seq<Envelope>, pending: map<Id, Held>) {
    MirrorsIn(c, Replay(c, log), pending)
  }

  lemma MirroredIsPending(c: Config, r: Replayed, pending: map<Id, Held>)
    requires MirrorsIn(c, r, pending)
    ensures PendingFrom(c, r) == pending
  {
    hide Asks, HeldFor;
    forall id | id in pending ensures HeldFor(c, r, r.candidates[id]) == Some(pending[id]) {
      AskedIsHeld(c, r, r.candidates[id], pending[id]);
    }
    assert PendingFrom(c, r).Keys == pending.Keys;
  }

  lemma AskedIsHeld(c: Config, r: Replayed, req: Envelope, held: Held)
    requires Asks(c, r, req, held)
    ensures HeldFor(c, r, req) == Some(held)
  {
    hide GateFor;
  }

  ghost predicate GateKind(k: Kind) {
    k == ConfirmRequest || k == ConfirmResponse
  }

  lemma ReplayOne(c: Config, log: seq<Envelope>, e: Envelope)
    ensures Replay(c, log + [e]) == ReplayStep(c, Replay(c, log), e)
  {
    assert (log + [e])[..|log + [e]| - 1] == log;
  }

  lemma AsksLater(c: Config, r: Replayed, e: Envelope, req: Envelope, held: Held)
    requires Asks(c, r, req, held) && (e.id in r.byId && e.id.External? ==> r.byId[e.id] == e)
    ensures Asks(c, ReplayStep(c, r, e), req, held)
  {
    hide GateFor, SeenF, RecordF, CancelF, SetRootF, IsDest;
  }

  /** An entry that asks nothing and answers nothing leaves the questions open. */
  lemma MirrorsPast(c: Config, r: Replayed, pending: map<Id, Held>, e: Envelope)
    requires MirrorsIn(c, r, pending) && !GateKind(e.kind)
    requires e.id in r.byId && e.id.External? ==> r.byId[e.id] == e
    ensures MirrorsIn(c, ReplayStep(c, r, e), pending)
  {
    hide Asks, GateFor, SeenF, RecordF, CancelF, SetRootF, IsDest;
    var r' := ReplayStep(c, r, e);
    forall id | id in pending ensures Asks(c, r', r'.candidates[id], pending[id]) {
      AsksLater(c, r, e, r.candidates[id], pending[id]);
    }
  }

  lemma MirrorsAnswer(c: Config, r: Replayed, pending: map<Id, Held>, e: Envelope)
    requires MirrorsIn(c, r, pending) && e.kind == ConfirmResponse
    requires e.id in r.byId && e.id.External? ==> r.byId[e.id] == e
    ensures MirrorsIn(c, ReplayStep(c, r, e), pending - {e.cause})
  {
    hide Asks, GateFor, SeenF, RecordF, CancelF, SetRootF, IsDest;
    var r' := ReplayStep(c, r, e);
    forall id | id in pending - {e.cause} ensures Asks(c, r', r'.candidates[id], pending[id]) {
      AsksLater(c, r, e, r.candidates[id], pending[id]);
    }
  }

  lemma MirrorsQuestion(c: Config, r: Replayed, pending: map<Id, Held>, id: Id, env: Envelope, d: Dest)
    requires MirrorsIn(c, r, pending) && id.Minted?
    requires env.id.External? && env.id in r.byId && r.byId[env.id] == env
    requires GateFor(DestsAt(c.routes, Source(env)), d.ref, d.port) == Some(d)
    ensures MirrorsIn(c, ReplayStep(c, r, RequestEnvelope(id, env, d)), pending[id := Held(env, d)])
  {
    hide GateFor, SeenF, RecordF, CancelF, SetRootF, IsDest;
    var r' := ReplayStep(c, r, RequestEnvelope(id, env, d));
    var pending' := pending[id := Held(env, d)];
    forall p | p in pending' ensures Asks(c, r', r'.candidates[p], pending'[p]) {
      if p != id { AsksLater(c, r, RequestEnvelope(id, env, d), r.candidates[p], pending[p]); }
    }
  }

  lemma {:induction false} ReplayedAt(c: Config, log: seq<Envelope>)
    ensures forall id :: id in Replay(c, log).byId ==> Replay(c, log).byId[id] in log && Replay(c, log).byId[id].id == id
    ensures forall i :: 0 <= i < |log| ==> log[i].id in Replay(c, log).byId
  {
    if log != [] {
      var before, last := log[..|log| - 1], log[|log| - 1];
      ReplayedAt(c, before);
      assert log == before + [last];
      assert forall i :: 0 <= i < |before| ==> log[i] == before[i];
    }
  }

  lemma {:induction false} MirrorsBehalf(c: Config, log: seq<Envelope>, more: seq<Envelope>, src: Id, kinds: set<Kind>,
                                         pending: map<Id, Held>)
    requires Mirrors(c, log, pending) && LogAdds(log, more, src, kinds)
    requires ConfirmRequest !in kinds && ConfirmResponse !in kinds
    ensures Mirrors(c, more, pending)
    decreases |more|
  {
    hide MirrorsIn, ReplayStep;
    if |more| == |log| {
      assert more == log;
    } else {
      var before, e := more[..|more| - 1], more[|more| - 1];
      MirrorsBehalf(c, log, before, src, kinds, pending);
      assert before + [e] == more;
      ReplayOne(c, before, e);
      assert OnBehalf(more[|more| - 1], src, kinds);
      MirrorsPast(c, Replay(c, before), pending, e);
    }
  }

  /** What arrives asks no gate question in the kernel's name. */
  ghost predicate Unforged(env: Envelope) {
    env.kind != ConfirmRequest
  }

  /** Kinds a gate can hold. */
  ghost predicate HoldsPlain(pending: map<Id, Held>) {
    forall r :: r in pending ==> !GateKind(pending[r].env.kind)
  }

  ghost predicate Restorable(c: Config, s: State) {
    Mirrors(c, s.log, s.pending) && HoldsPlain(s.pending)
  }

  lemma ForwardMirrors(c: Config, w: World, s: State, src: Envelope, d: Dest, via: Id)
    requires Restorable(c, s) && !GateKind(src.kind)
    ensures Restorable(c, ForwardF(c, w, s, src, d, via))
  {
    hide ForwardF, Mirrors, HoldsPlain;
    ForwardFrame(c, w, s, src, d, via);
    ForwardAdds(c, w, s, src, d, via);
    MirrorsBehalf(c, s.log, ForwardF(c, w, s, src, d, via).log, src.id, ForwardKinds(src.kind), s.pending);
  }

  lemma SpeculativeMirrors(c: Config, w: World, s: State, env: Envelope, d: Dest, root: Id)
    requires Restorable(c, s) && !GateKind(env.kind)
    ensures Restorable(c, ForwardSpeculativelyF(c, w, s, env, d, root))
  {
    hide ForwardSpeculativelyF, Mirrors, HoldsPlain;
    SpeculativeFrame(c, w, s, env, d, root);
    SpeculativeAdds(c, w, s, env, d, root);
    MirrorsBehalf(c, s.log, ForwardSpeculativelyF(c, w, s, env, d, root).log, env.id, ForwardKinds(env.kind), s.pending);
  }

  lemma HoldMirrors(c: Config, s: State, env: Envelope, d: Dest)
    requires Restorable(c, s) && !GateKind(env.kind) && Unique(s.log) && env in s.log && env.id.External?
    requires GateFor(DestsAt(c.routes, Source(env)), d.ref, d.port) == Some(d)
    ensures Restorable(c, HoldF(s, env, d))
  {
    ReplayedAt(c, s.log);
    ReplayOne(c, s.log, RequestEnvelope(Minted(s.mint), env, d));
    hide Replay, MirrorsIn, GateFor;
    MirrorsQuestion(c, Replay(c, s.log), s.pending, Minted(s.mint), env, d);
  }

  lemma ToDestsMirrors(c: Config, w: World, s: State, env: Envelope, dests: seq<Dest>, root: Id)
    requires Restorable(c, s) && Traced(s) && env in s.log && env.id.External? && !GateKind(env.kind)
    requires forall d :: d in dests && d.gate == HumanApproval ==>
                           GateFor(DestsAt(c.routes, Source(env)), d.ref, d.port) == Some(d)
    ensures Restorable(c, ToDestsF(c, w, s, env, dests, root))
  {
    hide ForwardF, ForwardSpeculativelyF, Restorable, Traced, GateFor;
    if dests != [] {
      var before, d := dests[..|dests| - 1], dests[|dests| - 1];
      assert d in dests;
      ToDestsMirrors(c, w, s, env, before, root);
      LoggedArrived(s.log, env);
      ToDestsTraced(c, w, s, env, before, root);
      var s1 := ToDestsF(c, w, s, env, before, root);
      if d.speculative {
        SpeculativeMirrors(c, w, s1, env, d, root);
      } else if d.gate == HumanApproval {
        TracedUnique(s1);
        HoldMirrors(c, s1, env, d);
      } else {
        ForwardMirrors(c, w, s1, env, d, NoId);
      }
    }
  }

  lemma LoggedArrived(log: seq<Envelope>, env: Envelope)
    requires env in log && env.id.External?
    ensures Arrived(log, env)
  {
    var k :| 0 <= k < |log| && log[k] == env;
    assert SameHeader(log[k], env);
  }

  lemma TracedUnique(s: State)
    requires Traced(s)
    ensures Unique(s.log)
  {
  }

  lemma ResolveMirrors(c: Config, w: World, s: State, answer: Envelope)
    requires Restorable(c, s) && Unique(s.log + [answer]) && answer.kind == ConfirmResponse
    ensures Restorable(c, ResolveGateF(c, w, s.(log := s.log + [answer]), answer))
  {
    hide ForwardF, AuthorizeGate, GateFor;
    var logged := s.(log := s.log + [answer]);
    ReplayedAt(c, s.log);
    ReplayedAt(c, logged.log);
    ReplayOne(c, s.log, answer);
    hide Replay, MirrorsIn;
    assert forall i :: 0 <= i < |s.log| ==> logged.log[i] == s.log[i];
    assert logged.log[|s.log|] == answer;
    MirrorsAnswer(c, Replay(c, s.log), s.pending, answer);
    if answer.cause in s.pending {
      var held := s.pending[answer.cause];
      var s1 := logged.(pending := s.pending - {answer.cause}, log := logged.log + [answer]);
      ReplayOne(c, logged.log, answer);
      MirrorsAnswer(c, Replay(c, logged.log), s.pending - {answer.cause}, answer);
      assert Restorable(c, s1) by { assert s1.pending - {answer.cause} == s1.pending; }
      hide Restorable;
      match AuthorizeGate(c, w.roster, held, answer.payload) {
        case Rejected => DenyMirrors(c, w, s1, answer.cause, held, answer, None);
        case Denies(a) => DenyMirrors(c, w, s1, answer.cause, held, answer, a);
        case Approves(a) =>
          var parked := if a.Some? then s1.(approved := s1.approved[held.env.id := a.value]) else s1;
          var s2 := parked.(gates := s1.gates + [Released(answer.cause, held, answer, a, w.roster)]);
          RestorableSame(c, s1, s2);
          ForwardMirrors(c, w, s2, held.env, held.to, answer.cause);
      }
    } else {
      assert s.pending - {answer.cause} == s.pending;
    }
  }

  lemma RestorableSame(c: Config, s: State, t: State)
    requires Restorable(c, s) && t.log == s.log && t.pending == s.pending
    ensures Restorable(c, t)
  {
  }

  lemma DenyMirrors(c: Config, w: World, s: State, req: Id, held: Held, answer: Envelope, a: Option<Approval>)
    requires Restorable(c, s)
    ensures Restorable(c, DenyF(c, w, s, req, held, answer, a))
  {
    hide MirrorsIn, Replay;
    var t := DenyF(c, w, s, req, held, answer, a);
    MirrorsBehalf(c, s.log, t.log, answer.id, {Error}, s.pending);
  }

  lemma RouteMirrors(c: Config, w: World, s: State, env: Envelope)
    requires Restorable(c, s) && Traced(s) && Honest(s, env) && Unforged(env) && DistinctEdges(c)
    ensures Restorable(c, RouteF(c, w, s, env))
  {
    hide PropagateF, ResolveGateF, HandleCancelF, SeenF, Unique, DistinctEdges, Ordered;
    var logged := s.(log := s.log + [env]);
    EnvLogged(s, env, logged);
    TracedUnique(logged);
    hide Traced, Restorable, Honest;
    if env.kind == ConfirmResponse {
      ResolveMirrors(c, w, s, env);
    } else {
      LoggedMirrors(c, s, env);
      if env.kind == Cancel {
        HandleCancelFrame(logged, env);
        RestorableSame(c, logged, HandleCancelF(logged, env));
      } else if !Duplicate(s, env) {
        MirrorsOn(c, w, s, env);
      }
    }
  }

  lemma MirrorsOn(c: Config, w: World, s: State, env: Envelope)
    requires var logged := s.(log := s.log + [env]); Restorable(c, logged) && Traced(logged)
    requires env.kind != Cancel && !GateKind(env.kind) && !Duplicate(s, env) && env.id.External? && DistinctEdges(c)
    ensures Restorable(c, RouteF(c, w, s, env))
  {
    hide PropagateF, Duplicate, Restorable, Traced, SeenF, DistinctEdges;
    var logged := s.(log := s.log + [env]);
    var seen := if env.kind == Data then logged.(dedup := SeenF(s.dedup, env.idem)) else logged;
    RestorableSame(c, logged, seen);
    TracedSame(logged, seen);
    PropagateMirrors(c, w, seen, env);
  }

  lemma PropagateMirrors(c: Config, w: World, s: State, env: Envelope)
    requires Restorable(c, s) && Traced(s) && env in s.log && env.id.External? && !GateKind(env.kind) && DistinctEdges(c)
    ensures Restorable(c, PropagateF(c, w, s, env))
  {
    hide ToDestsF, AttestF, Restorable, Traced;
    var noted := s.(attests := if env.attest == "" then s.attests
                               else AttestF(s.attests, MAX_ATTEST_PER_ROOT, RootOf(s, env), w.attest(env.attest)));
    TracedSame(s, noted);
    RestorableSame(c, s, noted);
    var dests := DestsAt(c.routes, Source(env));
    forall d | d in dests && d.gate == HumanApproval ensures GateFor(dests, d.ref, d.port) == Some(d) {
      var n :| 0 <= n < |dests| && dests[n] == d;
      GateForIs(dests, n);
    }
    ToDestsMirrors(c, w, noted, env, dests, RootOf(s, env));
  }

  lemma TracedSame(s: State, t: State)
    requires Traced(s) && t == s.(dedup := t.dedup, attests := t.attests)
    ensures Traced(t)
  {
    MoreMint(s, t);
  }

  lemma LoggedMirrors(c: Config, s: State, env: Envelope)
    requires Restorable(c, s) && Unique(s.log + [env]) && !GateKind(env.kind)
    ensures Restorable(c, s.(log := s.log + [env]))
  {
    ReplayedAt(c, s.log);
    ReplayOne(c, s.log, env);
    hide Replay, MirrorsIn;
    assert forall i :: 0 <= i < |s.log| ==> (s.log + [env])[i] == s.log[i];
    assert (s.log + [env])[|s.log|] == env;
    MirrorsPast(c, Replay(c, s.log), s.pending, env);
  }

  // ---- The dedup window. ----

  ghost predicate Processed(log: seq<Envelope>, key: string) {
    key != "" && exists i :: 0 <= i < |log| && log[i].kind == Data && log[i].idem == key
  }

  lemma ProcessedAppend(log: seq<Envelope>, e: Envelope, key: string)
    ensures Processed(log + [e], key) <==> Processed(log, key) || (e.kind == Data && key == e.idem && key != "")
  {
    var more := log + [e];
    if Processed(log, key) {
      var i :| 0 <= i < |log| && log[i].kind == Data && log[i].idem == key;
      assert more[i] == log[i];
    }
    assert more[|log|] == e;
  }

  ghost predicate WindowIs(log: seq<Envelope>, f: Fifo<string, ()>) {
    Valid(f) && f.max == MAX_DEDUP && |f.order| <= |log| && forall key :: key in f.m <==> Processed(log, key)
  }

  lemma WindowStep(log: seq<Envelope>, f: Fifo<string, ()>, e: Envelope)
    requires WindowIs(log, f) && |log| < MAX_DEDUP
    ensures WindowIs(log + [e], if e.kind == Data then SeenF(f, e.idem) else f)
  {
    hide Put, Processed;
    if e.kind == Data && e.idem != "" { PutValid(f, e.idem, ()); }
    forall key ensures key in (if e.kind == Data then SeenF(f, e.idem) else f).m <==> Processed(log + [e], key) {
      ProcessedAppend(log, e, key);
    }
  }

  /** The window rebuilt from a log refuses exactly the keys of the data in it: what
      the live session had processed, and also every hop key the kernel drew itself. */
  lemma {:induction false} ReplayedWindow(c: Config, log: seq<Envelope>)
    requires |log| <= RESUME_LIMIT
    ensures WindowIs(log, Replay(c, log).dedup)
  {
    hide SeenF, Processed;
    if log != [] {
      var before, e := log[..|log| - 1], log[|log| - 1];
      ReplayedWindow(c, before);
      assert before + [e] == log;
      WindowStep(before, Replay(c, before).dedup, e);
    } else {
      EmptyWindow(log, Replay(c, log).dedup);
    }
  }

  lemma EmptyWindow(log: seq<Envelope>, f: Fifo<string, ()>)
    requires log == [] && f == Empty(MAX_DEDUP)
    ensures WindowIs(log, f)
  {
  }

  ghost predicate WindowLogged(log: seq<Envelope>, dedup: Fifo<string, ()>) {
    Valid(dedup) && forall key :: key in dedup.m ==> Processed(log, key)
  }

  lemma ProcessedStays(log: seq<Envelope>, more: seq<Envelope>, key: string)
    requires log <= more && Processed(log, key)
    ensures Processed(more, key)
  {
    var i :| 0 <= i < |log| && log[i].kind == Data && log[i].idem == key;
    assert more[i] == log[i];
  }

  lemma RouteWindow(c: Config, w: World, s: State, env: Envelope)
    requires WindowLogged(s.log, s.dedup)
    requires s.log + [env] <= RouteF(c, w, s, env).log
    requires RouteF(c, w, s, env).dedup == (if env.kind == Data then SeenF(s.dedup, env.idem) else s.dedup)
    ensures WindowLogged(RouteF(c, w, s, env).log, RouteF(c, w, s, env).dedup)
  {
    hide RouteF;
    var t := RouteF(c, w, s, env);
    if env.kind == Data && env.idem != "" {
      PutValid(s.dedup, env.idem, ());
      assert t.log[|s.log|] == env;
    }
    hide Put;
    forall key | key in t.dedup.m ensures Processed(t.log, key) {
      if key in s.dedup.m { ProcessedStays(s.log, t.log, key); }
    }
  }

  lemma ToDestsDedup(c: Config, w: World, s: State, env: Envelope, dests: seq<Dest>, root: Id)
    ensures ToDestsF(c, w, s, env, dests, root).dedup == s.dedup
  {
    hide ForwardF, ForwardSpeculativelyF;
    if dests != [] {
      var before, d := dests[..|dests| - 1], dests[|dests| - 1];
      ToDestsDedup(c, w, s, env, before, root);
      var s1 := ToDestsF(c, w, s, env, before, root);
      ForwardFrame(c, w, s1, env, d, NoId);
      SpeculativeFrame(c, w, s1, env, d, root);
    }
  }

  lemma ResolveDedup(c: Config, w: World, s: State, answer: Envelope)
    ensures var t := ResolveGateF(c, w, s, answer); t.dedup == s.dedup && t.cancelled == s.cancelled && s.log <= t.log
  {
    hide ForwardF, AuthorizeGate;
    if answer.cause in s.pending {
      var held := s.pending[answer.cause];
      var s1 := s.(pending := s.pending - {answer.cause}, log := s.log + [answer]);
      match AuthorizeGate(c, w.roster, held, answer.payload) {
        case Rejected =>
        case Denies(a) =>
        case Approves(a) =>
          var parked := if a.Some? then s1.(approved := s1.approved[held.env.id := a.value]) else s1;
          var s2 := parked.(gates := s1.gates + [Released(answer.cause, held, answer, a, w.roster)]);
          ForwardFrame(c, w, s2, held.env, held.to, answer.cause);
          ForwardAdds(c, w, s2, held.env, held.to, answer.cause);
      }
    }
  }

  lemma RouteDedup(c: Config, w: World, s: State, env: Envelope)
    ensures var t := RouteF(c, w, s, env);
            s.log + [env] <= t.log && t.dedup == (if env.kind == Data then SeenF(s.dedup, env.idem) else s.dedup)
  {
    hide ToDestsF, ResolveGateF, HandleCancelF, AttestF;
    var logged := s.(log := s.log + [env]);
    HandleCancelFrame(logged, env);
    CancelKeeps(logged, env);
    if env.kind != Cancel && !Duplicate(s, env) {
      var seen := if env.kind == Data then logged.(dedup := SeenF(s.dedup, env.idem)) else logged;
      ResolveDedup(c, w, seen, env);
      var noted := seen.(attests := if env.attest == "" then seen.attests
                                    else AttestF(seen.attests, MAX_ATTEST_PER_ROOT, RootOf(seen, env), w.attest(env.attest)));
      ToDestsDedup(c, w, noted, env, DestsAt(c.routes, Source(env)), RootOf(seen, env));
      ToDestsAdds(c, w, noted, env, DestsAt(c.routes, Source(env)), RootOf(seen, env));
    }
  }

  lemma CancelKeeps(s: State, env: Envelope)
    ensures HandleCancelF(s, env).dedup == s.dedup
  {
  }

  // ---- The cancelled chains. ----

  /** The cancel logged at `i` names the client message R, or work done for it. */
  ghost predicate Names(log: seq<Envelope>, i: nat, R: Id) {
    && i < |log| && log[i].kind == Cancel && R != NoId
    && ((log[i].cause == R && R.External? && forall j :: 0 <= j <= i && log[j].id == R ==> ClientSent(log[j]))
        || NamesWork(log, i, R))
  }

  ghost predicate NamesWork(log: seq<Envelope>, i: nat, R: Id)
    requires i < |log|
  {
    exists j :: 0 <= j < i && IsDelivery(log[j]) && log[j].id == log[i].cause && ChainRoot(log, log[j]) == R
  }

  lemma ReplayAims(log: seq<Envelope>, causal: Fifo<Id, Id>, i: nat, R: Id)
    requires Rebuilt(log, causal) && Names(log, i, R) && i == |log| - 1
    ensures (if RootF(causal, log[i].cause) != NoId then RootF(causal, log[i].cause) else log[i].cause) == R
  {
    if !NamesWork(log, i, R) && R in causal.m {
      var j :| 0 <= j < |log| && log[j].id == R;
      assert Tracked(log[j]);
    }
  }

  ghost predicate FitsLog(log: seq<Envelope>, f: Fifo<Id, ()>) {
    Valid(f) && f.max == MAX_CANCELLED && |f.order| <= |log|
  }

  /** A log short enough to be read whole evicts nothing: what one cancel added, no
      later entry removes. */
  lemma {:induction false} ReplayCancelsGrow(c: Config, log: seq<Envelope>, more: seq<Envelope>)
    requires log <= more && |more| <= RESUME_LIMIT
    ensures FitsLog(more, Replay(c, more).cancelled)
    ensures Replay(c, log).cancelled.m.Keys <= Replay(c, more).cancelled.m.Keys
    decreases |more|
  {
    if more != [] {
      var before, e := more[..|more| - 1], more[|more| - 1];
      ReplayCancelsGrow(c, if |log| < |more| then log else before, before);
      assert |log| < |more| || log == more;
      var r := Replay(c, before);
      var named := RootF(Replay(c, more).causal, e.cause);
      var aim := if named != NoId then named else e.cause;
      if e.kind == Cancel && aim != NoId {
        PutValid(r.cancelled, aim, ());
      }
    }
  }

  /** Replaying a cancel aims where the log says. */
  lemma ReplayedCancel(c: Config, log: seq<Envelope>, cancels: set<Id>, R: Id)
    requires HonestLog(log, cancels) && |log| <= RESUME_LIMIT && log != [] && Names(log, |log| - 1, R)
    ensures R in Replay(c, log).cancelled.m
  {
    var before := log[..|log| - 1];
    ReplayCancelsGrow(c, before, before);
    ReplayRebuilds(c, log, cancels);
    ReplayAims(log, Replay(c, log).causal, |log| - 1, R);
    PutValid(Replay(c, before).cancelled, R, ());
  }

  /** A cancel names a message of the client's, known or not, or a delivery to a skill. */
  ghost predicate Aimed(s: State, env: Envelope) {
    env.kind == Cancel ==>
      (env.cause.External? && env.id != env.cause && forall j :: 0 <= j < |s.log| && s.log[j].id == env.cause ==> ClientSent(s.log[j]))
      || (exists j :: 0 <= j < |s.log| && IsDelivery(s.log[j]) && s.log[j].id == env.cause && ChainRoot(s.log, s.log[j]) != NoId)
  }

  /** The live session aims an honest cancel where the log says. */
  lemma CancelAims(s: State, env: Envelope, R: Id)
    requires Traced(s) && s.log != [] && s.log[|s.log| - 1] == env && |s.causal.order| < s.causal.max
    requires Names(s.log, |s.log| - 1, R)
    ensures CancelTarget(s, env.cause) == R
  {
    if !NamesWork(s.log, |s.log| - 1, R) && R in s.causal.m {
      var j :| 0 <= j < |s.log| && s.log[j].id == R && s.causal.m[R] == ChainRoot(s.log, s.log[j]);
      assert ClientSent(s.log[j]);
    }
  }

  lemma AimedNames(s: State, env: Envelope, logged: State) returns (R: Id)
    requires Traced(s) && Aimed(s, env) && env.kind == Cancel && logged == s.(log := s.log + [env]) && Traced(logged)
    ensures Names(logged.log, |s.log|, R)
  {
    if env.cause.External? && env.id != env.cause && forall j :: 0 <= j < |s.log| && s.log[j].id == env.cause ==> ClientSent(s.log[j]) {
      R := env.cause;
      assert forall j :: 0 <= j < |s.log| ==> logged.log[j] == s.log[j];
    } else {
      var j :| 0 <= j < |s.log| && IsDelivery(s.log[j]) && s.log[j].id == env.cause && ChainRoot(s.log, s.log[j]) != NoId;
      R := ChainRoot(s.log, s.log[j]);
      TrackedStable(s.log, s.cancelIds, logged.log, j);
      assert IsDelivery(logged.log[j]);
      assert NamesWork(logged.log, |s.log|, R);
    }
  }

  // ---- Exactly what a log cancels when it is read back. ----

  /** Rebuilding gives whatever carries the client's name its own id for a root. */
  lemma {:induction false} ReplayedNotice(c: Config, log: seq<Envelope>, cancels: set<Id>, i: nat)
    requires HonestLog(log, cancels) && |log| <= RESUME_LIMIT && i < |log| && log[i].node == CLIENT
    ensures RootF(Replay(c, log).causal, log[i].id) == log[i].id
  {
    var n := |log| - 1;
    var before, e := log[..n], log[n];
    HonestPrefix(log, cancels, n);
    ReplayRebuilds(c, before, cancels);
    if i < n {
      assert before[i] == log[i];
      ReplayedNotice(c, before, cancels, i);
      assert log[i].id == e.id ==> log[i] == e;
    }
    NeverLogged(log, cancels, i);
    var root := RootIn(Replay(c, before).causal, e);
    if root != NoId && e.id != NoId { PutValid(Replay(c, before).causal, e.id, root); }
    hide Put;
  }

  /** What an id stands for when the log is read back: a message of the client's, a
      reply or a notice for itself, anything else for the message its chain began
      with, and an id nobody logged, or a chain without such a message, for itself. */
  ghost function NamedBack(log: seq<Envelope>, id: Id): Id {
    var f := FirstAt(log, id);
    if id == NoId || f == |log| || log[f].node == CLIENT || ChainRoot(log, log[f]) == NoId then id
    else ChainRoot(log, log[f])
  }

  lemma AimBack(c: Config, log: seq<Envelope>, cancels: set<Id>, id: Id)
    requires HonestLog(log, cancels) && |log| <= RESUME_LIMIT
    ensures var named := RootF(Replay(c, log).causal, id);
            (if named != NoId then named else id) == NamedBack(log, id)
  {
    ReplayRebuilds(c, log, cancels);
    var f := FirstAt(log, id);
    if f < |log| {
      NeverLogged(log, cancels, f);
      if log[f].node == CLIENT {
        ReplayedNotice(c, log, cancels, f);
      } else {
        assert Tracked(log[f]);
      }
    }
  }

  /** The cancel logged at `i` suppresses R when it is read back. */
  ghost predicate CancelsBack(log: seq<Envelope>, i: nat, R: Id) {
    i < |log| && log[i].kind == Cancel && R != NoId && NamedBack(log[..i + 1], log[i].cause) == R
  }

  ghost predicate CancelledBack(log: seq<Envelope>, R: Id) {
    exists i: nat :: CancelsBack(log, i, R)
  }

  lemma CancelledBackMore(log: seq<Envelope>, e: Envelope, R: Id)
    ensures CancelledBack(log + [e], R) <==> CancelledBack(log, R) || CancelsBack(log + [e], |log|, R)
  {
    var more := log + [e];
    assert forall i: nat :: i < |log| ==> more[..i + 1] == log[..i + 1] && more[i] == log[i];
    if CancelledBack(log, R) {
      var i: nat :| CancelsBack(log, i, R);
      assert CancelsBack(more, i, R);
    }
    if CancelledBack(more, R) {
      var i: nat :| CancelsBack(more, i, R);
      assert i < |log| ==> CancelsBack(log, i, R);
    }
  }

  /** Replaying a log suppresses exactly the chains its cancels name when read back. */
  lemma {:induction false} RebuiltCancelled(c: Config, log: seq<Envelope>, cancels: set<Id>, R: Id)
    requires HonestLog(log, cancels) && |log| <= RESUME_LIMIT
    ensures R in Replay(c, log).cancelled.m <==> CancelledBack(log, R)
  {
    if log != [] {
      var n := |log| - 1;
      var before, e := log[..n], log[n];
      HonestPrefix(log, cancels, n);
      RebuiltCancelled(c, before, cancels, R);
      ReplayCancelsGrow(c, before, before);
      AimBack(c, log, cancels, e.cause);
      assert before + [e] == log && log[..n + 1] == log;
      CancelledBackMore(before, e, R);
      ReplayedLast(c, before, e);
      hide Replay, NamedBack, HonestLog, CancelledBack;
      var f, aim := Replay(c, before).cancelled, NamedBack(log, e.cause);
      if e.kind == Cancel && aim != NoId {
        PutValid(f, aim, ());
      }
    }
  }

  lemma ReplayedLast(c: Config, log: seq<Envelope>, e: Envelope)
    ensures var named := RootF(Replay(c, log + [e]).causal, e.cause);
            Replay(c, log + [e]).cancelled
            == if e.kind == Cancel then CancelF(Replay(c, log).cancelled, if named != NoId then named else e.cause)
               else Replay(c, log).cancelled
  {
    ReplayOne(c, log, e);
  }

  lemma WorkNamedBack(log: seq<Envelope>, cancels: set<Id>, j: nat)
    requires HonestLog(log, cancels) && j < |log| && log[j].node != CLIENT && ChainRoot(log, log[j]) != NoId
    ensures NamedBack(log, log[j].id) == ChainRoot(log, log[j])
  {
    hide ChainRoot, HonestLog;
    var f := FirstAt(log, log[j].id);
    assert f <= j;
    SameEntry(log, cancels, f, j);
    NeverLogged(log, cancels, j);
  }

  lemma ClientNamedBack(log: seq<Envelope>, id: Id)
    requires forall j :: 0 <= j < |log| && log[j].id == id ==> log[j].node == CLIENT
    ensures NamedBack(log, id) == id
  {
    hide ChainRoot;
  }

  /** What the live session takes a well-aimed cancel to name is what the log says. */
  lemma NamesBack(log: seq<Envelope>, cancels: set<Id>, i: nat, R: Id)
    requires HonestLog(log, cancels) && Names(log, i, R)
    ensures CancelsBack(log, i, R)
  {
    var part := log[..i + 1];
    HonestPrefix(log, cancels, i + 1);
    if NamesWork(log, i, R) {
      var j :| 0 <= j < i && IsDelivery(log[j]) && log[j].id == log[i].cause && ChainRoot(log, log[j]) == R;
      TrackedStable(part, cancels, log, j);
      hide HonestLog, ChainRoot, NamedBack;
      WorkNamedBack(part, cancels, j);
    } else {
      assert forall j :: 0 <= j <= i ==> part[j] == log[j];
      ClientNamedBack(part, R);
    }
  }
}
