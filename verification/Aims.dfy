// What a cancel names: the live session's reading of it against a restart's.

module Aims {
  import opened Options
  import opened Envelopes
  import opened BoundedFifo
  import opened Indexes
  import opened Policies
  import opened Wiring
  import opened Speculation
  import opened Kernel
  import opened Frames
  import opened Books
  import opened Chains
  import opened Gates
  import opened Resumes
  import opened Restarts
  import opened Cancels
  import opened Hops
  import opened LongNumbers

  // ---- Exactly what the live causal index knows ----

  /** The root the live index gives an id: what was logged before the session was last
      rebuilt is indexed as a restart reads it, and of what came since only the
      deliveries the kernel numbered are indexed. */
  ghost function LiveRoot(log: seq<Envelope>, since: nat, id: Id): Id {
    var f := FirstAt(log, id);
    if id == NoId || f == |log| then NoId
    else if f < since then if log[f].node == CLIENT then id else ChainRoot(log, log[f])
    else if Stamped(log[f]) then ChainRoot(log, log[f]) else NoId
  }

  ghost predicate Keyed(log: seq<Envelope>, causal: Fifo<Id, Id>, since: nat) {
    since <= |log| && (|causal.order| < causal.max ==> forall id :: RootF(causal, id) == LiveRoot(log, since, id))
  }

  ghost predicate OnRecord(log: seq<Envelope>, cancels: set<Id>, mint: nat) {
    HonestLog(log, cancels) && LogOk(log, mint)
  }

  lemma RecordPrefix(log: seq<Envelope>, cancels: set<Id>, mint: nat, n: nat)
    requires OnRecord(log, cancels, mint) && n <= |log|
    ensures OnRecord(log[..n], cancels, mint)
  {
    HonestPrefix(log, cancels, n);
    forall i | 0 <= i < n ensures EntryOk(log[..n], mint, i) {
      assert EntryOk(log, mint, i);
      KnownGrowsBack(log, log[..n], i);
    }
  }

  /** The chain of anything on record is settled, whatever is written after it. */
  lemma ChainSettled(log: seq<Envelope>, cancels: set<Id>, mint: nat, more: seq<Envelope>, i: nat)
    requires OnRecord(log, cancels, mint) && OnRecord(more, cancels, mint) && log <= more && i < |log|
    ensures ChainRoot(more, log[i]) == ChainRoot(log, log[i])
  {
    if Tracked(log[i]) {
      TrackedStable(log, cancels, more, i);
    } else {
      assert EntryOk(log, mint, i);
      var j :| 0 <= j < i && log[j].id == log[i].cause;
      ChainStable(log, more, log[i]);
    }
  }

  lemma FirstAtMore(log: seq<Envelope>, e: Envelope, id: Id)
    ensures FirstAt(log + [e], id)
         == if FirstAt(log, id) < |log| then FirstAt(log, id) else if e.id == id then |log| else |log| + 1
  {
    var more, f := log + [e], FirstAt(log, id);
    if f < |log| {
      FirstAtUnique(more, id, f);
    } else if e.id == id {
      FirstAtUnique(more, id, |log|);
    } else {
      FirstAtAbsent(more, id);
    }
  }

  lemma LiveRootMore(log: seq<Envelope>, cancels: set<Id>, mint: nat, since: nat, e: Envelope, id: Id)
    requires OnRecord(log, cancels, mint) && OnRecord(log + [e], cancels, mint) && since <= |log|
    ensures LiveRoot(log + [e], since, id)
         == if id == e.id && FirstAt(log, id) == |log| then (if Stamped(e) then ChainRoot(log + [e], e) else NoId)
            else LiveRoot(log, since, id)
  {
    FirstAtMore(log, e, id);
    var more, f := log + [e], FirstAt(log, id);
    NeverLogged(more, cancels, |log|);
    hide ChainRoot, OnRecord;
    if f < |log| { ChainSettled(log, cancels, mint, more, f); }
  }

  /** An entry that is no numbered delivery: the index was not told, and need not be. */
  lemma EntryKeyed(log: seq<Envelope>, cancels: set<Id>, mint: nat, since: nat, causal: Fifo<Id, Id>, e: Envelope)
    requires OnRecord(log, cancels, mint) && OnRecord(log + [e], cancels, mint)
    requires Keyed(log, causal, since) && !Stamped(e)
    ensures Keyed(log + [e], causal, since)
  {
    hide LiveRoot, OnRecord;
    forall id | |causal.order| < causal.max ensures RootF(causal, id) == LiveRoot(log + [e], since, id) {
      LiveRootMore(log, cancels, mint, since, e, id);
      UnloggedLive(log, since, id);
    }
  }

  lemma UnloggedLive(log: seq<Envelope>, since: nat, id: Id)
    ensures FirstAt(log, id) == |log| ==> LiveRoot(log, since, id) == NoId
  {
  }

  /** A numbered delivery, indexed under its chain's root and then written. */
  lemma DeliveryKeyed(log: seq<Envelope>, cancels: set<Id>, mint: nat, since: nat, causal: Fifo<Id, Id>, e: Envelope,
                      root: Id, now: Fifo<Id, Id>)
    requires OnRecord(log, cancels, mint) && OnRecord(log + [e], cancels, mint) && Valid(causal)
    requires Keyed(log, causal, since) && Stamped(e) && FirstAt(log, e.id) == |log|
    requires now == SetRootF(causal, e.id, root)
    requires |now.order| < now.max ==> ChainRoot(log + [e], e) == root
    ensures Keyed(log + [e], now, since)
  {
    hide LiveRoot, OnRecord, ChainRoot, Put;
    if root != NoId { PutValid(causal, e.id, root); }
    forall id | |now.order| < now.max ensures RootF(now, id) == LiveRoot(log + [e], since, id) {
      LiveRootMore(log, cancels, mint, since, e, id);
      UnloggedLive(log, since, id);
    }
  }

  // ---- Every step keeps it ----

  ghost predicate KeyedState(s: State, since: nat) {
    Keyed(s.log, s.causal, since)
  }

  lemma TracedRecord(s: State)
    requires Traced(s)
    ensures OnRecord(s.log, s.cancelIds, s.mint)
  {
  }

  lemma MintRecord(log: seq<Envelope>, cancels: set<Id>, mint: nat, more: nat)
    requires OnRecord(log, cancels, mint) && mint <= more
    ensures OnRecord(log, cancels, more)
  {
    forall i | 0 <= i < |log| ensures EntryOk(log, more, i) {
      assert EntryOk(log, mint, i);
    }
  }

  lemma NoteKeyed(s: State, since: nat, e: Envelope, t: State)
    requires Traced(s) && Traced(t) && KeyedState(s, since) && !Stamped(e) && s.mint <= t.mint
    requires t.log == s.log + [e] && t.causal == s.causal && t.cancelIds == s.cancelIds
    ensures KeyedState(t, since)
  {
    TracedRecord(s);
    TracedRecord(t);
    MintRecord(s.log, s.cancelIds, s.mint, t.mint);
    EntryKeyed(s.log, s.cancelIds, t.mint, since, s.causal, e);
  }

  lemma ErrorKeyed(s: State, since: nat, cause: Id, via: Id)
    requires Traced(s) && Known(s, cause) && KeyedState(s, since)
    ensures KeyedState(EmitErrorF(s, cause, via), since)
  {
    EmitErrorTraced(s, cause, via);
    NoteKeyed(s, since, ErrorEnvelope(Minted(s.mint), cause), EmitErrorF(s, cause, via));
  }

  lemma WritesKeyed(s: State, since: nat, root: Id, s2: State, out: Envelope, t: State)
    requires Traced(s) && KeyedState(s, since) && Traced(t) && s.mint <= t.mint && t.cancelIds == s.cancelIds
    requires s2.log == s.log && Writes(s2, t, out) && Stamped(out) && Unwritten(s, out.id)
    requires s2.causal == SetRootF(s.causal, out.id, root)
    requires |s2.causal.order| < s2.causal.max ==> ChainRoot(s.log, out) == root
    requires Follows(s.log, |s.log|, out)
    ensures KeyedState(t, since)
  {
    hide Traced, Unwritten, OnRecord, ChainRoot, Follows, Keyed, SetRootF;
    var e := t.log[|s.log|];
    var mid := s.log + [e];
    TracedRecord(s);
    TracedRecord(t);
    TracedValid(s);
    MintRecord(s.log, s.cancelIds, s.mint, t.mint);
    RecordPrefix(t.log, t.cancelIds, t.mint, |s.log| + 1);
    assert t.log[..|s.log| + 1] == mid;
    WrittenChain(s.log, mid, out, e);
    UnwrittenFirst(s, e.id);
    DeliveryKeyed(s.log, s.cancelIds, t.mint, since, s.causal, e, root, s2.causal);
    if t.log != mid {
      assert t.log == mid + [t.log[|s.log| + 1]];
      EntryKeyed(mid, s.cancelIds, t.mint, since, s2.causal, t.log[|s.log| + 1]);
    }
  }

  lemma UnwrittenFirst(s: State, id: Id)
    requires Unwritten(s, id)
    ensures FirstAt(s.log, id) == |s.log|
  {
    FirstAtAbsent(s.log, id);
  }

  lemma TracedValid(s: State)
    requires Traced(s)
    ensures Valid(s.causal)
  {
  }

  lemma WrittenChain(log: seq<Envelope>, more: seq<Envelope>, out: Envelope, e: Envelope)
    requires Follows(log, |log|, out) && log <= more && SameHeader(e, out)
    ensures ChainRoot(more, e) == ChainRoot(log, out)
  {
    var j :| 0 <= j < |log| && log[j].id == out.cause;
    ChainStable(log, more, out);
    SameChain(more, e, out);
  }

  lemma ForwardKeyed(c: Config, w: World, s: State, since: nat, src: Envelope, d: Dest, via: Id)
    requires KeyedState(s, since) && Traced(s) && Arrived(s.log, src) && Sealable(c, w)
    ensures KeyedState(ForwardF(c, w, s, src, d, via), since)
  {
    hide CheckpointF, EmitErrorF, Traced, KeyedState, Arrived, Writes, RecordF, SetRootF, Valid, Unwritten, Follows;
    ArrivedKnown(s, src);
    ErrorKeyed(s, since, src.id, via);
    if !RateRefused(c, w, s, src, d) {
      var out := Outgoing(w, s, src, d);
      var (consumed, over) := ContextF(c, s, out);
      var s1 := s.(mint := s.mint + 1, seqNo := s.seqNo[Source(out) := out.seqNo], consumed := consumed);
      MoreMint(s, s1);
      SameKeyed(s, since, s1);
      ErrorKeyed(s1, since, src.id, via);
      if !over {
        var s2 := TrackF(s1, src, out);
        DispatchKeyed(c, w, s, since, src, d, s1, s2, via);
      }
    }
  }

  lemma SameKeyed(s: State, since: nat, t: State)
    requires KeyedState(s, since) && t.log == s.log && t.causal == s.causal
    ensures KeyedState(t, since)
  {
  }

  lemma DispatchKeyed(c: Config, w: World, s: State, since: nat, src: Envelope, d: Dest, s1: State, s2: State, via: Id)
    requires KeyedState(s, since) && Traced(s) && Arrived(s.log, src) && Sealable(c, w)
    requires s1 == s.(mint := s.mint + 1, seqNo := s1.seqNo, consumed := s1.consumed)
    requires s2 == TrackF(s1, src, Outgoing(w, s, src, d))
    ensures KeyedState(CheckpointF(c, w, s2, src, Outgoing(w, s, src, d), d, RootOf(s1, src), via), since)
  {
    hide CheckpointF, Traced, KeyedState, Arrived, Writes, Valid, Follows;
    var out, root := Outgoing(w, s, src, d), RootOf(s1, src);
    var t := CheckpointF(c, w, s2, src, out, d, root, via);
    TrackTraced(w, s, src, d, s1);
    TrackRoot(w, s, src, d, s1);
    CheckpointTraced(c, w, s2, src, out, d, root, via);
    CheckpointFrame(c, w, s2, src, out, d, root, via);
    CheckpointWrites(c, w, s2, src, out, d, root, via);
    var r :| Writes(s2, t, out.(receipt := r));
    var e := out.(receipt := r);
    SameChain(s.log, e, out);
    ArrivedFollows(s, src, e);
    assert Unwritten(s, e.id);
    hide TrackF, Outgoing, Unwritten;
    WritesKeyed(s, since, root, s2, e, t);
  }

  lemma {:induction false} AbandonKeyed(s: State, since: nat, ids: seq<Id>, d: Dest)
    requires Traced(s) && AllKnown(s.log, ids) && KeyedState(s, since)
    ensures KeyedState(AbandonAllF(s, ids, d), since)
  {
    hide KeyedState, CancelF, Traced;
    if ids != [] {
      var before, id := ids[..|ids| - 1], ids[|ids| - 1];
      assert AllKnown(s.log, before) by { assert forall n :: 0 <= n < |before| ==> before[n] == ids[n]; }
      var s1, t := AbandonAllF(s, before, d), AbandonAllF(s, ids, d);
      AbandonKeyed(s, since, before, d);
      AbandonTraced(s, before, d);
      AbandonTraced(s, ids, d);
      if d.skill.Some? {
        NoteKeyed(s1, since, KernelEnvelope(Minted(s1.mint), id, d.ref, d.port, Cancel, "", Notice("superseded")), t);
      } else {
        SameKeyed(s1, since, t);
      }
    }
  }

  lemma SpeculativeKeyed(c: Config, w: World, s: State, since: nat, env: Envelope, d: Dest, root: Id)
    requires KeyedState(s, since) && Traced(s) && Arrived(s.log, env) && Sealable(c, w)
    ensures KeyedState(ForwardSpeculativelyF(c, w, s, env, d, root), since)
  {
    hide ForwardF, FoldF, ResolveF, SpeculateF, StaleF, AbandonAllF, RunningF, GuessStands, IsFinal, MarkFinal;
    hide KeyedState, Traced, Sealable, GuessesKnown, Arrived;
    if env.kind != Data || root == NoId {
      ForwardKeyed(c, w, s, since, env, d, NoId);
    } else {
      var key := SpecKey(root, d.from);
      var folded := FoldF(s.spec, key, env.schema, env.payload);
      var running := RunningF(folded, key);
      TracedGuesses(s);
      FoldKeepsGuesses(s.log, s.spec, key, env.schema, env.payload);
      if !IsFinal(env.payload) {
        var s1, guess := s.(spec := folded), env.(payload := MarkFinal(running));
        Respec(s, s1);
        SameKeyed(s, since, s1);
        Repaid(s.log, env, MarkFinal(running));
        ForwardKeyed(c, w, s1, since, guess, d, NoId);
        SameKeyed(ForwardF(c, w, s1, guess, d, NoId), since, ForwardSpeculativelyF(c, w, s, env, d, root));
      } else {
        var resolved := s.(spec := ResolveF(folded, key, running));
        var stale := StaleF(folded, key, running);
        Respec(s, resolved);
        SameKeyed(s, since, resolved);
        AbandonKeyed(resolved, since, stale, d);
        AbandonTraced(resolved, stale, d);
        var s1 := AbandonAllF(resolved, stale, d);
        ArrivedStays(s.log, s1.log, env);
        Repaid(s1.log, env, running);
        ForwardKeyed(c, w, s1, since, env.(payload := running), d, NoId);
      }
    }
  }

  lemma {:induction false} ToDestsKeyed(c: Config, w: World, s: State, since: nat, env: Envelope, dests: seq<Dest>, root: Id)
    requires KeyedState(s, since) && Traced(s) && Arrived(s.log, env) && Sealable(c, w)
    ensures KeyedState(ToDestsF(c, w, s, env, dests, root), since)
  {
    hide ForwardF, ForwardSpeculativelyF, KeyedState, Traced, Sealable, Arrived;
    if dests != [] {
      var before, d := dests[..|dests| - 1], dests[|dests| - 1];
      ToDestsKeyed(c, w, s, since, env, before, root);
      ToDestsTraced(c, w, s, env, before, root);
      var s1 := ToDestsF(c, w, s, env, before, root);
      ArrivedStays(s.log, s1.log, env);
      if d.speculative {
        SpeculativeKeyed(c, w, s1, since, env, d, root);
      } else if d.gate == HumanApproval {
        HoldTraced(s1, env, d);
        NoteKeyed(s1, since, RequestEnvelope(Minted(s1.mint), env, d), HoldF(s1, env, d));
      } else {
        ForwardKeyed(c, w, s1, since, env, d, NoId);
      }
    }
  }

  lemma DenyKeyed(c: Config, w: World, s: State, since: nat, req: Id, held: Held, answer: Envelope, a: Option<Approval>)
    requires Traced(s) && Known(s, answer.id) && KeyedState(s, since)
    ensures KeyedState(DenyF(c, w, s, req, held, answer, a), since)
  {
    hide KeyedState;
    var s1 := SealDenialF(c, w, s.(gates := s.gates + [Refused(req, held, answer)]), held, a, req);
    MoreMint(s, s1);
    SameKeyed(s, since, s1);
    ErrorKeyed(s1, since, answer.id, req);
  }

  lemma ReleaseKeyed(c: Config, w: World, s: State, since: nat, req: Id, held: Held, answer: Envelope, a: Option<Approval>)
    requires Traced(s) && Arrived(s.log, held.env) && KeyedState(s, since) && Sealable(c, w)
    ensures KeyedState(ReleaseF(c, w, s, req, held, answer, a), since)
  {
    hide ForwardF, KeyedState;
    var parked := if a.Some? then s.(approved := s.approved[held.env.id := a.value]) else s;
    var s1 := parked.(gates := s.gates + [Released(req, held, answer, a, w.roster)]);
    MoreMint(s, s1);
    SameKeyed(s, since, s1);
    ForwardKeyed(c, w, s1, since, held.env, held.to, req);
  }

  lemma ResolveKeyed(c: Config, w: World, s: State, since: nat, answer: Envelope)
    requires Traced(s) && HoldsArrived(s.log, s.pending) && Honest(s, answer) && KeyedState(s, since) && Sealable(c, w)
    ensures KeyedState(ResolveGateF(c, w, s, answer), since)
  {
    hide DenyF, ReleaseF, AuthorizeGate, Arrived, Sealable, KeyedState;
    if answer.cause in s.pending {
      var held := s.pending[answer.cause];
      var s1 := s.(pending := s.pending - {answer.cause}, log := s.log + [answer]);
      AnswerLogged(s, answer, s1);
      assert !Stamped(answer);
      NoteKeyed(s, since, answer, s1);
      hide Traced, Honest;
      ArrivedStays(s.log, s1.log, held.env);
      match AuthorizeGate(c, w.roster, held, answer.payload) {
        case Rejected => DenyKeyed(c, w, s1, since, answer.cause, held, answer, None);
        case Denies(a) => DenyKeyed(c, w, s1, since, answer.cause, held, answer, a);
        case Approves(a) => ReleaseKeyed(c, w, s1, since, answer.cause, held, answer, a);
      }
    }
  }

  lemma RouteKeyed(c: Config, w: World, s: State, since: nat, env: Envelope)
    requires Traced(s) && HoldsArrived(s.log, s.pending) && Honest(s, env) && KeyedState(s, since) && Sealable(c, w)
    ensures KeyedState(RouteF(c, w, s, env), since)
  {
    hide ToDestsF, ResolveGateF, HandleCancelF, AttestF, SeenF, Sealable, KeyedState;
    var logged := s.(log := s.log + [env]);
    EnvLogged(s, env, logged);
    assert !Stamped(env);
    NoteKeyed(s, since, env, logged);
    HoldsStay(s.log, logged.log, s.pending);
    hide Traced, Honest, Arrived, HoldsArrived;
    if env.kind == Cancel {
      HandleCancelFrame(logged, env);
      SameKeyed(logged, since, HandleCancelF(logged, env));
    } else if !Duplicate(s, env) {
      var seen := if env.kind == Data then logged.(dedup := SeenF(s.dedup, env.idem)) else logged;
      TracedSame(logged, seen);
      SameHonest(logged, seen, env);
      SameKeyed(logged, since, seen);
      if env.kind == ConfirmResponse {
        ResolveKeyed(c, w, seen, since, env);
      } else {
        var noted := seen.(attests := if env.attest == "" then seen.attests
                                      else AttestF(seen.attests, MAX_ATTEST_PER_ROOT, RootOf(seen, env), w.attest(env.attest)));
        TracedSame(seen, noted);
        SameKeyed(seen, since, noted);
        ToDestsKeyed(c, w, noted, since, env, DestsAt(c.routes, Source(env)), RootOf(seen, env));
      }
    }
  }

  /** Replaying a log indexes everything on record as it reads it. */
  lemma ReplayKeyed(c: Config, log: seq<Envelope>, cancels: set<Id>, id: Id)
    requires HonestLog(log, cancels) && |log| <= RESUME_LIMIT
    ensures RootF(Replay(c, log).causal, id) == LiveRoot(log, |log|, id)
  {
    ReplayRebuilds(c, log, cancels);
    hide Replay, HonestLog, ChainRoot;
    var f := FirstAt(log, id);
    if id != NoId && f < |log| {
      if log[f].node == CLIENT {
        ReplayedNotice(c, log, cancels, f);
      } else {
        assert Tracked(log[f]);
      }
    }
  }

  lemma ResumeKeyed(c: Config, s: State)
    requires Traced(s) && |s.log| <= RESUME_LIMIT
    ensures KeyedState(ResumeF(c, s), |s.log|)
  {
    hide Replay, LiveRoot;
    var t := ResumeF(c, s);
    forall id ensures RootF(t.causal, id) == LiveRoot(s.log, |s.log|, id) {
      ReplayKeyed(c, s.log, s.cancelIds, id);
    }
  }

  // ---- Whole runs ----

  ghost predicate SealableRun(c: Config, inputs: seq<Input>) {
    forall i :: i in inputs && i.Arrive? ==> Sealable(c, i.w)
  }

  lemma {:induction false} KeyedInEveryRun(c: Config, inputs: seq<Input>)
    requires HonestRun(c, inputs) && DistinctEdges(c) && SealableRun(c, inputs)
    ensures KeyedState(Run(c, inputs), Since(c, inputs))
  {
    hide RouteF, ResumeF, Honest, Traced, Sealable;
    if inputs == [] {
      assert forall id :: RootF(Start().causal, id) == LiveRoot([], 0, id);
    } else {
      var before, last := inputs[..|inputs| - 1], inputs[|inputs| - 1];
      assert last in inputs;
      KeyedInEveryRun(c, before);
      UpheldInEveryRun(c, before);
      hide KeyedState;
      match last {
        case Arrive(env, w) => RouteKeyed(c, w, Run(c, before), Since(c, before), env);
        case Crash => ResumeKeyed(c, Run(c, before));
      }
    }
  }

  // ---- Where the two readings part ----

  /** Logged since the last rebuild and belonging to a chain of the client's, yet read
      differently: a reply delivered to the client, indexed live but standing for
      itself when read back; or what a skill emitted, or a note to a skill that a guess
      was superseded, not indexed live but read back as part of its chain. */
  ghost predicate Misread(log: seq<Envelope>, since: nat, id: Id) {
    var f := FirstAt(log, id);
    since <= f < |log| && ChainRoot(log, log[f]) != NoId && (log[f].node == CLIENT <==> Stamped(log[f]))
    && !ClientSent(log[f])
  }

  /** A chain's root is the id of something the client sent. */
  lemma RootIsSent(log: seq<Envelope>, e: Envelope)
    ensures var R := ChainRoot(log, e);
            R == NoId || (ClientSent(e) && R == e.id) || exists i :: 0 <= i < |log| && ClientSent(log[i]) && log[i].id == R
  {
    if !ClientSent(e) {
      var i := FirstAt(log, e.cause);
      if i < |log| {
        RootIsSent(log[..i], log[i]);
        var R := ChainRoot(log[..i], log[i]);
        if R != NoId && !(ClientSent(log[i]) && R == log[i].id) {
          var k :| 0 <= k < i && ClientSent(log[..i][k]) && log[..i][k].id == R;
          assert log[k] == log[..i][k];
        }
      }
    }
  }

  lemma OtherRoot(log: seq<Envelope>, cancels: set<Id>, f: nat)
    requires HonestLog(log, cancels) && f < |log| && !ClientSent(log[f]) && ChainRoot(log, log[f]) != NoId
    ensures ChainRoot(log, log[f]) != log[f].id
  {
    hide ChainRoot;
    RootIsSent(log, log[f]);
    var i :| 0 <= i < |log| && ClientSent(log[i]) && log[i].id == ChainRoot(log, log[f]);
    if log[i].id == log[f].id { SameEntry(log, cancels, i, f); }
  }

  lemma ReadingsAgree(log: seq<Envelope>, cancels: set<Id>, since: nat, id: Id)
    requires HonestLog(log, cancels)
    ensures (if LiveRoot(log, since, id) != NoId then LiveRoot(log, since, id) else id) == NamedBack(log, id)
            <==> !Misread(log, since, id)
  {
    hide HonestLog;
    var f := FirstAt(log, id);
    if f < |log| {
      NeverLogged(log, cancels, f);
      if !ClientSent(log[f]) && ChainRoot(log, log[f]) != NoId {
        OtherRoot(log, cancels, f);
      }
    }
  }

  /** What a cancel may name: in every honest run with room in the causal index, crashes
      included, the live session takes a cancel to mean the chain it will mean when it
      is read back exactly when it names none of those. */
  lemma CancelReadAlikeIff(c: Config, inputs: seq<Input>, env: Envelope)
    requires HonestRun(c, inputs) && DistinctEdges(c) && SealableRun(c, inputs)
    requires Honest(Run(c, inputs), env) && env.kind == Cancel
    requires |Run(c, inputs).causal.order| < Run(c, inputs).causal.max
    ensures var s := Run(c, inputs);
            var logged := s.(log := s.log + [env]);
            CancelTarget(logged, env.cause) == NamedBack(logged.log, env.cause)
            <==> !Misread(logged.log, Since(c, inputs), env.cause)
  {
    KeyedInEveryRun(c, inputs);
    UpheldInEveryRun(c, inputs);
    var s := Run(c, inputs);
    hide Run;
    var logged := s.(log := s.log + [env]);
    EnvLogged(s, env, logged);
    assert !Stamped(env);
    NoteKeyed(s, Since(c, inputs), env, logged);
    assert HonestLog(logged.log, logged.cancelIds);
    hide Traced, Misread, NamedBack, LiveRoot, HonestLog;
    ReadingsAgree(logged.log, logged.cancelIds, Since(c, inputs), env.cause);
    assert RootF(logged.causal, env.cause) == LiveRoot(logged.log, Since(c, inputs), env.cause);
  }
}
