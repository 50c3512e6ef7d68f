// Runs on which a restart reads the log otherwise than the session lived it, and the
// condition under which each happens.

module Misreadings {
  import opened Options
  import opened Envelopes
  import opened BoundedFifo
  import opened Indexes
  import opened Policies
  import opened Wiring
  import opened Speculation
  import opened Kernel
  import opened Frames
  import opened Books
  import opened Chains
  import opened Gates
  import opened Resumes
  import opened Restarts
  import opened LongLogs
  import opened LongNumbers
  import opened LongCancels
  import opened Aims
  import opened PlainSteps

  // ---- A client message handed to one skill ----

  /** A first message of the client's, and the one edge it takes. */
  ghost predicate Opening(c: Config, r: Envelope, d: Dest) {
    && r.id.External? && r.node == CLIENT && r.kind == Data && r.attest == "" && r.deadline == 0
    && DestsAt(c.routes, Source(r)) == [d] && d.ref != CLIENT && !d.speculative && d.gate != HumanApproval && PlainEdge(c, d)
  }

  lemma Opened(c: Config, w: World, r: Envelope, d: Dest) returns (out: Envelope)
    requires Opening(c, r, d) && Carries(w)
    ensures var s := Run(c, [Arrive(r, w)]);
            && HonestRun(c, [Arrive(r, w)])
            && s.log == [r, out] && s.mint == 1 && s.cancelled == Empty(MAX_CANCELLED) && s.cancelIds == {}
            && s.causal == Fifo(map[Minted(0) := r.id], [Minted(0)], MAX_CAUSAL_ROOTS)
            && s.dedup == SeenF(Empty(MAX_DEDUP), r.idem) && s.spec == Start().spec
            && out.id == Minted(0) && out.cause == r.id && out.kind == Data && out.node == d.ref && out.node != CLIENT
  {
    var s0 := Start();
    out := Outgoing(w, Taken(s0, r), r, d);
    RunOne(c, [], Arrive(r, w));
    HonestOne(c, [], Arrive(r, w));
    assert [] + [Arrive(r, w)] == [Arrive(r, w)];
    PlainRoute(c, w, s0, r);
    OneDest(c, w, Taken(s0, r), r, d, r.id);
    PlainForward(c, w, Taken(s0, r), r, d, NoId);
    hide Run, RouteF, ForwardF, ToDestsF, SeenF;
    assert Delivered(w, Taken(s0, r), r, d, NoId).log == [r] + [out];
  }

  /** What the skill emits on its work, and the edge that takes. */
  ghost predicate Answering(c: Config, r: Envelope, m: Envelope, e: Dest) {
    && m.id.External? && m.id != r.id && m.node != CLIENT && m.cause == Minted(0) && m.kind == Data
    && m.attest == "" && m.deadline == 0 && m.idem != "" && m.idem != r.idem
    && DestsAt(c.routes, Source(m)) == [e] && PlainEdge(c, e)
  }

  lemma SkillAnswers(c: Config, w: World, r: Envelope, d: Dest, m: Envelope, e: Dest) returns (out: Envelope, s1: State)
    requires Opening(c, r, d) && Answering(c, r, m, e) && Carries(w)
    ensures s1 == Taken(Run(c, [Arrive(r, w)]), m) && s1.log == [r, out, m]
    ensures out.id == Minted(0) && out.cause == r.id && out.kind == Data && out.node != CLIENT
    ensures HonestRun(c, [Arrive(r, w), Arrive(m, w)])
    ensures Run(c, [Arrive(r, w), Arrive(m, w)]) == ToDestF(c, w, s1, m, e, r.id)
    ensures s1.mint == 1 && s1.cancelled == Empty(MAX_CANCELLED) && s1.cancelIds == {} && s1.spec == Start().spec
    ensures s1.causal == Fifo(map[Minted(0) := r.id], [Minted(0)], MAX_CAUSAL_ROOTS)
    ensures forall k :: k in s1.dedup.m ==> k == r.idem || k == m.idem
  {
    hide Run, HonestRun, RouteF, ToDestF;
    var first := [Arrive(r, w)];
    out := Opened(c, w, r, d);
    var s := Run(c, first);
    hide Opening;
    s1 := Taken(s, m);
    SkillSpeaks(c, w, s, r, out, m, e);
    RunOne(c, first, Arrive(m, w));
    HonestOne(c, first, Arrive(m, w));
    assert first + [Arrive(m, w)] == [Arrive(r, w), Arrive(m, w)];
  }

  lemma SkillSpeaks(c: Config, w: World, s: State, r: Envelope, out: Envelope, m: Envelope, e: Dest)
    requires s.log == [r, out] && r.id.External? && out.id == Minted(0) && IsDelivery(out) && Answering(c, r, m, e)
    requires s.causal == Fifo(map[Minted(0) := r.id], [Minted(0)], MAX_CAUSAL_ROOTS)
    requires s.cancelled == Empty(MAX_CANCELLED) && s.dedup == SeenF(Empty(MAX_DEDUP), r.idem)
    ensures Honest(s, m) && Unforged(m)
    ensures RouteF(c, w, s, m) == ToDestF(c, w, Taken(s, m), m, e, r.id)
    ensures Taken(s, m).log == [r, out, m] && forall k :: k in Taken(s, m).dedup.m ==> k == r.idem || k == m.idem
  {
    hide RouteF, ToDestsF, ToDestF, PlainEdge, IsDelivery;
    assert RootOf(s, m) == r.id;
    SkillIsHonest(s, r, out, m);
    PlainRoute(c, w, s, m);
    assert [r, out] + [m] == [r, out, m];
    OneDest(c, w, Taken(s, m), m, e, r.id);
  }

  lemma SkillIsHonest(s: State, r: Envelope, out: Envelope, m: Envelope)
    requires s.log == [r, out] && r.id.External? && out.id == Minted(0) && IsDelivery(out)
    requires m.id.External? && m.id != r.id && m.cause == Minted(0) && m.kind == Data
    ensures Honest(s, m) && Unforged(m)
  {
    assert s.log[1].id == m.cause;
    assert Follows(s.log, |s.log|, m);
  }

  // ---- A cancel that names a reply ----

  /** The client cancels by the id of the reply it was shown. */
  ghost predicate NamesReply(r: Envelope, m: Envelope, x: Envelope) {
    x.id.External? && x.id != r.id && x.id != m.id && x.node == CLIENT && x.kind == Cancel && x.cause == Minted(1)
  }

  /** A client asks, a skill replies, and the client cancels naming the reply: the chain
      is suppressed while the session lives, and not once it is rebuilt. */
  lemma CancelOfAReplyIsLost(c: Config, w: World, r: Envelope, d: Dest, m: Envelope, e: Dest, x: Envelope)
    requires Opening(c, r, d) && Answering(c, r, m, e) && NamesReply(r, m, x) && Carries(w)
    requires e.ref == CLIENT && e.skill.None? && !e.speculative && e.gate != HumanApproval
    requires DistinctEdges(c)
    ensures var inputs := [Arrive(r, w), Arrive(m, w), Arrive(x, w)];
            && HonestRun(c, inputs)
            && CancelledF(Run(c, inputs).cancelled, r.id)
            && !CancelledF(Run(c, inputs + [Crash]).cancelled, r.id)
  {
    hide Opening, Answering, NamesReply, Run, HonestRun, ResumeF, CancelledF, DistinctEdges;
    var inputs := [Arrive(r, w), Arrive(m, w), Arrive(x, w)];
    ReplyCancelled(c, w, r, d, m, e, x);
    UpheldInEveryRun(c, inputs);
    RunOne(c, inputs, Crash);
    ReplyReadBack(c, Run(c, inputs), r.id);
  }

  lemma ReplyReadBack(c: Config, t: State, R: Id)
    requires Traced(t) && ReplyLog(t.log, R)
    ensures !CancelledF(ResumeF(c, t).cancelled, R)
  {
    hide ResumeF, Traced;
    TracedRecord(t);
    ReplyStandsForItself(t.log, R);
    SuppressedAfterRestart(c, t, R);
  }

  lemma ReplyCancelled(c: Config, w: World, r: Envelope, d: Dest, m: Envelope, e: Dest, x: Envelope)
    requires Opening(c, r, d) && Answering(c, r, m, e) && NamesReply(r, m, x) && Carries(w)
    requires e.ref == CLIENT && e.skill.None? && !e.speculative && e.gate != HumanApproval
    ensures var inputs := [Arrive(r, w), Arrive(m, w), Arrive(x, w)];
            HonestRun(c, inputs) && CancelledF(Run(c, inputs).cancelled, r.id) && ReplyLog(Run(c, inputs).log, r.id)
  {
    hide Opening, Answering, NamesReply, Run, HonestRun, RouteF, CancelledF;
    var two := [Arrive(r, w), Arrive(m, w)];
    assert two + [Arrive(x, w)] == [Arrive(r, w), Arrive(m, w), Arrive(x, w)];
    var out, reply := ReplyDelivered(c, w, r, d, m, e);
    RunOne(c, two, Arrive(x, w));
    CancelRouted(c, w, Run(c, two), [r, out, m, reply], r, m, x);
    HonestOne(c, two, Arrive(x, w));
  }

  lemma ReplyDelivered(c: Config, w: World, r: Envelope, d: Dest, m: Envelope, e: Dest) returns (out: Envelope, reply: Envelope)
    requires Opening(c, r, d) && Answering(c, r, m, e) && Carries(w)
    requires e.ref == CLIENT && e.skill.None? && !e.speculative && e.gate != HumanApproval
    ensures var s := Run(c, [Arrive(r, w), Arrive(m, w)]);
            && HonestRun(c, [Arrive(r, w), Arrive(m, w)])
            && s.log == [r, out, m, reply] && RootF(s.causal, Minted(1)) == r.id && s.cancelled == Empty(MAX_CANCELLED)
    ensures r.id.External? && m.id.External? && r.kind == Data && m.kind == Data
    ensures out.id == Minted(0) && out.kind == Data && reply.id == Minted(1) && reply.kind == Data && reply.node == CLIENT
  {
    hide Run, HonestRun, ForwardF, PlainEdge, DistinctEdges;
    var s1: State;
    out, s1 := SkillAnswers(c, w, r, d, m, e);
    reply := Outgoing(w, s1, m, e);
    PlainForward(c, w, s1, m, e, NoId);
    assert [r, out, m] + [reply] == [r, out, m, reply];
  }

  lemma CancelRouted(c: Config, w: World, s: State, log: seq<Envelope>, r: Envelope, m: Envelope, x: Envelope)
    requires s.log == log && |log| == 4 && log[0] == r && log[2] == m && log[1].id.Minted? && log[3].id.Minted?
    requires RootF(s.causal, Minted(1)) == r.id && s.cancelled == Empty(MAX_CANCELLED) && r.id.External?
    requires NamesReply(r, m, x)
    ensures var t := RouteF(c, w, s, x);
            t.log == log + [x] && CancelledF(t.cancelled, r.id) && Honest(s, x) && Unforged(x)
    ensures x.id.External? && x.kind == Cancel && x.cause == Minted(1)
  {
  }

  /** The log of such a run. */
  ghost predicate ReplyLog(log: seq<Envelope>, R: Id) {
    && R.External? && |log| == 5
    && log[0].id.External? && log[1].id == Minted(0) && log[2].id.External? && log[3].id == Minted(1)
    && log[4].id.External? && log[3].node == CLIENT && log[4].kind == Cancel && log[4].cause == Minted(1)
    && forall i :: 0 <= i < 4 ==> log[i].kind != Cancel
  }

  lemma ReplyStandsForItself(log: seq<Envelope>, R: Id)
    requires ReplyLog(log, R)
    ensures !CancelInReach(log, R)
  {
    FirstAtUnique(log, Minted(1), 3);
    assert log[..5] == log;
    forall i: nat | i < RESUME_LIMIT ensures !CancelsBack(log, i, R) {
      if i < |log| && log[i].kind == Cancel { assert i == 4; }
    }
  }

  // ---- A guess given up ----

  /** Giving up the guess `id` suppresses only what was done on it while the session
      lives; read back, the note sent to the skill suppresses the chain R the guess
      belongs to, exactly when one was sent and R is that chain. */
  lemma AbandonReadBackIff(c: Config, s: State, id: Id, d: Dest, R: Id)
    requires Traced(s) && Known(s, id) && id.External? && |s.log| < RESUME_LIMIT
    requires R != NoId && !CancelledBack(s.log, R)
    ensures var t := AbandonF(s, id, d);
            && (CancelledF(t.cancelled, R) ==> R == id || CancelledF(s.cancelled, R))
            && (CancelledF(ResumeF(c, t).cancelled, R) <==> d.skill.Some? && NamedBack(s.log, id) == R)
  {
    hide ResumeF, CancelF, Traced, NamedBack, CancelsBack;
    var t := AbandonF(s, id, d);
    AbandonOne(s, id, d);
    AbandonedCancels(s, id, R);
    SuppressedAfterRestart(c, t, R);
    InReachIsBack(t.log, R);
    if d.skill.Some? {
      var e := KernelEnvelope(Minted(s.mint), id, d.ref, d.port, Cancel, "", Notice("superseded"));
      assert t.log == s.log + [e];
      CancelledBackMore(s.log, e, R);
      NoteNames(s, e, R);
    }
  }

  lemma AbandonOne(s: State, id: Id, d: Dest)
    requires Traced(s) && Known(s, id) && id.External?
    ensures HonestLog(AbandonF(s, id, d).log, AbandonF(s, id, d).cancelIds)
  {
    hide Traced, AbandonF;
    assert [id][..0] == [];
    assert AbandonAllF(s, [id], d) == AbandonF(s, id, d);
    AbandonTraced(s, [id], d);
    assert Traced(AbandonF(s, id, d));
    TracedRecord(AbandonF(s, id, d));
  }

  lemma AbandonedCancels(s: State, id: Id, R: Id)
    requires Traced(s)
    ensures CancelledF(CancelF(s.cancelled, id), R) ==> R == id || CancelledF(s.cancelled, R)
  {
    if |s.cancelled.order + [id]| > s.cancelled.max {}
  }

  lemma InReachIsBack(log: seq<Envelope>, R: Id)
    requires |log| <= RESUME_LIMIT
    ensures CancelInReach(log, R) <==> CancelledBack(log, R)
  {
    if CancelledBack(log, R) {
      var i: nat :| CancelsBack(log, i, R);
      InLog(log, i, R);
    }
  }

  lemma NoteNames(s: State, e: Envelope, R: Id)
    requires Traced(s) && Known(s, e.cause) && e.cause.External? && e.kind == Cancel && R != NoId
    requires HonestLog(s.log + [e], s.cancelIds)
    ensures CancelsBack(s.log + [e], |s.log|, R) <==> NamedBack(s.log, e.cause) == R
  {
    hide HonestLog, Traced, ChainRoot;
    var more, f := s.log + [e], FirstAt(s.log, e.cause);
    assert more[..|s.log| + 1] == more;
    assert f < |s.log|;
    FirstAtMore(s.log, e, e.cause);
    TracedRecord(s);
    assert Tracked(s.log[f]);
    TrackedStable(s.log, s.cancelIds, more, f);
  }

  /** A guess the final contradicts. */
  ghost predicate Misses(schema: string, guess: Payload, final: Payload) {
    var said := Accumulate(schema, Absent, guess);
    !IsFinal(guess) && IsFinal(final) && said != Absent && !ContentEqual(said, Accumulate(schema, said, final))
  }

  /** A skill guesses on a speculating edge to another skill and is wrong: the chain
      goes on while the session lives, and is suppressed once it is rebuilt. */
  lemma WrongGuessSilencesTheChain(c: Config, w: World, r: Envelope, d: Dest, p: Envelope, f: Envelope, e: Dest)
    requires Opening(c, r, d) && Answering(c, r, p, e) && Answering(c, r, f, e) && p.id != f.id && p.idem != f.idem
    requires Source(p) == Source(f) && p.schema == f.schema && Misses(p.schema, p.payload, f.payload)
    requires e.speculative && e.skill.Some? && Carries(w) && DistinctEdges(c)
    ensures var inputs := [Arrive(r, w), Arrive(p, w), Arrive(f, w)];
            && HonestRun(c, inputs)
            && !CancelledF(Run(c, inputs).cancelled, r.id)
            && CancelledF(Run(c, inputs + [Crash]).cancelled, r.id)
  {
    var inputs := [Arrive(r, w), Arrive(p, w), Arrive(f, w)];
    WrongGuess(c, w, r, d, p, f, e);
    hide Opening, Answering, Run, HonestRun, ResumeF, DistinctEdges, Misses;
    RunOne(c, inputs, Crash);
    UpheldInEveryRun(c, inputs);
    NoteReadBack(c, Run(c, inputs), p.id, r.id);
  }

  /** The log of such a run. */
  ghost predicate GuessLog(log: seq<Envelope>, id: Id, R: Id) {
    && |log| == 7 && ClientSent(log[0]) && log[0].id == R
    && IsDelivery(log[1]) && log[1].cause == R
    && log[2].id == id && id.External? && id != R && log[2].node != CLIENT && log[2].cause == log[1].id
    && log[5].kind == Cancel && log[5].cause == id
  }

  lemma NoteReadBack(c: Config, t: State, id: Id, R: Id)
    requires Traced(t) && GuessLog(t.log, id, R)
    ensures CancelledF(ResumeF(c, t).cancelled, R)
  {
    hide ResumeF, Traced;
    TracedRecord(t);
    NoteNamesChain(t.log, t.cancelIds, 5, id, R);
    SuppressedAfterRestart(c, t, R);
  }

  lemma WrongGuess(c: Config, w: World, r: Envelope, d: Dest, p: Envelope, f: Envelope, e: Dest)
    requires Opening(c, r, d) && Answering(c, r, p, e) && Answering(c, r, f, e) && p.id != f.id && p.idem != f.idem
    requires Source(p) == Source(f) && p.schema == f.schema && Misses(p.schema, p.payload, f.payload)
    requires e.speculative && e.skill.Some? && Carries(w)
    ensures var inputs := [Arrive(r, w), Arrive(p, w), Arrive(f, w)];
            HonestRun(c, inputs) && !CancelledF(Run(c, inputs).cancelled, r.id) && GuessLog(Run(c, inputs).log, p.id, r.id)
  {
    hide Opening, Answering, Run, HonestRun, RouteF, CancelledF, Misses;
    var two := [Arrive(r, w), Arrive(p, w)];
    assert two + [Arrive(f, w)] == [Arrive(r, w), Arrive(p, w), Arrive(f, w)];
    MissFacts(c, r, d, p, f);
    var out, s := GuessMade(c, w, r, d, p, e);
    RunOne(c, two, Arrive(f, w));
    FinalArrives(c, w, s, r, out, p, f, e);
    HonestOne(c, two, Arrive(f, w));
    var t := RouteF(c, w, s, f);
    assert t.log[..3] == [r, out, p];
    assert t.log[0] == r && t.log[1] == out && t.log[2] == p;
  }

  lemma MissFacts(c: Config, r: Envelope, d: Dest, p: Envelope, f: Envelope)
    requires Opening(c, r, d) && Misses(p.schema, p.payload, f.payload)
    ensures ClientSent(r) && !IsFinal(p.payload)
  {
  }

  lemma FinalArrives(c: Config, w: World, s: State, r: Envelope, out: Envelope, p: Envelope, f: Envelope, e: Dest)
    requires |s.log| == 4 && s.log[..3] == [r, out, p] && s.log[3].id.Minted? && IsDelivery(out) && ClientSent(r)
    requires Answering(c, r, p, e) && Answering(c, r, f, e) && p.id != f.id && p.idem != f.idem && out.id == Minted(0)
    requires forall k :: k in s.dedup.m ==> k == r.idem || k == p.idem
    requires s.cancelled == Empty(MAX_CANCELLED) && RootF(s.causal, Minted(0)) == r.id && Carries(w)
    requires e.speculative && e.skill.Some? && p.schema == f.schema && Misses(p.schema, p.payload, f.payload)
    requires s.spec == SpeculateF(FoldF(Start().spec, SpecKey(r.id, e.from), p.schema, p.payload), SpecKey(r.id, e.from), p.id)
    ensures Honest(s, f) && Unforged(f) && p.id.External? && p.id != r.id && p.node != CLIENT && p.cause == out.id
    ensures var t := RouteF(c, w, s, f);
            && !CancelledF(t.cancelled, r.id) && |t.log| == 7 && s.log <= t.log
            && t.log[5].kind == Cancel && t.log[5].cause == p.id
  {
    hide RouteF, FoldF, SpeculateF, Misses, PlainEdge;
    FinalIsHonest(s, r, out, p, f);
    GuessDropped(c, w, s, r, p, f, e);
  }

  lemma FinalIsHonest(s: State, r: Envelope, out: Envelope, p: Envelope, f: Envelope)
    requires |s.log| == 4 && s.log[..3] == [r, out, p] && s.log[3].id.Minted? && IsDelivery(out)
    requires f.id.External? && f.id != r.id && f.id != p.id && f.cause == out.id && f.kind == Data
    ensures Honest(s, f) && Unforged(f)
  {
    assert s.log[0] == r && s.log[1] == out && s.log[2] == p;
    assert Follows(s.log, |s.log|, f);
  }

  lemma GuessMade(c: Config, w: World, r: Envelope, d: Dest, p: Envelope, e: Dest) returns (out: Envelope, s: State)
    requires Opening(c, r, d) && Answering(c, r, p, e) && e.speculative && Carries(w) && !IsFinal(p.payload)
    ensures s == Run(c, [Arrive(r, w), Arrive(p, w)]) && HonestRun(c, [Arrive(r, w), Arrive(p, w)])
    ensures |s.log| == 4 && s.log[..3] == [r, out, p] && s.log[3].id == Minted(1) && s.log[3].kind == Data
    ensures out.id == Minted(0) && out.cause == r.id && out.kind == Data && out.node != CLIENT
    ensures s.mint == 2 && s.cancelled == Empty(MAX_CANCELLED) && s.cancelIds == {} && RootF(s.causal, Minted(0)) == r.id
    ensures s.spec == SpeculateF(FoldF(Start().spec, SpecKey(r.id, e.from), p.schema, p.payload), SpecKey(r.id, e.from), p.id)
    ensures forall k :: k in s.dedup.m ==> k == r.idem || k == p.idem
  {
    hide Run, HonestRun, PlainEdge, FoldF, SpeculateF, ToDestF, IsFinal;
    var s1: State;
    out, s1 := SkillAnswers(c, w, r, d, p, e);
    s := Run(c, [Arrive(r, w), Arrive(p, w)]);
    GuessForwarded(c, w, s1, p, e, r.id);
    assert s.log == [r, out, p] + [s.log[3]];
  }

  lemma GuessForwarded(c: Config, w: World, s: State, p: Envelope, e: Dest, root: Id)
    requires p.kind == Data && p.deadline == 0 && root != NoId && !IsFinal(p.payload) && e.speculative
    requires PlainEdge(c, e) && Carries(w) && p.id != NoId
    ensures var t, key := ToDestF(c, w, s, p, e, root), SpecKey(root, e.from);
            && |t.log| == |s.log| + 1 && s.log <= t.log && t.log[|s.log|].id == Minted(s.mint) && t.log[|s.log|].kind == Data
            && t.mint == s.mint + 1 && t.cancelled == s.cancelled && t.cancelIds == s.cancelIds && t.dedup == s.dedup
            && t.causal == SetRootF(s.causal, Minted(s.mint), RootOf(s, p))
            && t.spec == SpeculateF(FoldF(s.spec, key, p.schema, p.payload), key, p.id)
  {
    hide FoldF, SpeculateF, MarkFinal, RunningF, ForwardF, IsFinal, PlainEdge, RecordF, SetRootF;
    var key := SpecKey(root, e.from);
    var folded := s.(spec := FoldF(s.spec, key, p.schema, p.payload));
    var guess := p.(payload := MarkFinal(RunningF(folded.spec, key)));
    PlainForward(c, w, folded, guess, e, NoId);
  }

  /** The final comes: the guess is given up before the whole is forwarded. */
  lemma GuessDropped(c: Config, w: World, s: State, r: Envelope, p: Envelope, f: Envelope, e: Dest)
    requires s.cancelled == Empty(MAX_CANCELLED) && RootF(s.causal, Minted(0)) == r.id
    requires r.id.External? && p.id.External? && p.id != r.id
    requires f.node != CLIENT && f.cause == Minted(0) && f.kind == Data && f.attest == "" && f.deadline == 0 && !Duplicate(s, f)
    requires DestsAt(c.routes, Source(f)) == [e] && PlainEdge(c, e) && e.speculative && e.skill.Some? && Carries(w)
    requires s.spec == SpeculateF(FoldF(Start().spec, SpecKey(r.id, e.from), p.schema, p.payload), SpecKey(r.id, e.from), p.id)
    requires p.schema == f.schema && Misses(p.schema, p.payload, f.payload)
    ensures var t := RouteF(c, w, s, f);
            && !CancelledF(t.cancelled, r.id) && |t.log| == |s.log| + 3 && s.log <= t.log
            && t.log[|s.log| + 1].kind == Cancel && t.log[|s.log| + 1].cause == p.id
  {
    hide RouteF, ToDestF, ToDestsF, FoldF, SpeculateF, Misses, PlainEdge, SeenF;
    var s1 := Taken(s, f);
    assert RootOf(s, f) == r.id;
    PlainRoute(c, w, s, f);
    OneDest(c, w, s1, f, e, r.id);
    FinalMisses(c, w, s1, r.id, p, f, e);
    assert s1.log == s.log + [f];
  }

  lemma FinalMisses(c: Config, w: World, s: State, root: Id, p: Envelope, f: Envelope, e: Dest)
    requires root != NoId && p.id != root && s.cancelled == Empty(MAX_CANCELLED)
    requires f.kind == Data && f.deadline == 0 && PlainEdge(c, e) && e.speculative && e.skill.Some? && Carries(w)
    requires s.spec == SpeculateF(FoldF(Start().spec, SpecKey(root, e.from), p.schema, p.payload), SpecKey(root, e.from), p.id)
    requires p.schema == f.schema && Misses(p.schema, p.payload, f.payload)
    ensures var t := ToDestF(c, w, s, f, e, root);
            && !CancelledF(t.cancelled, root) && |t.log| == |s.log| + 2 && s.log <= t.log
            && t.log[|s.log|].kind == Cancel && t.log[|s.log|].cause == p.id
  {
    var key := SpecKey(root, e.from);
    GuessIsStale(key, p, f);
    assert IsFinal(f.payload);
    hide ForwardF, FoldF, SpeculateF, ResolveF, StaleF, RunningF, GuessStands, PlainEdge, Misses, IsFinal, AbandonAllF;
    var folded := FoldF(s.spec, key, f.schema, f.payload);
    var running := RunningF(folded, key);
    var s2 := s.(spec := ResolveF(folded, key, running));
    AbandonedOne(s2, p.id, e);
    PlainForward(c, w, AbandonAllF(s2, [p.id], e), f.(payload := running), e, NoId);
  }

  lemma AbandonedOne(s: State, id: Id, d: Dest)
    requires d.skill.Some?
    ensures var t := AbandonAllF(s, [id], d);
            && |t.log| == |s.log| + 1 && s.log <= t.log && t.log[|s.log|].kind == Cancel && t.log[|s.log|].cause == id
            && t.cancelled == CancelF(s.cancelled, id)
  {
    assert [id][..0] == [];
  }

  lemma GuessIsStale(key: SpecKey, p: Envelope, f: Envelope)
    requires p.schema == f.schema && Misses(p.schema, p.payload, f.payload)
    ensures var folded := FoldF(SpeculateF(FoldF(Start().spec, key, p.schema, p.payload), key, p.id), key, f.schema, f.payload);
            && !GuessStands(folded, key, RunningF(folded, key)) && StaleF(folded, key, RunningF(folded, key)) == [p.id]
  {
    hide Accumulate, Content;
    assert [] + [p.id] == [p.id];
  }

  lemma NoteNamesChain(log: seq<Envelope>, cancels: set<Id>, i: nat, id: Id, R: Id)
    requires HonestLog(log, cancels) && i < |log| <= RESUME_LIMIT && 2 < i && log[i].kind == Cancel && log[i].cause == id
    requires log[0].id == R && ClientSent(log[0]) && log[1].cause == R && IsDelivery(log[1]) && log[2].id == id
    requires log[2].cause == log[1].id && log[2].node != CLIENT && id.External? && id != R && log[1].id != log[2].id
    ensures CancelInReach(log, R)
  {
    var part := log[..i + 1];
    FirstAtUnique(part[..2], log[1].id, 1);
    FirstAtUnique(part, log[1].id, 1);
    FirstAtUnique(part[..1], R, 0);
    FirstAtUnique(part, id, 2);
    assert part[..1][..0] == [];
    assert ChainRoot(part[..1], log[1]) == R;
    assert ChainRoot(part, log[2]) == R;
    assert CancelsBack(log, i, R);
  }

  // ---- A question the kernel never asked ----

  /** What a question names: the first gated destination of the source of what it
      cites, under the ref and port it gives. */
  ghost function GateNamed(c: Config, held: Envelope, payload: Payload): Option<Dest> {
    match payload
    case Question(_, ref, port) => GateFor(DestsAt(c.routes, Source(held)), ref, port)
    case _ => GateFor(DestsAt(c.routes, Source(held)), "", "")
  }

  /** A question `req` on record within reach, not answered since within reach, that
      cites an entry within reach whose source has the gated destination it names. */
  ghost predicate TakenForAGate(c: Config, log: seq<Envelope>, req: Id, held: Held) {
    exists q: nat, h: nat ::
      && q < |Readable(log)| && log[q].kind == ConfirmRequest && log[q].id == req
      && !AnswerBetween(log, req, q, RESUME_LIMIT)
      && h < |Readable(log)| && log[h] == held.env && held.env.id == log[q].cause
      && GateNamed(c, held.env, log[q].payload) == Some(held.to)
  }

  /** What a restart waits for, whoever asked: from any log in which an id stands for
      one thing, exactly the questions that lead to a gate so. */
  lemma WaitedForIff(c: Config, s: State, req: Id, held: Held)
    requires Unique(s.log)
    ensures (req in ResumeF(c, s).pending && ResumeF(c, s).pending[req] == held) <==> TakenForAGate(c, s.log, req, held)
  {
    var part := Readable(s.log);
    var r := Replay(c, part);
    assert Unique(part) by { assert forall i :: 0 <= i < |part| ==> part[i] == s.log[i]; }
    ReplayCandidates(c, part);
    hide Replay, Unique, CandidatesAre, TakenForAGate, HeldFor;
    if TakenForAGate(c, s.log, req, held) { TakenIsHeld(c, s.log, req, held); }
    if req in r.candidates && HeldFor(c, r, r.candidates[req]) == Some(held) { CandidateNames(c, s.log, req, held); }
  }

  lemma HeldForIs(c: Config, r: Replayed, req: Envelope)
    ensures HeldFor(c, r, req) == if req.cause !in r.byId then None
                                  else match GateNamed(c, r.byId[req.cause], req.payload)
                                       case Some(d) => Some(Held(r.byId[req.cause], d))
                                       case None => None
  {
    hide GateFor;
  }

  lemma TakenIsHeld(c: Config, log: seq<Envelope>, req: Id, held: Held)
    requires var r := Replay(c, Readable(log)); CandidatesAre(Readable(log), r.candidates)
    requires Unique(Readable(log)) && TakenForAGate(c, log, req, held)
    ensures var r := Replay(c, Readable(log));
            req in r.candidates && HeldFor(c, r, r.candidates[req]) == Some(held)
  {
    hide Replay, HeldFor, GateNamed, Unique;
    var part := Readable(log);
    var q: nat, h: nat :|
      && q < |part| && log[q].kind == ConfirmRequest && log[q].id == req && !AnswerBetween(log, req, q, RESUME_LIMIT)
      && h < |part| && log[h] == held.env && held.env.id == log[q].cause
      && GateNamed(c, held.env, log[q].payload) == Some(held.to);
    assert part[q] == log[q] && part[h] == log[h];
    OpenInReach(log, req, q);
    ByIdIs(c, part, h);
    HeldForIs(c, Replay(c, part), part[q]);
    assert OpenAt(part, req, q);
    assert Candidate(part, req, part[q]);
  }

  lemma CandidateNames(c: Config, log: seq<Envelope>, req: Id, held: Held)
    requires var r := Replay(c, Readable(log));
             && CandidatesAre(Readable(log), r.candidates)
             && req in r.candidates && HeldFor(c, r, r.candidates[req]) == Some(held)
    ensures TakenForAGate(c, log, req, held)
  {
    var part := Readable(log);
    ReplayedAt(c, part);
    var r := Replay(c, part);
    hide Replay, GateNamed, HeldFor;
    HeldForIs(c, r, r.candidates[req]);
    assert Candidate(part, req, r.candidates[req]);
    var q: nat :| OpenAt(part, req, q) && part[q] == r.candidates[req];
    OpenInReach(log, req, q);
    var h: nat :| h < |part| && part[h] == r.byId[part[q].cause];
    assert log[h] == held.env && log[q] == part[q];
  }

  lemma OpenInReach(log: seq<Envelope>, req: Id, q: nat)
    requires q < |Readable(log)|
    ensures AnswerBetween(Readable(log), req, q, |Readable(log)|) <==> AnswerBetween(log, req, q, RESUME_LIMIT)
  {
    var part := Readable(log);
    if AnswerBetween(log, req, q, RESUME_LIMIT) {
      var j :| q < j < RESUME_LIMIT && j < |log| && IsAnswer(log[j], req);
      assert IsAnswer(part[j], req);
    }
  }

  lemma ByIdIs(c: Config, log: seq<Envelope>, h: nat)
    requires Unique(log) && h < |log|
    ensures log[h].id in Replay(c, log).byId && Replay(c, log).byId[log[h].id] == log[h]
  {
    ReplayedAt(c, log);
    var k :| 0 <= k < |log| && log[k] == Replay(c, log).byId[log[h].id];
    assert log[k].id == log[h].id;
  }

  /** A delivery waits for a human, and someone outside asks the same question. */
  ghost predicate Forgery(c: Config, env: Envelope, d: Dest, x: Envelope) {
    && env.id.External? && env.node == CLIENT && env.kind == Data && env.attest == ""
    && DestsAt(c.routes, Source(env)) == [d] && d.gate == HumanApproval && !d.speculative
    && x.id.External? && x.id != env.id && x.node == CLIENT && x.kind == ConfirmRequest && x.attest == ""
    && DestsAt(c.routes, Source(x)) == []
    && x.cause == env.id && x.payload == Question(env.id, d.ref, d.port)
  }

  /** The live session asks once and waits for one answer; rebuilt, it waits for a
      second that it never asked for, about the same delivery. */
  lemma ForgedQuestionBecomesAGate(c: Config, w: World, env: Envelope, d: Dest, x: Envelope)
    requires Forgery(c, env, d, x)
    ensures var inputs := [Arrive(env, w), Arrive(x, w)];
            var s, t := Run(c, inputs), Run(c, inputs + [Crash]);
            && s.pending == map[Minted(0) := Held(env, d)] && s.gates == t.gates == [GateEvent.Opened(Minted(0), Held(env, d))]
            && Minted(0) in t.pending && t.pending[Minted(0)] == Held(env, d)
            && x.id in t.pending && t.pending[x.id] == Held(env, d)
  {
    var inputs := [Arrive(env, w), Arrive(x, w)];
    ForgedLive(c, w, env, d, x);
    RunOne(c, inputs, Crash);
    hide Run, ResumeF, Forgery;
    var s := Run(c, inputs);
    WaitedForIff(c, s, x.id, Held(env, d));
    WaitedForIff(c, s, Minted(0), Held(env, d));
    ForgedLog(c, s.log, env, d, x);
    SameGatesAfter(c, s);
  }

  lemma SameGatesAfter(c: Config, s: State)
    ensures ResumeF(c, s).gates == s.gates
  {
  }

  lemma ForgedLive(c: Config, w: World, env: Envelope, d: Dest, x: Envelope)
    requires Forgery(c, env, d, x)
    ensures var s := Run(c, [Arrive(env, w), Arrive(x, w)]);
            && s.log == [env, RequestEnvelope(Minted(0), env, d), x] && Unique(s.log)
            && s.pending == map[Minted(0) := Held(env, d)] && s.gates == [GateEvent.Opened(Minted(0), Held(env, d))]
  {
    var s0 := Start();
    RunOne(c, [], Arrive(env, w));
    assert [] + [Arrive(env, w)] == [Arrive(env, w)];
    PlainRoute(c, w, s0, env);
    OneDest(c, w, Taken(s0, env), env, d, env.id);
    RunOne(c, [Arrive(env, w)], Arrive(x, w));
    assert [Arrive(env, w)] + [Arrive(x, w)] == [Arrive(env, w), Arrive(x, w)];
    var s1 := Run(c, [Arrive(env, w)]);
    hide Run;
    assert s1 == HoldF(Taken(s0, env), env, d);
    PlainRoute(c, w, s1, x);
    assert s1.log == [env, RequestEnvelope(Minted(0), env, d)];
    assert s1.log + [x] == [env, RequestEnvelope(Minted(0), env, d), x];
  }

  lemma ForgedLog(c: Config, log: seq<Envelope>, env: Envelope, d: Dest, x: Envelope)
    requires Forgery(c, env, d, x) && log == [env, RequestEnvelope(Minted(0), env, d), x]
    ensures TakenForAGate(c, log, x.id, Held(env, d)) && TakenForAGate(c, log, Minted(0), Held(env, d))
  {
    GateForIs([d], 0);
    hide GateFor;
    assert !AnswerBetween(log, x.id, 2, RESUME_LIMIT) && !AnswerBetween(log, Minted(0), 1, RESUME_LIMIT);
    assert log[0] == env;
    assert GateNamed(c, env, log[2].payload) == Some(d) && GateNamed(c, env, log[1].payload) == Some(d);
  }
}
