// What a restart forgets past the first thousand events, followed through whole runs:
// an effect made twice, and a cancel that misses.

module OutOfReach {
  import opened Options
  import opened Envelopes
  import opened BoundedFifo
  import opened Indexes
  import opened Policies
  import opened RateLimits
  import opened Wiring
  import opened Budgets
  import opened Speculation
  import opened Kernel
  import opened Frames
  import opened Books
  import opened Chains
  import opened Gates
  import opened Resumes
  import opened Restarts
  import opened LongLogs
  import opened LongChains
  import opened LongRestarts
  import opened Aims
  import opened PlainSteps
  import opened Effects
  import opened Misreadings
  import RestartLimits

  // ---- A log a thousand events long in which nothing happened ----

  /** A session whose first thousand events are all an idle message. */
  ghost function Padding(pad: Envelope, w: World): seq<Input> {
    RestartLimits.Pads(pad, w, RESUME_LIMIT)
  }

  lemma LongOne(c: Config, inputs: seq<Input>, i: Input)
    requires LongRun(c, inputs) && (i.Arrive? ==> Honest(Run(c, inputs), i.env) && Unforged(i.env))
    ensures LongRun(c, inputs + [i]) && Run(c, inputs + [i]) == Step(c, Run(c, inputs), i)
  {
    hide Run, Honest;
    assert (inputs + [i])[..|inputs + [i]| - 1] == inputs;
    RunOne(c, inputs, i);
  }

  lemma {:induction false} PaddedLong(c: Config, pad: Envelope, w: World, n: nat)
    requires RestartLimits.Idle(c, pad)
    ensures LongRun(c, RestartLimits.Pads(pad, w, n))
    ensures var s := Run(c, RestartLimits.Pads(pad, w, n));
            s == Start().(log := s.log) && |s.log| == n && forall i :: 0 <= i < n ==> s.log[i] == pad
  {
    RestartLimits.Padded(c, pad, w, n);
    if n > 0 {
      PaddedLong(c, pad, w, n - 1);
      hide Run;
      LongOne(c, RestartLimits.Pads(pad, w, n - 1), Arrive(pad, w));
    }
  }

  /** Everything a restart of such a session reads is the idle message. */
  ghost predicate PaddedLog(log: seq<Envelope>, pad: Envelope) {
    |log| >= RESUME_LIMIT && forall i :: 0 <= i < RESUME_LIMIT ==> log[i] == pad
  }

  lemma {:induction false} ReplayedQuiet(c: Config, log: seq<Envelope>)
    requires forall i :: 0 <= i < |log| ==> log[i].kind != Cancel
    ensures Replay(c, log).cancelled == Empty(MAX_CANCELLED)
  {
    if log != [] { ReplayedQuiet(c, log[..|log| - 1]); }
  }

  lemma RestartedQuiet(c: Config, s: State, pad: Envelope, key: string)
    requires PaddedLog(s.log, pad) && RestartLimits.Idle(c, pad)
    ensures var t := ResumeF(c, s);
            && t.cancelled == Empty(MAX_CANCELLED) && t.log == s.log && t.ledger == s.ledger && t.sent == s.sent
            && key !in t.dedup.m
  {
    assert forall i :: 0 <= i < |Readable(s.log)| ==> Readable(s.log)[i] == pad;
    ReplayedQuiet(c, Readable(s.log));
    KeyReadBack(c, s, key);
    hide Replay;
  }

  // ---- One effect, made twice ----

  /** A client's message that goes straight to a skill that acts on the world. */
  ghost predicate Acts(c: Config, env: Envelope, d: Dest) {
    && env.id.External? && env.node == CLIENT && env.kind == Data && env.idem != "" && env.attest == "" && env.deadline == 0
    && DestsAt(c.routes, Source(env)) == [d] && d.gate != HumanApproval && !d.speculative && d.deadlineMS == 0
    && d.skill.Some? && IsMotor(d.skill.value) && c.hasLedger && c.budget <= 0
  }

  ghost predicate Willing(w: World) {
    forall n :: w.admit(n) && w.seal(n) && w.send(n)
  }

  ghost predicate Done(e: Entry, env: Envelope, d: Dest) {
    e.delivered && e.decision == Allow && e.cause == env.id && Some(e.skill) == d.skill && e.via == NoId
  }

  /** The effect is sealed and sent. */
  lemma Acted(c: Config, w: World, s: State, env: Envelope, d: Dest) returns (e: Entry, x: Send)
    requires Acts(c, env, d) && Willing(w)
    ensures var t := ForwardF(c, w, s, env, d, NoId);
            && t.ledger == s.ledger + [e] && t.sent == s.sent + [x] && |t.log| == |s.log| + 1 && s.log <= t.log
            && t.log[|s.log|].id.Minted?
    ensures Done(e, env, d) && x.to == d && x.env.cause == env.id && x.env.kind == Data && x.via == NoId
  {
    hide RecordF, SetRootF;
    var out := Outgoing(w, s, env, d);
    var s1 := s.(mint := s.mint + 1, seqNo := s.seqNo[Source(out) := out.seqNo]);
    assert s1.(consumed := s1.consumed) == s1;
    var s2 := TrackF(s1, env, out);
    assert !RateRefused(c, w, s, env, d) && out.deadline == 0;
    e := DeliveredEntry(c, s2, out, d, RootOf(s1, env), NoId);
    x := Send(out.(receipt := Some(|s.ledger|)), d, NoId, |s.log|);
  }

  lemma ActedOnArrival(c: Config, w: World, s: State, env: Envelope, d: Dest) returns (e: Entry, x: Send)
    requires Acts(c, env, d) && Willing(w) && s.cancelled == Empty(MAX_CANCELLED) && env.idem !in s.dedup.m
    ensures var t := RouteF(c, w, s, env);
            && t.ledger == s.ledger + [e] && t.sent == s.sent + [x] && |t.log| == |s.log| + 2 && s.log + [env] <= t.log
            && t.log[|s.log| + 1].id.Minted?
    ensures Done(e, env, d) && x.to == d && x.env.cause == env.id && x.env.kind == Data && x.via == NoId
  {
    PlainRoute(c, w, s, env);
    OneDest(c, w, Taken(s, env), env, d, RootOf(s, env));
    e, x := Acted(c, w, Taken(s, env), env, d);
  }

  /** A message whose only record lies past the first thousand events is acted on,
      and, sent again after a crash, is acted on again: the same ungated effect is
      sealed twice and sent twice. */
  lemma OneEffectTwice(c: Config, pad: Envelope, env: Envelope, d: Dest, w: World)
    requires RestartLimits.Idle(c, pad) && Acts(c, env, d) && pad.id != env.id && Willing(w)
    ensures var inputs := Padding(pad, w) + [Arrive(env, w)] + [Crash] + [Arrive(env, w)];
            var s := Run(c, inputs);
            && LongRun(c, inputs)
            && |s.ledger| == 2 && Done(s.ledger[0], env, d) && Done(s.ledger[1], env, d)
            && |s.sent| == 2 && forall k :: 0 <= k < 2 ==> s.sent[k].to == d && s.sent[k].env.cause == env.id
  {
    hide Run, RouteF, ResumeF, LongRun, RestartLimits.Idle, RestartLimits.Pads, Done, Willing, Acts;
    var first := Padding(pad, w) + [Arrive(env, w)];
    var e1, x1 := ActedFirst(c, pad, env, d, w);
    LongOne(c, first, Crash);
    RestartedQuiet(c, Run(c, first), pad, env.idem);
    ActsOutside(c, env, d);
    OnlyOnce(Run(c, first).log, pad, env);
    HonestClient(Run(c, first + [Crash]), env);
    LongOne(c, first + [Crash], Arrive(env, w));
    var e2, x2 := ActedOnArrival(c, w, Run(c, first + [Crash]), env, d);
  }

  lemma ActsOutside(c: Config, env: Envelope, d: Dest)
    requires Acts(c, env, d)
    ensures ClientSent(env) && Unforged(env)
  {
  }

  lemma HonestClient(s: State, env: Envelope)
    requires ClientSent(env) && forall i :: 0 <= i < |s.log| && s.log[i].id == env.id ==> s.log[i] == env
    ensures Honest(s, env)
  {
  }

  lemma ActedFirst(c: Config, pad: Envelope, env: Envelope, d: Dest, w: World) returns (e: Entry, x: Send)
    requires RestartLimits.Idle(c, pad) && Acts(c, env, d) && pad.id != env.id && Willing(w)
    ensures var s := Run(c, Padding(pad, w) + [Arrive(env, w)]);
            && LongRun(c, Padding(pad, w) + [Arrive(env, w)])
            && s.ledger == [e] && s.sent == [x] && PaddedLog(s.log, pad) && |s.log| == RESUME_LIMIT + 2
            && s.log[RESUME_LIMIT] == env && s.log[RESUME_LIMIT + 1].id.Minted?
    ensures Done(e, env, d) && x.to == d && x.env.cause == env.id
  {
    hide Run, RouteF, LongRun, RestartLimits.Idle, RestartLimits.Pads, Done, Willing, Acts;
    var first := Padding(pad, w);
    PaddedLong(c, pad, w, RESUME_LIMIT);
    ActsOutside(c, env, d);
    var s := Run(c, first);
    HonestClient(s, env);
    LongOne(c, first, Arrive(env, w));
    e, x := ActedOnArrival(c, w, s, env, d);
    var t := RouteF(c, w, s, env);
    assert t.log[RESUME_LIMIT] == (s.log + [env])[RESUME_LIMIT];
    assert forall i :: 0 <= i < RESUME_LIMIT ==> t.log[i] == (s.log + [env])[i];
  }

  lemma OnlyOnce(log: seq<Envelope>, pad: Envelope, env: Envelope)
    requires |log| == RESUME_LIMIT + 2 && PaddedLog(log, pad) && log[RESUME_LIMIT] == env && log[RESUME_LIMIT + 1].id.Minted?
    requires pad.id != env.id && env.id.External?
    ensures forall i :: 0 <= i < |log| && log[i].id == env.id ==> log[i] == env
  {
  }

  // ---- A cancel that misses ----

  ghost predicate CancelsMessage(r: Envelope, m: Envelope, x: Envelope) {
    ClientSent(x) && x.kind == Cancel && x.cause == r.id && x.id != r.id && x.id != m.id
  }

  /** Past the first thousand events the client's message goes to a skill. */
  lemma OpenedLate(c: Config, pad: Envelope, w: World, r: Envelope, d: Dest) returns (out: Envelope)
    requires RestartLimits.Idle(c, pad) && Opening(c, r, d) && Carries(w) && pad.id != r.id
    ensures var s := Run(c, Padding(pad, w) + [Arrive(r, w)]);
            && LongRun(c, Padding(pad, w) + [Arrive(r, w)])
            && PaddedLog(s.log, pad) && |s.log| == RESUME_LIMIT + 2 && s.log[RESUME_LIMIT] == r && s.log[RESUME_LIMIT + 1] == out
            && |s.sent| == 1
    ensures out.id == Minted(0) && out.cause == r.id && out.kind == Data && IsDelivery(out)
  {
    hide Run, LongRun, RestartLimits.Idle, RestartLimits.Pads, Carries;
    var first := Padding(pad, w);
    PaddedLong(c, pad, w, RESUME_LIMIT);
    var s := Run(c, first);
    HonestClient(s, r);
    LongOne(c, first, Arrive(r, w));
    out := Outgoing(w, Taken(s, r), r, d);
    DeliveredOnArrival(c, w, s, r, d);
    var t := RouteF(c, w, s, r);
    assert forall i :: 0 <= i < RESUME_LIMIT ==> t.log[i] == (s.log + [r])[i];
  }

  lemma DeliveredOnArrival(c: Config, w: World, s: State, m: Envelope, e: Dest)
    requires m.kind == Data && m.attest == "" && m.deadline == 0 && m.idem !in s.dedup.m
    requires DestsAt(c.routes, Source(m)) == [e] && !e.speculative && e.gate != HumanApproval && PlainEdge(c, e) && Carries(w)
    requires !CancelledF(s.cancelled, RootOf(s, m))
    ensures var t, out := RouteF(c, w, s, m), Outgoing(w, Taken(s, m), m, e);
            t.log == s.log + [m] + [out] && t.sent == s.sent + [Send(out, e, NoId, |s.log| + 1)]
  {
    PlainRoute(c, w, s, m);
    hide RouteF, ToDestsF, ForwardF, PlainEdge;
    OneDest(c, w, Taken(s, m), m, e, RootOf(s, m));
    PlainForward(c, w, Taken(s, m), m, e, NoId);
  }

  /** Where a log that starts with the padding first names an id. */
  lemma FirstPast(log: seq<Envelope>, pad: Envelope, i: nat)
    requires PaddedLog(log, pad) && RESUME_LIMIT <= i < |log| && log[i].id != pad.id
    requires forall j :: RESUME_LIMIT <= j < i ==> log[j].id != log[i].id
    ensures FirstAt(log, log[i].id) == i
  {
    FirstAtUnique(log, log[i].id, i);
  }

  /** Past the padding: the client's message and the work it led to. */
  ghost predicate LateWork(log: seq<Envelope>, pad: Envelope, r: Envelope) {
    && PaddedLog(log, pad) && |log| >= RESUME_LIMIT + 2
    && log[RESUME_LIMIT] == r && ClientSent(r) && pad.id != r.id && pad.id.External?
    && log[RESUME_LIMIT + 1].id == Minted(0) && log[RESUME_LIMIT + 1].cause == r.id
  }

  /** ... and what the skill says of it, after one more message of someone's. */
  ghost predicate LateWord(log: seq<Envelope>, pad: Envelope, r: Envelope, m: Envelope) {
    && LateWork(log, pad, r) && |log| >= RESUME_LIMIT + 4 && log[RESUME_LIMIT + 3] == m
    && m.node != CLIENT && m.cause == Minted(0) && m.id.External? && m.id != r.id && m.id != pad.id
    && log[RESUME_LIMIT + 2].id.External? && log[RESUME_LIMIT + 2].id != m.id
  }

  lemma LateRoot(log: seq<Envelope>, pad: Envelope, r: Envelope)
    requires LateWork(log, pad, r)
    ensures ChainRoot(log, log[RESUME_LIMIT + 1]) == r.id
  {
    FirstPast(log, pad, RESUME_LIMIT);
    WorkChain(log, r);
  }

  lemma LateReply(log: seq<Envelope>, pad: Envelope, r: Envelope, m: Envelope, reply: Envelope)
    requires LateWord(log, pad, r, m) && reply.cause == m.id && reply.id.Minted?
    ensures ChainRoot(log, reply) == r.id
  {
    var part := log[..RESUME_LIMIT + 3];
    FirstPast(log, pad, RESUME_LIMIT + 3);
    assert LateWork(part, pad, r);
    FirstPast(part, pad, RESUME_LIMIT + 1);
    FirstPast(part, pad, RESUME_LIMIT);
    WorkChain(part, r);
  }

  lemma WorkChain(log: seq<Envelope>, r: Envelope)
    requires |log| >= RESUME_LIMIT + 2 && log[RESUME_LIMIT] == r && ClientSent(r)
    requires FirstAt(log, r.id) == RESUME_LIMIT && log[RESUME_LIMIT + 1].id.Minted? && log[RESUME_LIMIT + 1].cause == r.id
    ensures ChainRoot(log, log[RESUME_LIMIT + 1]) == r.id
    ensures ChainRoot(log[..RESUME_LIMIT + 1], log[RESUME_LIMIT + 1]) == r.id
  {
    assert ChainRoot(log[..RESUME_LIMIT], r) == r.id;
    var part := log[..RESUME_LIMIT + 1];
    FirstAtUnique(part, r.id, RESUME_LIMIT);
    assert part[..RESUME_LIMIT] == log[..RESUME_LIMIT];
  }

  /** A client's message is handed to a skill past the first thousand events; the
      session crashes; the client cancels its message; the skill answers, and the
      answer of the cancelled chain is delivered. */
  lemma CancelMissesTheChain(c: Config, pad: Envelope, w: World, r: Envelope, d: Dest, x: Envelope, m: Envelope, e: Dest)
    requires RestartLimits.Idle(c, pad) && Opening(c, r, d) && Answering(c, r, m, e) && CancelsMessage(r, m, x) && Carries(w)
    requires pad.id !in {r.id, m.id, x.id} && !e.speculative && e.gate != HumanApproval && DistinctEdges(c)
    ensures var before := Padding(pad, w) + [Arrive(r, w)] + [Crash] + [Arrive(x, w)];
            var s, t := Run(c, before), Run(c, before + [Arrive(m, w)]);
            && LongRun(c, before + [Arrive(m, w)])
            && CancelledF(s.cancelled, r.id)
            && |t.sent| == |s.sent| + 1 && t.sent[|s.sent|].to == e && ChainRoot(t.log, t.sent[|s.sent|].env) == r.id
  {
    hide Run, LongRun, RouteF, ResumeF, RestartLimits.Idle, RestartLimits.Pads, Carries, DistinctEdges, Opening;
    var before := Padding(pad, w) + [Arrive(r, w)] + [Crash] + [Arrive(x, w)];
    MissedCancel(c, pad, w, r, d, x, m);
    var s := Run(c, before);
    LongOne(c, before, Arrive(m, w));
    DeliveredOnArrival(c, w, s, m, e);
    var out := Outgoing(w, Taken(s, m), m, e);
    var t := RouteF(c, w, s, m);
    assert PaddedLog(t.log, pad) by { assert forall i :: 0 <= i < RESUME_LIMIT ==> t.log[i] == s.log[i]; }
    assert LateWord(t.log, pad, r, m);
    LateReply(t.log, pad, r, m, out);
  }

  /** The session once the cancel has come, and how the skill's word will find it. */
  lemma MissedCancel(c: Config, pad: Envelope, w: World, r: Envelope, d: Dest, x: Envelope, m: Envelope)
    requires RestartLimits.Idle(c, pad) && Opening(c, r, d) && CancelsMessage(r, m, x) && Carries(w) && DistinctEdges(c)
    requires pad.id !in {r.id, m.id, x.id} && m.id.External? && m.id != r.id && m.node != CLIENT && m.cause == Minted(0)
    ensures var before := Padding(pad, w) + [Arrive(r, w)] + [Crash] + [Arrive(x, w)];
            var s := Run(c, before);
            && LongRun(c, before) && Honest(s, m) && CancelledF(s.cancelled, r.id)
            && LateWork(s.log, pad, r) && |s.log| == RESUME_LIMIT + 3 && s.log[RESUME_LIMIT + 2] == x
            && m.idem !in s.dedup.m && !CancelledF(s.cancelled, RootOf(s, m))
  {
    hide Run, LongRun, ResumeF, RestartLimits.Idle, RestartLimits.Pads, Carries, DistinctEdges, Truthful;
    var first := Padding(pad, w) + [Arrive(r, w)];
    var out := OpenedLate(c, pad, w, r, d);
    hide Opening;
    var s1 := Run(c, first);
    TruthfulInEveryRun(c, first);
    LongOne(c, first, Crash);
    RestartedQuiet(c, s1, pad, m.idem);
    var s2 := Run(c, first + [Crash]);
    OpeningSent(c, r, d);
    IdleSent(c, pad);
    LateRoot(s1.log, pad, r);
    CancelIsHonest(s2, pad, r, m, x);
    LongOne(c, first + [Crash], Arrive(x, w));
    LateCancelReachesIff(c, w, s1, x, m, RESUME_LIMIT + 1, r.id);
    RouteDedup(c, w, s2, x);
    LateLogged(c, w, s2, pad, r, m, x);
  }

  lemma OpeningSent(c: Config, r: Envelope, d: Dest)
    requires Opening(c, r, d)
    ensures ClientSent(r)
  {
  }

  lemma IdleSent(c: Config, pad: Envelope)
    requires RestartLimits.Idle(c, pad)
    ensures ClientSent(pad)
  {
  }

  lemma CancelIsHonest(s: State, pad: Envelope, r: Envelope, m: Envelope, x: Envelope)
    requires LateWork(s.log, pad, r) && |s.log| == RESUME_LIMIT + 2 && CancelsMessage(r, m, x) && x.id != pad.id
    ensures Honest(s, x) && Unforged(x)
  {
  }

  lemma LateLogged(c: Config, w: World, s: State, pad: Envelope, r: Envelope, m: Envelope, x: Envelope)
    requires LateWork(s.log, pad, r) && |s.log| == RESUME_LIMIT + 2 && IsDelivery(s.log[RESUME_LIMIT + 1]) && x.kind == Cancel
    requires m.id.External? && m.id !in {r.id, x.id, pad.id} && m.cause == Minted(0) && m.node != CLIENT
    ensures var t := RouteF(c, w, s, x);
            && LateWork(t.log, pad, r) && |t.log| == RESUME_LIMIT + 3 && t.log[RESUME_LIMIT + 2] == x && Honest(t, m)
  {
    var t := RouteF(c, w, s, x);
    HandleCancelFrame(s.(log := s.log + [x]), x);
    assert t.log == s.log + [x];
    hide RouteF;
    assert t.log[RESUME_LIMIT + 1].id == m.cause;
    assert Follows(t.log, |t.log|, m);
  }
}
