// Suppressed chains over logs of any length: which of them a restart revives.

module LongCancels {
  import opened Options
  import opened Envelopes
  import opened BoundedFifo
  import opened Indexes
  import opened Policies
  import opened Wiring
  import opened Speculation
  import opened Kernel
  import opened Books
  import opened Frames
  import opened Chains
  import opened Gates
  import opened Resumes
  import opened Restarts
  import opened LongLogs
  import opened LongChains

  /** A cancel within reach of a restart names R when it is read back. */
  ghost predicate CancelInReach(log: seq<Envelope>, R: Id) {
    exists i: nat :: i < RESUME_LIMIT && CancelsBack(log, i, R)
  }

  lemma CancelsBackLater(log: seq<Envelope>, more: seq<Envelope>, i: nat, R: Id)
    requires log <= more && i < |log|
    ensures CancelsBack(more, i, R) <==> CancelsBack(log, i, R)
  {
    assert more[..i + 1] == log[..i + 1];
  }

  lemma CancelledBackLater(log: seq<Envelope>, more: seq<Envelope>, R: Id)
    requires log <= more && CancelledBack(log, R)
    ensures CancelledBack(more, R)
  {
    var i: nat :| CancelsBack(log, i, R);
    CancelsBackLater(log, more, i, R);
  }

  /** Whatever the length of its log, a restart suppresses exactly the chains that a
      cancel among the first thousand events names when read back. */
  lemma SuppressedAfterRestart(c: Config, s: State, R: Id)
    requires HonestLog(s.log, s.cancelIds) && R != NoId
    ensures CancelledF(ResumeF(c, s).cancelled, R) <==> CancelInReach(s.log, R)
  {
    var part := Readable(s.log);
    HonestPrefix(s.log, s.cancelIds, |part|);
    assert part == s.log[..|part|];
    RebuiltCancelled(c, part, s.cancelIds, R);
    hide HonestLog, Replay, CancelsBack;
    if CancelledBack(part, R) {
      var i: nat :| CancelsBack(part, i, R);
      assert i < |part| by { InLog(part, i, R); }
      CancelsBackLater(part, s.log, i, R);
    }
    if CancelInReach(s.log, R) {
      var i: nat :| i < RESUME_LIMIT && CancelsBack(s.log, i, R);
      InLog(s.log, i, R);
      CancelsBackLater(part, s.log, i, R);
    }
  }

  lemma InLog(log: seq<Envelope>, i: nat, R: Id)
    requires CancelsBack(log, i, R)
    ensures i < |log|
  {
  }

  /** Every chain suppressed in memory is named by a cancel on record. */
  ghost predicate CancelsLogged(s: State) {
    Valid(s.cancelled) && forall R :: R in s.cancelled.m ==> CancelledBack(s.log, R)
  }

  lemma RouteCancelsLogged(c: Config, w: World, s: State, env: Envelope)
    requires NoSpeculation(c) && Traced(s) && HoldsArrived(s.log, s.pending) && Honest(s, env)
    requires CancelsLogged(s) && Aimed(s, env) && (env.kind == Cancel ==> |s.causal.order| < s.causal.max)
    ensures CancelsLogged(RouteF(c, w, s, env))
  {
    hide CancelledBack;
    var logged, t := s.(log := s.log + [env]), RouteF(c, w, s, env);
    RouteCancelled(c, w, s, env);
    RouteDedup(c, w, s, env);
    forall R | R in s.cancelled.m ensures CancelledBack(logged.log, R) && CancelledBack(t.log, R) {
      CancelledBackLater(s.log, logged.log, R);
      CancelledBackLater(s.log, t.log, R);
    }
    if env.kind == Cancel {
      EnvLogged(s, env, logged);
      CancelLogged(s, env, logged);
      HandleCancelFrame(logged, env);
    }
  }

  lemma CancelLogged(s: State, env: Envelope, logged: State)
    requires Traced(s) && Traced(logged) && logged == s.(log := s.log + [env]) && env.kind == Cancel
    requires Aimed(s, env) && |s.causal.order| < s.causal.max && Valid(s.cancelled)
    requires forall R :: R in s.cancelled.m ==> CancelledBack(logged.log, R)
    ensures var f := CancelF(s.cancelled, CancelTarget(logged, env.cause));
            Valid(f) && forall R :: R in f.m ==> CancelledBack(logged.log, R)
  {
    var R := AimedNames(s, env, logged);
    CancelAims(logged, env, R);
    NamesBack(logged.log, logged.cancelIds, |s.log|, R);
    assert CancelledBack(logged.log, R);
    hide CancelTarget, Put, Names, CancelledBack, Aimed, Traced;
    PutValid(s.cancelled, R, ());
  }

  lemma ResumeCancelsLogged(c: Config, s: State)
    requires Traced(s) && |s.log| <= RESUME_LIMIT
    ensures CancelsLogged(ResumeF(c, s))
  {
    hide Replay, CancelledBack;
    ReplayCancelsGrow(c, s.log, s.log);
    forall R | R in ResumeF(c, s).cancelled.m ensures CancelledBack(s.log, R) {
      RebuiltCancelled(c, s.log, s.cancelIds, R);
    }
  }

  lemma {:induction false} CancelsLoggedInEveryRun(c: Config, inputs: seq<Input>)
    requires HonestRun(c, inputs) && AimedRun(c, inputs) && DistinctEdges(c) && NoSpeculation(c)
    ensures CancelsLogged(Run(c, inputs))
  {
    if inputs != [] {
      var before, last := inputs[..|inputs| - 1], inputs[|inputs| - 1];
      CancelsLoggedInEveryRun(c, before);
      UpheldInEveryRun(c, before);
      hide RouteF, ResumeF, Honest, Traced, Aimed, CancelsLogged;
      match last {
        case Arrive(env, w) =>
          NotCancelAimed(Run(c, before), env);
          RouteCancelsLogged(c, w, Run(c, before), env);
        case Crash => ResumeCancelsLogged(c, Run(c, before));
      }
    }
  }

  /** Which suppressed chains a restart revives, in every honest run, whatever logs it
      crashed on: R, suppressed now, travels again exactly when every cancel on record
      that names it lies past the first thousand events. */
  lemma RevivedIff(c: Config, inputs: seq<Input>, R: Id)
    requires LongRun(c, inputs) && DistinctEdges(c) && CancelledF(Run(c, inputs).cancelled, R)
    ensures var s := Run(c, inputs);
            !CancelledF(ResumeF(c, s).cancelled, R) <==> forall i: nat :: CancelsBack(s.log, i, R) ==> i >= RESUME_LIMIT
  {
    TruthfulInEveryRun(c, inputs);
    hide Run, ResumeF, HonestLog, CancelsBack, Living;
    SuppressedAfterRestart(c, Run(c, inputs), R);
  }

  /** There is one that names it, while cancels are well aimed, no edge speculates and
      each crash so far read the whole log. */
  lemma SuppressedIsNamed(c: Config, inputs: seq<Input>, R: Id)
    requires HonestRun(c, inputs) && AimedRun(c, inputs) && DistinctEdges(c) && NoSpeculation(c)
    requires CancelledF(Run(c, inputs).cancelled, R)
    ensures CancelledBack(Run(c, inputs).log, R)
  {
    CancelsLoggedInEveryRun(c, inputs);
  }
}
