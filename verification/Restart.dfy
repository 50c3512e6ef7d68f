// Whole runs with restarts: a session rebuilt from its log against the one that crashed.

module Restarts {
  import opened Options
  import opened Envelopes
  import opened BoundedFifo
  import opened Indexes
  import opened Policies
  import opened Wiring
  import opened Speculation
  import opened Kernel
  import opened Frames
  import opened Books
  import opened Chains
  import opened Gates
  import opened Resumes

  /** Clients and skills are honest, nothing forges a gate question, and the log
      can be read whole at every crash. */
  ghost predicate HonestRun(c: Config, inputs: seq<Input>) {
    inputs != [] ==>
      var before, last := inputs[..|inputs| - 1], inputs[|inputs| - 1];
      && HonestRun(c, before)
      && match last
         case Arrive(env, w) => Honest(Run(c, before), env) && Unforged(env)
         case Crash => |Run(c, before).log| <= RESUME_LIMIT
  }

  /** What every honest run keeps. */
  ghost predicate Upheld(c: Config, s: State) {
    && Traced(s) && HoldsArrived(s.log, s.pending)
    && Restorable(c, s) && Linear(s) && WindowLogged(s.log, s.dedup)
  }

  lemma RouteKeeps(c: Config, w: World, s: State, env: Envelope)
    requires DistinctEdges(c) && Upheld(c, s) && Honest(s, env) && Unforged(env)
    ensures Upheld(c, RouteF(c, w, s, env))
  {
    hide RouteF, Traced, Restorable, Linear, WindowLogged, HoldsArrived;
    RouteTraced(c, w, s, env);
    RouteMirrors(c, w, s, env);
    RouteLinear(c, w, s, env);
    RouteDedup(c, w, s, env);
    RouteWindow(c, w, s, env);
  }

  lemma ResumeKeeps(c: Config, s: State)
    requires Upheld(c, s) && |s.log| <= RESUME_LIMIT
    ensures Upheld(c, ResumeF(c, s)) && ResumeF(c, s).pending == s.pending
  {
    hide Traced, Linear, HoldsArrived, MirrorsIn, Processed;
    ResumeTraced(c, s);
    hide Rebuilt;
    MirroredIsPending(c, Replay(c, s.log), s.pending);
    ReplayedWindow(c, s.log);
    hide Replay;
    SameGates(s, ResumeF(c, s));
  }

  lemma {:induction false} UpheldInEveryRun(c: Config, inputs: seq<Input>)
    requires HonestRun(c, inputs) && DistinctEdges(c)
    ensures Upheld(c, Run(c, inputs))
  {
    if inputs == [] {
      StartIsUpheld(c);
    } else {
      var before, last := inputs[..|inputs| - 1], inputs[|inputs| - 1];
      UpheldInEveryRun(c, before);
      hide Upheld, RouteF, ResumeF, Honest;
      match last {
        case Arrive(env, w) => RouteKeeps(c, w, Run(c, before), env);
        case Crash => ResumeKeeps(c, Run(c, before));
      }
    }
  }

  lemma StartIsUpheld(c: Config)
    ensures Upheld(c, Start())
  {
    assert Valid(Start().causal) && Valid(Start().dedup);
    assert Traced(Start());
  }

  /** Gate linearity across crashes: at every boundary of every honest run, no gate
      was opened twice or answered twice, and the gates opened are those pending
      plus those released plus those refused. */
  lemma GatesAreLinear(c: Config, inputs: seq<Input>)
    requires HonestRun(c, inputs) && DistinctEdges(c)
    ensures var s := Run(c, inputs);
            Once(s.gates) && OpenedCount(s.gates) == |s.pending| + ReleasedCount(s.gates) + RefusedCount(s.gates)
  {
    UpheldInEveryRun(c, inputs);
  }

  // ---- Cancelled chains across a crash ----

  ghost predicate NoSpeculation(c: Config) {
    forall from, d :: d in DestsAt(c.routes, from) ==> !d.speculative
  }

  lemma {:induction false} ToDestsCancelled(c: Config, w: World, s: State, env: Envelope, dests: seq<Dest>, root: Id)
    requires forall d :: d in dests ==> !d.speculative
    ensures ToDestsF(c, w, s, env, dests, root).cancelled == s.cancelled
  {
    hide ForwardF;
    if dests != [] {
      var before, d := dests[..|dests| - 1], dests[|dests| - 1];
      assert d in dests;
      ToDestsCancelled(c, w, s, env, before, root);
      ForwardFrame(c, w, ToDestsF(c, w, s, env, before, root), env, d, NoId);
    }
  }

  lemma RouteCancelled(c: Config, w: World, s: State, env: Envelope)
    requires NoSpeculation(c)
    ensures var t := RouteF(c, w, s, env);
            t.cancelled == if env.kind != Cancel then s.cancelled
                           else CancelF(s.cancelled, CancelTarget(s.(log := s.log + [env]), env.cause))
  {
    hide ToDestsF, ResolveGateF, AttestF, SeenF;
    var logged := s.(log := s.log + [env]);
    if env.kind != Cancel && !Duplicate(s, env) {
      var seen := if env.kind == Data then logged.(dedup := SeenF(s.dedup, env.idem)) else logged;
      ResolveDedup(c, w, seen, env);
      var noted := seen.(attests := if env.attest == "" then seen.attests
                                    else AttestF(seen.attests, MAX_ATTEST_PER_ROOT, RootOf(seen, env), w.attest(env.attest)));
      ToDestsCancelled(c, w, noted, env, DestsAt(c.routes, Source(env)), RootOf(seen, env));
    }
  }

  /** Cancels name the client's own messages or deliveries to skills, and the causal
      index never filled up. */
  ghost predicate AimedRun(c: Config, inputs: seq<Input>) {
    inputs != [] ==>
      var before, last := inputs[..|inputs| - 1], inputs[|inputs| - 1];
      && AimedRun(c, before)
      && (last.Arrive? && last.env.kind == Cancel ==>
            Aimed(Run(c, before), last.env) && |Run(c, before).causal.order| < Run(c, before).causal.max)
  }

  /** Every chain cancelled in memory is cancelled again by replaying the log. */
  ghost predicate CancelsSurvive(c: Config, s: State) {
    Valid(s.cancelled) && (|s.log| <= RESUME_LIMIT ==> s.cancelled.m.Keys <= Replay(c, s.log).cancelled.m.Keys)
  }

  lemma RouteCancelsSurvive(c: Config, w: World, s: State, env: Envelope)
    requires NoSpeculation(c) && Traced(s) && HoldsArrived(s.log, s.pending) && Honest(s, env)
    requires CancelsSurvive(c, s) && Aimed(s, env) && (env.kind == Cancel ==> |s.causal.order| < s.causal.max)
    ensures CancelsSurvive(c, RouteF(c, w, s, env))
  {
    var logged, t := s.(log := s.log + [env]), RouteF(c, w, s, env);
    RouteCancelled(c, w, s, env);
    RouteDedup(c, w, s, env);
    if env.kind == Cancel {
      EnvLogged(s, env, logged);
      CancelSurvives(c, s, env, logged);
      HandleCancelFrame(logged, env);
    } else {
      hide RouteF, Replay, Traced, Honest;
      if |t.log| <= RESUME_LIMIT { ReplayCancelsGrow(c, s.log, t.log); }
    }
  }

  lemma CancelSurvives(c: Config, s: State, env: Envelope, logged: State)
    requires Traced(s) && Traced(logged) && logged == s.(log := s.log + [env]) && env.kind == Cancel
    requires Aimed(s, env) && |s.causal.order| < s.causal.max && CancelsSurvive(c, s)
    ensures var f := CancelF(s.cancelled, CancelTarget(logged, env.cause));
            Valid(f) && (|logged.log| <= RESUME_LIMIT ==> f.m.Keys <= Replay(c, logged.log).cancelled.m.Keys)
  {
    var R := AimedNames(s, env, logged);
    CancelAims(logged, env, R);
    assert R != NoId;
    hide CancelTarget, Put, Replay, Names;
    PutValid(s.cancelled, R, ());
    if |logged.log| <= RESUME_LIMIT {
      ReplayCancelsGrow(c, s.log, logged.log);
      ReplayedCancel(c, logged.log, logged.cancelIds, R);
    }
  }

  lemma {:induction false} CancelsSurviveEveryRun(c: Config, inputs: seq<Input>)
    requires HonestRun(c, inputs) && AimedRun(c, inputs) && DistinctEdges(c) && NoSpeculation(c)
    ensures CancelsSurvive(c, Run(c, inputs))
  {
    if inputs != [] {
      var before, last := inputs[..|inputs| - 1], inputs[|inputs| - 1];
      CancelsSurviveEveryRun(c, before);
      UpheldInEveryRun(c, before);
      hide RouteF, Honest, Traced, Aimed, Replay;
      match last {
        case Arrive(env, w) =>
          NotCancelAimed(Run(c, before), env);
          RouteCancelsSurvive(c, w, Run(c, before), env);
        case Crash =>
          ReplayCancelsGrow(c, Run(c, before).log, Run(c, before).log);
      }
    }
  }

  lemma NotCancelAimed(s: State, env: Envelope)
    ensures env.kind != Cancel ==> Aimed(s, env)
  {
  }

  /** A restart looks up the same root for whatever arrives next. */
  lemma SameRoots(c: Config, s: State, env: Envelope)
    requires Traced(s) && Honest(s, env) && |s.causal.order| < s.causal.max && |s.log| <= RESUME_LIMIT
    ensures RootOf(ResumeF(c, s), env) == RootOf(s, env)
  {
    ResumeTraced(c, s);
    hide Replay;
    if env.node != CLIENT && env.cause != NoId && env.cause !in s.cancelIds {
      var j :| 0 <= j < |s.log| && s.log[j].id == env.cause && IsDelivery(s.log[j]);
      assert Tracked(s.log[j]);
    }
  }

  /** Crash and resume, over every honest run whose log can still be read whole:
      the session rebuilt from the log holds exactly the gates that were pending,
      refuses every key already processed, suppresses every chain already cancelled,
      gives every delivery made to a skill its true root, and whatever arrives next
      the root the crashed session would have given it. */
  lemma RestartForgetsNothing(c: Config, inputs: seq<Input>)
    requires HonestRun(c, inputs) && AimedRun(c, inputs) && DistinctEdges(c) && NoSpeculation(c)
    requires |Run(c, inputs).log| <= RESUME_LIMIT
    ensures var s := Run(c, inputs);
            var t := ResumeF(c, s);
            && t.pending == s.pending
            && s.dedup.m.Keys <= t.dedup.m.Keys
            && s.cancelled.m.Keys <= t.cancelled.m.Keys
            && (forall i :: 0 <= i < |s.log| && IsDelivery(s.log[i]) ==> RootF(t.causal, s.log[i].id) == ChainRoot(s.log, s.log[i]))
            && (|s.causal.order| < s.causal.max ==> forall env :: Honest(s, env) ==> RootOf(t, env) == RootOf(s, env))
  {
    UpheldInEveryRun(c, inputs);
    CancelsSurviveEveryRun(c, inputs);
    var s := Run(c, inputs);
    hide Run, Replay, Honest, RootF, Processed;
    ResumeKeeps(c, s);
    ResumeTraced(c, s);
    ReplayedWindow(c, s.log);
    forall env | |s.causal.order| < s.causal.max && Honest(s, env) ensures RootOf(ResumeF(c, s), env) == RootOf(s, env) {
      SameRoots(c, s, env);
    }
    forall i | 0 <= i < |s.log| && IsDelivery(s.log[i])
      ensures RootF(ResumeF(c, s).causal, s.log[i].id) == ChainRoot(s.log, s.log[i])
    {
      assert Tracked(s.log[i]);
    }
  }
}
