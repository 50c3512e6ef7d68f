// What a cancel guarantees: nothing more of the chain travels, and every skill
// working on it is asked once to stop.

module Cancels {
  import opened Options
  import opened Envelopes
  import opened BoundedFifo
  import opened Indexes
  import opened Policies
  import opened Wiring
  import opened Speculation
  import opened Kernel
  import opened Frames
  import opened Books
  import opened Chains
  import opened Gates
  import opened Resumes
  import opened Restarts

  // ---- The cancelled set only grows while it has room. ----

  ghost predicate Grows(f: Fifo<Id, ()>, g: Fifo<Id, ()>) {
    && Valid(f) && Valid(g) && f.max == g.max && |f.order| <= |g.order|
    && (|g.order| < g.max ==> f.m.Keys <= g.m.Keys)
  }

  lemma CancelGrows(f: Fifo<Id, ()>, root: Id)
    requires Valid(f)
    ensures Grows(f, CancelF(f, root))
  {
    PutValid(f, root, ());
  }

  lemma {:induction false} AbandonGrows(s: State, ids: seq<Id>, d: Dest)
    requires Valid(s.cancelled)
    ensures Grows(s.cancelled, AbandonAllF(s, ids, d).cancelled)
  {
    hide CancelF;
    if ids != [] {
      AbandonGrows(s, ids[..|ids| - 1], d);
      CancelGrows(AbandonAllF(s, ids[..|ids| - 1], d).cancelled, ids[|ids| - 1]);
    }
  }

  lemma SpeculativeGrows(c: Config, w: World, s: State, env: Envelope, d: Dest, root: Id)
    requires Valid(s.cancelled)
    ensures Grows(s.cancelled, ForwardSpeculativelyF(c, w, s, env, d, root).cancelled)
  {
    hide ForwardF, AbandonAllF, FoldF, ResolveF, SpeculateF, StaleF, RunningF, GuessStands, IsFinal, MarkFinal;
    var key := SpecKey(root, d.from);
    var folded := FoldF(s.spec, key, env.schema, env.payload);
    var running := RunningF(folded, key);
    var resolved := s.(spec := ResolveF(folded, key, running));
    var stale := StaleF(folded, key, running);
    ForwardFrame(c, w, s, env, d, NoId);
    ForwardFrame(c, w, s.(spec := folded), env.(payload := MarkFinal(running)), d, NoId);
    AbandonGrows(resolved, stale, d);
    ForwardFrame(c, w, AbandonAllF(resolved, stale, d), env.(payload := running), d, NoId);
  }

  lemma {:induction false} ToDestsGrows(c: Config, w: World, s: State, env: Envelope, dests: seq<Dest>, root: Id)
    requires Valid(s.cancelled)
    ensures Grows(s.cancelled, ToDestsF(c, w, s, env, dests, root).cancelled)
  {
    hide ForwardF, ForwardSpeculativelyF;
    if dests != [] {
      var before, d := dests[..|dests| - 1], dests[|dests| - 1];
      ToDestsGrows(c, w, s, env, before, root);
      var s1 := ToDestsF(c, w, s, env, before, root);
      ForwardFrame(c, w, s1, env, d, NoId);
      SpeculativeGrows(c, w, s1, env, d, root);
    }
  }

  lemma RouteGrows(c: Config, w: World, s: State, env: Envelope)
    requires Valid(s.cancelled)
    ensures Grows(s.cancelled, RouteF(c, w, s, env).cancelled)
  {
    hide ToDestsF, ResolveGateF, AttestF, SeenF, CancelF, CancelTarget, Grows, Duplicate;
    var logged := s.(log := s.log + [env]);
    GrowsSelf(s.cancelled);
    if env.kind == Cancel {
      CancelGrows(s.cancelled, CancelTarget(logged, env.cause));
    } else if !Duplicate(s, env) {
      var seen := if env.kind == Data then logged.(dedup := SeenF(s.dedup, env.idem)) else logged;
      ResolveDedup(c, w, seen, env);
      var noted := seen.(attests := if env.attest == "" then seen.attests
                                    else AttestF(seen.attests, MAX_ATTEST_PER_ROOT, RootOf(seen, env), w.attest(env.attest)));
      ToDestsGrows(c, w, noted, env, DestsAt(c.routes, Source(env)), RootOf(seen, env));
    }
  }

  lemma GrowsSelf(f: Fifo<Id, ()>)
    requires Valid(f)
    ensures Grows(f, f)
  {
  }

  // ---- One step of a cancelled chain. ----

  ghost predicate Roomy(s: State) {
    |s.causal.order| < s.causal.max && |s.cancelled.order| < s.cancelled.max
  }

  /** Nothing sent from position `from` on, other than what a gate answer released,
      works for the chain of R or asks about it. */
  ghost predicate Silent(s: State, from: nat, R: Id) {
    forall k :: from <= k < |s.sent| && s.sent[k].via == NoId && s.sent[k].env.kind != Cancel ==>
      ChainRoot(s.log, s.sent[k].env) != R
  }

  /** ... nor is any delivery to a skill written for it. */
  ghost predicate Unworked(log: seq<Envelope>, from: nat, R: Id) {
    forall i :: from <= i < |log| && IsDelivery(log[i]) ==> ChainRoot(log, log[i]) != R
  }

  lemma BehalfChain(t: State, src: Envelope, e: Envelope)
    requires Traced(t) && Arrived(t.log, src) && e.id.Minted? && e.cause == src.id
    ensures ChainRoot(t.log, e) == ChainRoot(t.log, src)
  {
    OutgoingChain(t, src, e);
  }

  lemma ArrivedChain(s: State, t: State, src: Envelope)
    requires Traced(s) && Traced(t) && s.log <= t.log && s.cancelIds == t.cancelIds && Arrived(s.log, src)
    ensures ChainRoot(t.log, src) == ChainRoot(s.log, src)
  {
    var k :| 0 <= k < |s.log| && SameHeader(s.log[k], src);
    TrackedStable(s.log, s.cancelIds, t.log, k);
    SameChain(s.log, s.log[k], src);
    SameChain(t.log, t.log[k], src);
  }

  lemma PropagateSilent(c: Config, w: World, s: State, env: Envelope, R: Id)
    requires Traced(s) && Arrived(s.log, env) && Roomy(s) && R != NoId && R in s.cancelled.m && env.kind != Cancel
    requires Traced(PropagateF(c, w, s, env))
    ensures var t := PropagateF(c, w, s, env);
            && s.log <= t.log && s.sent <= t.sent && t.cancelIds == s.cancelIds
            && Silent(t, |s.sent|, R) && Unworked(t.log, |s.log|, R)
  {
    hide ToDestsF, AttestF, Traced, Arrived;
    RootIsTrue(s, env);
    var root, t := RootOf(s, env), PropagateF(c, w, s, env);
    if !CancelledF(s.cancelled, root) {
      var noted := s.(attests := if env.attest == "" then s.attests
                                 else AttestF(s.attests, MAX_ATTEST_PER_ROOT, root, w.attest(env.attest)));
      ToDestsAdds(c, w, noted, env, DestsAt(c.routes, Source(env)), root);
      ToDestsIds(c, w, noted, env, DestsAt(c.routes, Source(env)), root);
      ArrivedStays(s.log, t.log, env);
      ArrivedChain(s, t, env);
      forall k | |s.sent| <= k < |t.sent| && t.sent[k].via == NoId && t.sent[k].env.kind != Cancel
        ensures ChainRoot(t.log, t.sent[k].env) != R
      {
        BehalfChain(t, env, t.sent[k].env);
      }
      forall i | |s.log| <= i < |t.log| && IsDelivery(t.log[i]) ensures ChainRoot(t.log, t.log[i]) != R {
        BehalfChain(t, env, t.log[i]);
      }
    }
  }

  lemma {:induction false} ToDestsIds(c: Config, w: World, s: State, env: Envelope, dests: seq<Dest>, root: Id)
    ensures var t := ToDestsF(c, w, s, env, dests, root);
            t.cancelIds == s.cancelIds && t.cancelsSent == s.cancelsSent && t.cuts == s.cuts
  {
    hide ForwardF, ForwardSpeculativelyF;
    if dests != [] {
      var before, d := dests[..|dests| - 1], dests[|dests| - 1];
      ToDestsIds(c, w, s, env, before, root);
      var s1 := ToDestsF(c, w, s, env, before, root);
      ForwardFrame(c, w, s1, env, d, NoId);
      SpeculativeFrame(c, w, s1, env, d, root);
    }
  }

  /** What a gate answer sends names its gate. */
  lemma ResolveVia(c: Config, w: World, s: State, answer: Envelope)
    ensures var t := ResolveGateF(c, w, s, answer);
            && s.log <= t.log && s.sent <= t.sent && t.cancelIds == s.cancelIds && t.cuts == s.cuts
            && t.cancelsSent == s.cancelsSent
            && (answer.cause !in s.pending ==> t.sent == s.sent)
            && forall k :: |s.sent| <= k < |t.sent| ==> t.sent[k].via == answer.cause
  {
    hide ForwardF, AuthorizeGate;
    if answer.cause in s.pending {
      var held := s.pending[answer.cause];
      var s1 := s.(pending := s.pending - {answer.cause}, log := s.log + [answer]);
      match AuthorizeGate(c, w.roster, held, answer.payload) {
        case Rejected =>
        case Denies(a) =>
        case Approves(a) =>
          var parked := if a.Some? then s1.(approved := s1.approved[held.env.id := a.value]) else s1;
          var s2 := parked.(gates := s1.gates + [Released(answer.cause, held, answer, a, w.roster)]);
          ForwardFrame(c, w, s2, held.env, held.to, answer.cause);
          ForwardAdds(c, w, s2, held.env, held.to, answer.cause);
      }
    }
  }

  /** One more arrival, whatever it is, leaves a cancelled chain silent. */
  lemma RouteSilent(c: Config, w: World, s: State, env: Envelope, R: Id)
    requires Traced(s) && HoldsArrived(s.log, s.pending) && Honest(s, env) && Linear(s)
    requires Roomy(s) && R != NoId && R in s.cancelled.m
    ensures var t := RouteF(c, w, s, env);
            && s.sent <= t.sent && Silent(t, |s.sent|, R)
            && (env.kind != ConfirmResponse ==> Unworked(t.log, |s.log|, R))
  {
    hide ResolveGateF, PropagateF, SeenF;
    RouteTraced(c, w, s, env);
    var logged := s.(log := s.log + [env]);
    EnvLogged(s, env, logged);
    if env.kind == Cancel {
      HandleCancelFrame(logged, env);
    } else if !Duplicate(s, env) {
      var seen := if env.kind == Data then logged.(dedup := SeenF(s.dedup, env.idem)) else logged;
      TracedSame(logged, seen);
      hide Traced, Honest, Arrived;
      if env.kind == ConfirmResponse {
        ResolveVia(c, w, seen, env);
        assert NoId !in s.pending by { NoGateUnnamed(s); }
      } else {
        PropagateSilent(c, w, seen, env, R);
      }
    }
  }

  lemma NoGateUnnamed(s: State)
    requires Linear(s)
    ensures NoId !in s.pending
  {
    forall r | r in s.pending ensures r != NoId {
      assert OpenedFor(s.gates, r, s.pending[r]);
      var k :| 0 <= k < |s.gates| && s.gates[k] == Opened(r, s.pending[r]);
      assert Below(s.mint, s.gates[k].req);
    }
  }

  // ---- Whole runs ----

  /** The causal index and the cancelled set always have room. */
  ghost predicate RoomyRun(c: Config, inputs: seq<Input>) {
    Roomy(Run(c, inputs)) && (inputs != [] ==> RoomyRun(c, inputs[..|inputs| - 1]))
  }

  /** R is suppressed now, and would be by a session rebuilt from this log. */
  ghost predicate Suppressed(c: Config, s: State, R: Id) {
    R in s.cancelled.m && (|s.log| <= RESUME_LIMIT ==> R in Replay(c, s.log).cancelled.m)
  }

  lemma SentChain(s: State, t: State, k: nat)
    requires Ordered(s) && s.log <= t.log && s.sent <= t.sent && k < |s.sent|
    ensures ChainRoot(t.log, t.sent[k].env) == ChainRoot(s.log, s.sent[k].env)
  {
    var x := s.sent[k];
    assert SendOk(s.log, s.mint, x) && EntryOk(s.log, s.mint, x.at);
    var j :| 0 <= j < x.at && s.log[j].id == s.log[x.at].cause;
    ChainStable(s.log, t.log, x.env);
  }

  lemma SilentStays(s: State, t: State, from: nat, R: Id)
    requires Ordered(s) && s.log <= t.log && s.sent <= t.sent && Silent(s, from, R) && Silent(t, |s.sent|, R)
    ensures Silent(t, from, R)
  {
    forall k | from <= k < |t.sent| && t.sent[k].via == NoId && t.sent[k].env.kind != Cancel
      ensures ChainRoot(t.log, t.sent[k].env) != R
    {
      if k < |s.sent| { SentChain(s, t, k); }
    }
  }

  lemma RouteSuppressed(c: Config, w: World, s: State, env: Envelope, R: Id)
    requires Valid(s.cancelled) && Suppressed(c, s, R) && Roomy(RouteF(c, w, s, env))
    ensures Suppressed(c, RouteF(c, w, s, env), R) && Valid(RouteF(c, w, s, env).cancelled)
  {
    RouteGrows(c, w, s, env);
    RouteDedup(c, w, s, env);
    hide RouteF, Replay;
    if |RouteF(c, w, s, env).log| <= RESUME_LIMIT {
      ReplayCancelsGrow(c, s.log, RouteF(c, w, s, env).log);
    }
  }

  /** The cancel itself: its chain is suppressed, and nothing is sent for it yet. */
  lemma CancelSuppresses(c: Config, w: World, s: State, env: Envelope, R: Id)
    requires Traced(s) && HoldsArrived(s.log, s.pending) && Honest(s, env) && Roomy(s) && Valid(s.cancelled)
    requires Names(s.log + [env], |s.log|, R)
    ensures var t := RouteF(c, w, s, env);
            Suppressed(c, t, R) && Valid(t.cancelled) && t.sent == s.sent && t.log == s.log + [env]
  {
    var logged := s.(log := s.log + [env]);
    EnvLogged(s, env, logged);
    CancelAims(logged, env, R);
    PutValid(s.cancelled, R, ());
    hide Replay, Put;
    HandleCancelFrame(logged, env);
    if |logged.log| <= RESUME_LIMIT {
      ReplayedCancel(c, logged.log, logged.cancelIds, R);
    }
  }

  lemma ResumeSuppressed(c: Config, s: State, R: Id)
    requires Suppressed(c, s, R) && |s.log| <= RESUME_LIMIT
    ensures Suppressed(c, ResumeF(c, s), R) && Valid(ResumeF(c, s).cancelled)
  {
    ReplayCancelsGrow(c, s.log, s.log);
  }

  /** Cancel reaches the whole chain. Once the n-th input, a cancel naming the client
      message R or any delivery made for it, has been handled, nothing is delivered
      for R's chain and no gate is opened on it for the rest of the run, whatever
      skills go on emitting, through every crash, and even if R itself only arrives
      afterwards. Only a gate already waiting when its answer comes still releases. */
  lemma {:induction false} CancelReachesTheChain(c: Config, inputs: seq<Input>, n: nat, R: Id)
    requires HonestRun(c, inputs) && RoomyRun(c, inputs) && DistinctEdges(c)
    requires n < |inputs| && inputs[n].Arrive?
    requires Names(Run(c, inputs[..n]).log + [inputs[n].env], |Run(c, inputs[..n]).log|, R)
    ensures Suppressed(c, Run(c, inputs), R) && Valid(Run(c, inputs).cancelled)
    ensures Silent(Run(c, inputs), |Run(c, inputs[..n]).sent|, R)
    decreases |inputs|
  {
    var before, last := inputs[..|inputs| - 1], inputs[|inputs| - 1];
    UpheldInEveryRun(c, before);
    var s := Run(c, before);
    if n == |inputs| - 1 {
      CancelledSetIsValid(c, before);
      CancelSuppresses(c, last.w, s, last.env, R);
    } else {
      assert before[..n] == inputs[..n];
      CancelReachesTheChain(c, before, n, R);
      hide Run, Traced, Honest, Replay, RouteF, Linear, Restorable, Names;
      match last {
        case Arrive(env, w) =>
          RouteSilent(c, w, s, env, R);
          RouteSuppressed(c, w, s, env, R);
          RouteTraced(c, w, s, env);
          SilentStays(s, RouteF(c, w, s, env), |Run(c, inputs[..n]).sent|, R);
        case Crash =>
          ResumeSuppressed(c, s, R);
      }
    }
  }

  lemma {:induction false} CancelledSetIsValid(c: Config, inputs: seq<Input>)
    requires HonestRun(c, inputs)
    ensures Valid(Run(c, inputs).cancelled)
  {
    if inputs != [] {
      var before := inputs[..|inputs| - 1];
      CancelledSetIsValid(c, before);
      match inputs[|inputs| - 1] {
        case Arrive(env, w) => RouteGrows(c, w, Run(c, before), env);
        case Crash => ReplayCancelsGrow(c, Run(c, before).log, Run(c, before).log);
      }
    }
  }
}
