// Honest runs that crash whenever and however long their logs: what the log itself
// still says about chains, whatever the rebuilt session forgot of them.

module LongChains {
  import opened Options
  import opened Envelopes
  import opened BoundedFifo
  import opened Indexes
  import opened Policies
  import opened Wiring
  import opened Speculation
  import opened Kernel
  import opened Frames
  import opened Books
  import opened Chains
  import opened Gates
  import opened Resumes
  import opened Restarts
  import opened Cancels
  import opened LongLogs

  /** Clients and skills are honest and nothing forges a gate question. */
  ghost predicate LongRun(c: Config, inputs: seq<Input>) {
    inputs != [] ==>
      var before, last := inputs[..|inputs| - 1], inputs[|inputs| - 1];
      && LongRun(c, before)
      && (last.Arrive? ==> Honest(Run(c, before), last.env) && Unforged(last.env))
  }

  /** What every such run keeps: the log is honest, though the session may not know
      all of it. */
  ghost predicate Truthful(c: Config, s: State) {
    Living(c, s) && HonestLog(s.log, s.cancelIds) && forall id :: id in s.cancelIds ==> Below(s.mint, id)
  }

  // ---- What one arrival puts on record ----

  lemma ResolveDraws(c: Config, w: World, s: State, answer: Envelope)
    requires answer.id.External? && forall r :: r in s.pending ==> s.pending[r].env.id.External?
    ensures var t := ResolveGateF(c, w, s, answer);
            t == s || (Draws(s.log + [answer], t.log, s.mint, t.mint) && t.cancelIds == s.cancelIds)
  {
    hide DenyF, ReleaseF, AuthorizeGate, Draws;
    ResolveVia(c, w, s, answer);
    if answer.cause in s.pending {
      var held := s.pending[answer.cause];
      var s1 := s.(pending := s.pending - {answer.cause}, log := s.log + [answer]);
      match AuthorizeGate(c, w.roster, held, answer.payload) {
        case Rejected => DenyDraws(c, w, s1, answer.cause, held, answer, None);
        case Denies(a) => DenyDraws(c, w, s1, answer.cause, held, answer, a);
        case Approves(a) => ReleaseDraws(c, w, s1, answer.cause, held, answer, a);
      }
    }
  }

  /** The arrival, perhaps a second time when it answers a gate, and then entries of the
      kernel's own. */
  ghost predicate RoutesOn(s: State, env: Envelope, t: State) {
    && (Draws(s.log + [env], t.log, s.mint, t.mint) || Draws(s.log + [env] + [env], t.log, s.mint, t.mint))
    && if env.kind == Cancel then t.log == s.log + [env] && DrawsCancels(s, t) else t.cancelIds == s.cancelIds
  }

  ghost predicate DrawsCancels(s: State, t: State) {
    exists k: nat :: s.mint + k == t.mint && s.cancelIds <= t.cancelIds <= s.cancelIds + Drawn(s.mint, k)
  }

  lemma CancelRoutesOn(s: State, env: Envelope)
    ensures var t := HandleCancelF(s.(log := s.log + [env]), env);
            t.log == s.log + [env] && s.mint <= t.mint && DrawsCancels(s, t)
  {
    var logged := s.(log := s.log + [env]);
    var root := CancelTarget(logged, env.cause);
    if root == NoId {
      assert s.cancelIds <= s.cancelIds + Drawn(s.mint, 0);
    } else {
      var k := |Get(s.inFlight, root, map[])|;
      assert HandleCancelF(logged, env).cancelIds == s.cancelIds + Drawn(s.mint, k);
    }
  }

  ghost predicate HoldsOutside(pending: map<Id, Held>) {
    forall r :: r in pending ==> pending[r].env.id.External?
  }

  lemma LivingHolds(c: Config, s: State)
    requires Living(c, s)
    ensures HoldsOutside(s.pending) && Ordered(s) && LogOk(s.log, s.mint) && Unique(s.log)
  {
    forall r | r in s.pending ensures s.pending[r].env.id.External? {
      assert Waits(c, s.log, s.gates, r, s.pending[r]);
    }
  }

  lemma RouteRoutesOn(c: Config, w: World, s: State, env: Envelope)
    requires Living(c, s) && env.id.External?
    ensures RoutesOn(s, env, RouteF(c, w, s, env))
  {
    hide PropagateF, ResolveGateF, HandleCancelF, Duplicate, SeenF, Living, Draws, Ordered;
    var logged := s.(log := s.log + [env]);
    LivingHolds(c, s);
    NothingDrawn(logged.log, s.mint);
    NothingDrawn(logged.log + [env], s.mint);
    if env.kind == Cancel {
      CancelRoutesOn(s, env);
      CancelDraws(logged.log, s.mint, RouteF(c, w, s, env).mint);
    } else if !Duplicate(s, env) {
      var seen := if env.kind == Data then logged.(dedup := SeenF(s.dedup, env.idem)) else logged;
      if env.kind == ConfirmResponse {
        ResolveDraws(c, w, seen, env);
      } else {
        Write(s, env, s.mint, Send(env, ClientDest(""), NoId, 0), logged);
        MintMore(logged, seen);
        PropagateDraws(c, w, seen, env);
      }
    }
  }

  lemma NothingDrawn(log: seq<Envelope>, mint: nat)
    ensures Draws(log, log, mint, mint)
  {
  }

  lemma CancelDraws(log: seq<Envelope>, mint: nat, hi: nat)
    requires mint <= hi
    ensures Draws(log, log, mint, hi)
  {
  }

  lemma PropagateDraws(c: Config, w: World, s: State, env: Envelope)
    requires Ordered(s) && Known(s, env.id) && env.id.External?
    ensures var t := PropagateF(c, w, s, env); Draws(s.log, t.log, s.mint, t.mint) && t.cancelIds == s.cancelIds
  {
    hide ToDestsF, AttestF, CancelledF, Draws;
    var root := RootOf(s, env);
    NothingDrawn(s.log, s.mint);
    if !CancelledF(s.cancelled, root) {
      var noted := s.(attests := if env.attest == "" then s.attests
                                 else AttestF(s.attests, MAX_ATTEST_PER_ROOT, root, w.attest(env.attest)));
      MintMore(s, noted);
      ToDestsDraws(c, w, noted, env, DestsAt(c.routes, Source(env)), root);
      ToDestsIds(c, w, noted, env, DestsAt(c.routes, Source(env)), root);
    }
  }

  /** Everything written while routing `env` is `env` itself or the kernel's own. */
  ghost predicate OnlyFrom(log: seq<Envelope>, more: seq<Envelope>, env: Envelope) {
    log <= more && forall i :: |log| <= i < |more| ==> more[i] == env || more[i].id.Minted?
  }

  lemma ResolveLogs(c: Config, w: World, s: State, answer: Envelope)
    ensures OnlyFrom(s.log, ResolveGateF(c, w, s, answer).log, answer)
    ensures ResolveGateF(c, w, s, answer).cancelIds == s.cancelIds
  {
    hide ForwardF, AuthorizeGate;
    if answer.cause in s.pending {
      var held := s.pending[answer.cause];
      var s1 := s.(pending := s.pending - {answer.cause}, log := s.log + [answer]);
      match AuthorizeGate(c, w.roster, held, answer.payload) {
        case Rejected =>
        case Denies(a) =>
        case Approves(a) =>
          var parked := if a.Some? then s1.(approved := s1.approved[held.env.id := a.value]) else s1;
          var s2 := parked.(gates := s1.gates + [Released(answer.cause, held, answer, a, w.roster)]);
          ForwardFrame(c, w, s2, held.env, held.to, answer.cause);
          ForwardAdds(c, w, s2, held.env, held.to, answer.cause);
      }
    }
  }

  lemma RouteLogs(c: Config, w: World, s: State, env: Envelope)
    ensures OnlyFrom(s.log, RouteF(c, w, s, env).log, env)
    ensures s.cancelIds <= RouteF(c, w, s, env).cancelIds
  {
    hide DestsAt, ToDestsF, ResolveGateF, AttestF, SeenF, CancelTarget;
    var logged := s.(log := s.log + [env]);
    if env.kind != Cancel && !Duplicate(s, env) {
      var seen := if env.kind == Data then logged.(dedup := SeenF(s.dedup, env.idem)) else logged;
      ResolveLogs(c, w, seen, env);
      var dests := DestsAt(c.routes, Source(env));
      var noted := seen.(attests := if env.attest == "" then seen.attests
                                    else AttestF(seen.attests, MAX_ATTEST_PER_ROOT, RootOf(seen, env), w.attest(env.attest)));
      ToDestsAdds(c, w, noted, env, dests, RootOf(seen, env));
      ToDestsIds(c, w, noted, env, dests, RootOf(seen, env));
    }
  }

  // ---- The log stays honest ----

  lemma HonestDraws(log: seq<Envelope>, cancels: set<Id>, more: seq<Envelope>, lo: nat, hi: nat)
    requires HonestLog(log, cancels) && Unique(more) && LogOk(more, hi) && Draws(log, more, lo, hi)
    requires forall id :: id in cancels ==> Below(lo, id)
    ensures HonestLog(more, cancels) && lo <= hi
  {
    forall i | 0 <= i < |more| && Tracked(more[i]) ensures Cites(more, cancels, i, more[i]) {
      if i < |log| {
        assert more[i] == log[i];
        assert Cites(log, cancels, i, log[i]);
        if Follows(log, i, log[i]) { FollowsGrows(log, more, i, log[i]); }
      } else {
        assert EntryOk(more, hi, i);
        var j :| 0 <= j < i && j < |more| && more[j].id == more[i].cause;
        assert Follows(more, i, more[i]);
      }
    }
    forall i | 0 <= i < |more| ensures more[i].id != NoId && more[i].id !in cancels {
      if i < |log| { assert more[i] == log[i]; }
    }
  }

  lemma HonestArrival(s: State, env: Envelope)
    requires HonestLog(s.log, s.cancelIds) && Honest(s, env) && forall id :: id in s.cancelIds ==> id.Minted?
    ensures HonestLog(s.log + [env], s.cancelIds) && HonestLog(s.log + [env] + [env], s.cancelIds)
  {
    var log := s.log + [env];
    HonestAppend(s.log, s.cancelIds, env);
    assert log[|s.log|] == env;
    assert Cites(log, s.cancelIds, |s.log|, env);
    if Follows(log, |s.log|, env) { FollowsLater(log, |s.log|, env); }
    assert Cites(log, s.cancelIds, |log|, env);
    assert forall i :: 0 <= i < |log| && log[i].id == env.id ==> log[i] == env;
    HonestAppend(log, s.cancelIds, env);
  }

  lemma RouteTruthful(c: Config, w: World, s: State, env: Envelope)
    requires Truthful(c, s) && Honest(s, env) && Unforged(env) && DistinctEdges(c)
    ensures Truthful(c, RouteF(c, w, s, env))
  {
    hide RouteF, Living, HonestLog, Honest, DistinctEdges, Draws, LogOk, Unique, Drawn;
    HonestIsPlain(s, env);
    RouteLiving(c, w, s, env);
    RouteRoutesOn(c, w, s, env);
    var t := RouteF(c, w, s, env);
    LivingHolds(c, t);
    HonestArrival(s, env);
    if env.kind == Cancel {
      var k: nat :| s.mint + k == t.mint && s.cancelIds <= t.cancelIds <= s.cancelIds + Drawn(s.mint, k);
      LivingHolds(c, s);
      CancelTruthful(s, env, t, k);
    } else if Draws(s.log + [env], t.log, s.mint, t.mint) {
      HonestDraws(s.log + [env], s.cancelIds, t.log, s.mint, t.mint);
    } else {
      HonestDraws(s.log + [env] + [env], s.cancelIds, t.log, s.mint, t.mint);
    }
  }

  lemma HonestIsPlain(s: State, env: Envelope)
    requires Honest(s, env) && Unforged(env)
    ensures Plain(s, env) && env.id.External?
  {
  }

  /** The numbers a cancel draws are on no record. */
  lemma CancelTruthful(s: State, env: Envelope, t: State, k: nat)
    requires HonestLog(s.log + [env], s.cancelIds) && LogOk(s.log, s.mint) && env.id.External?
    requires t.log == s.log + [env] && t.mint == s.mint + k && s.cancelIds <= t.cancelIds <= s.cancelIds + Drawn(s.mint, k)
    requires forall id :: id in s.cancelIds ==> Below(s.mint, id)
    ensures HonestLog(t.log, t.cancelIds) && forall id :: id in t.cancelIds ==> Below(t.mint, id)
  {
    hide Follows;
    forall i | 0 <= i < |t.log| ensures t.log[i].id !in t.cancelIds {
      if i < |s.log| { assert EntryOk(s.log, s.mint, i) && t.log[i] == s.log[i]; }
    }
  }

  lemma ResumeTruthful(c: Config, s: State)
    requires Truthful(c, s)
    ensures Truthful(c, ResumeF(c, s))
  {
    hide Living;
    ResumeLiving(c, s);
  }

  lemma {:induction false} TruthfulInEveryRun(c: Config, inputs: seq<Input>)
    requires LongRun(c, inputs) && DistinctEdges(c)
    ensures Truthful(c, Run(c, inputs))
  {
    hide RouteF, ResumeF, Honest, DistinctEdges;
    if inputs == [] {
      StartLiving(c);
    } else {
      var before, last := inputs[..|inputs| - 1], inputs[|inputs| - 1];
      TruthfulInEveryRun(c, before);
      hide Truthful;
      match last {
        case Arrive(env, w) => RouteTruthful(c, w, Run(c, before), env);
        case Crash => ResumeTruthful(c, Run(c, before));
      }
    }
  }

  /** Honest runs are such runs. */
  lemma {:induction false} HonestIsLong(c: Config, inputs: seq<Input>)
    requires HonestRun(c, inputs)
    ensures LongRun(c, inputs)
  {
    if inputs != [] { HonestIsLong(c, inputs[..|inputs| - 1]); }
  }
}
