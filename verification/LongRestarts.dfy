// What any restart keeps, however long the log: exactly what its first thousand events
// say of gates, keys, suppressed chains, chain roots and work in flight.

module LongRestarts {
  import opened Options
  import opened Envelopes
  import opened BoundedFifo
  import opened Indexes
  import opened Policies
  import opened Wiring
  import opened Speculation
  import opened Kernel
  import opened Frames
  import opened Books
  import opened Chains
  import opened Gates
  import opened Resumes
  import opened Restarts
  import opened Hops
  import opened LongLogs
  import opened LongChains
  import opened LongCancels
  import opened Aims

  // ---- Keys ----

  /** No data among the first thousand events carries the key. */
  ghost predicate KeyOutOfReach(log: seq<Envelope>, key: string) {
    forall i :: 0 <= i < |log| && log[i].kind == Data && log[i].idem == key ==> i >= RESUME_LIMIT
  }

  lemma ReachOfKey(log: seq<Envelope>, key: string)
    requires key != ""
    ensures Processed(Readable(log), key) <==> !KeyOutOfReach(log, key)
  {
    var part := Readable(log);
    if !KeyOutOfReach(log, key) {
      var i :| 0 <= i < |log| && log[i].kind == Data && log[i].idem == key && i < RESUME_LIMIT;
      assert part[i] == log[i];
    }
    if Processed(part, key) {
      var i :| 0 <= i < |part| && part[i].kind == Data && part[i].idem == key;
      assert log[i] == part[i];
    }
  }

  /** From any log a restart refuses exactly the keys of the data it reads. */
  lemma KeyReadBack(c: Config, s: State, key: string)
    ensures key in ResumeF(c, s).dedup.m <==> key != "" && !KeyOutOfReach(s.log, key)
  {
    ReplayedWindow(c, Readable(s.log));
    if key != "" { ReachOfKey(s.log, key); }
    hide Replay;
  }

  lemma {:induction false} KeysOnRecord(c: Config, inputs: seq<Input>)
    ensures WindowLogged(Run(c, inputs).log, Run(c, inputs).dedup)
  {
    if inputs != [] {
      var before, last := inputs[..|inputs| - 1], inputs[|inputs| - 1];
      KeysOnRecord(c, before);
      var s := Run(c, before);
      hide RouteF, Processed, Replay;
      match last {
        case Arrive(env, w) =>
          RouteDedup(c, w, s, env);
          RouteWindow(c, w, s, env);
        case Crash =>
          ReplayedWindow(c, Readable(s.log));
          forall key | key in ResumeF(c, s).dedup.m ensures Processed(s.log, key) {
            ProcessedStays(Readable(s.log), s.log, key);
          }
      }
    }
  }

  /** Over every run, whatever it crashed on: a key refused now is on record, and is
      accepted again after a restart exactly when every data entry that carries it lies
      past the first thousand events. */
  lemma KeyForgottenIff(c: Config, inputs: seq<Input>, key: string)
    requires key in Run(c, inputs).dedup.m
    ensures var s := Run(c, inputs);
            Processed(s.log, key) && (key !in ResumeF(c, s).dedup.m <==> KeyOutOfReach(s.log, key))
  {
    KeysOnRecord(c, inputs);
    hide Run, ResumeF, KeyOutOfReach;
    KeyReadBack(c, Run(c, inputs), key);
  }

  /** A message sent again after a restart does nothing, beyond being logged, exactly
      when data with its key can be read back; otherwise it is taken for new. */
  lemma ResentIff(c: Config, w: World, s: State, env: Envelope)
    requires env.kind == Data && env.idem != ""
    ensures Duplicate(ResumeF(c, s), env) <==> !KeyOutOfReach(s.log, env.idem)
    ensures !KeyOutOfReach(s.log, env.idem) ==>
              RouteF(c, w, ResumeF(c, s), env) == ResumeF(c, s).(log := s.log + [env])
  {
    KeyReadBack(c, s, env.idem);
    SameLog(c, s);
    hide ResumeF, PropagateF;
  }

  lemma SameLog(c: Config, s: State)
    ensures var t := ResumeF(c, s);
            t.log == s.log && t.cancelIds == s.cancelIds && t.cancelsSent == s.cancelsSent && t.mint == s.mint
  {
  }

  // ---- Roots ----

  lemma ReadableIsHonest(log: seq<Envelope>, cancels: set<Id>)
    requires HonestLog(log, cancels)
    ensures HonestLog(Readable(log), cancels)
  {
    HonestPrefix(log, cancels, |Readable(log)|);
    assert Readable(log) == log[..|Readable(log)|];
  }

  /** From any honest log a restart gives each id the root it would give it, had the
      log ended with the thousandth event. */
  lemma RootReadBack(c: Config, s: State, id: Id)
    requires HonestLog(s.log, s.cancelIds)
    ensures RootF(ResumeF(c, s).causal, id) == LiveRoot(Readable(s.log), |Readable(s.log)|, id)
  {
    ReadableIsHonest(s.log, s.cancelIds);
    ReplayKeyed(c, Readable(s.log), s.cancelIds, id);
  }

  /** A delivery to a skill keeps its chain exactly when it is among the first thousand
      events; past them it belongs to none. */
  lemma WorkReadBack(c: Config, s: State, i: nat)
    requires HonestLog(s.log, s.cancelIds) && WrittenOnce(s.log) && i < |s.log| && IsDelivery(s.log[i])
    ensures RootF(ResumeF(c, s).causal, s.log[i].id) == if i < RESUME_LIMIT then ChainRoot(s.log, s.log[i]) else NoId
  {
    var part, id := Readable(s.log), s.log[i].id;
    RootReadBack(c, s, id);
    hide ResumeF;
    if i < RESUME_LIMIT {
      ReadableIsHonest(s.log, s.cancelIds);
      var f := FirstAt(part, id);
      assert part[i] == s.log[i] && part[f] == s.log[f];
      SameEntry(part, s.cancelIds, f, i);
      TrackedStable(part, s.cancelIds, s.log, i);
    } else {
      forall j | 0 <= j < |part| ensures part[j].id != id {
        assert part[j] == s.log[j];
      }
      FirstAtAbsent(part, id);
    }
  }

  // ---- Work in flight ----

  lemma HopsReadBack(c: Config, s: State, R: Id)
    requires HonestLog(s.log, s.cancelIds) && R != NoId
    ensures Get(ResumeF(c, s).inFlight, R, map[]) == DataHops(c, Readable(s.log), R)
  {
    ReadableIsHonest(s.log, s.cancelIds);
    RebuiltHops(c, Readable(s.log), s.cancelIds, R);
  }

  // ---- All of it ----

  /** Exactly what a restart keeps, over every honest run, however long its log and
      the logs it crashed on: gates asked among the first thousand events and not
      answered there; keys that data there carries; chains a cancel there names; the
      chains of the deliveries there; and, as work in flight, the places data there
      went. */
  lemma WhatARestartKeeps(c: Config, inputs: seq<Input>)
    requires LongRun(c, inputs) && DistinctEdges(c)
    ensures var s := Run(c, inputs);
            var t := ResumeF(c, s);
            && (forall req, held :: (req in t.pending && t.pending[req] == held) <==> ReadBack(c, s.log, req, held))
            && (forall key :: key in t.dedup.m <==> key != "" && !KeyOutOfReach(s.log, key))
            && (forall R :: R != NoId ==> (CancelledF(t.cancelled, R) <==> CancelInReach(s.log, R)))
            && (forall i :: 0 <= i < |s.log| && IsDelivery(s.log[i]) ==>
                  RootF(t.causal, s.log[i].id) == if i < RESUME_LIMIT then ChainRoot(s.log, s.log[i]) else NoId)
            && (forall R :: R != NoId ==> Get(t.inFlight, R, map[]) == DataHops(c, Readable(s.log), R))
  {
    TruthfulInEveryRun(c, inputs);
    var s := Run(c, inputs);
    hide Run, ResumeF, HonestLog, ReadBack, KeyOutOfReach, CancelInReach, IsDelivery, ChainRoot, DataHops, Ordered, WrittenOnce;
    LivingAsks(c, s);
    forall req, held ensures (req in ResumeF(c, s).pending && ResumeF(c, s).pending[req] == held) <==> ReadBack(c, s.log, req, held) {
      PendingAfterRestart(c, s, req, held);
    }
    forall key ensures key in ResumeF(c, s).dedup.m <==> key != "" && !KeyOutOfReach(s.log, key) {
      KeyReadBack(c, s, key);
    }
    forall R | R != NoId
      ensures CancelledF(ResumeF(c, s).cancelled, R) <==> CancelInReach(s.log, R)
      ensures Get(ResumeF(c, s).inFlight, R, map[]) == DataHops(c, Readable(s.log), R)
    {
      SuppressedAfterRestart(c, s, R);
      HopsReadBack(c, s, R);
    }
    forall i | 0 <= i < |s.log| && IsDelivery(s.log[i])
      ensures RootF(ResumeF(c, s).causal, s.log[i].id) == if i < RESUME_LIMIT then ChainRoot(s.log, s.log[i]) else NoId
    {
      WorkReadBack(c, s, i);
    }
  }

  // ---- A cancel that comes after the restart ----

  /** The root of a logged delivery is something the client sent, wherever it appears. */
  lemma RootOnRecord(log: seq<Envelope>, cancels: set<Id>, j: nat, R: Id)
    requires HonestLog(log, cancels) && j < |log| && IsDelivery(log[j]) && ChainRoot(log, log[j]) == R != NoId
    ensures forall k :: 0 <= k < |log| && log[k].id == R ==> ClientSent(log[k])
    ensures R.External?
  {
    RootIsSent(log, log[j]);
    hide ChainRoot;
    var i :| 0 <= i < |log| && ClientSent(log[i]) && log[i].id == R;
    forall k | 0 <= k < |log| && log[k].id == R ensures ClientSent(log[k]) {
      SameEntry(log, cancels, i, k);
    }
  }

  lemma ResumedCancelTarget(c: Config, s: State, R: Id)
    requires HonestLog(s.log, s.cancelIds) && R != NoId && forall k :: 0 <= k < |s.log| && s.log[k].id == R ==> s.log[k].node == CLIENT
    ensures RootF(ResumeF(c, s).causal, R) == R || RootF(ResumeF(c, s).causal, R) == NoId
  {
    RootReadBack(c, s, R);
    hide ResumeF, HonestLog;
    var part := Readable(s.log);
    var f := FirstAt(part, R);
    if f < |part| { assert part[f] == s.log[f]; }
  }

  /** A restart, and then a cancel naming R: what the cancel asks to stop is the work
      read back, and of what a skill says next on a delivery of R's chain it silences
      exactly what cites one among the first thousand events. */
  lemma LateCancelReachesIff(c: Config, w: World, s: State, x: Envelope, m: Envelope, j: nat, R: Id)
    requires Truthful(c, s) && j < |s.log| && IsDelivery(s.log[j]) && ChainRoot(s.log, s.log[j]) == R != NoId
    requires x.kind == Cancel && x.cause == R && m.node != CLIENT && m.cause == s.log[j].id
    ensures var t := RouteF(c, w, ResumeF(c, s), x);
            && CancelledF(t.cancelled, R)
            && t.cancelsSent == s.cancelsSent + multiset(DataHops(c, Readable(s.log), R).Values)
            && (CancelledF(t.cancelled, RootOf(t, m)) <==> j < RESUME_LIMIT)
  {
    hide ChainRoot, Replay, HonestLog, Living, IsDelivery, DataHops;
    assert WrittenOnce(s.log) by { LivingLog(c, s); }
    RootOnRecord(s.log, s.cancelIds, j, R);
    assert forall k :: 0 <= k < |s.log| && s.log[k].id == R ==> s.log[k].node == CLIENT;
    ResumedCancelTarget(c, s, R);
    WorkReadBack(c, s, j);
    HopsReadBack(c, s, R);
    ReplayCancelsGrow(c, Readable(s.log), Readable(s.log));
    ResumedSets(c, s);
    SameLog(c, s);
    hide ResumeF;
    PutValid(ResumeF(c, s).cancelled, R, ());
    HandleCancelFrame(ResumeF(c, s).(log := s.log + [x]), x);
  }

  lemma LivingLog(c: Config, s: State)
    requires Living(c, s)
    ensures WrittenOnce(s.log)
  {
  }

  lemma ResumedSets(c: Config, s: State)
    ensures ResumeF(c, s).cancelled == Replay(c, Readable(s.log)).cancelled
  {
  }

  // ---- A crash between the log and the deliveries ----

  /** A crash right after an arrival is logged, before anything is made of it, costs its
      deliveries for good: read back, its key is refused, however often it is sent. */
  lemma LoggedButNeverDelivered(c: Config, w: World, s: State, env: Envelope)
    requires env.kind == Data && env.idem != "" && |s.log| < RESUME_LIMIT
    ensures var t := ResumeF(c, s.(log := s.log + [env]));
            RouteF(c, w, t, env) == t.(log := s.log + [env] + [env])
  {
    var logged := s.(log := s.log + [env]);
    assert logged.log[|s.log|] == env;
    ResentIff(c, w, logged, env);
    SameLog(c, logged);
  }
}
