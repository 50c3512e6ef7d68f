// At most once: when a message handed on without a gate can be handed on again.

module OncePerKey {
  import opened Options
  import opened Envelopes
  import opened BoundedFifo
  import opened Indexes
  import opened Policies
  import opened Wiring
  import opened Speculation
  import opened Kernel
  import opened Frames
  import opened Books
  import opened Chains
  import opened Gates
  import opened Resumes
  import opened Restarts
  import opened Cancels
  import opened LongLogs
  import opened LongChains
  import opened LongRestarts
  import opened Sends
  import opened Streams

  /** Data delivered along an edge without anyone being asked. */
  ghost predicate Direct(x: Send) {
    Numbered(x) && x.via == NoId && x.env.kind == Data
  }

  ghost predicate SamePlace(x: Send, y: Send) {
    Direct(x) && Direct(y) && x.env.cause == y.env.cause && Source(x.env) == Source(y.env)
  }

  /** Longer than a restart reads, and the key not where it reads. */
  ghost predicate Forgettable(log: seq<Envelope>, key: string) {
    |log| > RESUME_LIMIT && KeyOutOfReach(log, key)
  }

  ghost predicate ArrivedData(e: Envelope) {
    e.id.External? && e.kind == Data
  }

  /** Every key that came from outside is refused, or lies where a restart forgets it. */
  ghost predicate KeysHeld(log: seq<Envelope>, dedup: Fifo<string, ()>) {
    Valid(dedup) && dedup.max == MAX_DEDUP
    && forall i :: 0 <= i < |log| && ArrivedData(log[i]) ==>
         log[i].idem != "" && (log[i].idem in dedup.m || Forgettable(log, log[i].idem))
  }

  ghost predicate DirectKnown(log: seq<Envelope>, sent: seq<Send>) {
    forall k :: 0 <= k < |sent| && Direct(sent[k]) ==>
      exists i :: 0 <= i < |log| && ArrivedData(log[i]) && log[i].id == sent[k].env.cause
  }

  /** The message behind a delivery, its key where a restart forgets it. */
  ghost predicate Forgotten(log: seq<Envelope>, id: Id) {
    exists i :: 0 <= i < |log| && ArrivedData(log[i]) && log[i].id == id && Forgettable(log, log[i].idem)
  }

  ghost predicate TwiceForgotten(log: seq<Envelope>, sent: seq<Send>) {
    forall k, l :: 0 <= k < l < |sent| && SamePlace(sent[k], sent[l]) ==> Forgotten(log, sent[k].env.cause)
  }

  ghost predicate OnceEach(s: State) {
    KeysHeld(s.log, s.dedup) && DirectKnown(s.log, s.sent) && TwiceForgotten(s.log, s.sent)
  }

  // ---- One arrival ----

  lemma ForgettableLater(log: seq<Envelope>, more: seq<Envelope>, key: string)
    requires log <= more && Forgettable(log, key)
    ensures Forgettable(more, key)
  {
  }

  lemma ForgottenLater(log: seq<Envelope>, more: seq<Envelope>, id: Id)
    requires log <= more && Forgotten(log, id)
    ensures Forgotten(more, id)
  {
    var i :| 0 <= i < |log| && ArrivedData(log[i]) && log[i].id == id && Forgettable(log, log[i].idem);
    assert more[i] == log[i];
    ForgettableLater(log, more, log[i].idem);
  }

  /** A data message with a key, and room to remember it. */
  ghost predicate KeyedArrival(s: State, env: Envelope) {
    env.kind == Data ==> env.idem != "" && |s.dedup.order| < s.dedup.max
  }

  lemma KeysStayHeld(log: seq<Envelope>, more: seq<Envelope>, env: Envelope, dedup: Fifo<string, ()>)
    requires KeysHeld(log, dedup) && OnlyFrom(log, more, env) && log + [env] <= more
    requires env.kind == Data ==> env.idem != "" && |dedup.order| < dedup.max
    ensures KeysHeld(more, if env.kind == Data then SeenF(dedup, env.idem) else dedup)
  {
    hide KeyOutOfReach;
    var now := if env.kind == Data then SeenF(dedup, env.idem) else dedup;
    if env.kind == Data { PutValid(dedup, env.idem, ()); }
    hide Put, Valid;
    forall i | 0 <= i < |more| && ArrivedData(more[i])
      ensures more[i].idem != "" && (more[i].idem in now.m || Forgettable(more, more[i].idem))
    {
      if i < |log| {
        assert more[i] == log[i];
        if Forgettable(log, log[i].idem) { ForgettableLater(log, more, log[i].idem); }
      }
    }
  }

  lemma QuietOnce(s: State, t: State, env: Envelope)
    requires DirectKnown(s.log, s.sent) && TwiceForgotten(s.log, s.sent) && s.log <= t.log && s.sent <= t.sent
    requires forall k :: |s.sent| <= k < |t.sent| ==> !Direct(t.sent[k])
    ensures DirectKnown(t.log, t.sent) && TwiceForgotten(t.log, t.sent)
  {
    hide Forgotten, Direct, Forgettable, ArrivedData;
    forall k | 0 <= k < |t.sent| && Direct(t.sent[k])
      ensures exists i :: 0 <= i < |t.log| && ArrivedData(t.log[i]) && t.log[i].id == t.sent[k].env.cause
    {
      var i :| 0 <= i < |s.log| && ArrivedData(s.log[i]) && s.log[i].id == s.sent[k].env.cause;
      assert t.log[i] == s.log[i];
    }
    forall k, l | 0 <= k < l < |t.sent| && SamePlace(t.sent[k], t.sent[l]) ensures Forgotten(t.log, t.sent[k].env.cause) {
      assert SamePlace(s.sent[k], s.sent[l]);
      ForgottenLater(s.log, t.log, s.sent[k].env.cause);
    }
  }

  /** A message taken in: whatever was delivered of it before had been forgotten. */
  lemma TakenOnce(s: State, t: State, env: Envelope, dests: seq<Dest>, root: Id)
    requires OnceEach(s) && s.log + [env] <= t.log && AllSentTo(s.spec, env, dests, root, s, t)
    requires env.id.External? && !Duplicate(s, env)
    requires forall i :: 0 <= i < |s.log| && s.log[i].id == env.id ==> s.log[i] == env
    ensures DirectKnown(t.log, t.sent) && TwiceForgotten(t.log, t.sent)
  {
    hide Forgotten, HandedAt, Forgettable, Valid;
    assert t.log[|s.log|] == env;
    forall k | 0 <= k < |t.sent| && Direct(t.sent[k])
      ensures exists i :: 0 <= i < |t.log| && ArrivedData(t.log[i]) && t.log[i].id == t.sent[k].env.cause
    {
      if k < |s.sent| {
        var i :| 0 <= i < |s.log| && ArrivedData(s.log[i]) && s.log[i].id == s.sent[k].env.cause;
        assert t.log[i] == s.log[i];
      } else {
        NewSend(s, t, env, dests, root, k);
      }
    }
    forall k, l | 0 <= k < l < |t.sent| && SamePlace(t.sent[k], t.sent[l]) ensures Forgotten(t.log, t.sent[k].env.cause) {
      if l < |s.sent| {
        assert SamePlace(s.sent[k], s.sent[l]);
        ForgottenLater(s.log, t.log, s.sent[k].env.cause);
      } else {
        NewSend(s, t, env, dests, root, l);
        AlreadySent(s, t, env, k);
      }
    }
  }

  lemma NewSend(s: State, t: State, env: Envelope, dests: seq<Dest>, root: Id, k: nat)
    requires AllSentTo(s.spec, env, dests, root, s, t) && |s.sent| <= k < |t.sent| && Numbered(t.sent[k])
    ensures t.sent[k].env.cause == env.id && t.sent[k].env.kind == env.kind
  {
    hide HandedAt, Numbered;
    var i: nat :| SentTo(s.spec, env, dests, i, root, t.sent[k]);
  }

  lemma AlreadySent(s: State, t: State, env: Envelope, k: nat)
    requires OnceEach(s) && s.log + [env] <= t.log && s.sent <= t.sent && k < |s.sent| && Direct(s.sent[k])
    requires s.sent[k].env.cause == env.id && !Duplicate(s, env)
    requires forall i :: 0 <= i < |s.log| && s.log[i].id == env.id ==> s.log[i] == env
    ensures Forgotten(t.log, env.id)
  {
    hide Forgettable, Valid;
    var i :| 0 <= i < |s.log| && ArrivedData(s.log[i]) && s.log[i].id == s.sent[k].env.cause;
    assert s.log[i] == env;
    ForgottenLater(s.log, t.log, env.id);
  }

  lemma RouteOnce(c: Config, w: World, s: State, env: Envelope)
    requires OnceEach(s) && Truthful(c, s) && Honest(s, env) && KeyedArrival(s, env) && DistinctEdges(c)
    ensures OnceEach(RouteF(c, w, s, env))
  {
    hide RouteF, Living, HonestLog, OnlyFrom, KeysHeld, DirectKnown, TwiceForgotten, DistinctEdges, Direct;
    var t := RouteF(c, w, s, env);
    HonestFirst(s, env);
    RouteLogs(c, w, s, env);
    RouteDedup(c, w, s, env);
    KeysStayHeld(s.log, t.log, env, s.dedup);
    if env.kind == ConfirmResponse {
      AnswerSends(c, w, s, env);
      QuietOnce(s, t, env);
    } else {
      RouteSends(c, w, s, env);
      if Routed(s, env) {
        TakenOnce(s, t, env, DestsAt(c.routes, Source(env)), RootOf(s, env));
      } else {
        QuietOnce(s, t, env);
      }
    }
  }

  lemma HonestFirst(s: State, env: Envelope)
    requires Honest(s, env)
    ensures env.id.External? && forall i :: 0 <= i < |s.log| && s.log[i].id == env.id ==> s.log[i] == env
  {
  }

  /** What an answer sends names its gate. */
  lemma AnswerSends(c: Config, w: World, s: State, env: Envelope)
    requires Living(c, s) && env.kind == ConfirmResponse
    ensures var t := RouteF(c, w, s, env); s.sent <= t.sent && forall k :: |s.sent| <= k < |t.sent| ==> !Direct(t.sent[k])
  {
    hide ResolveGateF, Living, QuestionAt;
    var logged := s.(log := s.log + [env]);
    ResolveVia(c, w, logged, env);
    if env.cause in s.pending {
      PendingMinted(c, s, env.cause);
    }
  }

  lemma PendingMinted(c: Config, s: State, req: Id)
    requires Living(c, s) && req in s.pending
    ensures req != NoId
  {
    assert Waits(c, s.log, s.gates, req, s.pending[req]);
  }

  lemma ResumeOnce(c: Config, s: State)
    requires OnceEach(s)
    ensures OnceEach(ResumeF(c, s))
  {
    var t := ResumeF(c, s);
    ReplayedWindow(c, Readable(s.log));
    assert t.log == s.log && t.sent == s.sent && Valid(t.dedup) && t.dedup.max == MAX_DEDUP;
    hide ResumeF, Valid;
    forall i | 0 <= i < |t.log| && ArrivedData(t.log[i])
      ensures t.log[i].idem != "" && (t.log[i].idem in t.dedup.m || Forgettable(t.log, t.log[i].idem))
    {
      KeyReadBack(c, s, s.log[i].idem);
    }
  }

  // ---- Whole runs ----

  /** Honest, of any length and crashing at will; data carries keys, and the window that
      remembers them has room. */
  ghost predicate KeyedRun(c: Config, inputs: seq<Input>) {
    LongRun(c, inputs)
    && (inputs != [] ==>
          var before, last := inputs[..|inputs| - 1], inputs[|inputs| - 1];
          KeyedRun(c, before) && (last.Arrive? ==> KeyedArrival(Run(c, before), last.env)))
  }

  lemma {:induction false} OnceInEveryRun(c: Config, inputs: seq<Input>)
    requires KeyedRun(c, inputs) && DistinctEdges(c)
    ensures OnceEach(Run(c, inputs))
  {
    hide RouteF, ResumeF, Honest, Truthful, KeyedArrival, DistinctEdges;
    if inputs != [] {
      var before, last := inputs[..|inputs| - 1], inputs[|inputs| - 1];
      OnceInEveryRun(c, before);
      TruthfulInEveryRun(c, before);
      hide OnceEach;
      match last {
        case Arrive(env, w) =>
          assert Honest(Run(c, before), env);
          RouteOnce(c, w, Run(c, before), env);
        case Crash => ResumeOnce(c, Run(c, before));
      }
    }
  }

  /** At most once: in every such run, data that needs no gate is delivered to a place
      twice only if the message's key is carried by nothing among the first thousand
      events of a log that has more. */
  lemma DeliveredTwiceOnlyOutOfReach(c: Config, inputs: seq<Input>, k: nat, l: nat)
    requires KeyedRun(c, inputs) && DistinctEdges(c)
    requires k < l < |Run(c, inputs).sent| && SamePlace(Run(c, inputs).sent[k], Run(c, inputs).sent[l])
    ensures var s := Run(c, inputs); Forgotten(s.log, s.sent[k].env.cause)
  {
    OnceInEveryRun(c, inputs);
  }
}
