// Speculation over a session instance: what each speculating edge was last handed
// against everything its producer said.

module Streams {
  import opened Options
  import opened Envelopes
  import opened BoundedFifo
  import opened Indexes
  import opened Policies
  import opened Graphs
  import opened Wiring
  import opened Speculation
  import opened Kernel
  import opened Frames
  import opened SpeculativeEdges
  import opened ContextRuns
  import opened Effects
  import opened Resumes
  import opened PlainSteps
  import opened Sends

  // ---- One message on one edge ----

  /** The message moves the stream of this edge. */
  ghost predicate Guesses(env: Envelope, d: Dest, root: Id) {
    d.speculative && env.kind == Data && root != NoId
  }

  /** What one message makes an edge hand on and give up, and what it leaves behind. */
  ghost function EdgeStep(x: SpecValue, key: SpecKey, env: Envelope): Stream {
    if IsFinal(env.payload) then OnFinal(Stream(x, [], []), key, env.schema, ChunkOf(env))
    else OnPartial(Stream(x, [], []), key, env.schema, ChunkOf(env))
  }

  /** That is what the kernel does: it forwards just what is handed on, after giving up
      just what is stale. */
  lemma EdgeMoves(c: Config, w: World, s: State, env: Envelope, d: Dest, root: Id)
    requires Guesses(env, d, root)
    ensures var y, t := EdgeStep(s.spec, SpecKey(root, d.from), env), ToDestF(c, w, s, env, d, root);
            && t.spec == y.index && |y.handed| <= 1
            && (y.handed == [] ==> t == s.(spec := y.index))
            && (y.handed != [] ==>
                  exists x :: t == ForwardF(c, w, AbandonAllF(s.(spec := x), y.stale, d),
                                            env.(payload := y.handed[0]), d, NoId).(spec := y.index))
  {
    hide ForwardF, AbandonAllF, FoldF, ResolveF, SpeculateF, RunningF, GuessStands, StaleF, IsFinal, MarkFinal;
    var x, key := Stream(s.spec, [], []), SpecKey(root, d.from);
    var y, t := EdgeStep(s.spec, key, env), ToDestF(c, w, s, env, d, root);
    if IsFinal(env.payload) {
      FinalOnTheEdge(c, w, s, env, d, root, x);
      var resolved := s.(spec := y.index);
      assert y.stale[|x.stale|..] == y.stale;
      AbandonFrame(resolved, y.stale, d);
      if y.handed != [] {
        ForwardFrame(c, w, AbandonAllF(resolved, y.stale, d), env.(payload := y.handed[0]), d, NoId);
        assert t == t.(spec := y.index);
      }
    } else {
      PartialOnTheEdge(c, w, s, env, d, root, x);
      var folded := s.(spec := FoldF(s.spec, key, env.schema, env.payload));
      NothingGivenUp(folded, d);
      assert y.stale == [] && s.(spec := folded.spec) == folded;
    }
  }

  lemma NothingGivenUp(s: State, d: Dest)
    ensures AbandonAllF(s, [], d) == s
  {
  }

  // ---- One arrival ----

  /** The index after a message went to these destinations, in order. */
  ghost function SpecAfter(x: SpecValue, env: Envelope, dests: seq<Dest>, root: Id): SpecValue {
    if dests == [] then x
    else
      var y, d := SpecAfter(x, env, dests[..|dests| - 1], root), dests[|dests| - 1];
      if Guesses(env, d, root) then EdgeStep(y, SpecKey(root, d.from), env).index else y
  }

  lemma {:induction false} ToDestsSpec(c: Config, w: World, s: State, env: Envelope, dests: seq<Dest>, root: Id)
    ensures ToDestsF(c, w, s, env, dests, root).spec == SpecAfter(s.spec, env, dests, root)
  {
    hide ForwardF, EdgeStep;
    if dests != [] {
      var before, d := dests[..|dests| - 1], dests[|dests| - 1];
      ToDestsSpec(c, w, s, env, before, root);
      var s1 := ToDestsF(c, w, s, env, before, root);
      if Guesses(env, d, root) { EdgeMoves(c, w, s1, env, d, root); }
      hide ForwardSpeculativelyF;
      if !Guesses(env, d, root) { OffEdge(c, w, s1, env, d, root); }
    }
  }

  lemma OffEdge(c: Config, w: World, s: State, env: Envelope, d: Dest, root: Id)
    requires !Guesses(env, d, root)
    ensures ToDestF(c, w, s, env, d, root).spec == s.spec
  {
    hide ForwardF;
    ForwardFrame(c, w, s, env, d, NoId);
  }

  /** Taken in and sent on to its destinations. */
  ghost predicate Routed(s: State, env: Envelope) {
    env.kind != Cancel && env.kind != ConfirmResponse && !Duplicate(s, env) && !CancelledF(s.cancelled, RootOf(s, env))
  }

  lemma RouteSpec(c: Config, w: World, s: State, env: Envelope)
    ensures RouteF(c, w, s, env).spec
         == if Routed(s, env) then SpecAfter(s.spec, env, DestsAt(c.routes, Source(env)), RootOf(s, env)) else s.spec
  {
    hide ToDestsF, ResolveGateF, SeenF, AttestF, CancelTarget;
    var logged := s.(log := s.log + [env]);
    if env.kind != Cancel && !Duplicate(s, env) {
      var seen := if env.kind == Data then logged.(dedup := SeenF(s.dedup, env.idem)) else logged;
      AnswerSpec(c, w, seen, env);
      var noted := seen.(attests := if env.attest == "" then seen.attests
                                    else AttestF(seen.attests, MAX_ATTEST_PER_ROOT, RootOf(seen, env), w.attest(env.attest)));
      ToDestsSpec(c, w, noted, env, DestsAt(c.routes, Source(env)), RootOf(s, env));
    }
  }

  lemma AnswerSpec(c: Config, w: World, s: State, answer: Envelope)
    ensures ResolveGateF(c, w, s, answer).spec == s.spec
  {
    hide ForwardF, AuthorizeGate;
    if answer.cause in s.pending {
      var held := s.pending[answer.cause];
      var s1 := s.(pending := s.pending - {answer.cause}, log := s.log + [answer]);
      match AuthorizeGate(c, w.roster, held, answer.payload) {
        case Rejected =>
        case Denies(a) =>
        case Approves(a) =>
          var parked := if a.Some? then s1.(approved := s1.approved[held.env.id := a.value]) else s1;
          var s2 := parked.(gates := s1.gates + [Released(answer.cause, held, answer, a, w.roster)]);
          ForwardFrame(c, w, s2, held.env, held.to, answer.cause);
      }
    }
  }

  // ---- What the transport is handed ----

  /** On a stream's edge the transport is handed just what the stream hands on, if that. */
  lemma EdgeSends(c: Config, w: World, s: State, env: Envelope, d: Dest, root: Id)
    requires Guesses(env, d, root)
    ensures var y, t := EdgeStep(s.spec, SpecKey(root, d.from), env), ToDestF(c, w, s, env, d, root);
            && (y.handed == [] ==> t.sent == s.sent)
            && (y.handed != [] ==> HandsOn(s, t, env.(payload := y.handed[0]), d, NoId))
  {
    hide ForwardF, AbandonAllF, EdgeStep, HandsOn;
    EdgeMoves(c, w, s, env, d, root);
    var y, t := EdgeStep(s.spec, SpecKey(root, d.from), env), ToDestF(c, w, s, env, d, root);
    hide ToDestF;
    if y.handed != [] {
      var src := env.(payload := y.handed[0]);
      var x :| t == ForwardF(c, w, AbandonAllF(s.(spec := x), y.stale, d), src, d, NoId).(spec := y.index);
      var m := AbandonAllF(s.(spec := x), y.stale, d);
      AbandonNotices(s.(spec := x), y.stale, d);
      ForwardHandsOn(c, w, m, src, d, NoId);
      NoticesThen(s.(spec := x), m, ForwardF(c, w, m, src, d, NoId), src, d, NoId);
      SameHands(s.(spec := x), s, ForwardF(c, w, m, src, d, NoId), t, src, d);
    }
  }

  lemma SameHands(s: State, s': State, t: State, t': State, src: Envelope, d: Dest)
    requires HandsOn(s, t, src, d, NoId) && s'.sent == s.sent && t'.sent == t.sent
    ensures HandsOn(s', t', src, d, NoId)
  {
  }

  /** What the i-th destination is handed of a message, if anything. */
  ghost function HandedAt(x: SpecValue, env: Envelope, dests: seq<Dest>, i: nat, root: Id): seq<Payload>
    requires i < |dests|
  {
    if Guesses(env, dests[i], root) then EdgeStep(SpecAfter(x, env, dests[..i], root), SpecKey(root, dests[i].from), env).handed
    else if dests[i].speculative || dests[i].gate != HumanApproval then [env.payload]
    else []
  }

  /** A delivery of the message to its i-th destination, with what that was handed. */
  ghost predicate SentTo(x: SpecValue, env: Envelope, dests: seq<Dest>, i: nat, root: Id, sent: Send) {
    && i < |dests| && HandedAt(x, env, dests, i, root) != []
    && Conveys(sent, env.(payload := HandedAt(x, env, dests, i, root)[0]), dests[i], NoId)
  }

  ghost predicate Endpoints(dests: seq<Dest>) {
    forall i, j :: 0 <= i < j < |dests| ==> Endpoint(dests[i].ref, dests[i].port) != Endpoint(dests[j].ref, dests[j].port)
  }

  /** Each delivery made from `s` to `t` goes to one of the destinations with what it was
      handed, and no two to one place. */
  ghost predicate AllSentTo(x: SpecValue, env: Envelope, dests: seq<Dest>, root: Id, s: State, t: State) {
    && s.sent <= t.sent
    && (forall k :: |s.sent| <= k < |t.sent| && Numbered(t.sent[k]) ==> exists i: nat :: SentTo(x, env, dests, i, root, t.sent[k]))
    && (forall k, l :: |s.sent| <= k < l < |t.sent| && Numbered(t.sent[k]) && Numbered(t.sent[l]) ==>
          Source(t.sent[k].env) != Source(t.sent[l].env))
  }

  lemma SentToMore(x: SpecValue, env: Envelope, dests: seq<Dest>, d: Dest, i: nat, root: Id, sent: Send)
    ensures i < |dests| ==> (SentTo(x, env, dests + [d], i, root, sent) <==> SentTo(x, env, dests, i, root, sent))
    ensures SentTo(x, env, dests, i, root, sent) ==> exists j :: 0 <= j < |dests| && Source(sent.env) == Endpoint(dests[j].ref, dests[j].port)
  {
    hide EdgeStep;
    if i < |dests| { assert (dests + [d])[..i] == dests[..i]; }
  }

  /** One destination more. */
  lemma OneMoreSent(c: Config, w: World, s: State, env: Envelope, before: seq<Dest>, d: Dest, root: Id, s0: State)
    requires AllSentTo(s0.spec, env, before, root, s0, s) && s.spec == SpecAfter(s0.spec, env, before, root)
    requires Endpoints(before + [d])
    ensures AllSentTo(s0.spec, env, before + [d], root, s0, ToDestF(c, w, s, env, d, root))
  {
    hide ForwardF, ForwardSpeculativelyF, EdgeStep, SpecAfter, HandedAt, Conveys, Numbered;
    var x, dests, t := s0.spec, before + [d], ToDestF(c, w, s, env, d, root);
    LastSent(c, w, s, env, before, d, root, x);
    hide ToDestF;
    forall k | |s0.sent| <= k < |t.sent| && Numbered(t.sent[k])
      ensures exists i: nat :: SentTo(x, env, dests, i, root, t.sent[k])
    {
      if k < |s.sent| {
        assert t.sent[k] == s.sent[k];
        var i: nat :| SentTo(x, env, before, i, root, s.sent[k]);
        SentToMore(x, env, before, d, i, root, s.sent[k]);
      }
    }
    forall k, l | |s0.sent| <= k < l < |t.sent| && Numbered(t.sent[k]) && Numbered(t.sent[l])
      ensures Source(t.sent[k].env) != Source(t.sent[l].env)
    {
      if k < |s.sent| {
        assert t.sent[k] == s.sent[k];
        if l < |s.sent| {
          assert t.sent[l] == s.sent[l];
        } else {
          var i: nat :| SentTo(x, env, before, i, root, s.sent[k]);
          SentToMore(x, env, before, d, i, root, s.sent[k]);
          var j :| 0 <= j < |before| && Source(s.sent[k].env) == Endpoint(before[j].ref, before[j].port);
          assert dests[j] == before[j] && dests[|before|] == d;
          LastSource(x, env, dests, root, t.sent[l]);
        }
      }
    }
  }

  lemma LastSource(x: SpecValue, env: Envelope, dests: seq<Dest>, root: Id, sent: Send)
    requires dests != [] && SentTo(x, env, dests, |dests| - 1, root, sent)
    ensures Source(sent.env) == Endpoint(dests[|dests| - 1].ref, dests[|dests| - 1].port)
  {
    hide HandedAt;
  }

  /** What the last destination adds. */
  lemma LastSent(c: Config, w: World, s: State, env: Envelope, before: seq<Dest>, d: Dest, root: Id, x: SpecValue)
    requires s.spec == SpecAfter(x, env, before, root)
    ensures var t, dests := ToDestF(c, w, s, env, d, root), before + [d];
            && s.sent <= t.sent
            && (forall k :: |s.sent| <= k < |t.sent| && Numbered(t.sent[k]) ==> SentTo(x, env, dests, |before|, root, t.sent[k]))
            && (forall k, l :: |s.sent| <= k < l < |t.sent| ==> !(Numbered(t.sent[k]) && Numbered(t.sent[l])))
  {
    hide ForwardF, ForwardSpeculativelyF, EdgeStep, SpecAfter, Conveys, Numbered;
    assert (before + [d])[..|before|] == before;
    if Guesses(env, d, root) {
      EdgeSends(c, w, s, env, d, root);
    } else if d.speculative || d.gate != HumanApproval {
      ForwardHandsOn(c, w, s, env, d, NoId);
      assert env.(payload := env.payload) == env;
      OffEdgeForward(c, w, s, env, d, root);
    } else {
      HoldNotices(s, env, d);
    }
  }

  lemma OffEdgeForward(c: Config, w: World, s: State, env: Envelope, d: Dest, root: Id)
    requires !Guesses(env, d, root) && (d.speculative || d.gate != HumanApproval)
    ensures ToDestF(c, w, s, env, d, root) == ForwardF(c, w, s, env, d, NoId)
  {
    hide ForwardF;
  }

  lemma {:induction false} ToDestsSend(c: Config, w: World, s: State, env: Envelope, dests: seq<Dest>, root: Id)
    requires Endpoints(dests)
    ensures AllSentTo(s.spec, env, dests, root, s, ToDestsF(c, w, s, env, dests, root))
  {
    hide ToDestF, AllSentTo, SpecAfter;
    if dests == [] {
      NoneSent(s, env, root);
    } else {
      var before, d := dests[..|dests| - 1], dests[|dests| - 1];
      assert Endpoints(before) by { assert forall i :: 0 <= i < |before| ==> before[i] == dests[i]; }
      ToDestsSend(c, w, s, env, before, root);
      ToDestsSpec(c, w, s, env, before, root);
      assert before + [d] == dests;
      OneMoreSent(c, w, ToDestsF(c, w, s, env, before, root), env, before, d, root, s);
    }
  }

  lemma NoneSent(s: State, env: Envelope, root: Id)
    ensures AllSentTo(s.spec, env, [], root, s, s)
  {
  }

  /** What routing one message hands to the transport: to each of its destinations at
      most one delivery, of what that destination was handed. */
  lemma RouteSends(c: Config, w: World, s: State, env: Envelope)
    requires DistinctEdges(c) && env.kind != ConfirmResponse
    ensures var t, dests := RouteF(c, w, s, env), DestsAt(c.routes, Source(env));
            if Routed(s, env) then AllSentTo(s.spec, env, dests, RootOf(s, env), s, t) else t.sent == s.sent
  {
    hide ToDestsF, SeenF, AttestF, CancelTarget, AllSentTo;
    var logged, dests := s.(log := s.log + [env]), DestsAt(c.routes, Source(env));
    assert Endpoints(dests);
    if Routed(s, env) {
      var seen := if env.kind == Data then logged.(dedup := SeenF(s.dedup, env.idem)) else logged;
      var noted := seen.(attests := if env.attest == "" then seen.attests
                                    else AttestF(seen.attests, MAX_ATTEST_PER_ROOT, RootOf(seen, env), w.attest(env.attest)));
      ToDestsSend(c, w, noted, env, dests, RootOf(s, env));
      SentFrom(noted, s, RouteF(c, w, s, env), env, dests, RootOf(s, env));
    }
  }

  lemma SentFrom(s: State, s': State, t: State, env: Envelope, dests: seq<Dest>, root: Id)
    requires AllSentTo(s.spec, env, dests, root, s, t) && s'.sent == s.sent && s'.spec == s.spec
    ensures AllSentTo(s'.spec, env, dests, root, s', t)
  {
    hide SentTo;
  }

  /** Some delivery made from `s` to `t` conveys what the n-th destination was handed. */
  ghost predicate WasSent(x: SpecValue, env: Envelope, dests: seq<Dest>, n: nat, root: Id, s: State, t: State) {
    exists k :: |s.sent| <= k < |t.sent| && Numbered(t.sent[k]) && SentTo(x, env, dests, n, root, t.sent[k])
  }

  lemma PlainEdgeSent(c: Config, w: World, s: State, env: Envelope, d: Dest, root: Id)
    requires Guesses(env, d, root) && PlainEdge(c, d) && Carries(w) && env.deadline == 0
    requires EdgeStep(s.spec, SpecKey(root, d.from), env).handed != []
    ensures var t, p := ToDestF(c, w, s, env, d, root), EdgeStep(s.spec, SpecKey(root, d.from), env).handed[0];
            t.sent != [] && |t.sent| > |s.sent| && Numbered(t.sent[|t.sent| - 1])
            && Conveys(t.sent[|t.sent| - 1], env.(payload := p), d, NoId)
  {
    hide ForwardF, AbandonAllF, EdgeStep, PlainEdge;
    EdgeMoves(c, w, s, env, d, root);
    var y, t := EdgeStep(s.spec, SpecKey(root, d.from), env), ToDestF(c, w, s, env, d, root);
    hide ToDestF;
    var src := env.(payload := y.handed[0]);
    var x :| t == ForwardF(c, w, AbandonAllF(s.(spec := x), y.stale, d), src, d, NoId).(spec := y.index);
    var m := AbandonAllF(s.(spec := x), y.stale, d);
    AbandonNotices(s.(spec := x), y.stale, d);
    PlainForward(c, w, m, src, d, NoId);
  }

  lemma {:induction false} ToDestsSent(c: Config, w: World, s: State, env: Envelope, dests: seq<Dest>, n: nat, root: Id)
    requires n < |dests| && Guesses(env, dests[n], root) && HandedAt(s.spec, env, dests, n, root) != []
    requires PlainEdge(c, dests[n]) && Carries(w) && env.deadline == 0 && Endpoints(dests)
    ensures WasSent(s.spec, env, dests, n, root, s, ToDestsF(c, w, s, env, dests, root))
    decreases |dests|
  {
    hide EdgeStep, SpecAfter, ToDestF, PlainEdge, Conveys, Numbered;
    var before, d := dests[..|dests| - 1], dests[|dests| - 1];
    var s1, t := ToDestsF(c, w, s, env, before, root), ToDestsF(c, w, s, env, dests, root);
    assert Endpoints(before) by { assert forall i :: 0 <= i < |before| ==> before[i] == dests[i]; }
    assert before + [d] == dests;
    ToDestsSend(c, w, s, env, before, root);
    ToDestsSpec(c, w, s, env, before, root);
    if n == |dests| - 1 {
      PlainEdgeSent(c, w, s1, env, d, root);
      assert SentTo(s.spec, env, dests, n, root, t.sent[|t.sent| - 1]);
    } else {
      assert before[..n] == dests[..n];
      ToDestsSent(c, w, s, env, before, n, root);
      LastSent(c, w, s1, env, before, d, root, s.spec);
      var k :| |s.sent| <= k < |s1.sent| && Numbered(s1.sent[k]) && SentTo(s.spec, env, before, n, root, s1.sent[k]);
      SentToMore(s.spec, env, before, d, n, root, s1.sent[k]);
      assert t.sent[k] == s1.sent[k];
    }
  }

  /** On a speculating edge that nothing stands in the way of, routing a message hands
      the transport one delivery of exactly what the stream hands on, or none when that
      is nothing. */
  lemma EdgeSentIff(c: Config, w: World, s: State, env: Envelope, n: nat)
    requires DistinctEdges(c) && Routed(s, env) && n < |DestsAt(c.routes, Source(env))|
    requires var d := DestsAt(c.routes, Source(env))[n];
             Guesses(env, d, RootOf(s, env)) && PlainEdge(c, d) && Carries(w) && env.deadline == 0
    ensures var t, dests, root := RouteF(c, w, s, env), DestsAt(c.routes, Source(env)), RootOf(s, env);
            && AllSentTo(s.spec, env, dests, root, s, t)
            && (HandedAt(s.spec, env, dests, n, root) != [] <==> WasSent(s.spec, env, dests, n, root, s, t))
  {
    hide ToDestsF, SeenF, AttestF, AllSentTo, HandedAt, PlainEdge;
    RouteSends(c, w, s, env);
    var logged, dests, root := s.(log := s.log + [env]), DestsAt(c.routes, Source(env)), RootOf(s, env);
    var seen := if env.kind == Data then logged.(dedup := SeenF(s.dedup, env.idem)) else logged;
    var noted := seen.(attests := if env.attest == "" then seen.attests
                                  else AttestF(seen.attests, MAX_ATTEST_PER_ROOT, RootOf(seen, env), w.attest(env.attest)));
    if HandedAt(s.spec, env, dests, n, root) != [] {
      ToDestsSent(c, w, noted, env, dests, n, root);
    }
  }

  // ---- Streams do not touch each other ----

  ghost predicate Room(x: SpecValue) {
    Valid(x.states) && |x.states.order| < x.states.max
  }

  /** `y` differs from `x` at most on this stream. */
  ghost predicate OnlyAt(x: SpecValue, y: SpecValue, key: SpecKey) {
    Valid(y.states) && y.states.max == x.states.max && y.states.m - {key} == x.states.m - {key}
  }

  lemma RoomStays(x: SpecValue, y: SpecValue, key: SpecKey)
    requires Room(x) && OnlyAt(x, y, key)
    ensures key in y.states.m || |y.states.order| < y.states.max
  {
    OrderSize(x.states);
    OrderSize(y.states);
    if key !in y.states.m {
      assert y.states.m == x.states.m - {key};
      assert y.states.m.Keys <= x.states.m.Keys;
      Fewer(y.states.m.Keys, x.states.m.Keys);
    }
  }

  lemma EdgeStepOnlyAt(x: SpecValue, key: SpecKey, env: Envelope)
    requires Valid(x.states) && (key in x.states.m || |x.states.order| < x.states.max)
    ensures OnlyAt(x, EdgeStep(x, key, env).index, key)
  {
    hide Put, Remove, Accumulate;
    var st := Get(x.states, key, FRESH);
    var folded := st.(accumulated := Accumulate(env.schema, st.accumulated, env.payload));
    PutValid(x.states, key, folded);
    var y := Put(x.states, key, folded);
    PutValid(y, key, folded.(speculatedOn := folded.accumulated, deliveries := folded.deliveries + [env.id]));
    RemoveValid(y, key);
  }

  lemma {:induction false} SpecAfterOnlyAt(x: SpecValue, env: Envelope, dests: seq<Dest>, root: Id, from: Endpoint)
    requires Room(x) && forall d :: d in dests ==> d.from == from
    ensures OnlyAt(x, SpecAfter(x, env, dests, root), SpecKey(root, from))
  {
    hide EdgeStep, Valid;
    if dests != [] {
      var before, d := dests[..|dests| - 1], dests[|dests| - 1];
      assert d in dests;
      SpecAfterOnlyAt(x, env, before, root, from);
      var y := SpecAfter(x, env, before, root);
      if Guesses(env, d, root) {
        RoomStays(x, y, SpecKey(root, from));
        EdgeStepOnlyAt(y, SpecKey(root, from), env);
      }
    }
  }

  lemma OtherStream(x: SpecValue, y: SpecValue, key: SpecKey, other: SpecKey)
    requires OnlyAt(x, y, key) && other != key
    ensures Get(y.states, other, FRESH) == Get(x.states, other, FRESH)
  {
    assert other in y.states.m <==> other in y.states.m - {key};
    assert other in x.states.m <==> other in x.states.m - {key};
  }

  // ---- One speculating destination ----

  ghost predicate OnlySpeculates(dests: seq<Dest>, n: nat) {
    n < |dests| && forall i :: 0 <= i < |dests| ==> (dests[i].speculative <==> i == n)
  }

  lemma {:induction false} QuietDests(x: SpecValue, env: Envelope, dests: seq<Dest>, root: Id)
    requires forall d :: d in dests ==> !Guesses(env, d, root)
    ensures SpecAfter(x, env, dests, root) == x
  {
    if dests != [] {
      assert dests[|dests| - 1] in dests;
      QuietDests(x, env, dests[..|dests| - 1], root);
    }
  }

  lemma {:induction false} LoneEdge(x: SpecValue, env: Envelope, dests: seq<Dest>, n: nat, root: Id)
    requires OnlySpeculates(dests, n) && Guesses(env, dests[n], root)
    ensures SpecAfter(x, env, dests[..n], root) == x
    ensures SpecAfter(x, env, dests, root) == EdgeStep(x, SpecKey(root, dests[n].from), env).index
    decreases |dests|
  {
    hide EdgeStep;
    QuietDests(x, env, dests[..n], root);
    var last := |dests| - 1;
    if n < last {
      var before := dests[..last];
      assert before[..n] == dests[..n];
      LoneEdge(x, env, before, n, root);
    }
  }

  // ---- A session instance ----

  /** One instance: only arrivals, and the index never full when one comes. */
  ghost predicate Instance(c: Config, s: State, inputs: seq<Input>) {
    inputs != [] ==>
      var before := inputs[..|inputs| - 1];
      Instance(c, s, before) && inputs[|inputs| - 1].Arrive?
      && |Live(c, s, before).spec.states.order| < Live(c, s, before).spec.states.max
  }

  /** A message of R's chain, said by this endpoint and routed. */
  ghost predicate Speaks(s: State, env: Envelope, from: Endpoint, R: Id) {
    Routed(s, env) && env.kind == Data && Source(env) == from && RootOf(s, env) == R
  }

  /** What the endpoint said for R's chain. */
  ghost function Said(c: Config, s: State, inputs: seq<Input>, from: Endpoint, R: Id): seq<Envelope> {
    if inputs == [] then []
    else
      var before, last := inputs[..|inputs| - 1], inputs[|inputs| - 1];
      if last.Arrive? && Speaks(Live(c, s, before), last.env, from, R) then Said(c, s, before, from, R) + [last.env]
      else Said(c, s, before, from, R)
  }

  /** What the n-th destination of the endpoint was handed for R's chain, and the
      guesses given up on it. */
  ghost function OnEdge(c: Config, s: State, inputs: seq<Input>, from: Endpoint, n: nat, R: Id): Stream
    requires n < |DestsAt(c.routes, from)|
  {
    if inputs == [] then Stream(s.spec, [], [])
    else
      var before, last := inputs[..|inputs| - 1], inputs[|inputs| - 1];
      var so, live, dests := OnEdge(c, s, before, from, n, R), Live(c, s, before), DestsAt(c.routes, from);
      if last.Arrive? && Speaks(live, last.env, from, R) then
        var y := EdgeStep(SpecAfter(live.spec, last.env, dests[..n], R), SpecKey(R, dests[n].from), last.env);
        Stream(y.index, so.handed + y.handed, so.stale + y.stale)
      else so
  }

  /** Everything said, folded at once. */
  ghost function Whole(envs: seq<Envelope>): Payload {
    if envs == [] then Absent
    else Accumulate(envs[|envs| - 1].schema, Whole(envs[..|envs| - 1]), envs[|envs| - 1].payload)
  }

  ghost predicate Partials(envs: seq<Envelope>) {
    forall i :: 0 <= i < |envs| ==> !IsFinal(envs[i].payload)
  }

  /** A producer's turn: partials, then one final. */
  ghost predicate OneTurn(envs: seq<Envelope>) {
    envs != [] && Partials(envs[..|envs| - 1]) && IsFinal(envs[|envs| - 1].payload)
  }

  ghost function EnvIds(envs: seq<Envelope>): seq<Id> {
    seq(|envs|, i requires 0 <= i < |envs| => envs[i].id)
  }

  /** The wiring files every destination under its source. */
  ghost predicate FiledBySource(c: Config) {
    forall from, d :: d in DestsAt(c.routes, from) ==> d.from == from
  }

  lemma WiredBySource(c: Config, edges: seq<Edge>, resolved: map<string, Skill>, published: bool)
    requires WiredFrom(c, edges, resolved, published)
    ensures FiledBySource(c)
  {
    forall from, d | d in DestsAt(c.routes, from) ensures d.from == from {
      WiredIsAuthorized(edges, resolved, c.pol, published, from, d);
    }
  }

  /** Where a stream that nothing was left over from stands after partials. */
  ghost predicate Guessed(x: SpecValue, key: SpecKey, envs: seq<Envelope>) {
    Get(x.states, key, FRESH) == if envs == [] then FRESH else SpecState(Whole(envs), Whole(envs), EnvIds(envs))
  }

  /** An arrival that is not the stream's leaves it alone. */
  lemma Elsewhere(c: Config, s: State, env: Envelope, w: World, from: Endpoint, R: Id)
    requires FiledBySource(c) && Room(s.spec) && !Speaks(s, env, from, R) && R != NoId
    ensures var t := RouteF(c, w, s, env);
            && Valid(t.spec.states) && t.spec.states.max == s.spec.states.max
            && Get(t.spec.states, SpecKey(R, from), FRESH) == Get(s.spec.states, SpecKey(R, from), FRESH)
  {
    hide RouteF, EdgeStep, SpecAfter, Valid;
    RouteSpec(c, w, s, env);
    var root, dests := RootOf(s, env), DestsAt(c.routes, Source(env));
    if Routed(s, env) {
      SpecAfterOnlyAt(s.spec, env, dests, root, Source(env));
      if env.kind != Data {
        QuietDests(s.spec, env, dests, root);
      } else {
        OtherStream(s.spec, SpecAfter(s.spec, env, dests, root), SpecKey(root, Source(env)), SpecKey(R, from));
      }
    }
  }

  /** The stream's own arrival moves it as its lone edge does. */
  lemma OnItsEdge(c: Config, s: State, env: Envelope, w: World, from: Endpoint, n: nat, R: Id)
    requires FiledBySource(c) && OnlySpeculates(DestsAt(c.routes, from), n) && Speaks(s, env, from, R) && R != NoId
    ensures var x := EdgeStep(s.spec, SpecKey(R, from), env);
            && RouteF(c, w, s, env).spec == x.index
            && SpecAfter(s.spec, env, DestsAt(c.routes, from)[..n], R) == s.spec
  {
    hide RouteF, EdgeStep, SpecAfter;
    RouteSpec(c, w, s, env);
    LoneEdge(s.spec, env, DestsAt(c.routes, from), n, R);
  }

  lemma WholeMore(envs: seq<Envelope>, env: Envelope)
    ensures Whole(envs + [env]) == Accumulate(env.schema, Whole(envs), env.payload)
    ensures EnvIds(envs + [env]) == EnvIds(envs) + [env.id]
  {
    assert (envs + [env])[..|envs|] == envs;
  }

  lemma PartialStep(x: SpecValue, key: SpecKey, envs: seq<Envelope>, env: Envelope)
    requires Valid(x.states) && Guessed(x, key, envs) && !IsFinal(env.payload)
    ensures var y := EdgeStep(x, key, env);
            && Valid(y.index.states) && y.index.states.max == x.states.max && Guessed(y.index, key, envs + [env])
            && y.handed == [MarkFinal(Whole(envs + [env]))] && y.stale == []
  {
    WholeMore(envs, env);
    hide Accumulate, MarkFinal, Whole, OnPartial, OnFinal, Valid, Get, EnvIds;
    assert EnvIds([]) == [] by { EnvIdsLength([]); }
    AfterPartial(Stream(x, [], []), key, env.schema, ChunkOf(env));
    assert Whole([]) == Absent by { WholeNothing(); }
  }

  lemma WholeNothing()
    ensures Whole([]) == Absent
  {
  }

  lemma EnvIdsLength(envs: seq<Envelope>)
    ensures |EnvIds(envs)| == |envs|
  {
  }

  // ---- Meaning is kept ----

  /** A guess was made and had the content of the whole already. */
  ghost predicate Hit(envs: seq<Envelope>)
    requires envs != []
  {
    var partials := envs[..|envs| - 1];
    partials != [] && Whole(partials) != Absent && ContentEqual(Whole(partials), Whole(envs))
  }

  lemma FinalStep(x: SpecValue, key: SpecKey, partials: seq<Envelope>, env: Envelope)
    requires Valid(x.states) && Guessed(x, key, partials) && IsFinal(env.payload)
    ensures var y, envs := EdgeStep(x, key, env), partials + [env];
            && y.handed == (if Hit(envs) then [] else [Whole(envs)])
            && y.stale == (if Hit(envs) || Whole(partials) == Absent then [] else EnvIds(partials))
  {
    WholeMore(partials, env);
    assert (partials + [env])[..|partials|] == partials;
    hide Accumulate, MarkFinal, Whole, OnPartial, OnFinal, Valid, Get, EnvIds, Content;
    AfterFinal(Stream(x, [], []), key, env.schema, ChunkOf(env));
    if partials == [] { WholeNothing(); }
  }

  ghost predicate Fresh(s: State, from: Endpoint, R: Id) {
    Valid(s.spec.states) && Get(s.spec.states, SpecKey(R, from), FRESH) == FRESH
  }

  /** While only partials were said: the stream holds their fold, and the edge was
      handed a guess for each, the last of them that fold. */
  lemma {:induction false} PartialsKept(c: Config, s: State, inputs: seq<Input>, from: Endpoint, n: nat, R: Id)
    requires FiledBySource(c) && OnlySpeculates(DestsAt(c.routes, from), n) && R != NoId
    requires Fresh(s, from, R) && Instance(c, s, inputs) && Partials(Said(c, s, inputs, from, R))
    ensures var so, envs, x := OnEdge(c, s, inputs, from, n, R), Said(c, s, inputs, from, R), Live(c, s, inputs).spec;
            && Valid(x.states) && x.states.max == s.spec.states.max && Guessed(x, SpecKey(R, from), envs)
            && so.stale == [] && |so.handed| == |envs|
            && (envs != [] ==> so.handed[|envs| - 1] == MarkFinal(Whole(envs)))
  {
    hide RouteF, EdgeStep, SpecAfter, Speaks, FiledBySource, OnlySpeculates, Valid, Guessed, Whole, MarkFinal, IsFinal;
    if inputs == [] {
      StartsFresh(s.spec, SpecKey(R, from));
    } else {
      var before, last := inputs[..|inputs| - 1], inputs[|inputs| - 1];
      var live, envs, dests := Live(c, s, before), Said(c, s, before, from, R), DestsAt(c.routes, from);
      EarlierPartials(c, s, inputs, from, R);
      PartialsKept(c, s, before, from, n, R);
      if Speaks(live, last.env, from, R) {
        OnItsEdge(c, live, last.env, last.w, from, n, R);
        PartialStep(live.spec, SpecKey(R, from), envs, last.env);
        FiledAt(c, from, n);
      } else {
        Elsewhere(c, live, last.env, last.w, from, R);
        StillGuessed(live.spec, RouteF(c, last.w, live, last.env).spec, SpecKey(R, from), envs);
      }
    }
  }

  lemma StartsFresh(x: SpecValue, key: SpecKey)
    requires Get(x.states, key, FRESH) == FRESH
    ensures Guessed(x, key, [])
  {
  }

  lemma StillGuessed(x: SpecValue, y: SpecValue, key: SpecKey, envs: seq<Envelope>)
    requires Guessed(x, key, envs) && Get(y.states, key, FRESH) == Get(x.states, key, FRESH)
    ensures Guessed(y, key, envs)
  {
  }

  lemma EarlierPartials(c: Config, s: State, inputs: seq<Input>, from: Endpoint, R: Id)
    requires inputs != [] && Partials(Said(c, s, inputs, from, R))
    ensures Partials(Said(c, s, inputs[..|inputs| - 1], from, R))
    ensures var last, live := inputs[|inputs| - 1], Live(c, s, inputs[..|inputs| - 1]);
            last.Arrive? && Speaks(live, last.env, from, R) ==> !IsFinal(last.env.payload)
  {
    hide Speaks, IsFinal;
    var before, last := inputs[..|inputs| - 1], inputs[|inputs| - 1];
    var envs := Said(c, s, before, from, R);
    if last.Arrive? && Speaks(Live(c, s, before), last.env, from, R) {
      assert Said(c, s, inputs, from, R) == envs + [last.env];
      assert (envs + [last.env])[|envs|] == last.env;
      assert forall i :: 0 <= i < |envs| ==> (envs + [last.env])[i] == envs[i];
    }
  }

  lemma FiledAt(c: Config, from: Endpoint, n: nat)
    requires FiledBySource(c) && OnlySpeculates(DestsAt(c.routes, from), n)
    ensures DestsAt(c.routes, from)[n].from == from
  {
    assert DestsAt(c.routes, from)[n] in DestsAt(c.routes, from);
  }

  /** The last thing handed to the edge says all its producer said. */
  ghost predicate Kept(c: Config, s: State, inputs: seq<Input>, from: Endpoint, n: nat, R: Id)
    requires n < |DestsAt(c.routes, from)|
  {
    var so := OnEdge(c, s, inputs, from, n, R);
    so.handed != [] && ContentEqual(so.handed[|so.handed| - 1], Whole(Said(c, s, inputs, from, R)))
  }

  /** Speculation preserves meaning. In any session instance, whatever else arrives in
      between, on an endpoint's one speculating destination: once a turn is over, the
      last payload handed to forward has the content of the whole turn folded at once,
      one forward was made per partial and one more unless the guess stood, and on a
      miss the guesses given up are exactly those made. */
  lemma {:induction false} MeaningKept(c: Config, s: State, inputs: seq<Input>, from: Endpoint, n: nat, R: Id)
    requires FiledBySource(c) && OnlySpeculates(DestsAt(c.routes, from), n) && R != NoId
    requires Fresh(s, from, R) && Instance(c, s, inputs) && OneTurn(Said(c, s, inputs, from, R))
    ensures var so, envs := OnEdge(c, s, inputs, from, n, R), Said(c, s, inputs, from, R);
            var partials := envs[..|envs| - 1];
            && Kept(c, s, inputs, from, n, R)
            && |so.handed| == |partials| + (if Hit(envs) then 0 else 1)
            && so.stale == (if Hit(envs) || Whole(partials) == Absent then [] else EnvIds(partials))
  {
    hide RouteF, EdgeStep, SpecAfter, Speaks, FiledBySource, Valid, Guessed, Whole, MarkFinal, IsFinal, EnvIds;
    var before, last := inputs[..|inputs| - 1], inputs[|inputs| - 1];
    var live, envs := Live(c, s, before), Said(c, s, before, from, R);
    if Speaks(live, last.env, from, R) {
      assert (envs + [last.env])[..|envs|] == envs;
      PartialsKept(c, s, before, from, n, R);
      OnItsEdge(c, live, last.env, last.w, from, n, R);
      FiledAt(c, from, n);
      FinalStep(live.spec, SpecKey(R, from), envs, last.env);
      MarkFinalKeepsContent(Whole(envs));
      hide ContentEqual, OneTurn, Partials;
      FinalHanded(OnEdge(c, s, before, from, n, R).handed, EdgeStep(live.spec, SpecKey(R, from), last.env).handed, envs, last.env);
    } else {
      MeaningKept(c, s, before, from, n, R);
    }
  }

  lemma FinalHanded(handed: seq<Payload>, more: seq<Payload>, partials: seq<Envelope>, env: Envelope)
    requires var envs := partials + [env]; more == if Hit(envs) then [] else [Whole(envs)]
    requires |handed| == |partials| && (partials != [] ==> handed[|partials| - 1] == MarkFinal(Whole(partials)))
    requires Content(MarkFinal(Whole(partials))) == Content(Whole(partials))
    ensures var envs, all := partials + [env], handed + more;
            && all != [] && ContentEqual(all[|all| - 1], Whole(envs))
            && |all| == |partials| + (if Hit(envs) then 0 else 1)
  {
    hide Whole, MarkFinal, Content;
    assert (partials + [env])[..|partials|] == partials;
  }

  /** An instance, new or rebuilt after any run, starts with every stream fresh. */
  lemma InstanceStartsFresh(c: Config, earlier: seq<Input>, from: Endpoint, R: Id)
    requires earlier == [] || earlier[|earlier| - 1].Crash?
    ensures Fresh(Run(c, earlier), from, R) && Room(Run(c, earlier).spec)
  {
  }

  /** Meaning is kept, of any graph as wired, by any instance: after the first turn of
      any chain's producer that has one speculating edge, in a session new or rebuilt
      after any run, its edge was last handed all the producer said. */
  lemma WiredMeaningKept(c: Config, edges: seq<Edge>, resolved: map<string, Skill>, published: bool,
                         earlier: seq<Input>, inputs: seq<Input>, from: Endpoint, n: nat, R: Id)
    requires WiredFrom(c, edges, resolved, published) && (earlier == [] || earlier[|earlier| - 1].Crash?)
    requires OnlySpeculates(DestsAt(c.routes, from), n) && R != NoId
    requires Instance(c, Run(c, earlier), inputs) && OneTurn(Said(c, Run(c, earlier), inputs, from, R))
    ensures Kept(c, Run(c, earlier), inputs, from, n, R)
  {
    hide Run, WiredFrom, Kept, Fresh, Instance, OneTurn;
    WiredBySource(c, edges, resolved, published);
    InstanceStartsFresh(c, earlier, from, R);
    MeaningKept(c, Run(c, earlier), inputs, from, n, R);
  }

  // ---- Two speculating destinations share one stream ----

  ghost predicate AtMostOne(dests: seq<Dest>) {
    forall i, j :: 0 <= i < j < |dests| ==> !(dests[i].speculative && dests[j].speculative)
  }

  /** Speculating destinations `i` and, next after it, `j`. */
  ghost predicate TwoEdges(c: Config, from: Endpoint, i: nat, j: nat) {
    var dests := DestsAt(c.routes, from);
    i < j < |dests| && dests[j].speculative && OnlySpeculates(dests[..j], i)
  }

  lemma FindTwo(dests: seq<Dest>) returns (i: nat, j: nat)
    requires !AtMostOne(dests)
    ensures i < j < |dests| && dests[j].speculative && OnlySpeculates(dests[..j], i)
  {
    i, j :| 0 <= i < j < |dests| && dests[i].speculative && dests[j].speculative;
    while exists k :: 0 <= k < j && k != i && dests[k].speculative
      invariant 0 <= i < j < |dests| && dests[i].speculative && dests[j].speculative
      decreases i + j
    {
      var k :| 0 <= k < j && k != i && dests[k].speculative;
      if k < i { i, j := k, i; } else { j := k; }
    }
  }

  /** The same message moves the stream once for each edge before it reaches the next. */
  lemma SecondEdge(x: SpecValue, env: Envelope, dests: seq<Dest>, i: nat, j: nat, R: Id, from: Endpoint)
    requires i < j < |dests| && OnlySpeculates(dests[..j], i) && Guesses(env, dests[i], R) && dests[i].from == from
    ensures SpecAfter(x, env, dests[..i], R) == x
    ensures SpecAfter(x, env, dests[..j], R) == EdgeStep(x, SpecKey(R, from), env).index
  {
    hide EdgeStep;
    var part := dests[..j];
    assert part[..i] == dests[..i];
    LoneEdge(x, env, part, i, R);
  }

  ghost function TextOn(x: Stream): string
    requires x.handed != []
  {
    TextOf(x.handed[|x.handed| - 1])
  }

  lemma OneArrival(c: Config, s: State, env: Envelope, w: World, from: Endpoint, i: nat, j: nat, R: Id)
    requires FiledBySource(c) && TwoEdges(c, from, i, j) && Speaks(s, env, from, R) && R != NoId
    ensures var x, key := s.spec, SpecKey(R, from);
            && Said(c, s, [Arrive(env, w)], from, R) == [env]
            && OnEdge(c, s, [Arrive(env, w)], from, i, R).handed == EdgeStep(x, key, env).handed
            && OnEdge(c, s, [Arrive(env, w)], from, j, R).handed == EdgeStep(EdgeStep(x, key, env).index, key, env).handed
  {
    hide EdgeStep, SpecAfter, Speaks, RouteF;
    var inputs, dests := [Arrive(env, w)], DestsAt(c.routes, from);
    assert inputs[..0] == [] && Live(c, s, []) == s;
    assert Said(c, s, inputs[..0], from, R) == [] && [] + [env] == [env];
    assert dests[i] in dests && dests[j] in dests;
    SpokenData(s, env, from, R);
    assert dests[..j][i] == dests[i];
    SecondEdge(s.spec, env, dests, i, j, R, from);
    var y, z := EdgeStep(s.spec, SpecKey(R, from), env), EdgeStep(EdgeStep(s.spec, SpecKey(R, from), env).index, SpecKey(R, from), env);
    assert OnEdge(c, s, inputs[..0], from, i, R) == OnEdge(c, s, inputs[..0], from, j, R) == Stream(s.spec, [], []);
    assert [] + y.handed == y.handed && [] + z.handed == z.handed;
  }

  lemma SpokenData(s: State, env: Envelope, from: Endpoint, R: Id)
    requires Speaks(s, env, from, R)
    ensures env.kind == Data
  {
  }

  /** A first partial of text: the first edge is handed it, the next one twice over. */
  lemma TwoEdgesPartial(c: Config, s: State, env: Envelope, w: World, from: Endpoint, i: nat, j: nat, R: Id)
    requires FiledBySource(c) && TwoEdges(c, from, i, j) && Speaks(s, env, from, R) && R != NoId && Fresh(s, from, R)
    requires env.schema == SCHEMA_TEXT && IsText(env.payload) && !IsFinal(env.payload)
    ensures var t, inputs := TextOf(env.payload), [Arrive(env, w)];
            var first, second := OnEdge(c, s, inputs, from, i, R), OnEdge(c, s, inputs, from, j, R);
            && first.handed != [] && TextOn(first) == t
            && second.handed != [] && TextOn(second) == t + t
  {
    OneArrival(c, s, env, w, from, i, j, R);
    TwicePartial(s.spec, SpecKey(R, from), env);
  }

  lemma TwicePartial(x: SpecValue, key: SpecKey, env: Envelope)
    requires Valid(x.states) && Get(x.states, key, FRESH) == FRESH
    requires env.schema == SCHEMA_TEXT && IsText(env.payload) && !IsFinal(env.payload)
    ensures var y := EdgeStep(x, key, env);
            var z, t := EdgeStep(y.index, key, env), TextOf(env.payload);
            && y.handed != [] && TextOn(y) == t && z.handed != [] && TextOn(z) == t + t
  {
    hide Accumulate, MarkFinal, OnPartial, OnFinal, Valid, Get, TextOf, IsText;
    var c := ChunkOf(env);
    var y := EdgeStep(x, key, env);
    AfterPartial(Stream(x, [], []), key, SCHEMA_TEXT, c);
    AfterPartial(Stream(y.index, [], []), key, SCHEMA_TEXT, c);
    var one := Accumulate(SCHEMA_TEXT, Absent, env.payload);
    var two := Accumulate(SCHEMA_TEXT, one, env.payload);
    AccumulateText(Absent, env.payload);
    AccumulateText(one, env.payload);
    MarkFinalKeepsText(one);
    MarkFinalKeepsText(two);
    NoText();
  }

  lemma NoText()
    ensures TextOf(Absent) == "" && forall t: string :: "" + t == t
  {
  }

  lemma MarkFinalKeepsText(p: Payload)
    ensures TextOf(MarkFinal(p)) == TextOf(p)
  {
  }

  /** A whole message of text: the first edge is handed it, the next one twice over. */
  lemma TwoEdgesWhole(c: Config, s: State, env: Envelope, w: World, from: Endpoint, i: nat, j: nat, R: Id)
    requires FiledBySource(c) && TwoEdges(c, from, i, j) && Speaks(s, env, from, R) && R != NoId && Fresh(s, from, R)
    requires env.schema == SCHEMA_TEXT && IsText(env.payload) && IsFinal(env.payload)
    ensures var u, inputs := TextOf(env.payload), [Arrive(env, w)];
            var second := OnEdge(c, s, inputs, from, j, R);
            && OneTurn(Said(c, s, inputs, from, R))
            && second.handed != [] && TextOn(second) == u + u
            && (Kept(c, s, inputs, from, j, R) <==> u == "")
  {
    OneArrival(c, s, env, w, from, i, j, R);
    TwiceWhole(s.spec, SpecKey(R, from), env);
    assert [env][..0] == [];
    WholeMore([], env);
    WholeNothing();
    assert [] + [env] == [env];
  }

  lemma TwiceWhole(x: SpecValue, key: SpecKey, env: Envelope)
    requires Valid(x.states) && Get(x.states, key, FRESH) == FRESH
    requires env.schema == SCHEMA_TEXT && IsText(env.payload) && IsFinal(env.payload)
    ensures var z, u := EdgeStep(EdgeStep(x, key, env).index, key, env), TextOf(env.payload);
            && z.handed != [] && TextOn(z) == u + u
            && (ContentEqual(z.handed[|z.handed| - 1], Accumulate(SCHEMA_TEXT, Absent, env.payload)) <==> u == "")
  {
    var so, c := Stream(x, [], []), ChunkOf(env);
    SecondWholeMessage(so, key, c, c);
    hide OnFinal, TextOf, Content, Accumulate, Get, IsText, IsFinal;
    var mid := Turn(so, key, SCHEMA_TEXT, [], c);
    var y := EdgeStep(x, key, env);
    assert IsFinal(env.payload);
    assert OnPartials(so, key, SCHEMA_TEXT, []) == so && OnPartials(mid, key, SCHEMA_TEXT, []) == mid;
    assert mid == y;
    FinalAppends(mid, key, SCHEMA_TEXT, c);
  }

  /** What a final adds does not depend on what the edge was handed before. */
  lemma FinalAppends(x: Stream, key: SpecKey, schema: string, c: Chunk)
    ensures var y, z := OnFinal(x, key, schema, c), OnFinal(Stream(x.index, [], []), key, schema, c);
            y.handed == x.handed + z.handed
  {
    hide FoldF, ResolveF, RunningF, GuessStands, StaleF;
  }

  /** A final on a stream that was guessed on: the first edge's end forgets the stream,
      so the next one is handed the last delta alone. */
  lemma TwoEdgesFinal(c: Config, s: State, env: Envelope, w: World, from: Endpoint, i: nat, j: nat, R: Id)
    requires FiledBySource(c) && TwoEdges(c, from, i, j) && Speaks(s, env, from, R) && R != NoId && IsFinal(env.payload)
    requires Valid(s.spec.states) && Get(s.spec.states, SpecKey(R, from), FRESH).speculatedOn != Absent
    ensures OnEdge(c, s, [Arrive(env, w)], from, j, R).handed == [Accumulate(env.schema, Absent, env.payload)]
  {
    hide RouteF, Speaks, FoldF, ResolveF, Accumulate;
    var key, x := SpecKey(R, from), Stream(s.spec, [], []);
    OneArrival(c, s, env, w, from, i, j, R);
    AfterFinal(x, key, env.schema, ChunkOf(env));
    var y := OnFinal(x, key, env.schema, ChunkOf(env));
    assert EdgeStep(s.spec, key, env) == y;
    AfterFinal(Stream(y.index, [], []), key, env.schema, ChunkOf(env));
  }

  /** Exactly when speculation preserves meaning. Where one more message of R's chain
      can be said by this endpoint on a fresh stream: every turn of the stream, in every
      instance that goes on from here, is kept on every speculating destination if and
      only if the endpoint has at most one. */
  lemma MeaningKeptIff(c: Config, s: State, env: Envelope, from: Endpoint, R: Id)
    requires FiledBySource(c) && Room(s.spec) && Fresh(s, from, R) && R != NoId && Speaks(s, env, from, R)
    ensures (forall inputs, n: nat :: Instance(c, s, inputs) && n < |DestsAt(c.routes, from)|
                                && DestsAt(c.routes, from)[n].speculative && OneTurn(Said(c, s, inputs, from, R))
                                ==> Kept(c, s, inputs, from, n, R))
            <==> AtMostOne(DestsAt(c.routes, from))
  {
    hide Speaks, Kept, OneTurn, FiledBySource, Fresh, Instance, Room;
    var dests := DestsAt(c.routes, from);
    if AtMostOne(dests) {
      forall inputs, n: nat | Instance(c, s, inputs) && n < |dests| && dests[n].speculative && OneTurn(Said(c, s, inputs, from, R))
        ensures Kept(c, s, inputs, from, n, R)
      {
        assert OnlySpeculates(dests, n);
        MeaningKept(c, s, inputs, from, n, R);
      }
    } else {
      var inputs, j := MeaningLost(c, s, env, from, R);
    }
  }

  lemma MeaningLost(c: Config, s: State, env: Envelope, from: Endpoint, R: Id) returns (inputs: seq<Input>, j: nat)
    requires FiledBySource(c) && Room(s.spec) && Fresh(s, from, R) && R != NoId && Speaks(s, env, from, R)
    requires !AtMostOne(DestsAt(c.routes, from))
    ensures Instance(c, s, inputs) && j < |DestsAt(c.routes, from)| && DestsAt(c.routes, from)[j].speculative
    ensures OneTurn(Said(c, s, inputs, from, R)) && !Kept(c, s, inputs, from, j, R)
  {
    var i: nat;
    i, j := FindTwo(DestsAt(c.routes, from));
    var whole := env.(schema := SCHEMA_TEXT, payload := TextPayload("u", true));
    var w := World(n => 0, n => 0, n => true, n => true, n => true, s => "", None);
    assert Speaks(s, whole, from, R);
    assert TextOf(whole.payload) == "u" && IsText(whole.payload) && IsFinal(whole.payload);
    hide Speaks, RouteF, OneTurn, Kept, TextOf, IsText, IsFinal;
    inputs := [Arrive(whole, w)];
    assert inputs[..0] == [];
    TwoEdgesWhole(c, s, whole, w, from, i, j, R);
  }
}
