// Gates over runs of any length: what the limit on reading a log back does to them.

module LongLogs {
  import opened Options
  import opened Envelopes
  import opened BoundedFifo
  import opened Indexes
  import opened Policies
  import opened Wiring
  import opened Speculation
  import opened Kernel
  import opened Frames
  import opened Books
  import opened Chains
  import opened Gates
  import opened Resumes

  // ---- No number is ever written twice. ----

  /** `more` goes on from `log` with the kernel's own entries, each about something that
      arrived, under rising numbers drawn from `lo` up to `hi`. */
  ghost predicate Draws(log: seq<Envelope>, more: seq<Envelope>, lo: nat, hi: nat) {
    && log <= more && lo <= hi
    && (forall i :: |log| <= i < |more| ==> more[i].id.Minted? && lo <= more[i].id.n < hi && more[i].cause.External?)
    && (forall i, j :: |log| <= i < j < |more| ==> more[i].id.n < more[j].id.n)
  }

  lemma DrawsChain(log: seq<Envelope>, mid: seq<Envelope>, more: seq<Envelope>, lo: nat, m: nat, hi: nat)
    requires Draws(log, mid, lo, m) && Draws(mid, more, m, hi)
    ensures Draws(log, more, lo, hi)
  {
    forall i | |log| <= i < |more| ensures more[i].id.Minted? && lo <= more[i].id.n < hi && more[i].cause.External? {
      assert i < |mid| ==> more[i] == mid[i];
    }
    forall i, j | |log| <= i < j < |more| ensures more[i].id.n < more[j].id.n {
      assert i < |mid| ==> more[i] == mid[i];
      assert j < |mid| ==> more[j] == mid[j];
    }
  }

  lemma ErrorDraws(s: State, cause: Id, via: Id)
    requires cause.External?
    ensures Draws(s.log, EmitErrorF(s, cause, via).log, s.mint, EmitErrorF(s, cause, via).mint)
  {
  }

  lemma DeliverDraws(c: Config, w: World, s: State, src: Envelope, out: Envelope, d: Dest, via: Id)
    requires out.id.Minted? && out.id.n < s.mint && src.id.External? && out.cause == src.id
    ensures var t := DeliverF(c, w, s, src, out, d, via); Draws(s.log, t.log, out.id.n, t.mint)
  {
    hide EmitErrorF, Loggable;
    if !Dropped(w, out) {
      var e := Loggable(c, out, d.qos);
      LoggableId(c, out, d.qos);
      var s1 := s.(log := s.log + [e], sent := s.sent + [Send(out, d, via, |s.log|)]);
      ErrorDraws(s1, src.id, via);
      assert Draws(s.log, s1.log, out.id.n, s.mint);
      if !w.send(out.id.n) {
        DrawsChain(s.log, s1.log, EmitErrorF(s1, src.id, via).log, out.id.n, s.mint, EmitErrorF(s1, src.id, via).mint);
      }
    }
  }

  lemma LoggableId(c: Config, out: Envelope, qos: string)
    ensures Loggable(c, out, qos).id == out.id && Loggable(c, out, qos).cause == out.cause
  {
  }

  lemma CheckpointDraws(c: Config, w: World, s: State, src: Envelope, out: Envelope, d: Dest, root: Id, via: Id)
    requires out.id.Minted? && out.id.n < s.mint && src.id.External? && out.cause == src.id
    ensures var t := CheckpointF(c, w, s, src, out, d, root, via); Draws(s.log, t.log, out.id.n, t.mint)
  {
    hide DeliverF, EmitErrorF, DeliveredEntry;
    DeliverDraws(c, w, s, src, out, d, via);
    if c.hasLedger && IsEffectDelivery(d, out.kind) {
      var taken := s.(approved := s.approved - {out.cause});
      ErrorDraws(taken, src.id, via);
      DeliverDraws(c, w, taken, src, out, d, via);
      DeliverDraws(c, w, taken.(ledger := s.ledger + [DeliveredEntry(c, s, out, d, root, via)]),
                   src, out.(receipt := Some(|s.ledger|)), d, via);
    }
  }

  lemma ForwardDraws(c: Config, w: World, s: State, src: Envelope, d: Dest, via: Id)
    requires src.id.External?
    ensures var t := ForwardF(c, w, s, src, d, via); Draws(s.log, t.log, s.mint, t.mint)
  {
    hide CheckpointF, EmitErrorF, Draws;
    ErrorDraws(s, src.id, via);
    if !RateRefused(c, w, s, src, d) {
      var out := Outgoing(w, s, src, d);
      var (consumed, over) := ContextF(c, s, out);
      var s1 := s.(mint := s.mint + 1, seqNo := s.seqNo[Source(out) := out.seqNo], consumed := consumed);
      ErrorDraws(s1, src.id, via);
      DrawsMore(s.log, EmitErrorF(s1, src.id, via).log, s.mint, s1.mint, EmitErrorF(s1, src.id, via).mint);
      CheckpointDraws(c, w, TrackF(s1, src, out), src, out, d, RootOf(s1, src), via);
    }
  }

  lemma DrawsMore(log: seq<Envelope>, more: seq<Envelope>, lo: nat, m: nat, hi: nat)
    requires lo <= m
    ensures Draws(log, more, m, hi) ==> Draws(log, more, lo, hi)
  {
  }

  lemma {:induction false} AbandonDraws(s: State, ids: seq<Id>, d: Dest)
    requires forall i :: 0 <= i < |ids| ==> ids[i].External?
    ensures var t := AbandonAllF(s, ids, d); Draws(s.log, t.log, s.mint, t.mint)
  {
    hide CancelF;
    if ids != [] {
      var s1, t := AbandonAllF(s, ids[..|ids| - 1], d), AbandonAllF(s, ids, d);
      AbandonDraws(s, ids[..|ids| - 1], d);
      assert Draws(s1.log, t.log, s1.mint, t.mint);
      hide Draws, AbandonF;
      DrawsChain(s.log, s1.log, t.log, s.mint, s1.mint, t.mint);
    }
  }

  lemma SpeculativeDraws(c: Config, w: World, s: State, env: Envelope, d: Dest, root: Id)
    requires env.id.External? && GuessesKnown(s.log, s.spec)
    ensures var t := ForwardSpeculativelyF(c, w, s, env, d, root); Draws(s.log, t.log, s.mint, t.mint)
  {
    hide ForwardF, AbandonAllF, FoldF, ResolveF, SpeculateF, StaleF, RunningF, GuessStands, IsFinal, MarkFinal;
    var key := SpecKey(root, d.from);
    var folded := FoldF(s.spec, key, env.schema, env.payload);
    var running := RunningF(folded, key);
    var resolved := s.(spec := ResolveF(folded, key, running));
    var stale := StaleF(folded, key, running);
    var s1 := AbandonAllF(resolved, stale, d);
    var t := ForwardF(c, w, s1, env.(payload := running), d, NoId);
    FoldKeepsGuesses(s.log, s.spec, key, env.schema, env.payload);
    assert AllKnown(s.log, stale);
    ForwardDraws(c, w, s, env, d, NoId);
    ForwardDraws(c, w, s.(spec := folded), env.(payload := MarkFinal(running)), d, NoId);
    AbandonDraws(resolved, stale, d);
    ForwardDraws(c, w, s1, env.(payload := running), d, NoId);
    DrawsChain(s.log, s1.log, t.log, s.mint, s1.mint, t.mint);
  }

  lemma {:induction false} ToDestsDraws(c: Config, w: World, s: State, env: Envelope, dests: seq<Dest>, root: Id)
    requires env.id.External? && Ordered(s) && Known(s, env.id)
    ensures var t := ToDestsF(c, w, s, env, dests, root); Draws(s.log, t.log, s.mint, t.mint)
  {
    hide ForwardF, ForwardSpeculativelyF, RequestEnvelope;
    if dests != [] {
      var before, d := dests[..|dests| - 1], dests[|dests| - 1];
      ToDestsDraws(c, w, s, env, before, root);
      ToDestsOrdered(c, w, s, env, before, root);
      var s1 := ToDestsF(c, w, s, env, before, root);
      var t := ToDestF(c, w, s1, env, d, root);
      SpeculativeDraws(c, w, s1, env, d, root);
      ForwardDraws(c, w, s1, env, d, NoId);
      HoldDraws(s1, env, d);
      hide Draws, HoldF;
      DrawsChain(s.log, s1.log, t.log, s.mint, s1.mint, t.mint);
    }
  }

  lemma HoldDraws(s: State, env: Envelope, d: Dest)
    requires env.id.External?
    ensures Draws(s.log, HoldF(s, env, d).log, s.mint, HoldF(s, env, d).mint)
  {
  }

  lemma ReleaseDraws(c: Config, w: World, s: State, req: Id, held: Held, answer: Envelope, a: Option<Approval>)
    requires held.env.id.External?
    ensures var t := ReleaseF(c, w, s, req, held, answer, a); Draws(s.log, t.log, s.mint, t.mint)
  {
    hide ForwardF;
    var parked := if a.Some? then s.(approved := s.approved[held.env.id := a.value]) else s;
    ForwardDraws(c, w, parked.(gates := s.gates + [Released(req, held, answer, a, w.roster)]), held.env, held.to, req);
  }

  lemma DenyDraws(c: Config, w: World, s: State, req: Id, held: Held, answer: Envelope, a: Option<Approval>)
    requires answer.id.External?
    ensures var t := DenyF(c, w, s, req, held, answer, a); Draws(s.log, t.log, s.mint, t.mint)
  {
  }

  /** Two entries share an id only if they are one arrival, sent again. */
  ghost predicate WrittenOnce(log: seq<Envelope>) {
    forall i, j :: 0 <= i < j < |log| && log[i].id == log[j].id ==> log[i] == log[j] && log[i].id.External?
  }

  lemma DrawsDistinct(log: seq<Envelope>, more: seq<Envelope>, mint: nat, hi: nat)
    requires WrittenOnce(log) && LogOk(log, mint) && Draws(log, more, mint, hi)
    ensures WrittenOnce(more)
  {
    forall i, j | 0 <= i < j < |more| && more[i].id == more[j].id ensures more[i] == more[j] && more[i].id.External? {
      if i < |log| {
        assert EntryOk(log, mint, i) && more[i] == log[i];
        if j < |log| { assert more[j] == log[j]; }
      }
    }
  }

  // ---- The life of a question in the log ----

  ghost predicate IsAnswer(e: Envelope, req: Id) {
    e.kind == ConfirmResponse && e.cause == req
  }

  /** Position `q` asks the question `req` about this held delivery. */
  ghost predicate QuestionAt(c: Config, log: seq<Envelope>, q: nat, req: Id, held: Held) {
    && q < |log| && req.Minted? && log[q] == RequestEnvelope(req, held.env, held.to)
    && held.env.id.External? && !GateKind(held.env.kind) && held.env in log[..q]
    && GateFor(DestsAt(c.routes, Source(held.env)), held.to.ref, held.to.port) == Some(held.to)
  }

  /** An answer to `req` is logged after `q` and before `end`. */
  ghost predicate AnswerBetween(log: seq<Envelope>, req: Id, q: nat, end: nat) {
    exists j :: q < j < end && j < |log| && IsAnswer(log[j], req)
  }

  ghost predicate Asked(c: Config, log: seq<Envelope>, req: Id, held: Held) {
    exists q: nat :: QuestionAt(c, log, q, req, held)
  }

  /** Waiting: asked, and no answer to it can be read back; one that was answered
      before and waits again was asked within reach. */
  ghost predicate Waits(c: Config, log: seq<Envelope>, gates: seq<GateEvent>, req: Id, held: Held) {
    exists q: nat :: QuestionAt(c, log, q, req, held) && !AnswerBetween(log, req, q, RESUME_LIMIT)
                     && (Answered(gates, req) ==> q < RESUME_LIMIT)
  }

  ghost predicate AnswerLogged(c: Config, log: seq<Envelope>, req: Id, held: Held) {
    exists q: nat :: QuestionAt(c, log, q, req, held) && AnswerBetween(log, req, q, |log|)
  }

  /** More than one answer was carried out. */
  ghost predicate Twice(gates: seq<GateEvent>, req: Id) {
    exists k, l :: 0 <= k < l < |gates| && !gates[k].Opened? && !gates[l].Opened? && gates[k].req == req && gates[l].req == req
  }

  /** Asked within reach of a restart, answered out of it. */
  ghost predicate OutOfReach(c: Config, log: seq<Envelope>, req: Id) {
    exists q: nat, held :: QuestionAt(c, log, q, req, held) && q < RESUME_LIMIT && |log| > RESUME_LIMIT
                           && !AnswerBetween(log, req, q, RESUME_LIMIT)
  }

  ghost predicate LogAsks(c: Config, log: seq<Envelope>) {
    forall i: nat :: i < |log| && log[i].kind == ConfirmRequest ==> exists held :: QuestionAt(c, log, i, log[i].id, held)
  }

  ghost predicate OpensAsked(c: Config, log: seq<Envelope>, gates: seq<GateEvent>) {
    forall req, held :: OpenedFor(gates, req, held) <==> Asked(c, log, req, held)
  }

  ghost predicate AllWait(c: Config, log: seq<Envelope>, gates: seq<GateEvent>, pending: map<Id, Held>) {
    forall req :: req in pending ==> Waits(c, log, gates, req, pending[req])
  }

  ghost predicate AnswersLogged(c: Config, log: seq<Envelope>, gates: seq<GateEvent>) {
    forall k :: 0 <= k < |gates| && !gates[k].Opened? ==> AnswerLogged(c, log, gates[k].req, gates[k].held)
  }

  ghost predicate TwiceOut(c: Config, log: seq<Envelope>, gates: seq<GateEvent>) {
    forall req :: Twice(gates, req) ==> OutOfReach(c, log, req)
  }

  ghost predicate Life(c: Config, log: seq<Envelope>, gates: seq<GateEvent>, pending: map<Id, Held>) {
    && LogAsks(c, log)
    && OpensAsked(c, log, gates)
    && AllWait(c, log, gates, pending)
    && AnswersLogged(c, log, gates)
    && TwiceOut(c, log, gates)
  }

  lemma QuestionLater(c: Config, log: seq<Envelope>, more: seq<Envelope>, q: nat, req: Id, held: Held)
    requires log <= more && q < |log|
    ensures QuestionAt(c, more, q, req, held) <==> QuestionAt(c, log, q, req, held)
  {
    assert more[..q] == log[..q];
  }

  /** Entries that ask nothing, and answer nothing that waits. */
  ghost predicate Beside(log: seq<Envelope>, more: seq<Envelope>, pending: map<Id, Held>) {
    && log <= more
    && (forall i :: |log| <= i < |more| ==> more[i].kind != ConfirmRequest)
    && (forall i :: |log| <= i < |more| && more[i].kind == ConfirmResponse ==> more[i].cause !in pending)
  }

  lemma AskedBeside(c: Config, log: seq<Envelope>, more: seq<Envelope>, pending: map<Id, Held>, req: Id, held: Held)
    requires Beside(log, more, pending)
    ensures Asked(c, more, req, held) <==> Asked(c, log, req, held)
  {
    if Asked(c, log, req, held) {
      var q: nat :| QuestionAt(c, log, q, req, held);
      QuestionLater(c, log, more, q, req, held);
    }
    if Asked(c, more, req, held) {
      var q: nat :| QuestionAt(c, more, q, req, held);
      QuestionLater(c, log, more, q, req, held);
    }
  }

  lemma NoNewAnswer(log: seq<Envelope>, more: seq<Envelope>, req: Id, q: nat, end: nat)
    requires log <= more
    requires end <= |log| || forall j :: |log| <= j < |more| ==> !IsAnswer(more[j], req)
    ensures AnswerBetween(more, req, q, end) ==> AnswerBetween(log, req, q, end)
  {
    if AnswerBetween(more, req, q, end) {
      var j :| q < j < end && j < |more| && IsAnswer(more[j], req);
      assert log[j] == more[j];
    }
  }

  lemma WaitsBeside(c: Config, log: seq<Envelope>, more: seq<Envelope>, pending: map<Id, Held>, gates: seq<GateEvent>, req: Id)
    requires Beside(log, more, pending) && req in pending && Waits(c, log, gates, req, pending[req])
    ensures Waits(c, more, gates, req, pending[req])
  {
    var q: nat :| QuestionAt(c, log, q, req, pending[req]) && !AnswerBetween(log, req, q, RESUME_LIMIT)
                  && (Answered(gates, req) ==> q < RESUME_LIMIT);
    QuestionLater(c, log, more, q, req, pending[req]);
    NoNewAnswer(log, more, req, q, RESUME_LIMIT);
    assert QuestionAt(c, more, q, req, pending[req]);
  }

  lemma AnswerStaysLogged(c: Config, log: seq<Envelope>, more: seq<Envelope>, req: Id, held: Held)
    requires log <= more && AnswerLogged(c, log, req, held)
    ensures AnswerLogged(c, more, req, held)
  {
    var q: nat :| QuestionAt(c, log, q, req, held) && AnswerBetween(log, req, q, |log|);
    QuestionLater(c, log, more, q, req, held);
    var j :| q < j < |log| && IsAnswer(log[j], req);
    assert IsAnswer(more[j], req);
  }

  lemma StaysOutOfReach(c: Config, log: seq<Envelope>, more: seq<Envelope>, req: Id)
    requires log <= more && OutOfReach(c, log, req)
    ensures OutOfReach(c, more, req)
  {
    var q: nat, held :| QuestionAt(c, log, q, req, held) && q < RESUME_LIMIT && |log| > RESUME_LIMIT
                        && !AnswerBetween(log, req, q, RESUME_LIMIT);
    QuestionLater(c, log, more, q, req, held);
    NoNewAnswer(log, more, req, q, RESUME_LIMIT);
  }

  lemma LifeBeside(c: Config, log: seq<Envelope>, more: seq<Envelope>, gates: seq<GateEvent>, pending: map<Id, Held>)
    requires Life(c, log, gates, pending) && Beside(log, more, pending)
    ensures Life(c, more, gates, pending)
  {
    hide QuestionAt, AnswerBetween, OpenedFor, Answered, Twice;
    forall i: nat | i < |more| && more[i].kind == ConfirmRequest ensures exists held :: QuestionAt(c, more, i, more[i].id, held) {
      var held :| QuestionAt(c, log, i, log[i].id, held);
      QuestionLater(c, log, more, i, log[i].id, held);
    }
    hide LogAsks;
    forall req, held ensures OpenedFor(gates, req, held) <==> Asked(c, more, req, held) {
      AskedBeside(c, log, more, pending, req, held);
    }
    forall req | req in pending ensures Waits(c, more, gates, req, pending[req]) {
      WaitsBeside(c, log, more, pending, gates, req);
    }
    forall k | 0 <= k < |gates| && !gates[k].Opened? ensures AnswerLogged(c, more, gates[k].req, gates[k].held) {
      AnswerStaysLogged(c, log, more, gates[k].req, gates[k].held);
    }
    forall req | Twice(gates, req) ensures OutOfReach(c, more, req) {
      StaysOutOfReach(c, log, more, req);
    }
  }

  /** A number stands at one position, so a question is asked once and about one thing. */
  lemma OneQuestion(c: Config, log: seq<Envelope>, p: nat, q: nat, req: Id, held: Held, other: Held)
    requires WrittenOnce(log) && QuestionAt(c, log, p, req, held) && QuestionAt(c, log, q, req, other)
    ensures p == q && held == other
  {
    assert log[p].id == req && log[q].id == req;
    assert p == q;
    var i :| 0 <= i < q && log[..q][i] == held.env;
    var j :| 0 <= j < q && log[..q][j] == other.env;
    assert log[i].id == log[j].id;
  }

  lemma LifeOpen(c: Config, log: seq<Envelope>, mint: nat, gates: seq<GateEvent>, pending: map<Id, Held>, env: Envelope, d: Dest)
    requires Life(c, log, gates, pending) && LogOk(log, mint) && WrittenOnce(log)
    requires env in log && env.id.External? && !GateKind(env.kind)
    requires GateFor(DestsAt(c.routes, Source(env)), d.ref, d.port) == Some(d)
    ensures var req := Minted(mint);
            Life(c, log + [RequestEnvelope(req, env, d)], gates + [Opened(req, Held(env, d))], pending[req := Held(env, d)])
  {
    var req, held := Minted(mint), Held(env, d);
    var more := log + [RequestEnvelope(req, env, d)];
    assert more[..|log|] == log;
    assert QuestionAt(c, more, |log|, req, held);
    FreshQuestion(c, log, mint, gates, pending);
    DrawsDistinct(log, more, mint, mint + 1);
    hide GateKind, GateFor, WrittenOnce, QuestionAt, Answered, OpenedFor, Asked, LogOk;
    OpenLog(c, log, more, req, held);
    OpenOpens(c, log, more, gates, req, held);
    OpenAllWait(c, log, more, gates, pending, req, held);
    OpenKeepsAnswers(c, log, more, gates, req, held);
  }

  lemma OpenLog(c: Config, log: seq<Envelope>, more: seq<Envelope>, req: Id, held: Held)
    requires LogAsks(c, log) && log <= more && |more| == |log| + 1 && QuestionAt(c, more, |log|, req, held)
    ensures LogAsks(c, more)
  {
    forall i: nat | i < |more| && more[i].kind == ConfirmRequest ensures exists h :: QuestionAt(c, more, i, more[i].id, h) {
      if i < |log| {
        var h :| QuestionAt(c, log, i, log[i].id, h);
        QuestionLater(c, log, more, i, log[i].id, h);
      }
    }
  }

  lemma OpenOpens(c: Config, log: seq<Envelope>, more: seq<Envelope>, gates: seq<GateEvent>, req: Id, held: Held)
    requires OpensAsked(c, log, gates) && forall h :: !Asked(c, log, req, h)
    requires log <= more && |more| == |log| + 1 && WrittenOnce(more) && QuestionAt(c, more, |log|, req, held)
    ensures OpensAsked(c, more, gates + [Opened(req, held)])
  {
    OpenAdds(gates, Opened(req, held));
    hide OpenedFor, Asked, QuestionAt, WrittenOnce;
    forall r, h ensures OpenedFor(gates + [Opened(req, held)], r, h) <==> Asked(c, more, r, h) {
      OpenAsked(c, log, more, req, held, r, h);
    }
  }

  lemma OpenAllWait(c: Config, log: seq<Envelope>, more: seq<Envelope>, gates: seq<GateEvent>, pending: map<Id, Held>, req: Id, held: Held)
    requires AllWait(c, log, gates, pending) && !Answered(gates, req)
    requires log <= more && |more| == |log| + 1 && QuestionAt(c, more, |log|, req, held)
    ensures AllWait(c, more, gates + [Opened(req, held)], pending[req := held])
  {
    var now, waiting := gates + [Opened(req, held)], pending[req := held];
    OpenAdds(gates, Opened(req, held));
    hide Answered, OpenedFor;
    assert more[|log|].kind == ConfirmRequest;
    hide QuestionAt;
    forall r | r in waiting ensures Waits(c, more, now, r, waiting[r]) {
      if r != req {
        OpenWaits(c, log, more, gates, now, r, pending[r]);
      } else {
        assert !AnswerBetween(more, req, |log|, RESUME_LIMIT);
      }
    }
  }

  lemma OpenKeepsAnswers(c: Config, log: seq<Envelope>, more: seq<Envelope>, gates: seq<GateEvent>, req: Id, held: Held)
    requires AnswersLogged(c, log, gates) && TwiceOut(c, log, gates) && log <= more
    ensures AnswersLogged(c, more, gates + [Opened(req, held)]) && TwiceOut(c, more, gates + [Opened(req, held)])
  {
    hide AnswerLogged, OutOfReach;
    var now := gates + [Opened(req, held)];
    forall k | 0 <= k < |now| && !now[k].Opened? ensures AnswerLogged(c, more, now[k].req, now[k].held) {
      assert now[k] == gates[k];
      AnswerStaysLogged(c, log, more, gates[k].req, gates[k].held);
    }
    forall r | Twice(now, r) ensures OutOfReach(c, more, r) {
      var k, l :| 0 <= k < l < |now| && !now[k].Opened? && !now[l].Opened? && now[k].req == r && now[l].req == r;
      assert gates[k] == now[k] && gates[l] == now[l];
      StaysOutOfReach(c, log, more, r);
    }
  }

  /** Nothing was ever opened or answered under the number about to be drawn. */
  lemma FreshQuestion(c: Config, log: seq<Envelope>, mint: nat, gates: seq<GateEvent>, pending: map<Id, Held>)
    requires Life(c, log, gates, pending) && LogOk(log, mint)
    ensures Minted(mint) !in pending && !Answered(gates, Minted(mint))
    ensures forall held :: !Asked(c, log, Minted(mint), held)
  {
    forall q: nat, held ensures !QuestionAt(c, log, q, Minted(mint), held) {
      if q < |log| { assert EntryOk(log, mint, q); }
    }
  }

  lemma OpenAsked(c: Config, log: seq<Envelope>, more: seq<Envelope>, req: Id, held: Held, r: Id, h: Held)
    requires log <= more && |more| == |log| + 1 && WrittenOnce(more) && QuestionAt(c, more, |log|, req, held)
    requires !Asked(c, log, req, h)
    ensures Asked(c, more, r, h) <==> Asked(c, log, r, h) || (r == req && h == held)
  {
    if Asked(c, log, r, h) {
      var q: nat :| QuestionAt(c, log, q, r, h);
      QuestionLater(c, log, more, q, r, h);
    }
    if Asked(c, more, r, h) {
      var q: nat :| QuestionAt(c, more, q, r, h);
      if q < |log| {
        QuestionLater(c, log, more, q, r, h);
      } else {
        assert r == more[q].id == req;
        OneQuestion(c, more, q, q, req, held, h);
      }
    }
  }

  lemma OpenWaits(c: Config, log: seq<Envelope>, more: seq<Envelope>, gates: seq<GateEvent>, now: seq<GateEvent>, r: Id, held: Held)
    requires log <= more && |more| == |log| + 1 && more[|log|].kind == ConfirmRequest
    requires Waits(c, log, gates, r, held) && (Answered(now, r) ==> Answered(gates, r))
    ensures Waits(c, more, now, r, held)
  {
    var q: nat :| QuestionAt(c, log, q, r, held) && !AnswerBetween(log, r, q, RESUME_LIMIT)
                  && (Answered(gates, r) ==> q < RESUME_LIMIT);
    QuestionLater(c, log, more, q, r, held);
    NoNewAnswer(log, more, r, q, RESUME_LIMIT);
  }

  /** Carrying out an answer that is on record. */
  lemma LifeAnswered(c: Config, log: seq<Envelope>, gates: seq<GateEvent>, pending: map<Id, Held>, e: GateEvent)
    requires Life(c, log, gates, pending) && !e.Opened? && e.req !in pending && AnswerLogged(c, log, e.req, e.held)
    requires Answered(gates, e.req) ==> OutOfReach(c, log, e.req)
    ensures Life(c, log, gates + [e], pending)
  {
    hide LogAsks, OpenedFor, Asked, AnswerLogged, OutOfReach, QuestionAt, Twice, Answered;
    AnswerAdds(gates, e);
    AnswerTwice(c, log, gates, e);
    forall r | r in pending ensures Waits(c, log, gates + [e], r, pending[r]) {
      assert Answered(gates + [e], r) ==> Answered(gates, r);
    }
  }

  lemma AnswerTwice(c: Config, log: seq<Envelope>, gates: seq<GateEvent>, e: GateEvent)
    requires AnswersLogged(c, log, gates) && TwiceOut(c, log, gates) && AnswerLogged(c, log, e.req, e.held)
    requires Answered(gates, e.req) ==> OutOfReach(c, log, e.req)
    ensures AnswersLogged(c, log, gates + [e]) && TwiceOut(c, log, gates + [e])
  {
    hide AnswerLogged, OutOfReach;
    var now := gates + [e];
    forall k | 0 <= k < |now| && !now[k].Opened? ensures AnswerLogged(c, log, now[k].req, now[k].held) {
      assert k < |gates| ==> now[k] == gates[k];
    }
    forall r | Twice(now, r) ensures OutOfReach(c, log, r) {
      var k, l :| 0 <= k < l < |now| && !now[k].Opened? && !now[l].Opened? && now[k].req == r && now[l].req == r;
      assert gates[k] == now[k];
      if l < |gates| {
        assert gates[l] == now[l];
        assert Twice(gates, r);
      }
    }
  }

  /** A question that waits although it was answered was asked in reach and answered
      out of it. */
  lemma WaitsAgain(c: Config, log: seq<Envelope>, gates: seq<GateEvent>, pending: map<Id, Held>, req: Id)
    requires Life(c, log, gates, pending) && WrittenOnce(log) && req in pending && Answered(gates, req)
    ensures OutOfReach(c, log, req)
  {
    hide LogAsks, OpenedFor;
    var held := pending[req];
    assert Waits(c, log, gates, req, held);
    var q: nat :| QuestionAt(c, log, q, req, held) && !AnswerBetween(log, req, q, RESUME_LIMIT)
                  && (Answered(gates, req) ==> q < RESUME_LIMIT);
    var k :| 0 <= k < |gates| && !gates[k].Opened? && gates[k].req == req;
    assert AnswerLogged(c, log, req, gates[k].held);
    var p: nat :| QuestionAt(c, log, p, req, gates[k].held) && AnswerBetween(log, req, p, |log|);
    OneQuestion(c, log, p, q, req, gates[k].held, held);
    var j :| p < j < |log| && IsAnswer(log[j], req);
    assert j >= RESUME_LIMIT;
  }

  // ---- Every step keeps it. ----

  ghost predicate Living(c: Config, s: State) {
    Ordered(s) && WrittenOnce(s.log) && Life(c, s.log, s.gates, s.pending)
  }

  /** What arrives has an id of its sender's, never one that stood for something else,
      and asks no gate question. */
  ghost predicate Plain(s: State, env: Envelope) {
    env.id.External? && Unforged(env) && forall i :: 0 <= i < |s.log| && s.log[i].id == env.id ==> s.log[i] == env
  }

  lemma DrawnBeside(log: seq<Envelope>, more: seq<Envelope>, src: Id, kinds: set<Kind>, pending: map<Id, Held>)
    requires LogAdds(log, more, src, kinds) && ConfirmRequest !in kinds && ConfirmResponse !in kinds
    ensures Beside(log, more, pending)
  {
    forall i | |log| <= i < |more| ensures more[i].kind != ConfirmRequest && more[i].kind != ConfirmResponse {
      assert OnBehalf(more[i], src, kinds);
    }
  }

  lemma ForwardLiving(c: Config, w: World, s: State, src: Envelope, d: Dest, via: Id)
    requires Living(c, s) && Known(s, src.id) && src.id.External? && !GateKind(src.kind)
    ensures Living(c, ForwardF(c, w, s, src, d, via)) && s.log <= ForwardF(c, w, s, src, d, via).log
  {
    hide ForwardF, Life, WrittenOnce;
    var t := ForwardF(c, w, s, src, d, via);
    ForwardOrdered(c, w, s, src, d, via);
    ForwardFrame(c, w, s, src, d, via);
    ForwardAdds(c, w, s, src, d, via);
    ForwardDraws(c, w, s, src, d, via);
    DrawsDistinct(s.log, t.log, s.mint, t.mint);
    DrawnBeside(s.log, t.log, src.id, ForwardKinds(src.kind), s.pending);
    LifeBeside(c, s.log, t.log, s.gates, s.pending);
  }

  lemma SpeculativeLiving(c: Config, w: World, s: State, env: Envelope, d: Dest, root: Id)
    requires Living(c, s) && Known(s, env.id) && env.id.External? && !GateKind(env.kind)
    ensures var t := ForwardSpeculativelyF(c, w, s, env, d, root); Living(c, t) && s.log <= t.log
  {
    hide ForwardSpeculativelyF, Life, WrittenOnce;
    var t := ForwardSpeculativelyF(c, w, s, env, d, root);
    SpeculativeOrdered(c, w, s, env, d, root);
    SpeculativeFrame(c, w, s, env, d, root);
    SpeculativeAdds(c, w, s, env, d, root);
    SpeculativeDraws(c, w, s, env, d, root);
    DrawsDistinct(s.log, t.log, s.mint, t.mint);
    DrawnBeside(s.log, t.log, env.id, ForwardKinds(env.kind), s.pending);
    LifeBeside(c, s.log, t.log, s.gates, s.pending);
  }

  lemma HoldLiving(c: Config, s: State, env: Envelope, d: Dest)
    requires Living(c, s) && env in s.log && env.id.External? && !GateKind(env.kind)
    requires GateFor(DestsAt(c.routes, Source(env)), d.ref, d.port) == Some(d)
    ensures Living(c, HoldF(s, env, d)) && s.log <= HoldF(s, env, d).log
  {
    hide Life, WrittenOnce, GateFor;
    LoggedKnown(s, env);
    HoldOrdered(s, env, d);
    HoldDraws(s, env, d);
    DrawsDistinct(s.log, HoldF(s, env, d).log, s.mint, s.mint + 1);
    LifeOpen(c, s.log, s.mint, s.gates, s.pending, env, d);
  }

  lemma LoggedKnown(s: State, env: Envelope)
    requires env in s.log
    ensures Known(s, env.id)
  {
    var k :| 0 <= k < |s.log| && s.log[k] == env;
  }

  lemma {:induction false} ToDestsLiving(c: Config, w: World, s: State, env: Envelope, dests: seq<Dest>, root: Id)
    requires Living(c, s) && env in s.log && env.id.External? && !GateKind(env.kind)
    requires forall d :: d in dests && d.gate == HumanApproval ==>
                           GateFor(DestsAt(c.routes, Source(env)), d.ref, d.port) == Some(d)
    ensures Living(c, ToDestsF(c, w, s, env, dests, root)) && s.log <= ToDestsF(c, w, s, env, dests, root).log
  {
    hide ForwardF, ForwardSpeculativelyF, HoldF, Living, GateFor;
    if dests != [] {
      var before, d := dests[..|dests| - 1], dests[|dests| - 1];
      assert d in dests;
      ToDestsLiving(c, w, s, env, before, root);
      var s1 := ToDestsF(c, w, s, env, before, root);
      LoggedKnown(s1, env);
      if d.speculative {
        SpeculativeLiving(c, w, s1, env, d, root);
      } else if d.gate == HumanApproval {
        HoldLiving(c, s1, env, d);
      } else {
        ForwardLiving(c, w, s1, env, d, NoId);
      }
    }
  }

  /** One more arrival on record, before anything is made of it. */
  lemma LoggedLiving(c: Config, s: State, env: Envelope)
    requires Living(c, s) && Plain(s, env) && (env.kind == ConfirmResponse ==> env.cause !in s.pending)
    ensures Living(c, s.(log := s.log + [env]))
  {
    hide Life;
    var logged := s.(log := s.log + [env]);
    Write(s, env, s.mint, Send(env, ClientDest(""), NoId, 0), logged);
    LifeBeside(c, s.log, logged.log, s.gates, s.pending);
  }

  lemma SameLiving(c: Config, s: State, t: State)
    requires Living(c, s) && t.log == s.log && t.gates == s.gates && t.pending == s.pending && t.sent == s.sent
    requires t.mint >= s.mint && t.spec == s.spec
    ensures Living(c, t)
  {
    hide Life;
    MintMore(s, t);
  }

  lemma AnswerOnRecord(c: Config, log: seq<Envelope>, gates: seq<GateEvent>, answer: Envelope, req: Id, held: Held)
    requires Waits(c, log, gates, req, held) && IsAnswer(answer, req)
    ensures AnswerLogged(c, log + [answer] + [answer], req, held)
    ensures KnownBefore(log, |log|, held.env.id) && !GateKind(held.env.kind) && held.env.id.External?
  {
    hide Answered, GateKind;
    var more := log + [answer] + [answer];
    var q: nat :| QuestionAt(c, log, q, req, held) && !AnswerBetween(log, req, q, RESUME_LIMIT)
                  && (Answered(gates, req) ==> q < RESUME_LIMIT);
    QuestionLater(c, log, more, q, req, held);
    HeldKnown(c, log, q, req, held);
    assert IsAnswer(more[|log|], req) && q < |log|;
    assert AnswerBetween(more, req, q, |more|);
  }

  lemma AnswerFacts(c: Config, log: seq<Envelope>, gates: seq<GateEvent>, pending: map<Id, Held>, answer: Envelope, req: Id)
    requires Life(c, log, gates, pending) && WrittenOnce(log) && IsAnswer(answer, req) && req in pending
    ensures var more := log + [answer] + [answer];
            && AnswerLogged(c, more, req, pending[req]) && (Answered(gates, req) ==> OutOfReach(c, more, req))
            && KnownBefore(log, |log|, pending[req].env.id) && !GateKind(pending[req].env.kind)
            && pending[req].env.id.External?
  {
    hide LogAsks, OpensAsked, AnswersLogged, TwiceOut, WrittenOnce, Answered, GateKind, OutOfReach, AnswerLogged, Waits;
    AnswerOnRecord(c, log, gates, answer, req, pending[req]);
    if Answered(gates, req) {
      WaitsAgain(c, log, gates, pending, req);
      StaysOutOfReach(c, log, log + [answer] + [answer], req);
    }
  }

  /** An answer to a gate that waits: logged by the router, then by the gate. */
  lemma AnswerLiving(c: Config, s: State, answer: Envelope, e: GateEvent)
    requires Living(c, s) && Plain(s, answer) && answer.kind == ConfirmResponse && answer.cause in s.pending
    requires !e.Opened? && e.req == answer.cause && e.held == s.pending[answer.cause]
    ensures var t := s.(pending := s.pending - {answer.cause}, log := s.log + [answer] + [answer], gates := s.gates + [e]);
            && Living(c, t) && Known(t, answer.id) && Known(t, e.held.env.id) && !GateKind(e.held.env.kind)
            && answer.id.External? && e.held.env.id.External?
  {
    hide Life, AnswerLogged, OutOfReach, Answered, WrittenOnce, GateKind, Ordered;
    var left, more := s.pending - {answer.cause}, s.log + [answer] + [answer];
    AnswerFacts(c, s.log, s.gates, s.pending, answer, e.req);
    LifeFewer(c, s.log, s.gates, s.pending, answer.cause);
    LifeBeside(c, s.log, more, s.gates, left);
    LifeAnswered(c, more, s.gates, left, e);
    WriteTwice(s, answer, s.(pending := left, log := more, gates := s.gates + [e]));
  }

  lemma HeldKnown(c: Config, log: seq<Envelope>, q: nat, req: Id, held: Held)
    requires QuestionAt(c, log, q, req, held)
    ensures KnownBefore(log, |log|, held.env.id) && !GateKind(held.env.kind) && held.env.id.External?
  {
    var i :| 0 <= i < q && log[..q][i] == held.env;
    assert log[i].id == held.env.id;
  }

  lemma LifeFewer(c: Config, log: seq<Envelope>, gates: seq<GateEvent>, pending: map<Id, Held>, req: Id)
    requires Life(c, log, gates, pending)
    ensures Life(c, log, gates, pending - {req})
  {
    hide Waits;
  }

  lemma WriteTwice(s: State, answer: Envelope, t: State)
    requires Ordered(s) && WrittenOnce(s.log) && Plain(s, answer)
    requires t == s.(pending := t.pending, log := s.log + [answer] + [answer], gates := t.gates)
    requires forall r :: r in t.pending ==> r in s.pending && t.pending[r] == s.pending[r]
    ensures Ordered(t) && WrittenOnce(t.log) && Known(t, answer.id) && forall id :: Known(s, id) ==> Known(t, id)
  {
    var one := s.(log := s.log + [answer]);
    Write(s, answer, s.mint, Send(answer, ClientDest(""), NoId, 0), one);
    var two := s.(log := s.log + [answer] + [answer]);
    Write(one, answer, s.mint, Send(answer, ClientDest(""), NoId, 0), two);
  }

  lemma DenyLiving(c: Config, w: World, s: State, req: Id, held: Held, answer: Envelope, a: Option<Approval>)
    requires Living(c, s.(gates := s.gates + [Refused(req, held, answer)])) && Known(s, answer.id) && answer.id.External?
    ensures Living(c, DenyF(c, w, s, req, held, answer, a))
  {
    hide Life, WrittenOnce;
    var s1, t := s.(gates := s.gates + [Refused(req, held, answer)]), DenyF(c, w, s, req, held, answer, a);
    MintMore(s1, s);
    DenyOrdered(c, w, s, req, held, answer, a);
    DenyDraws(c, w, s, req, held, answer, a);
    DrawsDistinct(s.log, t.log, s.mint, t.mint);
    DenyBeside(c, w, s, req, held, answer, a);
    LifeBeside(c, s.log, t.log, s1.gates, s.pending);
  }

  lemma DenyBeside(c: Config, w: World, s: State, req: Id, held: Held, answer: Envelope, a: Option<Approval>)
    ensures var t := DenyF(c, w, s, req, held, answer, a);
            && Beside(s.log, t.log, s.pending) && t.pending == s.pending && t.gates == s.gates + [Refused(req, held, answer)]
  {
  }

  lemma ReleaseLiving(c: Config, w: World, s: State, req: Id, held: Held, answer: Envelope, a: Option<Approval>)
    requires Living(c, s.(gates := s.gates + [Released(req, held, answer, a, w.roster)]))
    requires Known(s, held.env.id) && held.env.id.External? && !GateKind(held.env.kind)
    ensures Living(c, ReleaseF(c, w, s, req, held, answer, a))
  {
    hide Living, ForwardF, GateKind;
    var parked := if a.Some? then s.(approved := s.approved[held.env.id := a.value]) else s;
    var s1 := parked.(gates := s.gates + [Released(req, held, answer, a, w.roster)]);
    SameLiving(c, s.(gates := s1.gates), s1);
    ForwardLiving(c, w, s1, held.env, held.to, req);
  }

  lemma ResolveLiving(c: Config, w: World, s: State, answer: Envelope)
    requires Living(c, s) && Plain(s, answer) && answer.kind == ConfirmResponse
    ensures Living(c, ResolveGateF(c, w, s.(log := s.log + [answer]), answer))
  {
    hide DenyF, ReleaseF, AuthorizeGate, Living, GateKind, Plain;
    if answer.cause in s.pending {
      var held := s.pending[answer.cause];
      var s1 := s.(pending := s.pending - {answer.cause}, log := s.log + [answer] + [answer]);
      match AuthorizeGate(c, w.roster, held, answer.payload) {
        case Rejected =>
          AnswerLiving(c, s, answer, Refused(answer.cause, held, answer));
          DenyLiving(c, w, s1, answer.cause, held, answer, None);
        case Denies(a) =>
          AnswerLiving(c, s, answer, Refused(answer.cause, held, answer));
          DenyLiving(c, w, s1, answer.cause, held, answer, a);
        case Approves(a) =>
          AnswerLiving(c, s, answer, Released(answer.cause, held, answer, a, w.roster));
          ReleaseLiving(c, w, s1, answer.cause, held, answer, a);
      }
    } else {
      LoggedLiving(c, s, answer);
    }
  }

  lemma RouteLiving(c: Config, w: World, s: State, env: Envelope)
    requires Living(c, s) && Plain(s, env) && DistinctEdges(c)
    ensures Living(c, RouteF(c, w, s, env))
  {
    hide PropagateF, ResolveGateF, HandleCancelF, SeenF, DistinctEdges, Living;
    var logged := s.(log := s.log + [env]);
    if env.kind == ConfirmResponse {
      ResolveLiving(c, w, s, env);
    } else {
      LoggedLiving(c, s, env);
      if env.kind == Cancel {
        HandleCancelFrame(logged, env);
        CancelSpec(logged, env);
        SameLiving(c, logged, HandleCancelF(logged, env));
      } else if !Duplicate(s, env) {
        var seen := if env.kind == Data then logged.(dedup := SeenF(s.dedup, env.idem)) else logged;
        SameLiving(c, logged, seen);
        PropagateLiving(c, w, seen, env);
      }
    }
  }

  lemma CancelSpec(s: State, env: Envelope)
    ensures HandleCancelF(s, env).spec == s.spec
  {
  }

  lemma PropagateLiving(c: Config, w: World, s: State, env: Envelope)
    requires Living(c, s) && env in s.log && env.id.External? && !GateKind(env.kind) && DistinctEdges(c)
    ensures Living(c, PropagateF(c, w, s, env))
  {
    hide ToDestsF, AttestF, Living;
    var noted := s.(attests := if env.attest == "" then s.attests
                               else AttestF(s.attests, MAX_ATTEST_PER_ROOT, RootOf(s, env), w.attest(env.attest)));
    SameLiving(c, s, noted);
    var dests := DestsAt(c.routes, Source(env));
    forall d | d in dests && d.gate == HumanApproval ensures GateFor(dests, d.ref, d.port) == Some(d) {
      var n :| 0 <= n < |dests| && dests[n] == d;
      GateForIs(dests, n);
    }
    ToDestsLiving(c, w, noted, env, dests, RootOf(s, env));
  }

  // ---- Reading a log back ----

  /** Open in this log: asked, and not answered since. */
  ghost predicate OpenAt(log: seq<Envelope>, req: Id, q: nat) {
    q < |log| && log[q].kind == ConfirmRequest && log[q].id == req && !AnswerBetween(log, req, q, |log|)
  }

  ghost predicate Candidate(log: seq<Envelope>, req: Id, e: Envelope) {
    exists q: nat :: OpenAt(log, req, q) && log[q] == e
  }

  lemma OpenMore(log: seq<Envelope>, e: Envelope, req: Id, q: nat)
    requires q < |log|
    ensures OpenAt(log + [e], req, q) <==> OpenAt(log, req, q) && !IsAnswer(e, req)
  {
    var more := log + [e];
    assert more[|log|] == e;
    if AnswerBetween(log, req, q, |log|) {
      var j :| q < j < |log| && IsAnswer(log[j], req);
      assert IsAnswer(more[j], req);
    }
    if AnswerBetween(more, req, q, |more|) && !IsAnswer(e, req) {
      var j :| q < j < |more| && IsAnswer(more[j], req);
      assert IsAnswer(log[j], req);
    }
  }

  /** The candidates of a replay are exactly the questions open in its log. */
  ghost predicate CandidatesAre(log: seq<Envelope>, candidates: map<Id, Envelope>) {
    forall req, e :: (req in candidates && candidates[req] == e) <==> Candidate(log, req, e)
  }

  lemma CandidateMore(log: seq<Envelope>, e: Envelope, req: Id, x: Envelope)
    requires Unique(log + [e])
    ensures Candidate(log + [e], req, x)
            <==> if e.kind == ConfirmRequest && req == e.id then x == e
                 else Candidate(log, req, x) && !IsAnswer(e, req)
  {
    var more := log + [e];
    assert more[|log|] == e;
    assert forall i :: 0 <= i < |log| ==> more[i] == log[i];
    if Candidate(log, req, x) {
      var q: nat :| OpenAt(log, req, q) && log[q] == x;
      OpenMore(log, e, req, q);
    }
    if Candidate(more, req, x) {
      var q: nat :| OpenAt(more, req, q) && more[q] == x;
      if q < |log| { OpenMore(log, e, req, q); }
    }
    if e.kind == ConfirmRequest && req == e.id {
      assert !AnswerBetween(more, req, |log|, |more|);
      assert OpenAt(more, req, |log|);
    }
  }

  lemma {:induction false} ReplayCandidates(c: Config, log: seq<Envelope>)
    requires Unique(log)
    ensures CandidatesAre(log, Replay(c, log).candidates)
  {
    if log != [] {
      var before, e := log[..|log| - 1], log[|log| - 1];
      assert before + [e] == log;
      assert forall i :: 0 <= i < |before| ==> before[i] == log[i];
      ReplayCandidates(c, before);
      CandidatesStep(c, before, e);
    }
  }

  lemma CandidatesStep(c: Config, log: seq<Envelope>, e: Envelope)
    requires CandidatesAre(log, Replay(c, log).candidates) && Unique(log + [e])
    ensures CandidatesAre(log + [e], Replay(c, log + [e]).candidates)
  {
    ReplayOne(c, log, e);
    var was, now := Replay(c, log).candidates, Replay(c, log + [e]).candidates;
    assert now == if e.kind == ConfirmRequest then was[e.id := e]
                  else if e.kind == ConfirmResponse then was - {e.cause} else was;
    hide Replay, Candidate, Unique;
    forall req, x ensures (req in now && now[req] == x) <==> Candidate(log + [e], req, x) {
      CandidateMore(log, e, req, x);
      assert (req in was && was[req] == x) <==> Candidate(log, req, x);
    }
  }

  /** Read back: asked within reach, and not answered within reach. */
  ghost predicate ReadBack(c: Config, log: seq<Envelope>, req: Id, held: Held) {
    exists q: nat :: QuestionAt(c, log, q, req, held) && q < RESUME_LIMIT && !AnswerBetween(log, req, q, RESUME_LIMIT)
  }

  /** A question read back leads to the very delivery that was held. */
  lemma HeldBack(c: Config, log: seq<Envelope>, q: nat, req: Id, held: Held)
    requires WrittenOnce(log) && QuestionAt(c, log, q, req, held)
    ensures HeldFor(c, Replay(c, log), log[q]) == Some(held)
  {
    ReplayedAt(c, log);
    var i :| 0 <= i < q && log[..q][i] == held.env;
    assert log[i] == held.env;
    var r := Replay(c, log);
    assert held.env.id in r.byId && r.byId[held.env.id] in log;
    var j :| 0 <= j < |log| && log[j] == r.byId[held.env.id];
    assert log[i].id == log[j].id;
    hide Replay, GateFor, WrittenOnce;
    assert r.byId[held.env.id] == held.env;
  }

  lemma ReachablePart(c: Config, log: seq<Envelope>, q: nat, req: Id, held: Held)
    requires q < |Readable(log)|
    ensures QuestionAt(c, Readable(log), q, req, held) <==> QuestionAt(c, log, q, req, held)
    ensures AnswerBetween(Readable(log), req, q, |Readable(log)|) <==> AnswerBetween(log, req, q, RESUME_LIMIT)
  {
    var part := Readable(log);
    assert part[..q] == log[..q];
    assert forall j :: 0 <= j < |part| ==> part[j] == log[j];
    if AnswerBetween(log, req, q, RESUME_LIMIT) {
      var j :| q < j < RESUME_LIMIT && j < |log| && IsAnswer(log[j], req);
      assert IsAnswer(part[j], req);
    }
  }

  /** A restart waits for a gate, about the delivery held, exactly when the question was
      asked within reach and no answer to it can be read back. */
  lemma PendingAfterRestart(c: Config, s: State, req: Id, held: Held)
    requires WrittenOnce(s.log) && LogAsks(c, s.log)
    ensures (req in ResumeF(c, s).pending && ResumeF(c, s).pending[req] == held) <==> ReadBack(c, s.log, req, held)
  {
    var log, part := s.log, Readable(s.log);
    var r := Replay(c, part);
    assert forall i :: 0 <= i < |part| ==> part[i] == log[i];
    assert WrittenOnce(part);
    ReplayCandidates(c, part);
    hide Replay, WrittenOnce, HeldFor, LogAsks, GateFor;
    if ReadBack(c, log, req, held) {
      var q: nat :| QuestionAt(c, log, q, req, held) && q < RESUME_LIMIT && !AnswerBetween(log, req, q, RESUME_LIMIT);
      ReachablePart(c, log, q, req, held);
      HeldBack(c, part, q, req, held);
      assert OpenAt(part, req, q);
      assert Candidate(part, req, part[q]);
    }
    if req in r.candidates && HeldFor(c, r, r.candidates[req]) == Some(held) {
      CandidateReadBack(c, log, r, req, held);
    }
  }

  lemma CandidateReadBack(c: Config, log: seq<Envelope>, r: Replayed, req: Id, held: Held)
    requires WrittenOnce(log) && LogAsks(c, log) && r == Replay(c, Readable(log))
    requires CandidatesAre(Readable(log), r.candidates) && WrittenOnce(Readable(log))
    requires req in r.candidates && HeldFor(c, r, r.candidates[req]) == Some(held)
    ensures ReadBack(c, log, req, held)
  {
    hide Replay, HeldFor, GateFor;
    var part := Readable(log);
    assert Candidate(part, req, r.candidates[req]);
    var q: nat :| OpenAt(part, req, q) && part[q] == r.candidates[req];
    assert part[q] == log[q];
    var h :| QuestionAt(c, log, q, log[q].id, h);
    ReachablePart(c, log, q, req, h);
    HeldBack(c, part, q, req, h);
    assert h == held;
  }

  lemma ResumeLiving(c: Config, s: State)
    requires Living(c, s)
    ensures Living(c, ResumeF(c, s))
  {
    ResumeOrdered(c, s);
    var t := ResumeF(c, s);
    assert t.log == s.log && t.gates == s.gates;
    hide ResumeF, QuestionAt, AnswerBetween, Answered, OpensAsked, AnswersLogged, TwiceOut, WrittenOnce;
    forall req | req in t.pending ensures Waits(c, t.log, t.gates, req, t.pending[req]) {
      PendingAfterRestart(c, s, req, t.pending[req]);
    }
  }

  // ---- Whole runs ----

  /** Any arrivals under ids of their senders' choosing, and crashes whenever, however
      long the log. */
  ghost predicate PlainRun(c: Config, inputs: seq<Input>) {
    inputs != [] ==>
      var before, last := inputs[..|inputs| - 1], inputs[|inputs| - 1];
      PlainRun(c, before) && (last.Arrive? ==> Plain(Run(c, before), last.env))
  }

  lemma {:induction false} LivingInEveryRun(c: Config, inputs: seq<Input>)
    requires PlainRun(c, inputs) && DistinctEdges(c)
    ensures Living(c, Run(c, inputs))
  {
    hide RouteF, ResumeF, Living, Plain, DistinctEdges;
    if inputs == [] {
      StartLiving(c);
    } else {
      var before, last := inputs[..|inputs| - 1], inputs[|inputs| - 1];
      LivingInEveryRun(c, before);
      match last {
        case Arrive(env, w) => RouteLiving(c, w, Run(c, before), env);
        case Crash => ResumeLiving(c, Run(c, before));
      }
    }
  }

  lemma StartLiving(c: Config)
    ensures Living(c, Start())
  {
    assert forall req, held :: !OpenedFor(Start().gates, req, held) && !Asked(c, Start().log, req, held);
  }

  /** A question and its fate at a restart. */
  lemma RestartIff(c: Config, s: State, q: nat, req: Id, held: Held)
    requires Living(c, s) && QuestionAt(c, s.log, q, req, held)
    ensures var t := ResumeF(c, s);
            && (req in t.pending <==> q < RESUME_LIMIT && !AnswerBetween(s.log, req, q, RESUME_LIMIT))
            && (req in t.pending ==> t.pending[req] == held)
  {
    hide ResumeF, Life;
    LivingAsks(c, s);
    var t := ResumeF(c, s);
    PendingAfterRestart(c, s, req, held);
    if req in t.pending {
      PendingAfterRestart(c, s, req, t.pending[req]);
      var p: nat :| QuestionAt(c, s.log, p, req, t.pending[req]) && p < RESUME_LIMIT && !AnswerBetween(s.log, req, p, RESUME_LIMIT);
      OneQuestion(c, s.log, p, q, req, t.pending[req], held);
    }
    if ReadBack(c, s.log, req, held) {
      var p: nat :| QuestionAt(c, s.log, p, req, held) && p < RESUME_LIMIT && !AnswerBetween(s.log, req, p, RESUME_LIMIT);
      OneQuestion(c, s.log, p, q, req, held, held);
    }
  }

  lemma LivingAsks(c: Config, s: State)
    requires Living(c, s)
    ensures LogAsks(c, s.log)
  {
  }

  /** The first answer logged after the question. */
  ghost predicate FirstAnswer(log: seq<Envelope>, req: Id, q: nat, a: nat) {
    q < a < |log| && IsAnswer(log[a], req) && !AnswerBetween(log, req, q, a)
  }

  lemma FindFirst(log: seq<Envelope>, req: Id, q: nat, end: nat) returns (a: nat)
    requires AnswerBetween(log, req, q, end)
    ensures FirstAnswer(log, req, q, a) && a < end
    ensures forall j :: q < j < |log| && IsAnswer(log[j], req) ==> a <= j
  {
    a :| q < a < end && a < |log| && IsAnswer(log[a], req);
    while AnswerBetween(log, req, q, a)
      invariant q < a < end && a < |log| && IsAnswer(log[a], req)
      decreases a
    {
      var b: nat :| q < b < a && b < |log| && IsAnswer(log[b], req);
      a := b;
    }
  }

  /** A pending gate is pending again after a restart, about the same delivery, exactly
      when its question is among the first thousand events. */
  lemma PendingReturnsIff(c: Config, s: State, req: Id) returns (q: nat)
    requires Living(c, s) && req in s.pending
    ensures QuestionAt(c, s.log, q, req, s.pending[req])
    ensures req in ResumeF(c, s).pending <==> q < RESUME_LIMIT
    ensures req in ResumeF(c, s).pending ==> ResumeF(c, s).pending[req] == s.pending[req]
  {
    hide ResumeF, LogAsks, OpensAsked, AnswersLogged, TwiceOut;
    var held := s.pending[req];
    assert Waits(c, s.log, s.gates, req, held);
    q :| QuestionAt(c, s.log, q, req, held) && !AnswerBetween(s.log, req, q, RESUME_LIMIT)
         && (Answered(s.gates, req) ==> q < RESUME_LIMIT);
    RestartIff(c, s, q, req, held);
  }

  /** A gate that was answered is pending again exactly when its question is among the
      first thousand events and its first answer is not. */
  lemma AnsweredReturnsIff(c: Config, s: State, req: Id) returns (q: nat, a: nat, held: Held)
    requires Living(c, s) && Answered(s.gates, req)
    ensures QuestionAt(c, s.log, q, req, held) && FirstAnswer(s.log, req, q, a)
    ensures req in ResumeF(c, s).pending <==> q < RESUME_LIMIT <= a
    ensures req in ResumeF(c, s).pending ==> ResumeF(c, s).pending[req] == held
  {
    hide ResumeF, LogAsks, OpensAsked, AllWait, TwiceOut;
    var k :| 0 <= k < |s.gates| && !s.gates[k].Opened? && s.gates[k].req == req;
    held := s.gates[k].held;
    assert AnswerLogged(c, s.log, req, held);
    q :| QuestionAt(c, s.log, q, req, held) && AnswerBetween(s.log, req, q, |s.log|);
    a := FindFirst(s.log, req, q, |s.log|);
    RestartIff(c, s, q, req, held);
    hide QuestionAt, Life;
    assert a < RESUME_LIMIT ==> AnswerBetween(s.log, req, q, RESUME_LIMIT);
  }

  /** One approving answer after a restart releases an answered gate a second time
      exactly then, and otherwise changes nothing a gate has done. */
  lemma SecondReleaseIff(c: Config, w: World, s: State, answer: Envelope, q: nat, a: nat, held: Held)
    requires Living(c, s) && QuestionAt(c, s.log, q, answer.cause, held) && FirstAnswer(s.log, answer.cause, q, a)
    requires answer.kind == ConfirmResponse && AuthorizeGate(c, w.roster, held, answer.payload).Approves?
    ensures var t := RouteF(c, w, ResumeF(c, s), answer);
            if q < RESUME_LIMIT <= a then
              t.gates == s.gates + [Released(answer.cause, held, answer,
                                             AuthorizeGate(c, w.roster, held, answer.payload).approval, w.roster)]
            else t.gates == s.gates
  {
    hide ResumeF, Life, AuthorizeGate, ReleaseF, Living, QuestionAt;
    var u := ResumeF(c, s);
    RestartIff(c, s, q, answer.cause, held);
    ResumeGates(c, s);
    assert AnswerBetween(s.log, answer.cause, q, RESUME_LIMIT) <==> a < RESUME_LIMIT by {
      if AnswerBetween(s.log, answer.cause, q, RESUME_LIMIT) {
        var j :| q < j < RESUME_LIMIT && j < |s.log| && IsAnswer(s.log[j], answer.cause);
        assert !AnswerBetween(s.log, answer.cause, q, a);
      }
    }
    if answer.cause in u.pending {
      var s1 := u.(pending := u.pending - {answer.cause}, log := u.log + [answer] + [answer]);
      ReleaseGates(c, w, s1, answer.cause, held, answer, AuthorizeGate(c, w.roster, held, answer.payload).approval);
    }
  }

  lemma ResumeGates(c: Config, s: State)
    ensures ResumeF(c, s).gates == s.gates
  {
  }

  lemma ReleaseGates(c: Config, w: World, s: State, req: Id, held: Held, answer: Envelope, a: Option<Approval>)
    ensures ReleaseF(c, w, s, req, held, answer, a).gates == s.gates + [Released(req, held, answer, a, w.roster)]
  {
    hide ForwardF;
    var parked := if a.Some? then s.(approved := s.approved[held.env.id := a.value]) else s;
    ForwardFrame(c, w, parked.(gates := s.gates + [Released(req, held, answer, a, w.roster)]), held.env, held.to, req);
  }

  /** In every run, however long its log and the logs it crashed on, these are the
      fates of gates at a restart. */
  lemma GatesAtARestart(c: Config, inputs: seq<Input>, req: Id)
    requires PlainRun(c, inputs) && DistinctEdges(c)
    ensures var s, t := Run(c, inputs), ResumeF(c, Run(c, inputs));
            && (req in s.pending ==>
                  exists q: nat :: QuestionAt(c, s.log, q, req, s.pending[req])
                                   && (req in t.pending <==> q < RESUME_LIMIT)
                                   && (req in t.pending ==> t.pending[req] == s.pending[req]))
            && (Answered(s.gates, req) ==>
                  exists q: nat, a: nat, held :: QuestionAt(c, s.log, q, req, held) && FirstAnswer(s.log, req, q, a)
                                   && (req in t.pending <==> q < RESUME_LIMIT <= a))
  {
    LivingInEveryRun(c, inputs);
    hide Run, ResumeF, Living, QuestionAt, FirstAnswer, Answered;
    if req in Run(c, inputs).pending {
      var q := PendingReturnsIff(c, Run(c, inputs), req);
    }
    if Answered(Run(c, inputs).gates, req) {
      var q, a, held := AnsweredReturnsIff(c, Run(c, inputs), req);
    }
  }

  /** And over every run no gate is answered twice but one asked among the first
      thousand events whose first answer is not. */
  lemma AnsweredTwiceOnlyOutOfReach(c: Config, inputs: seq<Input>, req: Id)
    requires PlainRun(c, inputs) && DistinctEdges(c) && Twice(Run(c, inputs).gates, req)
    ensures var log := Run(c, inputs).log;
            exists q: nat, a: nat, held :: QuestionAt(c, log, q, req, held) && FirstAnswer(log, req, q, a)
                                           && q < RESUME_LIMIT <= a
  {
    LivingInEveryRun(c, inputs);
    hide Run;
    TwiceOutOfReach(c, Run(c, inputs), req);
  }

  lemma TwiceOutOfReach(c: Config, s: State, req: Id)
    requires Living(c, s) && Twice(s.gates, req)
    ensures exists q: nat, a: nat, held :: QuestionAt(c, s.log, q, req, held) && FirstAnswer(s.log, req, q, a)
                                           && q < RESUME_LIMIT <= a
  {
    hide ResumeF, LogAsks, OpensAsked, AllWait;
    assert OutOfReach(c, s.log, req);
    var p: nat, other :| QuestionAt(c, s.log, p, req, other) && p < RESUME_LIMIT && |s.log| > RESUME_LIMIT
                         && !AnswerBetween(s.log, req, p, RESUME_LIMIT);
    var k, l :| 0 <= k < l < |s.gates| && !s.gates[k].Opened? && !s.gates[l].Opened?
                && s.gates[k].req == req && s.gates[l].req == req;
    assert Answered(s.gates, req);
    var q, a, held := AnsweredReturnsIff(c, s, req);
    OneQuestion(c, s.log, p, q, req, other, held);
    hide QuestionAt, Life;
    assert a >= RESUME_LIMIT;
  }
}
