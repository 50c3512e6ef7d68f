// Hop numbers over logs of any length: what the limit on reading a log back does to
// them.

module LongNumbers {
  import opened Options
  import opened Envelopes
  import opened BoundedFifo
  import opened Indexes
  import opened Policies
  import opened Wiring
  import opened Speculation
  import opened Kernel
  import opened Books
  import opened Frames
  import opened SeqNumbers
  import opened Resumes

  // ---- What a restart numbers from ----

  /** The highest number on record for a hop. */
  ghost function HighestAt(log: seq<Envelope>, hop: Endpoint): nat {
    if log == [] then 0
    else
      var before, e := HighestAt(log[..|log| - 1], hop), log[|log| - 1];
      if Source(e) == hop && e.seqNo > before then e.seqNo else before
  }

  lemma {:induction false} HighestIsOne(log: seq<Envelope>, hop: Endpoint)
    ensures forall i :: 0 <= i < |log| && Source(log[i]) == hop ==> log[i].seqNo <= HighestAt(log, hop)
    ensures HighestAt(log, hop) == 0 || exists i :: 0 <= i < |log| && Source(log[i]) == hop && log[i].seqNo == HighestAt(log, hop)
  {
    if log != [] {
      var before, e := log[..|log| - 1], log[|log| - 1];
      HighestIsOne(before, hop);
      assert forall i :: 0 <= i < |before| ==> before[i] == log[i];
    }
  }

  lemma {:induction false} ReplayedHighest(c: Config, log: seq<Envelope>, hop: Endpoint)
    ensures At(Replay(c, log).maxSeq, hop) == if IsDest(c, hop) then HighestAt(log, hop) else 0
  {
    if log != [] { ReplayedHighest(c, log[..|log| - 1], hop); }
  }

  ghost predicate SentOn(x: Send, hop: Endpoint) {
    Source(x.env) == hop && x.env.seqNo > 0
  }

  /** No number this hop was ever sent is above the highest that can be read back. */
  ghost predicate Covered(s: State, hop: Endpoint) {
    forall k :: 0 <= k < |s.sent| && SentOn(s.sent[k], hop) ==> s.sent[k].env.seqNo <= HighestAt(Readable(s.log), hop)
  }

  /** A restart keeps the numbering exactly when every number sent can be read back. */
  lemma NumberingSurvivesIff(c: Config, s: State)
    requires Numbering(c, s)
    ensures Numbering(c, ResumeF(c, s)) <==> forall hop :: Covered(s, hop)
  {
    hide Replay;
    var t := ResumeF(c, s);
    RebuiltIsWired(c, Replay(c, Readable(s.log)));
    forall k | 0 <= k < |s.sent|
      ensures At(t.seqNo, Source(s.sent[k].env))
           == if IsDest(c, Source(s.sent[k].env)) then HighestAt(Readable(s.log), Source(s.sent[k].env)) else 0
    {
      ReplayedHighest(c, Readable(s.log), Source(s.sent[k].env));
    }
    if Numbering(c, t) {
      forall hop, k | 0 <= k < |s.sent| && SentOn(s.sent[k], hop)
        ensures s.sent[k].env.seqNo <= HighestAt(Readable(s.log), hop)
      {
        assert t.sent[k].env.seqNo <= At(t.seqNo, Source(t.sent[k].env));
      }
    }
    if forall hop :: Covered(s, hop) {
      forall k | 0 <= k < |s.sent| ensures s.sent[k].env.seqNo <= At(t.seqNo, Source(s.sent[k].env)) {
        var hop := Source(s.sent[k].env);
        assert Covered(s, hop);
        assert s.sent[k].env.seqNo > 0 ==> SentOn(s.sent[k], hop);
      }
    }
  }

  /** The next number a restarted session stamps on a hop is above all the hop was
      sent exactly when those can be read back. */
  lemma NextNumberRisesIff(c: Config, w: World, s: State, src: Envelope, d: Dest)
    requires IsDest(c, Endpoint(d.ref, d.port))
    ensures var hop, n := Endpoint(d.ref, d.port), Outgoing(w, ResumeF(c, s), src, d).seqNo;
            && n == HighestAt(Readable(s.log), hop) + 1
            && ((forall k :: 0 <= k < |s.sent| && SentOn(s.sent[k], hop) ==> s.sent[k].env.seqNo < n) <==> Covered(s, hop))
  {
    ReplayedHighest(c, Readable(s.log), Endpoint(d.ref, d.port));
  }

  // ---- Whole runs ----

  /** At every crash all the numbers sent could be read back. */
  ghost predicate CoveredRun(c: Config, inputs: seq<Input>) {
    inputs != [] ==>
      var before, last := inputs[..|inputs| - 1], inputs[|inputs| - 1];
      && CoveredRun(c, before) && FromOutside(last)
      && (last.Crash? ==> forall hop :: Covered(Run(c, before), hop))
  }

  /** However long the logs a session crashed on, the numbers a hop is sent rise so
      long as each could be read back. */
  lemma {:induction false} NumbersRiseWhileCovered(c: Config, inputs: seq<Input>)
    requires CoveredRun(c, inputs)
    ensures Numbering(c, Run(c, inputs)) && Increasing(Run(c, inputs).sent)
  {
    if inputs != [] {
      var before, last := inputs[..|inputs| - 1], inputs[|inputs| - 1];
      NumbersRiseWhileCovered(c, before);
      match last {
        case Arrive(env, w) => RouteNumbers(c, w, Run(c, before), env);
        case Crash => NumberingSurvivesIff(c, Run(c, before));
      }
    }
  }

  // ---- Which numbers can be read back: those on record within reach ----

  /** A delivery the kernel numbered. */
  ghost predicate Stamped(e: Envelope) {
    e.id.Minted? && e.seqNo > 0
  }

  ghost predicate SameHop(a: Envelope, b: Envelope) {
    Stamped(a) && Stamped(b) && Source(a) == Source(b)
  }

  /** From `s` to `t` the deliveries put on record took their hops' next numbers. */
  ghost predicate Numbers(c: Config, s: State, t: State) {
    && s.log <= t.log
    && (forall hop :: At(s.seqNo, hop) <= At(t.seqNo, hop))
    && (forall i :: |s.log| <= i < |t.log| && Stamped(t.log[i]) ==>
          IsDest(c, Source(t.log[i]))
          && At(s.seqNo, Source(t.log[i])) < t.log[i].seqNo <= At(t.seqNo, Source(t.log[i])))
    && (forall i, j :: |s.log| <= i < j < |t.log| && SameHop(t.log[i], t.log[j]) ==> t.log[i].seqNo < t.log[j].seqNo)
  }

  lemma NumbersChain(c: Config, s: State, t: State, u: State)
    requires Numbers(c, s, t) && Numbers(c, t, u)
    ensures Numbers(c, s, u)
  {
    hide Stamped, IsDest;
    forall i | |s.log| <= i < |u.log| && Stamped(u.log[i])
      ensures IsDest(c, Source(u.log[i]))
      ensures At(s.seqNo, Source(u.log[i])) < u.log[i].seqNo <= At(u.seqNo, Source(u.log[i]))
    {
      if i < |t.log| { assert u.log[i] == t.log[i]; }
    }
    forall i, j | |s.log| <= i < j < |u.log| && SameHop(u.log[i], u.log[j])
      ensures u.log[i].seqNo < u.log[j].seqNo
    {
      if i < |t.log| {
        assert u.log[i] == t.log[i];
        assert j < |t.log| ==> u.log[j] == t.log[j];
      }
    }
  }

  lemma NoticeNumbers(c: Config, s: State, e: Envelope, t: State)
    requires t.log == s.log + [e] && t.seqNo == s.seqNo && !Stamped(e)
    ensures Numbers(c, s, t)
  {
  }

  lemma SameNumbers(c: Config, s: State, t: State)
    requires t.log == s.log && t.seqNo == s.seqNo
    ensures Numbers(c, s, t)
  {
  }

  lemma DeliverNumbersLog(c: Config, w: World, before: State, s: State, src: Envelope, out: Envelope, d: Dest, via: Id)
    requires s.log == before.log && out.id.Minted? && IsDest(c, Source(out))
    requires out.seqNo == At(before.seqNo, Source(out)) + 1 && s.seqNo == before.seqNo[Source(out) := out.seqNo]
    ensures Numbers(c, before, DeliverF(c, w, s, src, out, d, via))
  {
    hide IsDest;
    var e := if Dropped(w, out) then out.(payload := Elided) else Loggable(c, out, d.qos);
    var mid := s.(log := s.log + [e]);
    assert Numbers(c, before, mid);
    if !Dropped(w, out) && !w.send(out.id.n) {
      var s1 := mid.(sent := s.sent + [Send(out, d, via, |s.log|)]);
      NoticeNumbers(c, mid, ErrorEnvelope(Minted(s1.mint), src.id), EmitErrorF(s1, src.id, via));
      NumbersChain(c, before, mid, EmitErrorF(s1, src.id, via));
    }
  }

  lemma CheckpointNumbersLog(c: Config, w: World, before: State, s: State, src: Envelope, out: Envelope, d: Dest, root: Id, via: Id)
    requires s.log == before.log && out.id.Minted? && IsDest(c, Source(out))
    requires out.seqNo == At(before.seqNo, Source(out)) + 1 && s.seqNo == before.seqNo[Source(out) := out.seqNo]
    ensures Numbers(c, before, CheckpointF(c, w, s, src, out, d, root, via))
  {
    hide DeliverF, IsDest, Numbers;
    DeliverNumbersLog(c, w, before, s, src, out, d, via);
    if c.hasLedger && IsEffectDelivery(d, out.kind) {
      var taken := s.(approved := s.approved - {out.cause});
      SkippedNumber(c, before, Source(out), taken, src.id, via);
      DeliverNumbersLog(c, w, before, taken, src, out, d, via);
      DeliverNumbersLog(c, w, before, taken.(ledger := s.ledger + [DeliveredEntry(c, s, out, d, root, via)]),
                        src, out.(receipt := Some(|s.ledger|)), d, via);
    }
  }

  /** A number that was drawn and went nowhere. */
  lemma SkippedNumber(c: Config, before: State, hop: Endpoint, s: State, cause: Id, via: Id)
    requires s.log == before.log && s.seqNo == before.seqNo[hop := At(before.seqNo, hop) + 1]
    ensures Numbers(c, before, EmitErrorF(s, cause, via))
  {
  }

  lemma ForwardNumbersLog(c: Config, w: World, s: State, src: Envelope, d: Dest, via: Id)
    requires IsDest(c, Endpoint(d.ref, d.port))
    ensures Numbers(c, s, ForwardF(c, w, s, src, d, via))
  {
    hide CheckpointF, IsDest, Numbers;
    if RateRefused(c, w, s, src, d) {
      NoticeNumbers(c, s, ErrorEnvelope(Minted(s.mint), src.id), EmitErrorF(s, src.id, via));
    } else {
      var out := Outgoing(w, s, src, d);
      var (consumed, over) := ContextF(c, s, out);
      var s1 := s.(mint := s.mint + 1, seqNo := s.seqNo[Source(out) := out.seqNo], consumed := consumed);
      SkippedNumber(c, s, Source(out), s1, src.id, via);
      CheckpointNumbersLog(c, w, s, TrackF(s1, src, out), src, out, d, RootOf(s1, src), via);
    }
  }

  lemma {:induction false} AbandonNumbersLog(c: Config, s: State, ids: seq<Id>, d: Dest)
    ensures Numbers(c, s, AbandonAllF(s, ids, d))
  {
    hide CancelF, Numbers;
    if ids != [] {
      var s1, t := AbandonAllF(s, ids[..|ids| - 1], d), AbandonAllF(s, ids, d);
      AbandonNumbersLog(c, s, ids[..|ids| - 1], d);
      if d.skill.Some? {
        NoticeNumbers(c, s1, KernelEnvelope(Minted(s1.mint), ids[|ids| - 1], d.ref, d.port, Cancel, "", Notice("superseded")), t);
      } else {
        SameNumbers(c, s1, t);
      }
      NumbersChain(c, s, s1, t);
    } else {
      SameNumbers(c, s, s);
    }
  }

  lemma SpeculativeNumbersLog(c: Config, w: World, s: State, env: Envelope, d: Dest, root: Id)
    requires IsDest(c, Endpoint(d.ref, d.port))
    ensures Numbers(c, s, ForwardSpeculativelyF(c, w, s, env, d, root))
  {
    hide ForwardF, AbandonAllF, FoldF, ResolveF, SpeculateF, StaleF, RunningF, GuessStands, IsFinal, MarkFinal, IsDest;
    var key := SpecKey(root, d.from);
    var folded := FoldF(s.spec, key, env.schema, env.payload);
    var running := RunningF(folded, key);
    var resolved := s.(spec := ResolveF(folded, key, running));
    var stale := StaleF(folded, key, running);
    var s1 := AbandonAllF(resolved, stale, d);
    ForwardNumbersLog(c, w, s, env, d, NoId);
    ForwardNumbersLog(c, w, s.(spec := folded), env.(payload := MarkFinal(running)), d, NoId);
    AbandonNumbersLog(c, resolved, stale, d);
    ForwardNumbersLog(c, w, s1, env.(payload := running), d, NoId);
    NumbersChain(c, resolved, s1, ForwardF(c, w, s1, env.(payload := running), d, NoId));
  }

  lemma {:induction false} ToDestsNumbersLog(c: Config, w: World, s: State, env: Envelope, dests: seq<Dest>, root: Id)
    requires forall d :: d in dests ==> d in DestsAt(c.routes, Source(env))
    ensures Numbers(c, s, ToDestsF(c, w, s, env, dests, root))
  {
    hide ForwardF, ForwardSpeculativelyF, RequestEnvelope, IsDest, Numbers;
    if dests != [] {
      var before, d := dests[..|dests| - 1], dests[|dests| - 1];
      assert d in dests;
      ToDestsNumbersLog(c, w, s, env, before, root);
      var s1 := ToDestsF(c, w, s, env, before, root);
      WiredIsDest(c, Source(env), d);
      SpeculativeNumbersLog(c, w, s1, env, d, root);
      ForwardNumbersLog(c, w, s1, env, d, NoId);
      HoldNumbersLog(c, s1, env, d);
      NumbersChain(c, s, s1, ToDestF(c, w, s1, env, d, root));
    } else {
      SameNumbers(c, s, s);
    }
  }

  lemma HoldNumbersLog(c: Config, s: State, env: Envelope, d: Dest)
    ensures Numbers(c, s, HoldF(s, env, d))
  {
    NoticeNumbers(c, s, RequestEnvelope(Minted(s.mint), env, d), HoldF(s, env, d));
  }

  lemma ResolveNumbersLog(c: Config, w: World, s: State, answer: Envelope)
    requires PendingWired(c, s.pending) && answer.id.External?
    ensures Numbers(c, s, ResolveGateF(c, w, s, answer))
  {
    hide ForwardF, AuthorizeGate, SealDenialF, Numbers, IsDest;
    if answer.cause in s.pending {
      var held := s.pending[answer.cause];
      var s1 := s.(pending := s.pending - {answer.cause}, log := s.log + [answer]);
      NoticeNumbers(c, s, answer, s1);
      WiredIsDest(c, Source(held.env), held.to);
      var t := ResolveGateF(c, w, s, answer);
      match AuthorizeGate(c, w.roster, held, answer.payload) {
        case Rejected => DenyNumbersLog(c, w, s1, answer.cause, held, answer, None);
        case Denies(a) => DenyNumbersLog(c, w, s1, answer.cause, held, answer, a);
        case Approves(a) =>
          var parked := if a.Some? then s1.(approved := s1.approved[held.env.id := a.value]) else s1;
          var s2 := parked.(gates := s1.gates + [Released(answer.cause, held, answer, a, w.roster)]);
          ForwardNumbersLog(c, w, s2, held.env, held.to, answer.cause);
          SameNumbers(c, s1, s2);
          NumbersChain(c, s1, s2, t);
      }
      NumbersChain(c, s, s1, t);
    } else {
      SameNumbers(c, s, s);
    }
  }

  lemma DenyNumbersLog(c: Config, w: World, s: State, req: Id, held: Held, answer: Envelope, a: Option<Approval>)
    ensures Numbers(c, s, DenyF(c, w, s, req, held, answer, a))
  {
    NoticeNumbers(c, s, ErrorEnvelope(Minted(s.mint), answer.id), DenyF(c, w, s, req, held, answer, a));
  }

  lemma RouteNumbersLog(c: Config, w: World, s: State, env: Envelope)
    requires PendingWired(c, s.pending) && env.id.External?
    ensures Numbers(c, s, RouteF(c, w, s, env))
  {
    hide ToDestsF, ResolveGateF, Duplicate, CancelTarget, AttestF, SeenF, Numbers, CancelledF;
    var logged, t := s.(log := s.log + [env]), RouteF(c, w, s, env);
    NoticeNumbers(c, s, env, logged);
    if env.kind == Cancel || Duplicate(s, env) {
      SameNumbers(c, logged, t);
      NumbersChain(c, s, logged, t);
    } else {
      var seen := if env.kind == Data then logged.(dedup := SeenF(s.dedup, env.idem)) else logged;
      SameNumbers(c, logged, seen);
      NumbersChain(c, s, logged, seen);
      var noted := seen.(attests := if env.attest == "" then seen.attests
                                    else AttestF(seen.attests, MAX_ATTEST_PER_ROOT, RootOf(seen, env), w.attest(env.attest)));
      SameNumbers(c, seen, noted);
      SameNumbers(c, seen, seen);
      ResolveNumbersLog(c, w, seen, env);
      ToDestsNumbersLog(c, w, noted, env, DestsAt(c.routes, Source(env)), RootOf(seen, env));
      NumbersChain(c, seen, noted, ToDestsF(c, w, noted, env, DestsAt(c.routes, Source(env)), RootOf(seen, env)));
      NumbersChain(c, s, seen, t);
    }
  }

  /** Clients and skills number nothing as if a hop had been sent it. */
  ghost predicate OwnNumbers(c: Config, log: seq<Envelope>) {
    forall i :: 0 <= i < |log| && log[i].id.External? && IsDest(c, Source(log[i])) ==> log[i].seqNo == 0
  }

  /** Sent on the hop, and written where a restart does not read. */
  ghost predicate SentPast(s: State, hop: Endpoint) {
    exists k :: 0 <= k < |s.sent| && SentOn(s.sent[k], hop) && s.sent[k].at >= RESUME_LIMIT
  }

  /** Deliveries are numbered on wired hops; past the first thousand events above all
      among those; and the counters are no lower than these. */
  ghost predicate PastAbove(c: Config, s: State) {
    && (forall hop :: IsDest(c, hop) ==> HighestAt(Readable(s.log), hop) <= At(s.seqNo, hop))
    && (forall i :: 0 <= i < |s.log| && Stamped(s.log[i]) ==>
          IsDest(c, Source(s.log[i])) && (i >= RESUME_LIMIT ==> s.log[i].seqNo > HighestAt(Readable(s.log), Source(s.log[i]))))
  }

  /** The highest number read after more was written: read before, or newly drawn. */
  lemma HighestLater(c: Config, s: State, t: State, hop: Endpoint)
    requires Numbers(c, s, t) && OwnNumbers(c, t.log) && LogOk(t.log, t.mint) && IsDest(c, hop)
    ensures var high := HighestAt(Readable(t.log), hop);
            high <= HighestAt(Readable(s.log), hop)
            || exists i :: |s.log| <= i < |Readable(t.log)| && Stamped(t.log[i]) && Source(t.log[i]) == hop && t.log[i].seqNo == high
  {
    hide IsDest;
    HighestIsOne(Readable(t.log), hop);
    HighestIsOne(Readable(s.log), hop);
    var high := HighestAt(Readable(t.log), hop);
    if high > 0 {
      var i :| 0 <= i < |Readable(t.log)| && Source(Readable(t.log)[i]) == hop && Readable(t.log)[i].seqNo == high;
      assert Readable(t.log)[i] == t.log[i];
      if i < |s.log| {
        assert Readable(s.log)[i] == s.log[i] == t.log[i];
      } else {
        LoggedId(t, i);
      }
    }
  }

  lemma PastStaysAbove(c: Config, s: State, t: State)
    requires PastAbove(c, s) && Numbers(c, s, t) && OwnNumbers(c, t.log) && LogOk(t.log, t.mint)
    ensures PastAbove(c, t)
  {
    hide IsDest, HighestAt, LogOk, OwnNumbers;
    forall hop | IsDest(c, hop) ensures HighestAt(Readable(t.log), hop) <= At(t.seqNo, hop) {
      HighestLater(c, s, t, hop);
    }
    forall i | 0 <= i < |t.log| && Stamped(t.log[i])
      ensures IsDest(c, Source(t.log[i]))
      ensures i >= RESUME_LIMIT ==> t.log[i].seqNo > HighestAt(Readable(t.log), Source(t.log[i]))
    {
      if i < |s.log| {
        assert t.log[i] == s.log[i];
        assert i >= RESUME_LIMIT ==> Readable(t.log) == Readable(s.log);
      } else {
        HighestLater(c, s, t, Source(t.log[i]));
        if i >= RESUME_LIMIT { AboveNew(c, s, t, i); }
      }
    }
  }

  lemma AboveNew(c: Config, s: State, t: State, i: nat)
    requires PastAbove(c, s) && Numbers(c, s, t) && |s.log| <= i < |t.log| && Stamped(t.log[i]) && i >= RESUME_LIMIT
    requires var high, hop := HighestAt(Readable(t.log), Source(t.log[i])), Source(t.log[i]);
             high <= HighestAt(Readable(s.log), hop)
             || exists k :: |s.log| <= k < |Readable(t.log)| && Stamped(t.log[k]) && Source(t.log[k]) == hop && t.log[k].seqNo == high
    ensures t.log[i].seqNo > HighestAt(Readable(t.log), Source(t.log[i]))
  {
    hide IsDest, HighestAt;
    var hop := Source(t.log[i]);
    assert At(s.seqNo, hop) < t.log[i].seqNo;
    if HighestAt(Readable(t.log), hop) > HighestAt(Readable(s.log), hop) {
      var k :| |s.log| <= k < |Readable(t.log)| && Stamped(t.log[k]) && Source(t.log[k]) == hop
               && t.log[k].seqNo == HighestAt(Readable(t.log), hop);
      assert SameHop(t.log[k], t.log[i]);
    }
  }

  lemma ResumePastAbove(c: Config, s: State)
    requires PastAbove(c, s)
    ensures PastAbove(c, ResumeF(c, s))
  {
    var t := ResumeF(c, s);
    forall hop | IsDest(c, hop) ensures HighestAt(Readable(t.log), hop) <= At(t.seqNo, hop) {
      ReplayedHighest(c, Readable(s.log), hop);
    }
  }

  lemma {:induction false} ToDestsWired(c: Config, w: World, s: State, env: Envelope, dests: seq<Dest>, root: Id)
    requires PendingWired(c, s.pending) && forall d :: d in dests ==> d in DestsAt(c.routes, Source(env))
    ensures PendingWired(c, ToDestsF(c, w, s, env, dests, root).pending)
  {
    hide ForwardF, ForwardSpeculativelyF;
    if dests != [] {
      var before, d := dests[..|dests| - 1], dests[|dests| - 1];
      assert d in dests;
      ToDestsWired(c, w, s, env, before, root);
      var s1 := ToDestsF(c, w, s, env, before, root);
      ForwardFrame(c, w, s1, env, d, NoId);
      SpeculativeFrame(c, w, s1, env, d, root);
    }
  }

  lemma ResolveWired(c: Config, w: World, s: State, answer: Envelope)
    requires PendingWired(c, s.pending)
    ensures PendingWired(c, ResolveGateF(c, w, s, answer).pending)
  {
    hide ForwardF, AuthorizeGate;
    if answer.cause in s.pending {
      var held := s.pending[answer.cause];
      var s1 := s.(pending := s.pending - {answer.cause}, log := s.log + [answer]);
      match AuthorizeGate(c, w.roster, held, answer.payload) {
        case Rejected =>
        case Denies(a) =>
        case Approves(a) =>
          var parked := if a.Some? then s1.(approved := s1.approved[held.env.id := a.value]) else s1;
          ForwardFrame(c, w, parked.(gates := s1.gates + [Released(answer.cause, held, answer, a, w.roster)]),
                       held.env, held.to, answer.cause);
      }
    }
  }

  lemma RouteWired(c: Config, w: World, s: State, env: Envelope)
    requires PendingWired(c, s.pending)
    ensures PendingWired(c, RouteF(c, w, s, env).pending)
  {
    hide ToDestsF, ResolveGateF, Duplicate, CancelTarget, AttestF, SeenF, CancelledF, PendingWired;
    var logged := s.(log := s.log + [env]);
    if env.kind != Cancel && !Duplicate(s, env) {
      var seen := if env.kind == Data then logged.(dedup := SeenF(s.dedup, env.idem)) else logged;
      ResolveWired(c, w, seen, env);
      var noted := seen.(attests := if env.attest == "" then seen.attests
                                    else AttestF(seen.attests, MAX_ATTEST_PER_ROOT, RootOf(seen, env), w.attest(env.attest)));
      ToDestsWired(c, w, noted, env, DestsAt(c.routes, Source(env)), RootOf(seen, env));
    }
  }

  lemma {:induction false} PastAboveInEveryRun(c: Config, inputs: seq<Input>)
    requires (forall i :: i in inputs ==> FromOutside(i)) && OwnNumbers(c, Run(c, inputs).log)
    ensures PastAbove(c, Run(c, inputs)) && PendingWired(c, Run(c, inputs).pending)
  {
    hide RouteF, ResumeF, Numbers, PastAbove, PendingWired, OwnNumbers;
    if inputs == [] {
      NothingPast(c);
    } else {
      var before, last := inputs[..|inputs| - 1], inputs[|inputs| - 1];
      assert last in inputs;
      var s := Run(c, before);
      RecordIsOrdered(c, inputs);
      match last {
        case Arrive(env, w) =>
          RouteLogGrows(c, w, s, env);
          OwnEarlier(c, s.log, RouteF(c, w, s, env).log);
          PastAboveInEveryRun(c, before);
          RouteNumbersLog(c, w, s, env);
          PastStaysAbove(c, s, RouteF(c, w, s, env));
          RouteWired(c, w, s, env);
        case Crash =>
          SameLogKept(c, s);
          PastAboveInEveryRun(c, before);
          ResumePastAbove(c, s);
          ResumeWired(c, s);
      }
    }
  }

  lemma NothingPast(c: Config)
    ensures PastAbove(c, Start()) && PendingWired(c, Start().pending)
  {
  }

  lemma RouteLogGrows(c: Config, w: World, s: State, env: Envelope)
    ensures s.log <= RouteF(c, w, s, env).log
  {
    hide ToDestsF, ResolveGateF, HandleCancelF, AttestF, SeenF, Duplicate, CancelledF;
    RouteDedup(c, w, s, env);
  }

  lemma SameLogKept(c: Config, s: State)
    ensures ResumeF(c, s).log == s.log
  {
  }

  lemma ResumeWired(c: Config, s: State)
    ensures PendingWired(c, ResumeF(c, s).pending)
  {
    RebuiltIsWired(c, Replay(c, Readable(s.log)));
  }

  lemma OwnEarlier(c: Config, log: seq<Envelope>, more: seq<Envelope>)
    requires OwnNumbers(c, more) && log <= more
    ensures OwnNumbers(c, log)
  {
    hide IsDest;
    assert forall i :: 0 <= i < |log| ==> log[i] == more[i];
  }

  lemma CoveredIff(c: Config, s: State, hop: Endpoint)
    requires Ordered(s) && PastAbove(c, s)
    ensures Covered(s, hop) <==> !SentPast(s, hop)
  {
    hide LogOk, IsDest, PendingKnown, GuessesKnown;
    var part := Readable(s.log);
    HighestIsOne(part, hop);
    forall k | 0 <= k < |s.sent| && SentOn(s.sent[k], hop)
      ensures s.sent[k].env.seqNo <= HighestAt(part, hop) <==> s.sent[k].at < RESUME_LIMIT
    {
      var x := s.sent[k];
      assert SendOk(s.log, s.mint, x);
      assert Stamped(s.log[x.at]);
      if x.at < RESUME_LIMIT {
        assert part[x.at] == s.log[x.at];
      }
    }
  }

  lemma LoggedId(s: State, i: nat)
    requires LogOk(s.log, s.mint) && i < |s.log|
    ensures s.log[i].id.External? || s.log[i].id.Minted?
  {
    assert EntryOk(s.log, s.mint, i);
  }

  /** Hop numbers past the limit: in every run, whatever logs it crashed on, the next
      restart numbers on above everything a hop was sent exactly when none of it was
      written past the first thousand events. */
  lemma NumberRepeatsIff(c: Config, inputs: seq<Input>, w: World, src: Envelope, d: Dest)
    requires (forall i :: i in inputs ==> FromOutside(i)) && OwnNumbers(c, Run(c, inputs).log)
    requires IsDest(c, Endpoint(d.ref, d.port))
    ensures var s, hop := Run(c, inputs), Endpoint(d.ref, d.port);
            var n := Outgoing(w, ResumeF(c, s), src, d).seqNo;
            (exists k :: 0 <= k < |s.sent| && SentOn(s.sent[k], hop) && s.sent[k].env.seqNo >= n) <==> SentPast(s, hop)
  {
    RecordIsOrdered(c, inputs);
    PastAboveInEveryRun(c, inputs);
    var s, hop := Run(c, inputs), Endpoint(d.ref, d.port);
    hide Run, ResumeF, Ordered, PastAbove, IsDest, OwnNumbers, Outgoing;
    CoveredIff(c, s, hop);
    NextNumberRisesIff(c, w, s, src, d);
  }
}
