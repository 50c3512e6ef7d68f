// A gate answered twice over a restart that could not read its answer back, and a gate
// that speculation walks past.

module RestartLimits {
  import opened Options
  import opened Envelopes
  import opened BoundedFifo
  import opened Indexes
  import opened Policies
  import opened Wiring
  import opened Speculation
  import opened Kernel
  import opened Frames
  import opened Books
  import opened Chains
  import opened Gates
  import opened Resumes
  import opened Restarts
  import opened PlainSteps

  // ---- Only the oldest thousand events are read back. ----

  /** A client status nobody listens to: it is logged and nothing else happens. */
  ghost predicate Idle(c: Config, pad: Envelope) {
    pad.id.External? && pad.node == CLIENT && pad.kind == Status && pad.attest == "" && DestsAt(c.routes, Source(pad)) == []
  }

  ghost function Copies(pad: Envelope, n: nat): (log: seq<Envelope>)
    ensures |log| == n && forall i :: 0 <= i < n ==> log[i] == pad
  {
    if n == 0 then [] else Copies(pad, n - 1) + [pad]
  }

  ghost function Pads(pad: Envelope, w: World, n: nat): (inputs: seq<Input>)
    ensures |inputs| == n
  {
    if n == 0 then [] else Pads(pad, w, n - 1) + [Arrive(pad, w)]
  }

  lemma {:induction false} Padded(c: Config, pad: Envelope, w: World, n: nat)
    requires Idle(c, pad)
    ensures Run(c, Pads(pad, w, n)) == Start().(log := Copies(pad, n))
    ensures Mirrors(c, Copies(pad, n), map[])
  {
    hide RouteF, ResumeF;
    if n > 0 {
      Padded(c, pad, w, n - 1);
      RunOne(c, Pads(pad, w, n - 1), Arrive(pad, w));
      var s := Start().(log := Copies(pad, n - 1));
      hide Run, Mirrors;
      IdleLogged(c, w, s, pad);
      PadMirrors(c, s, pad, n - 1);
    }
  }

  lemma PadMirrors(c: Config, s: State, pad: Envelope, n: nat)
    requires s.log == Copies(pad, n) && s.pending == map[] && Mirrors(c, s.log, s.pending) && pad.kind == Status
    ensures Mirrors(c, s.log + [pad], s.pending)
  {
    hide MirrorsIn, Replay;
    LoggedMirrors(c, s, pad);
  }

  lemma IdleLogged(c: Config, w: World, s: State, pad: Envelope)
    requires Idle(c, pad) && s.cancelled.m == map[]
    ensures RouteF(c, w, s, pad) == s.(log := s.log + [pad])
  {
  }

  /** A message of the client's that has to wait for a human. */
  ghost predicate Gated(c: Config, env: Envelope, d: Dest) {
    && env.id.External? && env.node == CLIENT && env.kind == Data && env.attest == ""
    && DestsAt(c.routes, Source(env)) == [d] && d.gate == HumanApproval && !d.speculative
  }

  lemma GateOpens(c: Config, pad: Envelope, env: Envelope, d: Dest, w: World, n: nat)
    requires Idle(c, pad) && Gated(c, env, d) && pad.id != env.id
    ensures var s := Run(c, Pads(pad, w, n) + [Arrive(env, w)]);
            && s.log == Copies(pad, n) + [env] + [RequestEnvelope(Minted(0), env, d)]
            && s.pending == map[Minted(0) := Held(env, d)] && s.gates == [Opened(Minted(0), Held(env, d))]
            && Mirrors(c, s.log, s.pending)
  {
    hide Run, RouteF, Mirrors, Pads, Copies;
    Padded(c, pad, w, n);
    RunOne(c, Pads(pad, w, n), Arrive(env, w));
    var s := Start().(log := Copies(pad, n));
    LoggedMirrors(c, s, env);
    GateAsked(c, s, env, d, w);
  }

  lemma GateAsked(c: Config, s: State, env: Envelope, d: Dest, w: World)
    requires Gated(c, env, d) && s == Start().(log := s.log) && Unique(s.log + [env])
    requires Restorable(c, s.(log := s.log + [env]))
    ensures var t := RouteF(c, w, s, env);
            && t.log == s.log + [env] + [RequestEnvelope(Minted(0), env, d)]
            && t.pending == map[Minted(0) := Held(env, d)] && t.gates == [Opened(Minted(0), Held(env, d))]
            && Mirrors(c, t.log, t.pending)
  {
    var seen := Taken(s, env);
    PlainRoute(c, w, s, env);
    hide RouteF, ToDestsF, Mirrors, SeenF, Unique;
    OneDest(c, w, seen, env, d, env.id);
    assert RouteF(c, w, s, env) == HoldF(seen, env, d);
    GateForIs([d], 0);
    HoldMirrors(c, seen, env, d);
  }

  /** When exactly the thousandth event is the question, its answer is not read back:
      the restarted session waits again for a gate already released, and a second
      answer releases the same held delivery a second time. */
  lemma AnsweredTwice(c: Config, pad: Envelope, env: Envelope, d: Dest, w: World, answer: Envelope)
    requires Idle(c, pad) && Gated(c, env, d) && pad.id != env.id
    requires answer.kind == ConfirmResponse && answer.cause == Minted(0) && answer.payload == Answer(true, None)
    requires !SignedRequired(c.pol)
    ensures var first := Pads(pad, w, RESUME_LIMIT - 2) + [Arrive(env, w)] + [Arrive(answer, w)];
            var t := Run(c, first + [Crash] + [Arrive(answer, w)]);
            && OpenedCount(t.gates) == 1 && ReleasedCount(t.gates) == 2
  {
    var opening := Pads(pad, w, RESUME_LIMIT - 2) + [Arrive(env, w)];
    GateOpens(c, pad, env, d, w, RESUME_LIMIT - 2);
    RunOne(c, opening, Arrive(answer, w));
    RunOne(c, opening + [Arrive(answer, w)], Crash);
    RunOne(c, opening + [Arrive(answer, w)] + [Crash], Arrive(answer, w));
    hide Run, Mirrors, RouteF, ResumeF, Pads, Gated, Idle;
    ReleasedAgain(c, Run(c, opening), w, answer, Held(env, d));
  }

  lemma ReleasedAgain(c: Config, s: State, w: World, answer: Envelope, held: Held)
    requires |s.log| == RESUME_LIMIT && Mirrors(c, s.log, s.pending)
    requires s.pending == map[Minted(0) := held] && s.gates == [Opened(Minted(0), held)]
    requires answer.kind == ConfirmResponse && answer.cause == Minted(0) && answer.payload == Answer(true, None)
    requires !SignedRequired(c.pol)
    ensures var t := RouteF(c, w, ResumeF(c, RouteF(c, w, s, answer)), answer);
            OpenedCount(t.gates) == 1 && ReleasedCount(t.gates) == 2
  {
    hide RouteF, ResumeF, Mirrors, SignedRequired, OpenedCount, ReleasedCount;
    ReleasedBy(c, w, s, answer, held);
    var s1 := RouteF(c, w, s, answer);
    StillPending(c, s, s1);
    ReleasedBy(c, w, ResumeF(c, s1), answer, held);
    var o, e := Opened(Minted(0), held), Released(Minted(0), held, answer, None, w.roster);
    assert [o] + [e] + [e] == [o, e, e];
    Counts(o, e);
  }

  /** Whatever is written after the thousandth event, a restart waits for the gates
      that were pending then. */
  lemma StillPending(c: Config, s: State, later: State)
    requires |s.log| == RESUME_LIMIT && Mirrors(c, s.log, s.pending) && s.log <= later.log
    ensures ResumeF(c, later).pending == s.pending && ResumeF(c, later).gates == later.gates
  {
    hide Replay, MirrorsIn, PendingFrom;
    assert Readable(later.log) == s.log;
    MirroredIsPending(c, Replay(c, s.log), s.pending);
  }

  lemma Counts(o: GateEvent, e: GateEvent)
    requires o.Opened? && e.Released?
    ensures OpenedCount([o, e, e]) == 1 && ReleasedCount([o, e, e]) == 2
  {
    assert [o][..0] == [] && OpenedCount([o]) == 1 && ReleasedCount([o]) == 0;
    assert [o, e][..1] == [o] && OpenedCount([o, e]) == 1 && ReleasedCount([o, e]) == 1;
    assert [o, e, e][..2] == [o, e];
  }

  lemma ReleasedBy(c: Config, w: World, s: State, answer: Envelope, held: Held)
    requires answer.kind == ConfirmResponse && answer.payload == Answer(true, None) && !SignedRequired(c.pol)
    requires answer.cause in s.pending && s.pending[answer.cause] == held
    ensures var t := RouteF(c, w, s, answer);
            s.log <= t.log && t.gates == s.gates + [Released(answer.cause, held, answer, None, w.roster)]
  {
    hide ForwardF;
    var s1 := s.(pending := s.pending - {answer.cause}, log := s.log + [answer] + [answer],
                 gates := s.gates + [Released(answer.cause, held, answer, None, w.roster)]);
    ForwardFrame(c, w, s1, held.env, held.to, answer.cause);
    ForwardAdds(c, w, s1, held.env, held.to, answer.cause);
  }

  // ---- A gate that speculation walks past. ----

  /** An edge asks a human exactly when it does not speculate, whatever its gate says. */
  lemma SpeculationSkipsTheGate(c: Config, w: World, s: State, env: Envelope, d: Dest, root: Id)
    requires d.gate == HumanApproval
    ensures ToDestF(c, w, s, env, d, root).gates == s.gates + [Opened(Minted(s.mint), Held(env, d))] <==> !d.speculative
    ensures d.speculative ==> ToDestF(c, w, s, env, d, root).pending == s.pending
  {
    hide ForwardSpeculativelyF;
    SpeculativeFrame(c, w, s, env, d, root);
    assert |s.gates + [Opened(Minted(s.mint), Held(env, d))]| == |s.gates| + 1;
  }

  /** Wiring makes such an edge exactly when policy allows speculation, wants a gate
      on the capability (or the graph asked for one), and the skill is not motor. */
  lemma WiredToSkip(d: Dest, pol: Policy, published: bool)
    requires d.skill.Some? && ApplyPolicy(d, pol, published).Ok?
    ensures var got := ApplyPolicy(d, pol, published).value;
            var motor, capability := IsMotor(d.skill.value), d.skill.value.capability;
            (got.gate == HumanApproval && got.speculative) <==>
            (d.speculative && pol.allowSpeculation && !motor
             && (d.gate == HumanApproval
                 || (Decide(pol, capability).0 == Gate && !(d.gate == Waived && pol.allowGraphWaiver && !published))))
  {
    NeverLaxer(pol, d.skill.value.capability, d.gate);
    NeverLaxer(pol, d.skill.value.capability, Ungated);
  }
}
