// Deliveries nothing stands in the way of, for following particular runs.

module PlainSteps {
  import opened Options
  import opened Envelopes
  import opened BoundedFifo
  import opened Indexes
  import opened Policies
  import opened RateLimits
  import opened Graphs
  import opened Wiring
  import opened Budgets
  import opened Speculation
  import opened Kernel
  import opened Books
  import opened Chains
  import opened Resumes
  import opened Restarts

  lemma RunOne(c: Config, inputs: seq<Input>, i: Input)
    ensures Run(c, inputs + [i]) == Step(c, Run(c, inputs), i)
  {
    assert (inputs + [i])[..|inputs + [i]| - 1] == inputs;
  }

  lemma HonestOne(c: Config, inputs: seq<Input>, i: Input)
    requires HonestRun(c, inputs)
    requires i.Arrive? ==> Honest(Run(c, inputs), i.env) && Unforged(i.env)
    requires i.Crash? ==> |Run(c, inputs).log| <= RESUME_LIMIT
    ensures HonestRun(c, inputs + [i])
  {
    assert (inputs + [i])[..|inputs + [i]| - 1] == inputs;
  }

  /** Not limited, not charged, not sealed, not timed, and logged as it is. */
  ghost predicate PlainEdge(c: Config, d: Dest) {
    && c.budget <= 0 && d.qos != QOS_REALTIME && d.deadlineMS == 0
    && (d.skill.Some? ==> !Limited(c.pol, d.skill.value.capability) && (!c.hasLedger || !IsMotor(d.skill.value)))
  }

  ghost predicate Carries(w: World) {
    forall n :: w.send(n)
  }

  /** The session after one delivery that met no obstacle. */
  ghost function Delivered(w: World, s: State, src: Envelope, d: Dest, via: Id): State {
    var out := Outgoing(w, s, src, d);
    TrackF(s, src, out).(mint := s.mint + 1, seqNo := s.seqNo[Source(out) := out.seqNo],
                         log := s.log + [out], sent := s.sent + [Send(out, d, via, |s.log|)])
  }

  lemma PlainForward(c: Config, w: World, s: State, src: Envelope, d: Dest, via: Id)
    requires PlainEdge(c, d) && Carries(w) && src.deadline == 0
    ensures ForwardF(c, w, s, src, d, via) == Delivered(w, s, src, d, via)
    ensures Delivered(w, s, src, d, via).cancelled == s.cancelled
  {
    hide RecordF, SetRootF, HopKey, IsMotor, Limited;
    var out := Outgoing(w, s, src, d);
    assert out.deadline == 0;
    assert s.(consumed := s.consumed) == s;
  }

  /** The session with one fresh message on record. */
  ghost function Taken(s: State, env: Envelope): State {
    s.(log := s.log + [env], dedup := if env.kind == Data then SeenF(s.dedup, env.idem) else s.dedup)
  }

  /** What routing a fresh message that is neither a cancel nor an answer comes to. */
  lemma PlainRoute(c: Config, w: World, s: State, env: Envelope)
    requires env.kind != Cancel && env.kind != ConfirmResponse && env.attest == "" && !Duplicate(s, env)
    requires !CancelledF(s.cancelled, RootOf(s, env))
    ensures RouteF(c, w, s, env)
         == ToDestsF(c, w, Taken(s, env), env, DestsAt(c.routes, Source(env)), RootOf(s, env))
  {
    hide ToDestsF, SeenF;
    var seen := Taken(s, env);
    assert seen.(attests := seen.attests) == seen;
  }

  lemma OneDest(c: Config, w: World, s: State, env: Envelope, d: Dest, root: Id)
    ensures ToDestsF(c, w, s, env, [d], root) == ToDestF(c, w, s, env, d, root)
  {
    assert [d][..0] == [];
  }
}
