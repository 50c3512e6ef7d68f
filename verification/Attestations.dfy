// Which inference attestations a sealed effect cites.

module Attestations {
  import opened Options
  import opened Envelopes
  import opened BoundedFifo
  import opened Indexes
  import opened Policies
  import opened Wiring
  import opened Speculation
  import opened Kernel
  import opened Frames
  import opened Resumes
  import opened ContextRuns
  import opened Streams

  // ---- An entry cites its chain's attestations ----

  lemma CheckpointLedger(c: Config, w: World, s: State, src: Envelope, out: Envelope, d: Dest, root: Id, via: Id)
    requires out.id.Minted?
    ensures var ledger := CheckpointF(c, w, s, src, out, d, root, via).ledger;
            ledger == s.ledger || (d.skill.Some? && ledger == s.ledger + [DeliveredEntry(c, s, out, d, root, via)])
  {
    hide DeliverF, DeliveredEntry, EmitErrorF, IsMotor;
    DeliverFrame(c, w, s, src, out, d, via);
    if c.hasLedger && IsEffectDelivery(d, out.kind) {
      var taken := s.(approved := s.approved - {out.cause});
      ErrorLedger(taken, src.id, via);
      DeliverFrame(c, w, taken, src, out, d, via);
      DeliverFrame(c, w, taken.(ledger := s.ledger + [DeliveredEntry(c, s, out, d, root, via)]),
                   src, out.(receipt := Some(|s.ledger|)), d, via);
    }
  }

  lemma CheckpointCites(c: Config, w: World, s: State, src: Envelope, out: Envelope, d: Dest, root: Id, via: Id)
    requires out.id.Minted?
    ensures var t := CheckpointF(c, w, s, src, out, d, root, via);
            s.ledger <= t.ledger
            && forall n :: |s.ledger| <= n < |t.ledger| ==> t.ledger[n].inference == AttestedF(s.attests, root).hashes
  {
    hide CheckpointF, DeliveredEntry, AttestedF;
    CheckpointLedger(c, w, s, src, out, d, root, via);
    if d.skill.Some? { EntryCites(c, s, out, d, root, via); }
  }

  lemma EntryCites(c: Config, s: State, out: Envelope, d: Dest, root: Id, via: Id)
    requires d.skill.Some?
    ensures DeliveredEntry(c, s, out, d, root, via).inference == AttestedF(s.attests, root).hashes
  {
  }

  lemma ErrorLedger(s: State, cause: Id, via: Id)
    ensures EmitErrorF(s, cause, via).ledger == s.ledger
  {
  }

  /** What a forward seals cites what is attested for the chain of its source. */
  lemma ForwardCites(c: Config, w: World, s: State, src: Envelope, d: Dest, via: Id)
    ensures var t := ForwardF(c, w, s, src, d, via);
            s.ledger <= t.ledger
            && forall n :: |s.ledger| <= n < |t.ledger| ==> t.ledger[n].inference == AttestedF(s.attests, RootOf(s, src)).hashes
  {
    hide CheckpointF, AttestedF, EmitErrorF;
    ErrorLedger(s, src.id, via);
    if !RateRefused(c, w, s, src, d) {
      var out := Outgoing(w, s, src, d);
      var (consumed, over) := ContextF(c, s, out);
      var s1 := s.(mint := s.mint + 1, seqNo := s.seqNo[Source(out) := out.seqNo], consumed := consumed);
      ErrorLedger(s1, src.id, via);
      CheckpointCites(c, w, TrackF(s1, src, out), src, out, d, RootOf(s1, src), via);
    }
  }

  // ---- What is attested for a chain ----

  /** The hash this arrival attests for its chain, if any. */
  ghost function HashOf(s: State, env: Envelope, w: World): string {
    if Routed(s, env) && env.attest != "" then w.attest(env.attest) else ""
  }

  ghost function After(a: Attests, root: Id, hash: string): Attests {
    AttestF(a, MAX_ATTEST_PER_ROOT, root, hash)
  }

  lemma {:induction false} ToDestsAttests(c: Config, w: World, s: State, env: Envelope, dests: seq<Dest>, root: Id)
    ensures ToDestsF(c, w, s, env, dests, root).attests == s.attests
  {
    hide ForwardF, ForwardSpeculativelyF;
    if dests != [] {
      var before, d := dests[..|dests| - 1], dests[|dests| - 1];
      ToDestsAttests(c, w, s, env, before, root);
      var s1 := ToDestsF(c, w, s, env, before, root);
      ForwardFrame(c, w, s1, env, d, NoId);
      SpeculativeFrame(c, w, s1, env, d, root);
    }
  }

  lemma AnswerAttests(c: Config, w: World, s: State, answer: Envelope)
    ensures ResolveGateF(c, w, s, answer).attests == s.attests
  {
    hide ForwardF, AuthorizeGate;
    if answer.cause in s.pending {
      var held := s.pending[answer.cause];
      var s1 := s.(pending := s.pending - {answer.cause}, log := s.log + [answer]);
      match AuthorizeGate(c, w.roster, held, answer.payload) {
        case Rejected =>
        case Denies(a) =>
        case Approves(a) =>
          var parked := if a.Some? then s1.(approved := s1.approved[held.env.id := a.value]) else s1;
          ForwardFrame(c, w, parked.(gates := s1.gates + [Released(answer.cause, held, answer, a, w.roster)]),
                       held.env, held.to, answer.cause);
      }
    }
  }

  /** One arrival adds its own hash to its own chain and nothing else. */
  lemma RouteAttests(c: Config, w: World, s: State, env: Envelope)
    ensures RouteF(c, w, s, env).attests == After(s.attests, RootOf(s, env), HashOf(s, env, w))
  {
    hide ToDestsF, ResolveGateF, SeenF, CancelTarget, AttestedF, AddHash;
    var logged := s.(log := s.log + [env]);
    if env.kind != Cancel && !Duplicate(s, env) {
      var seen := if env.kind == Data then logged.(dedup := SeenF(s.dedup, env.idem)) else logged;
      AnswerAttests(c, w, seen, env);
      var noted := seen.(attests := if env.attest == "" then seen.attests
                                    else AttestF(seen.attests, MAX_ATTEST_PER_ROOT, RootOf(seen, env), w.attest(env.attest)));
      ToDestsAttests(c, w, noted, env, DestsAt(c.routes, Source(env)), RootOf(s, env));
    }
  }

  // ---- A session instance ----

  /** Only arrivals, and the index never full when one comes. */
  ghost predicate Noted(c: Config, s: State, inputs: seq<Input>) {
    inputs != [] ==>
      var before := inputs[..|inputs| - 1];
      Noted(c, s, before) && inputs[|inputs| - 1].Arrive?
      && |Live(c, s, before).attests.byRoot.order| < Live(c, s, before).attests.byRoot.max
  }

  /** The hashes attested for R's chain, in order. */
  ghost function Hashes(c: Config, s: State, inputs: seq<Input>, R: Id): seq<string> {
    if inputs == [] then []
    else
      var before, last := inputs[..|inputs| - 1], inputs[|inputs| - 1];
      var live := Live(c, s, before);
      if last.Arrive? && RootOf(live, last.env) == R && HashOf(live, last.env, last.w) != ""
      then Hashes(c, s, before, R) + [HashOf(live, last.env, last.w)]
      else Hashes(c, s, before, R)
  }

  ghost predicate Sorted(a: Attests) {
    Valid(a.byRoot) && a.truncated <= a.byRoot.m.Keys
  }

  /** With room, one more hash for one chain leaves the others as they were. */
  lemma OthersKept(a: Attests, root: Id, hash: string, R: Id)
    requires Sorted(a) && |a.byRoot.order| < a.byRoot.max && R != NoId
    ensures var b := After(a, root, hash);
            && Sorted(b) && b.byRoot.max == a.byRoot.max
            && AttestedF(b, R) == if R == root && hash != "" then AddHash(AttestedF(a, R), MAX_ATTEST_PER_ROOT, hash)
                                  else AttestedF(a, R)
  {
    hide Put;
    if root != NoId && hash != "" {
      AttestStep(a, MAX_ATTEST_PER_ROOT, root, hash);
      PutValid(a.byRoot, root, AddHash(AttestedF(a, root), MAX_ATTEST_PER_ROOT, hash).hashes);
    }
  }

  lemma {:induction false} AttestedLive(c: Config, s: State, inputs: seq<Input>, R: Id)
    requires Noted(c, s, inputs) && Sorted(s.attests) && R != NoId
    ensures var t := Live(c, s, inputs);
            && Sorted(t.attests)
            && AttestedF(t.attests, R) == AddAll(AttestedF(s.attests, R), MAX_ATTEST_PER_ROOT, Hashes(c, s, inputs, R))
  {
    hide RouteF, AttestedF, HashOf, Sorted, After, AddHash;
    if inputs != [] {
      var before, last := inputs[..|inputs| - 1], inputs[|inputs| - 1];
      var live := Live(c, s, before);
      AttestedLive(c, s, before, R);
      RouteAttests(c, last.w, live, last.env);
      OthersKept(live.attests, RootOf(live, last.env), HashOf(live, last.env, last.w), R);
      var was := Hashes(c, s, before, R);
      if RootOf(live, last.env) == R && HashOf(live, last.env, last.w) != "" {
        assert (was + [HashOf(live, last.env, last.w)])[..|was|] == was;
      }
    }
  }

  /** In a session instance, new or rebuilt, an effect sealed for a chain cites all the
      distinct hashes attested for it since the instance began, or the first sixteen. */
  lemma SealedCitesItsInstance(c: Config, earlier: seq<Input>, inputs: seq<Input>,
                               w: World, src: Envelope, d: Dest, via: Id, n: nat)
    requires (earlier == [] || earlier[|earlier| - 1].Crash?) && Noted(c, Run(c, earlier), inputs)
    requires var s := Live(c, Run(c, earlier), inputs);
             RootOf(s, src) != NoId && |s.ledger| <= n < |ForwardF(c, w, s, src, d, via).ledger|
    ensures var s := Live(c, Run(c, earlier), inputs);
            var said := Distinct(Hashes(c, Run(c, earlier), inputs, RootOf(s, src)));
            ForwardF(c, w, s, src, d, via).ledger[n].inference
            == if |said| <= MAX_ATTEST_PER_ROOT then said else said[..MAX_ATTEST_PER_ROOT]
  {
    var first := Run(c, earlier);
    var s := Live(c, first, inputs);
    StartsBlank(c, earlier);
    hide Run, ForwardF, Live, RootOf, AddAll, Distinct, Hashes, Noted;
    ForwardCites(c, w, s, src, d, via);
    AttestedLive(c, first, inputs, RootOf(s, src));
    AttestationsComplete(MAX_ATTEST_PER_ROOT, Hashes(c, first, inputs, RootOf(s, src)));
  }

  lemma StartsBlank(c: Config, earlier: seq<Input>)
    requires earlier == [] || earlier[|earlier| - 1].Crash?
    ensures Sorted(Run(c, earlier).attests) && forall R :: AttestedF(Run(c, earlier).attests, R) == Attested([], false)
  {
    hide Replay;
  }

  /** A restart forgets every attestation: what is sealed right after it cites none,
      whatever its chain had. */
  lemma RestartForgetsAttestations(c: Config, w: World, s: State, src: Envelope, d: Dest, via: Id, n: nat)
    requires |s.ledger| <= n < |ForwardF(c, w, ResumeF(c, s), src, d, via).ledger|
    ensures ForwardF(c, w, ResumeF(c, s), src, d, via).ledger[n].inference == []
  {
    ForwardCites(c, w, ResumeF(c, s), src, d, via);
    hide ForwardF, Replay;
  }
}
