// The graph's context budget over one session instance.

module ContextRuns {
  import opened Options
  import opened Envelopes
  import opened BoundedFifo
  import opened Indexes
  import opened Policies
  import opened Wiring
  import opened Budgets
  import opened Speculation
  import opened Kernel
  import opened Frames

  /** Data handed to a skill: what the budget is about. */
  ghost predicate Charged(x: Send) {
    x.env.kind == Data && x.env.node != CLIENT
  }

  /** The estimated tokens of the data handed to skills from position `from` on. */
  ghost function Tokens(c: Config, sent: seq<Send>, from: nat): nat {
    if |sent| <= from then 0
    else
      var x := sent[|sent| - 1];
      Tokens(c, sent[..|sent| - 1], from) + if Charged(x) then c.bytes(x.env.payload) / BYTES_PER_TOKEN else 0
  }

  ghost predicate NoneCharged(sent: seq<Send>, from: nat) {
    forall k :: from <= k < |sent| ==> !Charged(sent[k])
  }

  lemma {:induction false} NoTokens(c: Config, sent: seq<Send>, from: nat)
    requires NoneCharged(sent, from)
    ensures Tokens(c, sent, from) == 0
  {
    if |sent| > from { NoTokens(c, sent[..|sent| - 1], from); }
  }

  lemma {:induction false} TokensSplit(c: Config, sent: seq<Send>, more: seq<Send>, from: nat)
    requires sent <= more && from <= |sent|
    ensures Tokens(c, more, from) == Tokens(c, sent, from) + Tokens(c, more, |sent|)
    decreases |more|
  {
    if |more| == |sent| {
      assert more == sent;
    } else {
      TokensSplit(c, sent, more[..|more| - 1], from);
    }
  }

  /** From `s` to `t` the counter covered what was handed out, and whatever was
      handed out fitted the budget. */
  ghost predicate Spends(c: Config, s: State, t: State) {
    && s.sent <= t.sent && s.consumed <= t.consumed
    && Tokens(c, t.sent, |s.sent|) <= t.consumed - s.consumed
    && (NoneCharged(t.sent, |s.sent|) || s.consumed + Tokens(c, t.sent, |s.sent|) <= c.budget)
  }

  lemma SpendsChain(c: Config, s: State, t: State, u: State)
    requires Spends(c, s, t) && Spends(c, t, u)
    ensures Spends(c, s, u)
  {
    TokensSplit(c, t.sent, u.sent, |s.sent|);
    if NoneCharged(u.sent, |t.sent|) {
      NoTokens(c, u.sent, |t.sent|);
      if NoneCharged(t.sent, |s.sent|) {
        assert forall k :: |s.sent| <= k < |t.sent| ==> u.sent[k] == t.sent[k];
      }
    }
  }

  /** Sending only notices costs nothing. */
  lemma NoticesAreFree(c: Config, s: State, t: State)
    requires s.sent <= t.sent && t.consumed == s.consumed && NoneCharged(t.sent, |s.sent|)
    ensures Spends(c, s, t)
  {
    NoTokens(c, t.sent, |s.sent|);
  }

  /** One delivery at most, perhaps followed by a note that it failed. */
  ghost predicate HandsOver(s: State, out: Envelope, t: State) {
    && s.sent <= t.sent && t.consumed == s.consumed
    && (NoneCharged(t.sent, |s.sent|)
        || (|t.sent| > |s.sent| && t.sent[|s.sent|].env.payload == out.payload && NoneCharged(t.sent, |s.sent| + 1)
            && t.sent[|s.sent|].env.kind == out.kind && t.sent[|s.sent|].env.node == out.node))
  }

  lemma CheckpointHands(c: Config, w: World, s: State, src: Envelope, out: Envelope, d: Dest, root: Id, via: Id)
    requires out.id.Minted?
    ensures HandsOver(s, out, CheckpointF(c, w, s, src, out, d, root, via))
  {
    hide DeliverF;
    DeliverHands(c, w, s, src, out, d, via);
    if c.hasLedger && IsEffectDelivery(d, out.kind) {
      var taken := s.(approved := s.approved - {out.cause});
      DeliverHands(c, w, taken, src, out, d, via);
      DeliverHands(c, w, taken.(ledger := s.ledger + [DeliveredEntry(c, s, out, d, root, via)]),
                   src, out.(receipt := Some(|s.ledger|)), d, via);
    }
  }

  lemma DeliverHands(c: Config, w: World, s: State, src: Envelope, out: Envelope, d: Dest, via: Id)
    requires out.id.Minted?
    ensures HandsOver(s, out, DeliverF(c, w, s, src, out, d, via))
  {
  }

  lemma ForwardSpends(c: Config, w: World, s: State, src: Envelope, d: Dest, via: Id)
    requires c.budget > 0
    ensures Spends(c, s, ForwardF(c, w, s, src, d, via))
  {
    hide CheckpointF, Tokens;
    var t := ForwardF(c, w, s, src, d, via);
    if RateRefused(c, w, s, src, d) {
      NoticesAreFree(c, s, t);
    } else {
      var out := Outgoing(w, s, src, d);
      var (consumed, over) := ContextF(c, s, out);
      var s1 := s.(mint := s.mint + 1, seqNo := s.seqNo[Source(out) := out.seqNo], consumed := consumed);
      if over {
        NoTokens(c, t.sent, |s.sent|);
      } else {
        var s2 := TrackF(s1, src, out);
        CheckpointHands(c, w, s2, src, out, d, RootOf(s1, src), via);
        HandedTokens(c, s2, out, t);
      }
    }
  }

  lemma HandedTokens(c: Config, s: State, out: Envelope, t: State)
    requires HandsOver(s, out, t)
    ensures NoneCharged(t.sent, |s.sent|) ==> Tokens(c, t.sent, |s.sent|) == 0
    ensures !NoneCharged(t.sent, |s.sent|) ==>
              out.kind == Data && out.node != CLIENT
              && Tokens(c, t.sent, |s.sent|) == c.bytes(out.payload) / BYTES_PER_TOKEN
  {
    if NoneCharged(t.sent, |s.sent|) {
      NoTokens(c, t.sent, |s.sent|);
    } else {
      var first := t.sent[..|s.sent| + 1];
      TokensSplit(c, first, t.sent, |s.sent|);
      NoTokens(c, t.sent, |s.sent| + 1);
      assert first[..|first| - 1] == s.sent;
      assert Tokens(c, first[..|first| - 1], |s.sent|) == 0;
      forall k | |s.sent| <= k < |t.sent| && Charged(t.sent[k]) ensures k == |s.sent| {}
    }
  }

  lemma {:induction false} AbandonSpends(c: Config, s: State, ids: seq<Id>, d: Dest)
    ensures Spends(c, s, AbandonAllF(s, ids, d))
  {
    hide Tokens;
    if ids != [] {
      var s1 := AbandonAllF(s, ids[..|ids| - 1], d);
      AbandonSpends(c, s, ids[..|ids| - 1], d);
      NoticesAreFree(c, s1, AbandonF(s1, ids[|ids| - 1], d));
      hide Spends, AbandonF;
      SpendsChain(c, s, s1, AbandonAllF(s, ids, d));
    } else {
      NoticesAreFree(c, s, s);
    }
  }

  lemma SpeculativeSpends(c: Config, w: World, s: State, env: Envelope, d: Dest, root: Id)
    requires c.budget > 0
    ensures Spends(c, s, ForwardSpeculativelyF(c, w, s, env, d, root))
  {
    hide ForwardF, AbandonAllF, FoldF, ResolveF, SpeculateF, StaleF, RunningF, GuessStands, IsFinal, MarkFinal, Tokens, NoneCharged;
    var key := SpecKey(root, d.from);
    var folded := FoldF(s.spec, key, env.schema, env.payload);
    var running := RunningF(folded, key);
    var resolved := s.(spec := ResolveF(folded, key, running));
    var stale := StaleF(folded, key, running);
    var s1 := AbandonAllF(resolved, stale, d);
    ForwardSpends(c, w, s, env, d, NoId);
    ForwardSpends(c, w, s.(spec := folded), env.(payload := MarkFinal(running)), d, NoId);
    AbandonSpends(c, resolved, stale, d);
    ForwardSpends(c, w, s1, env.(payload := running), d, NoId);
    SpendsChain(c, resolved, s1, ForwardF(c, w, s1, env.(payload := running), d, NoId));
    SpendsNothing(c, s, resolved);
  }

  lemma SpendsNothing(c: Config, s: State, t: State)
    requires t.sent == s.sent && t.consumed == s.consumed
    ensures Spends(c, s, t)
  {
  }

  lemma {:induction false} ToDestsSpends(c: Config, w: World, s: State, env: Envelope, dests: seq<Dest>, root: Id)
    requires c.budget > 0
    ensures Spends(c, s, ToDestsF(c, w, s, env, dests, root))
  {
    hide ForwardF, ForwardSpeculativelyF, Tokens;
    if dests != [] {
      var before, d := dests[..|dests| - 1], dests[|dests| - 1];
      ToDestsSpends(c, w, s, env, before, root);
      var s1 := ToDestsF(c, w, s, env, before, root);
      ForwardSpends(c, w, s1, env, d, NoId);
      SpeculativeSpends(c, w, s1, env, d, root);
      NoticesAreFree(c, s1, HoldF(s1, env, d));
      hide Spends, HoldF;
      SpendsChain(c, s, s1, ToDestF(c, w, s1, env, d, root));
    } else {
      SpendsNothing(c, s, s);
    }
  }

  lemma ResolveSpends(c: Config, w: World, s: State, answer: Envelope)
    requires c.budget > 0
    ensures Spends(c, s, ResolveGateF(c, w, s, answer))
  {
    hide ForwardF, AuthorizeGate, Tokens;
    if answer.cause in s.pending {
      var held := s.pending[answer.cause];
      var s1 := s.(pending := s.pending - {answer.cause}, log := s.log + [answer]);
      var t := ResolveGateF(c, w, s, answer);
      match AuthorizeGate(c, w.roster, held, answer.payload) {
        case Rejected => NoticesAreFree(c, s, t);
        case Denies(a) => NoticesAreFree(c, s, t);
        case Approves(a) =>
          var parked := if a.Some? then s1.(approved := s1.approved[held.env.id := a.value]) else s1;
          var s2 := parked.(gates := s1.gates + [Released(answer.cause, held, answer, a, w.roster)]);
          ForwardSpends(c, w, s2, held.env, held.to, answer.cause);
      }
    } else {
      SpendsNothing(c, s, s);
    }
  }

  lemma RouteSpends(c: Config, w: World, s: State, env: Envelope)
    requires c.budget > 0
    ensures Spends(c, s, RouteF(c, w, s, env))
  {
    hide ToDestsF, ResolveGateF, AttestF, SeenF, Spends, CancelTarget;
    var logged := s.(log := s.log + [env]);
    SpendsNothing(c, s, logged);
    if env.kind == Cancel {
      SpendsNothing(c, s, HandleCancelF(logged, env));
    } else if !Duplicate(s, env) {
      var seen := if env.kind == Data then logged.(dedup := SeenF(s.dedup, env.idem)) else logged;
      SpendsNothing(c, s, seen);
      ResolveSpends(c, w, seen, env);
      SpendsChain(c, s, seen, ResolveGateF(c, w, seen, env));
      var noted := seen.(attests := if env.attest == "" then seen.attests
                                    else AttestF(seen.attests, MAX_ATTEST_PER_ROOT, RootOf(seen, env), w.attest(env.attest)));
      SpendsNothing(c, s, noted);
      ToDestsSpends(c, w, noted, env, DestsAt(c.routes, Source(env)), RootOf(seen, env));
      SpendsChain(c, s, noted, ToDestsF(c, w, noted, env, DestsAt(c.routes, Source(env)), RootOf(seen, env)));
    }
  }

  /** One session instance: what it does with the envelopes that arrive after `s`. */
  function Live(c: Config, s: State, inputs: seq<Input>): State {
    if inputs == [] then s else Step(c, Live(c, s, inputs[..|inputs| - 1]), inputs[|inputs| - 1])
  }

  lemma {:induction false} LiveSpends(c: Config, s: State, inputs: seq<Input>)
    requires c.budget > 0 && forall i :: i in inputs ==> i.Arrive?
    ensures Spends(c, s, Live(c, s, inputs))
  {
    if inputs == [] {
      SpendsNothing(c, s, s);
    } else {
      var before, last := inputs[..|inputs| - 1], inputs[|inputs| - 1];
      LiveSpends(c, s, before);
      assert last in inputs;
      hide Spends, RouteF;
      RouteSpends(c, last.w, Live(c, s, before), last.env);
      SpendsChain(c, s, Live(c, s, before), Live(c, s, inputs));
    }
  }

  /** A session instance, new or rebuilt after any run, never hands its skills more
      than the graph's budget in all, however many envelopes arrive. */
  lemma BudgetHolds(c: Config, earlier: seq<Input>, inputs: seq<Input>)
    requires c.budget > 0 && forall i :: i in inputs ==> i.Arrive?
    requires earlier == [] || earlier[|earlier| - 1].Crash?
    ensures Tokens(c, Live(c, Run(c, earlier), inputs).sent, |Run(c, earlier).sent|) <= c.budget
  {
    assert Run(c, earlier).consumed == 0;
    LiveSpends(c, Run(c, earlier), inputs);
    if NoneCharged(Live(c, Run(c, earlier), inputs).sent, |Run(c, earlier).sent|) {
      NoTokens(c, Live(c, Run(c, earlier), inputs).sent, |Run(c, earlier).sent|);
    }
  }

  /** The first refusal is permanent: once the counter has passed the budget, no more
      data is handed to any skill until the session is rebuilt. */
  lemma RefusalIsPermanent(c: Config, s: State, inputs: seq<Input>)
    requires c.budget > 0 && s.consumed > c.budget && forall i :: i in inputs ==> i.Arrive?
    ensures NoneCharged(Live(c, s, inputs).sent, |s.sent|)
  {
    LiveSpends(c, s, inputs);
  }
}
