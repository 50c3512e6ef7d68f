// A speculating edge inside a session moves exactly as the stream model says.

module SpeculativeEdges {
  import opened Options
  import opened Envelopes
  import opened BoundedFifo
  import opened Policies
  import opened Wiring
  import opened Speculation
  import opened Kernel
  import opened Frames

  function ChunkOf(env: Envelope): Chunk {
    Chunk(env.id, env.payload)
  }

  function LastHanded(x: Stream): Payload
    requires x.handed != []
  {
    x.handed[|x.handed| - 1]
  }

  /** A partial: one more forward, of the stream's newest guess, and the index is
      left as one more partial leaves the stream. */
  lemma PartialOnTheEdge(c: Config, w: World, s: State, env: Envelope, d: Dest, root: Id, x: Stream)
    requires env.kind == Data && root != NoId && !IsFinal(env.payload) && x.index == s.spec
    ensures var key := SpecKey(root, d.from);
            var y := OnPartial(x, key, env.schema, ChunkOf(env));
            var folded := s.(spec := FoldF(s.spec, key, env.schema, env.payload));
            && y.handed != []
            && ForwardSpeculativelyF(c, w, s, env, d, root)
               == ForwardF(c, w, folded, env.(payload := LastHanded(y)), d, NoId).(spec := y.index)
  {
    hide ForwardF, FoldF, SpeculateF, RunningF, IsFinal, MarkFinal;
    var key := SpecKey(root, d.from);
    var folded := s.(spec := FoldF(s.spec, key, env.schema, env.payload));
    ForwardFrame(c, w, folded, env.(payload := MarkFinal(RunningF(folded.spec, key))), d, NoId);
  }

  /** The final: nothing at all when the guess stands; otherwise the stream's stale
      guesses are abandoned and the whole is forwarded. */
  lemma FinalOnTheEdge(c: Config, w: World, s: State, env: Envelope, d: Dest, root: Id, x: Stream)
    requires env.kind == Data && root != NoId && IsFinal(env.payload) && x.index == s.spec
    ensures var key := SpecKey(root, d.from);
            var y := OnFinal(x, key, env.schema, ChunkOf(env));
            var resolved := s.(spec := y.index);
            && x.stale <= y.stale
            && ForwardSpeculativelyF(c, w, s, env, d, root)
               == if y.handed == x.handed then resolved
                  else ForwardF(c, w, AbandonAllF(resolved, y.stale[|x.stale|..], d),
                                env.(payload := LastHanded(y)), d, NoId)
  {
    hide ForwardF, AbandonAllF, FoldF, ResolveF, RunningF, GuessStands, StaleF, IsFinal;
    var key := SpecKey(root, d.from);
    var folded := FoldF(s.spec, key, env.schema, env.payload);
    var running := RunningF(folded, key);
    var y := OnFinal(x, key, env.schema, ChunkOf(env));
    assert y.stale[|x.stale|..] == StaleF(folded, key, running);
    assert |x.handed + [running]| == |x.handed| + 1;
  }
}
