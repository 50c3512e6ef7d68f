// Speculative execution on one stream: folding partials, guessing, and deciding
// whether the guess stands.

module Speculation {
  import opened Options
  import opened Envelopes
  import opened BoundedFifo

  const SCHEMA_TEXT := "std/text@1"
  const MAX_SPEC_ROOTS := 1024

  function Fields(p: Payload): Option<map<string, Json>> {
    match p
    case Value(Obj(fields)) => Some(fields)
    case _ => None
  }

  /** The `text` a payload decodes to; decoding fills what it can. */
  function TextOf(p: Payload): string {
    match Fields(p)
    case Some(f) => if "text" in f && f["text"].Str? then f["text"].s else ""
    case None => ""
  }

  /** Whether a payload decodes as std/text@1 at all. */
  predicate IsText(p: Payload) {
    match p
    case Value(Null) => true
    case Value(Obj(f)) =>
      && ("text" in f ==> f["text"].Str? || f["text"].Null?)
      && ("final" in f ==> f["final"].Bool? || f["final"].Null?)
    case _ => false
  }

  predicate IsFinal(p: Payload) {
    match Fields(p)
    case Some(f) => "final" in f && f["final"].Bool? && f["final"].b
    case None => false
  }

  function TextPayload(text: string, final: bool): Payload {
    Value(Obj(if final then map["text" := Str(text), "final" := Bool(true)] else map["text" := Str(text)]))
  }

  /** std/text@1 carries a delta to append; anything else replaces. */
  function Accumulate(schema: string, running: Payload, next: Payload): Payload {
    if schema != SCHEMA_TEXT || !IsText(next) then next
    else TextPayload(TextOf(running) + TextOf(next), IsFinal(next))
  }

  function MarkFinal(p: Payload): Payload {
    match p
    case Value(Obj(f)) => Value(Obj(f["final" := Bool(true)]))
    case _ => p
  }

  /** A payload's content: everything but whether the stream has ended. */
  function Content(p: Payload): Payload {
    match p
    case Value(Obj(f)) => Value(Obj(f - {"final"}))
    case _ => p
  }

  predicate ContentEqual(a: Payload, b: Payload) {
    Content(a) == Content(b)
  }

  datatype SpecKey = SpecKey(root: Id, from: Endpoint)

  /** `speculatedOn` is Absent until something has been guessed. */
  datatype SpecState = SpecState(accumulated: Payload, speculatedOn: Payload, deliveries: seq<Id>)

  const FRESH := SpecState(Absent, Absent, [])

  datatype SpecValue = SpecValue(states: Fifo<SpecKey, SpecState>, attempts: nat, hits: nat, misses: nat)

  function FoldF(x: SpecValue, k: SpecKey, schema: string, p: Payload): SpecValue {
    var st := Get(x.states, k, FRESH);
    x.(states := Put(x.states, k, st.(accumulated := Accumulate(schema, st.accumulated, p))))
  }

  function RunningF(x: SpecValue, k: SpecKey): Payload {
    Get(x.states, k, FRESH).accumulated
  }

  function SpeculateF(x: SpecValue, k: SpecKey, id: Id): SpecValue {
    var st := Get(x.states, k, FRESH);
    x.(states := Put(x.states, k, st.(speculatedOn := st.accumulated, deliveries := st.deliveries + [id])),
       attempts := x.attempts + 1)
  }

  predicate GuessStands(x: SpecValue, k: SpecKey, final: Payload) {
    var st := Get(x.states, k, FRESH);
    st.speculatedOn != Absent && ContentEqual(st.speculatedOn, final)
  }

  function StaleF(x: SpecValue, k: SpecKey, final: Payload): seq<Id> {
    var st := Get(x.states, k, FRESH);
    if st.speculatedOn == Absent || ContentEqual(st.speculatedOn, final) then [] else st.deliveries
  }

  /** Resolving forgets the stream, but only if something was speculated on it. */
  function ResolveF(x: SpecValue, k: SpecKey, final: Payload): SpecValue {
    var st := Get(x.states, k, FRESH);
    if st.speculatedOn == Absent then x
    else if ContentEqual(st.speculatedOn, final) then
      SpecValue(Remove(x.states, k), x.attempts, x.hits + 1, x.misses)
    else SpecValue(Remove(x.states, k), x.attempts, x.hits, x.misses + 1)
  }

  class SpecIndex {
    var state: map<SpecKey, SpecState>
    var order: seq<SpecKey>
    const max: nat
    var attempts: nat
    var hits: nat
    var misses: nat

    ghost function Value(): SpecValue
      reads this
    {
      SpecValue(Fifo(state, order, max), attempts, hits, misses)
    }

    constructor (max: nat)
      requires max >= 1
      ensures Value() == SpecValue(Empty(max), 0, 0, 0)
    {
      this.max := max;
      state, order, attempts, hits, misses := map[], [], 0, 0, 0;
    }

    /** The state of a stream, starting to track it when it is new. */
    method Track(k: SpecKey) returns (st: SpecState)
      requires Valid(Value().states)
      modifies this
      ensures Valid(Value().states) && Value().states == Put(old(Value().states), k, st)
      ensures st == Get(old(Value().states), k, FRESH)
      ensures k in state && state[k] == st
      ensures attempts == old(attempts) && hits == old(hits) && misses == old(misses)
    {
      if k in state {
        assert state == state[k := state[k]];
        return state[k];
      }
      st := FRESH;
      PutValid(Value().states, k, st);
      order := order + [k];
      if |order| > max {
        var oldest := order[0];
        order := order[1..];
        state := state - {oldest};
      }
      state := state[k := st];
    }

    method Fold(k: SpecKey, schema: string, p: Payload) returns (running: Payload)
      requires Valid(Value().states)
      modifies this
      ensures Value() == FoldF(old(Value()), k, schema, p) && Valid(Value().states)
      ensures running == RunningF(Value(), k)
    {
      ghost var before := Value().states;
      var st := Track(k);
      running := Accumulate(schema, st.accumulated, p);
      PutAgain(before, k, st, st.(accumulated := running));
      PutValid(before, k, st.(accumulated := running));
      state := state[k := st.(accumulated := running)];
    }

    method Speculate(k: SpecKey, id: Id)
      requires Valid(Value().states)
      modifies this
      ensures Value() == SpeculateF(old(Value()), k, id) && Valid(Value().states)
    {
      ghost var before := Value().states;
      var st := Track(k);
      var now := st.(speculatedOn := st.accumulated, deliveries := st.deliveries + [id]);
      PutAgain(before, k, st, now);
      PutValid(before, k, now);
      state := state[k := now];
      attempts := attempts + 1;
    }

    method Resolve(k: SpecKey, final: Payload) returns (hit: bool, stale: seq<Id>)
      requires Valid(Value().states)
      modifies this
      ensures Value() == ResolveF(old(Value()), k, final) && Valid(Value().states)
      ensures hit == GuessStands(old(Value()), k, final)
      ensures stale == StaleF(old(Value()), k, final)
    {
      if k !in state || state[k].speculatedOn == Absent {
        return false, [];
      }
      var st := state[k];
      hit := ContentEqual(st.speculatedOn, final);
      stale := [];
      if hit {
        hits := hits + 1;
      } else {
        misses := misses + 1;
        stale := st.deliveries;
      }
      Forget(k);
    }

    method Forget(k: SpecKey)
      requires Valid(Value().states) && k in state
      modifies this`state, this`order
      ensures Value().states == Remove(old(Value().states), k) && Valid(Value().states)
    {
      RemoveValid(Value().states, k);
      state := state - {k};
      var i := 0;
      while order[i] != k
        invariant i < |order| && k !in order[..i] && k in order[i..]
        decreases |order| - i
      {
        i := i + 1;
      }
      WithoutAt(order, k, i);
      order := order[..i] + order[i + 1..];
    }
  }

  // ---- One turn of a producer on one stream. ----

  /** A producer's message on the stream: its id and payload. */
  datatype Chunk = Chunk(id: Id, payload: Payload)

  /** Where one stream stands, and what its edge has been handed, in order. */
  datatype Stream = Stream(index: SpecValue, handed: seq<Payload>, stale: seq<Id>)

  function OnPartial(s: Stream, k: SpecKey, schema: string, c: Chunk): Stream {
    var folded := FoldF(s.index, k, schema, c.payload);
    Stream(SpeculateF(folded, k, c.id), s.handed + [MarkFinal(RunningF(folded, k))], s.stale)
  }

  function OnFinal(s: Stream, k: SpecKey, schema: string, c: Chunk): Stream {
    var folded := FoldF(s.index, k, schema, c.payload);
    var running := RunningF(folded, k);
    Stream(ResolveF(folded, k, running),
           if GuessStands(folded, k, running) then s.handed else s.handed + [running],
           s.stale + StaleF(folded, k, running))
  }

  function OnPartials(s: Stream, k: SpecKey, schema: string, cs: seq<Chunk>): Stream {
    if cs == [] then s
    else OnPartial(OnPartials(s, k, schema, cs[..|cs| - 1]), k, schema, cs[|cs| - 1])
  }

  function Turn(s: Stream, k: SpecKey, schema: string, partials: seq<Chunk>, final: Chunk): Stream {
    OnFinal(OnPartials(s, k, schema, partials), k, schema, final)
  }

  /** The reference: everything the producer said, folded at once. */
  function FoldAll(schema: string, start: Payload, cs: seq<Chunk>): Payload {
    if cs == [] then start
    else Accumulate(schema, FoldAll(schema, start, cs[..|cs| - 1]), cs[|cs| - 1].payload)
  }

  function Ids(cs: seq<Chunk>): seq<Id> {
    seq(|cs|, i requires 0 <= i < |cs| => cs[i].id)
  }

  function Concat(cs: seq<Chunk>): string {
    if cs == [] then "" else Concat(cs[..|cs| - 1]) + TextOf(cs[|cs| - 1].payload)
  }

  lemma MarkFinalKeepsContent(p: Payload)
    ensures Content(MarkFinal(p)) == Content(p)
  {
    match p
    case Value(Obj(f)) => assert f["final" := Bool(true)] - {"final"} == f - {"final"};
    case _ =>
  }

  lemma AccumulateText(running: Payload, next: Payload)
    requires IsText(next)
    ensures Accumulate(SCHEMA_TEXT, running, next) == TextPayload(TextOf(running) + TextOf(next), IsFinal(next))
    ensures TextOf(Accumulate(SCHEMA_TEXT, running, next)) == TextOf(running) + TextOf(next)
    ensures IsFinal(Accumulate(SCHEMA_TEXT, running, next)) == IsFinal(next)
  {
  }

  ghost predicate AllText(cs: seq<Chunk>) {
    forall i :: 0 <= i < |cs| ==> IsText(cs[i].payload)
  }

  /** For std/text@1 the fold is the concatenation of the deltas. */
  lemma {:induction false} FoldIsConcat(start: Payload, cs: seq<Chunk>)
    requires AllText(cs)
    ensures TextOf(FoldAll(SCHEMA_TEXT, start, cs)) == TextOf(start) + Concat(cs)
  {
    if cs == [] {
      assert TextOf(start) + "" == TextOf(start);
    } else {
      var before, last := cs[..|cs| - 1], cs[|cs| - 1];
      FoldIsConcat(start, before);
      assert IsText(last.payload);
      AccumulateText(FoldAll(SCHEMA_TEXT, start, before), last.payload);
      Append3(TextOf(start), Concat(before), TextOf(last.payload));
    }
  }

  lemma Append3(a: string, b: string, c: string)
    ensures a + b + c == a + (b + c)
  {
  }

  /** For any other schema it is the last value. */
  lemma FoldIsLast(schema: string, start: Payload, cs: seq<Chunk>)
    requires schema != SCHEMA_TEXT && cs != []
    ensures FoldAll(schema, start, cs) == cs[|cs| - 1].payload
  {
  }

  /** After the partials of a turn the stream holds their fold, and the guesses
      handed downstream are exactly theirs. */
  lemma {:induction false} AfterPartials(s: Stream, k: SpecKey, schema: string, cs: seq<Chunk>)
    requires Valid(s.index.states)
    ensures var t := OnPartials(s, k, schema, cs);
            var st, st0 := Get(t.index.states, k, FRESH), Get(s.index.states, k, FRESH);
            && Valid(t.index.states)
            && t.index.states.max == s.index.states.max
            && st.accumulated == FoldAll(schema, st0.accumulated, cs)
            && st.deliveries == st0.deliveries + Ids(cs)
            && t.stale == s.stale
            && |t.handed| == |s.handed| + |cs|
            && (cs == [] ==> st == st0)
            && (cs != [] ==> st.speculatedOn == st.accumulated
                             && t.handed[|t.handed| - 1] == MarkFinal(st.accumulated))
  {
    if cs != [] {
      var before, last := cs[..|cs| - 1], cs[|cs| - 1];
      AfterPartials(s, k, schema, before);
      var t := OnPartials(s, k, schema, before);
      AfterPartial(t, k, schema, last);
      assert Ids(cs) == Ids(before) + [last.id];
      hide Accumulate, MarkFinal, OnPartial;
      assert OnPartials(s, k, schema, cs) == OnPartial(t, k, schema, last);
      assert FoldAll(schema, Get(s.index.states, k, FRESH).accumulated, cs)
          == Accumulate(schema, FoldAll(schema, Get(s.index.states, k, FRESH).accumulated, before), last.payload);
      hide OnPartials, FoldAll, Valid, Get, Ids;
    }
  }

  lemma AfterPartial(s: Stream, k: SpecKey, schema: string, c: Chunk)
    requires Valid(s.index.states)
    ensures var t, st := OnPartial(s, k, schema, c), Get(s.index.states, k, FRESH);
            var whole := Accumulate(schema, st.accumulated, c.payload);
            && Valid(t.index.states) && t.index.states.max == s.index.states.max
            && Get(t.index.states, k, FRESH) == SpecState(whole, whole, st.deliveries + [c.id])
            && t.handed == s.handed + [MarkFinal(whole)] && t.stale == s.stale
  {
    hide Accumulate, MarkFinal;
    var st := Get(s.index.states, k, FRESH);
    var folded := st.(accumulated := Accumulate(schema, st.accumulated, c.payload));
    PutValid(s.index.states, k, folded);
    PutValid(Put(s.index.states, k, folded), k,
             folded.(speculatedOn := folded.accumulated, deliveries := folded.deliveries + [c.id]));
    hide Put;
  }

  /** What the end of a turn does, from the stream's state alone. */
  lemma AfterFinal(s: Stream, k: SpecKey, schema: string, c: Chunk)
    requires Valid(s.index.states)
    ensures var t, st := OnFinal(s, k, schema, c), Get(s.index.states, k, FRESH);
            var whole := Accumulate(schema, st.accumulated, c.payload);
            var guessed := st.speculatedOn != Absent;
            var hit := guessed && ContentEqual(st.speculatedOn, whole);
            && Valid(t.index.states)
            && t.handed == (if hit then s.handed else s.handed + [whole])
            && t.stale == s.stale + (if guessed && !hit then st.deliveries else [])
            && Get(t.index.states, k, FRESH) == (if guessed then FRESH else st.(accumulated := whole))
  {
    var st := Get(s.index.states, k, FRESH);
    var whole := st.(accumulated := Accumulate(schema, st.accumulated, c.payload));
    PutValid(s.index.states, k, whole);
    RemoveValid(Put(s.index.states, k, whole), k);
  }

  lemma FoldLast(schema: string, start: Payload, cs: seq<Chunk>, last: Chunk)
    ensures FoldAll(schema, start, cs + [last]) == Accumulate(schema, FoldAll(schema, start, cs), last.payload)
  {
    assert (cs + [last])[..|cs|] == cs;
  }

  /** Speculation preserves meaning. On a stream nothing was left over from, whether
      the guess stood or not, the last thing the edge was handed has the content of
      everything the producer said. The guess stands exactly when it had that
      content already, and otherwise the deliveries named stale are exactly the
      guesses made. */
  lemma SpeculationPreservesMeaning(s: Stream, k: SpecKey, schema: string, partials: seq<Chunk>, final: Chunk)
    requires Valid(s.index.states) && Get(s.index.states, k, FRESH) == FRESH
    ensures var t := Turn(s, k, schema, partials, final);
            var whole := FoldAll(schema, Absent, partials + [final]);
            var guess := FoldAll(schema, Absent, partials);
            var hit := partials != [] && guess != Absent && ContentEqual(guess, whole);
            && |t.handed| > |s.handed|
            && ContentEqual(t.handed[|t.handed| - 1], whole)
            && |t.handed| == |s.handed| + |partials| + (if hit then 0 else 1)
            && t.stale == s.stale + (if hit || guess == Absent then [] else Ids(partials))
  {
    var p := OnPartials(s, k, schema, partials);
    AfterPartials(s, k, schema, partials);
    AfterFinal(p, k, schema, final);
    FoldLast(schema, Absent, partials, final);
    MarkFinalKeepsContent(FoldAll(schema, Absent, partials));
    hide OnFinal, OnPartials, Accumulate, FoldAll, Content, MarkFinal;
    assert FRESH.deliveries + Ids(partials) == Ids(partials);
    if partials == [] {
      assert FoldAll(schema, Absent, partials) == Absent by { FoldNothing(schema, partials); }
    }
  }

  lemma FoldNothing(schema: string, cs: seq<Chunk>)
    requires cs == []
    ensures FoldAll(schema, Absent, cs) == Absent
  {
  }

  /** A stream is forgotten at its end exactly when a guess was made on it; after a
      turn without one, the next turn on the same key starts from what it said. */
  lemma WhatATurnLeaves(s: Stream, k: SpecKey, schema: string, partials: seq<Chunk>, final: Chunk)
    requires Valid(s.index.states) && Get(s.index.states, k, FRESH) == FRESH
    ensures var left := Get(Turn(s, k, schema, partials, final).index.states, k, FRESH);
            if partials != [] && FoldAll(schema, Absent, partials) != Absent then left == FRESH
            else left.accumulated == FoldAll(schema, Absent, partials + [final]) && left.speculatedOn == Absent
  {
    AfterPartials(s, k, schema, partials);
    AfterFinal(OnPartials(s, k, schema, partials), k, schema, final);
    FoldLast(schema, Absent, partials, final);
    hide OnFinal, OnPartials, Accumulate, FoldAll;
    if partials == [] {
      assert FoldAll(schema, Absent, partials) == Absent by { FoldNothing(schema, partials); }
    }
  }

  /** Two whole messages in a row on one text stream, neither preceded by a partial:
      the second reaches the edge with the first in front of it. It arrives intact
      exactly when the first was empty. */
  lemma SecondWholeMessage(s: Stream, k: SpecKey, first: Chunk, second: Chunk)
    requires Valid(s.index.states) && Get(s.index.states, k, FRESH) == FRESH
    requires IsText(first.payload) && IsText(second.payload)
    ensures var t := Turn(Turn(s, k, SCHEMA_TEXT, [], first), k, SCHEMA_TEXT, [], second);
            && |t.handed| == |s.handed| + 2
            && TextOf(t.handed[|t.handed| - 1]) == TextOf(first.payload) + TextOf(second.payload)
            && (ContentEqual(t.handed[|t.handed| - 1], Accumulate(SCHEMA_TEXT, Absent, second.payload))
                <==> TextOf(first.payload) == "")
  {
    var mid := Turn(s, k, SCHEMA_TEXT, [], first);
    AfterFinal(s, k, SCHEMA_TEXT, first);
    AfterFinal(mid, k, SCHEMA_TEXT, second);
    var own := Accumulate(SCHEMA_TEXT, Absent, first.payload);
    AccumulateText(Absent, first.payload);
    AccumulateText(Absent, second.payload);
    AccumulateText(own, second.payload);
    TextContent(Accumulate(SCHEMA_TEXT, own, second.payload), Accumulate(SCHEMA_TEXT, Absent, second.payload));
    assert TextOf(Absent) == "";
    hide OnFinal, Accumulate, TextOf, Content, TextPayload;
    assert OnPartials(s, k, SCHEMA_TEXT, []) == s && OnPartials(mid, k, SCHEMA_TEXT, []) == mid;
    var a, b := TextOf(first.payload), TextOf(second.payload);
    assert "" + a == a && "" + b == b;
    assert a + b == b <==> a == "" by {
      if a + b == b { assert |a + b| == |a| + |b|; }
    }
  }

  lemma TextContent(a: Payload, b: Payload)
    requires a == TextPayload(TextOf(a), IsFinal(a)) && b == TextPayload(TextOf(b), IsFinal(b))
    ensures ContentEqual(a, b) <==> TextOf(a) == TextOf(b)
  {
    assert Content(a) == Value(Obj(map["text" := Str(TextOf(a))])) by {
      assert Content(a).json.fields == map["text" := Str(TextOf(a))];
    }
    assert Content(b) == Value(Obj(map["text" := Str(TextOf(b))])) by {
      assert Content(b).json.fields == map["text" := Str(TextOf(b))];
    }
    if ContentEqual(a, b) {
      assert Content(a).json.fields["text"] == Content(b).json.fields["text"];
    }
  }
}
