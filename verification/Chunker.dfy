// The sentence chunker: a stream of tokens re-cut into clauses worth speaking.

module Chunker {
  import opened Options

  /** The flush policy, and the two character tests the language supplies: what strip()
      removes, and whether a prefix ends in something no clause may be cut after. */
  datatype Policy = Policy(
    boundaries: string,
    firstClause: int,
    minChars: int,
    maxChars: int,
    space: char -> bool,
    noSplit: string -> bool)

  /** The configured lengths are at least one. */
  ghost predicate Sane(p: Policy) {
    p.firstClause >= 1 && p.minChars >= 1
  }

  // ---- Text up to whitespace ----

  /** The text without its whitespace: what must not get lost. */
  function Ink(s: string, space: char -> bool): string {
    if s == "" then "" else (if space(s[0]) then "" else [s[0]]) + Ink(s[1..], space)
  }

  predicate Blank(s: string, space: char -> bool) {
    forall i :: 0 <= i < |s| ==> space(s[i])
  }

  function StripLeft(s: string, space: char -> bool): string {
    if s != "" && space(s[0]) then StripLeft(s[1..], space) else s
  }

  function StripRight(s: string, space: char -> bool): string {
    if s != "" && space(s[|s| - 1]) then StripRight(s[..|s| - 1], space) else s
  }

  function Strip(s: string, space: char -> bool): string {
    StripRight(StripLeft(s, space), space)
  }

  lemma InkHead(s: string, space: char -> bool)
    ensures s == "" ==> Ink(s, space) == ""
    ensures s != "" ==> Ink(s, space) == (if space(s[0]) then "" else [s[0]]) + Ink(s[1..], space)
  {
  }

  lemma {:induction false} InkAppend(a: string, b: string, space: char -> bool)
    ensures Ink(a + b, space) == Ink(a, space) + Ink(b, space)
  {
    hide Ink;
    InkHead(a, space);
    if a == "" {
      assert a + b == b;
    } else {
      InkHead(a + b, space);
      assert (a + b)[0] == a[0] && (a + b)[1..] == a[1..] + b;
      InkAppend(a[1..], b, space);
      Regroup(if space(a[0]) then "" else [a[0]], Ink(a[1..], space), Ink(b, space));
    }
  }

  lemma Regroup(x: string, y: string, z: string)
    ensures x + (y + z) == (x + y) + z
  {
  }

  lemma {:induction false} StripLeftKeepsInk(s: string, space: char -> bool)
    ensures Ink(StripLeft(s, space), space) == Ink(s, space)
    ensures StripLeft(s, space) == "" <==> Blank(s, space)
  {
    if s != "" && space(s[0]) {
      StripLeftKeepsInk(s[1..], space);
      assert Blank(s[1..], space) <==> Blank(s, space) by {
        if Blank(s[1..], space) {
          forall i | 0 <= i < |s| ensures space(s[i]) { if i > 0 { assert s[1..][i - 1] == s[i]; } }
        }
      }
    }
  }

  lemma {:induction false} StripRightKeepsInk(s: string, space: char -> bool)
    ensures Ink(StripRight(s, space), space) == Ink(s, space)
    ensures StripRight(s, space) == "" <==> Blank(s, space)
  {
    if s != "" && space(s[|s| - 1]) {
      var before := s[..|s| - 1];
      StripRightKeepsInk(before, space);
      assert s == before + [s[|s| - 1]];
      InkAppend(before, [s[|s| - 1]], space);
      assert Blank(before, space) <==> Blank(s, space) by {
        assert forall i :: 0 <= i < |before| ==> before[i] == s[i];
      }
    }
  }

  /** Stripping loses only whitespace, and leaves nothing exactly of what is blank. */
  lemma StripKeepsInk(s: string, space: char -> bool)
    ensures Ink(Strip(s, space), space) == Ink(s, space)
    ensures Strip(s, space) == "" <==> Blank(s, space)
  {
    StripLeftKeepsInk(s, space);
    StripRightKeepsInk(StripLeft(s, space), space);
    BlankHasNoInk(s, space);
    BlankHasNoInk(StripLeft(s, space), space);
  }

  lemma {:induction false} BlankHasNoInk(s: string, space: char -> bool)
    ensures Blank(s, space) <==> Ink(s, space) == ""
  {
    if s != "" {
      BlankHasNoInk(s[1..], space);
      assert forall i :: 0 < i < |s| ==> s[i] == s[1..][i - 1];
    }
  }

  // ---- Where to cut ----

  /** A cut just past position `i` is allowed. */
  predicate Usable(p: Policy, text: string, i: int)
    requires 0 <= i < |text|
  {
    text[i] in p.boundaries && !p.noSplit(text[..i + 1])
  }

  /** _split_point: the first usable boundary from the floor on, or the last. */
  method SplitPoint(p: Policy, text: string, minChars: int, earliest: bool) returns (cut: int)
    requires minChars >= 1
    ensures cut == -1 || minChars <= cut <= |text|
    ensures cut == -1 <==> forall i :: minChars - 1 <= i < |text| ==> !Usable(p, text, i)
    ensures cut != -1 ==> Usable(p, text, cut - 1)
    ensures cut != -1 && earliest ==> forall i :: minChars - 1 <= i < cut - 1 ==> !Usable(p, text, i)
    ensures cut != -1 && !earliest ==> forall i :: cut <= i < |text| ==> !Usable(p, text, i)
  {
    if earliest {
      var i := minChars - 1;
      while i < |text|
        invariant minChars - 1 <= i
        invariant forall j :: minChars - 1 <= j < i && j < |text| ==> !Usable(p, text, j)
      {
        if Usable(p, text, i) {
          return i + 1;
        }
        i := i + 1;
      }
    } else {
      var i := |text| - 1;
      while i > minChars - 2
        invariant i < |text|
        invariant forall j :: i < j < |text| && minChars - 1 <= j ==> !Usable(p, text, j)
      {
        if Usable(p, text, i) {
          return i + 1;
        }
        i := i - 1;
      }
    }
    cut := -1;
  }

  /** text.rfind(" ", from) */
  method RFindSpace(text: string, from: int) returns (at: int)
    requires from >= 0
    ensures at == -1 || from <= at < |text|
    ensures at == -1 ==> forall i :: from <= i < |text| ==> text[i] != ' '
    ensures at != -1 ==> text[at] == ' ' && forall i :: at < i < |text| ==> text[i] != ' '
  {
    at := |text| - 1;
    while at >= from
      invariant at < |text|
      invariant forall i :: at < i < |text| && from <= i ==> text[i] != ' '
    {
      if text[at] == ' ' {
        return;
      }
      at := at - 1;
    }
    at := -1;
  }

  /** Nothing left that a later token could not still join. */
  ghost predicate Settled(text: string, p: Policy) {
    Blank(text, p.space) || |text| < p.maxChars
  }

  /** The producer's text not yet passed on. */
  class Buffer {
    var text: string
    var clausesSent: nat

    constructor ()
      ensures text == "" && clausesSent == 0
    {
      text, clausesSent := "", 0;
    }

    /** _ready: how much to flush now; zero for nothing yet. `quiet` is whether the
        producer's last token is at least max_wait_ms old. */
    method Ready(p: Policy, quiet: bool) returns (cut: nat)
      requires Sane(p)
      ensures cut <= |text|
      ensures Blank(text, p.space) ==> cut == 0
      ensures cut == 0 ==> Settled(text, p)
      ensures !Blank(text, p.space) && quiet ==> cut > 0
      ensures var floor := if clausesSent == 0 then p.firstClause else p.minChars;
              !Blank(text, p.space) && (exists i :: floor - 1 <= i < |text| && Usable(p, text, i)) ==>
                cut >= floor && Usable(p, text, cut - 1)
    {
      StripKeepsInk(text, p.space);
      if Strip(text, p.space) == "" {
        return 0;
      }
      var first := clausesSent == 0;
      var floor := if first then p.firstClause else p.minChars;
      var at := SplitPoint(p, text, floor, first);
      if at > 0 {
        return at;
      }
      if |text| >= p.maxChars {
        var space := RFindSpace(text, floor);
        return if space > 0 then space + 1 else |text|;
      }
      return if quiet then |text| else 0;
    }

    /** Takes a clause off the front. */
    method Cut(p: Policy, cut: nat) returns (clause: string)
      requires 0 < cut <= |text|
      modifies this
      ensures clause == Strip(old(text)[..cut], p.space) && text == old(text)[cut..]
      ensures clausesSent == old(clausesSent) + 1
      ensures Ink(clause, p.space) + Ink(text, p.space) == Ink(old(text), p.space)
    {
      StripKeepsInk(text[..cut], p.space);
      InkAppend(text[..cut], text[cut..], p.space);
      assert text == text[..cut] + text[cut..];
      clause := Strip(text[..cut], p.space);
      text := text[cut..];
      clausesSent := clausesSent + 1;
    }
  }

  /** What a turn of the producer passes on. */
  datatype Emission = Emission(text: string, final: bool)

  /** The ink of everything passed on, in order. */
  function Spoken(es: seq<Emission>, space: char -> bool): string {
    if es == [] then "" else Spoken(es[..|es| - 1], space) + Ink(es[|es| - 1].text, space)
  }

  lemma SpokenNothing(space: char -> bool)
    ensures Spoken([], space) == ""
  {
  }

  lemma SpokenMore(es: seq<Emission>, e: Emission, space: char -> bool)
    ensures Spoken(es + [e], space) == Spoken(es, space) + Ink(e.text, space)
  {
    assert (es + [e])[..|es|] == es;
  }

  lemma SpokenBlank(space: char -> bool)
    ensures Ink("", space) == ""
  {
  }

  /** A producer is known by its session and node. */
  type Key = (string, string)

  function TextIn(held: map<Key, string>, key: Key): string {
    if key in held then held[key] else ""
  }

  lemma NoBuffer(key: Key)
    ensures forall held: map<Key, string> :: key !in held ==> TextIn(held, key) == ""
  {
  }

  class Skill {
    var buffers: map<Key, Buffer>

    /** Each producer has a buffer of its own. */
    ghost predicate Apart()
      reads this
    {
      forall a, b :: a in buffers && b in buffers && a != b ==> buffers[a] != buffers[b]
    }

    /** The text held back for each producer. */
    ghost function Texts(): map<Key, string>
      reads this, buffers.Values
    {
      map k | k in buffers :: buffers[k].text
    }

    constructor ()
      ensures buffers == map[] && Apart()
    {
      buffers := map[];
    }

    /** One message from a producer, not cancelled while it is handled. `quiet` tells,
        at each look, whether the producer has been silent too long, and `stale` which
        buffers the sweep finds too old. */
    method Handle(key: Key, text: string, final: bool, p: Policy, quiet: nat -> bool, stale: set<Key>)
      returns (out: seq<Emission>)
      requires Sane(p) && Apart()
      modifies this, buffers.Values
      ensures Apart()
      ensures Spoken(out, p.space) + Ink(TextIn(Texts(), key), p.space)
           == Ink(TextIn(old(Texts()), key), p.space) + Ink(text, p.space)
      ensures final ==> key !in buffers && |out| == 1 && out[0].final
      ensures final ==> buffers == old(buffers) - {key} - stale
      ensures !final ==> forall e :: e in out ==> !e.final && e.text != ""
      ensures !final ==> buffers.Keys == old(buffers.Keys) + {key}
      ensures !final ==> Settled(TextIn(Texts(), key), p)
      ensures forall k :: k != key ==> TextIn(Texts(), k) == if final && k in stale then "" else TextIn(old(Texts()), k)
      ensures forall k :: k in buffers ==> fresh(buffers[k]) || (k in old(buffers) && buffers[k] == old(buffers)[k])
    {
      hide Spoken, Ink, Settled, TextIn, Apart;
      SpokenBlank(p.space);
      NoBuffer(key);
      var buf := Join(key, text, p.space);
      if final {
        var last := Finish(key, stale, p.space);
        return [last];
      }
      out := FlushFor(key, p, quiet);
    }

    /** The producer's buffer with one more text at its end. */
    method Join(key: Key, text: string, space: char -> bool) returns (buf: Buffer)
      requires Apart()
      modifies this, buffers.Values
      ensures Apart() && key in buffers && buffers[key] == buf && buffers == old(buffers)[key := buf]
      ensures fresh(buf) || (key in old(buffers) && buf == old(buffers)[key])
      ensures Ink(TextIn(Texts(), key), space) == Ink(TextIn(old(Texts()), key), space) + Ink(text, space)
      ensures forall k :: k != key ==> TextIn(Texts(), k) == TextIn(old(Texts()), k)
    {
      hide Ink;
      buf := BufferFor(key);
      InkAppend(buf.text, text, space);
      SpokenBlank(space);
      buf.text := buf.text + text;
    }

    /** The producer's buffer is flushed; nobody else's is touched. */
    method FlushFor(key: Key, p: Policy, quiet: nat -> bool) returns (out: seq<Emission>)
      requires Sane(p) && Apart() && key in buffers
      modifies buffers[key]
      ensures Spoken(out, p.space) + Ink(TextIn(Texts(), key), p.space) == Ink(TextIn(old(Texts()), key), p.space)
      ensures forall k :: k != key ==> TextIn(Texts(), k) == TextIn(old(Texts()), k)
      ensures forall e :: e in out ==> !e.final && e.text != ""
      ensures Settled(TextIn(Texts(), key), p)
    {
      hide Spoken, Ink, Settled, Blank;
      out := Flush(buffers[key], p, quiet);
    }

    /** The end of a reply: what is left goes out, however short, and stale buffers go. */
    method Finish(key: Key, stale: set<Key>, space: char -> bool) returns (last: Emission)
      requires Apart() && key in buffers
      modifies this`buffers
      ensures Apart() && buffers == old(buffers) - {key} - stale
      ensures last.final && Spoken([last], space) == Ink(TextIn(old(Texts()), key), space)
      ensures forall k :: k != key ==> TextIn(Texts(), k) == if k in stale then "" else TextIn(old(Texts()), k)
    {
      hide Spoken, Ink;
      StripKeepsInk(buffers[key].text, space);
      SpokenNothing(space);
      last := Emission(Strip(buffers[key].text, space), true);
      SpokenMore([], last, space);
      assert [] + [last] == [last];
      buffers := buffers - {key};
      Sweep(stale);
    }

    /** Any messages of any producers, one after the other, on a skill that has just
        started. What it records is a trace the lemmas below are about. */
    method Drive(ms: seq<Message>, p: Policy, quiet: nat -> nat -> bool, stale: nat -> set<Key>)
      returns (turns: seq<Turn>)
      requires Sane(p) && buffers == map[]
      modifies this
      ensures |turns| == |ms| && forall i :: 0 <= i < |ms| ==> turns[i].m == ms[i] && turns[i].stale == stale(i)
      ensures Traced(turns, p.space) && HeldBefore(turns, |turns|) == Texts()
    {
      hide Spoken, Ink, Settled;
      turns := [];
      for i := 0 to |ms|
        invariant Apart() && forall k :: k in buffers ==> fresh(buffers[k])
        invariant |turns| == i && forall j :: 0 <= j < i ==> turns[j].m == ms[j] && turns[j].stale == stale(j)
        invariant Traced(turns, p.space) && HeldBefore(turns, i) == Texts()
      {
        ghost var before := Texts();
        var out := Handle(ms[i].key, ms[i].text, ms[i].final, p, quiet(i), stale(i));
        var held := Snapshot();
        ghost var earlier := turns;
        turns := turns + [Turn(ms[i], stale(i), out, held)];
        TracedMore(earlier, turns[i], p.space);
      }
    }

    /** The texts held back now. */
    method Snapshot() returns (held: map<Key, string>)
      ensures held == Texts()
    {
      held := map k | k in buffers :: buffers[k].text;
    }

    /** The producer's buffer, a new one if it has none. */
    method BufferFor(key: Key) returns (buf: Buffer)
      requires Apart()
      modifies this
      ensures Apart() && key in buffers && buffers[key] == buf
      ensures buffers == old(buffers)[key := buf]
      ensures if key in old(buffers) then buf == old(buffers)[key] else fresh(buf) && buf.text == ""
    {
      if key in buffers {
        return buffers[key];
      }
      buf := new Buffer();
      buffers := buffers[key := buf];
    }

    /** _sweep: buffers untouched for too long are dropped, with what they hold. */
    method Sweep(stale: set<Key>)
      modifies this`buffers
      ensures buffers == old(buffers) - stale
    {
      buffers := buffers - stale;
    }

    /** The flush loop. */
    method Flush(buf: Buffer, p: Policy, quiet: nat -> bool) returns (out: seq<Emission>)
      requires Sane(p)
      modifies buf
      ensures Spoken(out, p.space) + Ink(buf.text, p.space) == Ink(old(buf.text), p.space)
      ensures forall e :: e in out ==> !e.final && e.text != ""
      ensures Settled(buf.text, p)
    {
      hide Spoken, Ink, Settled;
      out := [];
      SpokenNothing(p.space);
      var looks := 0;
      var cut: nat := buf.Ready(p, quiet(looks));
      while cut > 0
        invariant cut <= |buf.text|
        invariant Spoken(out, p.space) + Ink(buf.text, p.space) == Ink(old(buf.text), p.space)
        invariant forall e :: e in out ==> !e.final && e.text != ""
        invariant cut == 0 ==> Settled(buf.text, p)
        decreases |buf.text|
      {
        var clause := buf.Cut(p, cut);
        if clause != "" {
          SpokenMore(out, Emission(clause, false), p.space);
          out := out + [Emission(clause, false)];
        } else {
          SpokenBlank(p.space);
        }
        looks := looks + 1;
        cut := buf.Ready(p, quiet(looks));
      }
    }
  }

  // ---- Whole runs of the skill ----

  /** One message of some producer. */
  datatype Message = Message(key: Key, text: string, final: bool)

  /** One handled message: what came in, which buffers the sweep found stale, what went
      out, and the texts held back afterwards. */
  datatype Turn = Turn(m: Message, stale: set<Key>, out: seq<Emission>, held: map<Key, string>)

  ghost function HeldBefore(turns: seq<Turn>, i: nat): map<Key, string>
    requires i <= |turns|
  {
    if i == 0 then map[] else turns[i - 1].held
  }

  /** A final sweeps this producer's buffer away. */
  ghost predicate Sweeps(t: Turn, key: Key) {
    t.m.final && key in t.stale && key != t.m.key
  }

  /** What one call of `Handle` does to one producer. */
  ghost predicate Handled(before: map<Key, string>, t: Turn, key: Key, space: char -> bool) {
    if key == t.m.key then
      Spoken(t.out, space) + Ink(TextIn(t.held, key), space) == Ink(TextIn(before, key), space) + Ink(t.m.text, space)
    else TextIn(t.held, key) == if Sweeps(t, key) then "" else TextIn(before, key)
  }

  ghost predicate Traced(turns: seq<Turn>, space: char -> bool) {
    forall i, key :: 0 <= i < |turns| ==> Handled(HeldBefore(turns, i), turns[i], key, space)
  }

  /** Everything a producer sent, and everything passed on for it. */
  ghost function Heard(turns: seq<Turn>, key: Key, space: char -> bool): string {
    if turns == [] then ""
    else
      var t := turns[|turns| - 1];
      Heard(turns[..|turns| - 1], key, space) + if t.m.key == key then Ink(t.m.text, space) else ""
  }

  ghost function Said(turns: seq<Turn>, key: Key, space: char -> bool): string {
    if turns == [] then ""
    else
      var t := turns[|turns| - 1];
      Said(turns[..|turns| - 1], key, space) + if t.m.key == key then Spoken(t.out, space) else ""
  }

  /** How much ink the sweeps took from a producer. */
  ghost function Lost(turns: seq<Turn>, key: Key, space: char -> bool): nat {
    if turns == [] then 0
    else
      var n := |turns| - 1;
      Lost(turns[..n], key, space) + if Sweeps(turns[n], key) then |Ink(TextIn(HeldBefore(turns, n), key), space)| else 0
  }

  /** The producer was swept while it held something. */
  ghost predicate SweptHolding(turns: seq<Turn>, key: Key, space: char -> bool) {
    exists i :: 0 <= i < |turns| && Sweeps(turns[i], key) && !Blank(TextIn(HeldBefore(turns, i), key), space)
  }

  lemma TracedMore(turns: seq<Turn>, t: Turn, space: char -> bool)
    requires Traced(turns, space) && forall key :: Handled(HeldBefore(turns, |turns|), t, key, space)
    ensures Traced(turns + [t], space)
  {
    var more := turns + [t];
    forall i, key | 0 <= i < |more| ensures Handled(HeldBefore(more, i), more[i], key, space) {
      assert HeldBefore(more, i) == HeldBefore(turns, i);
      if i < |turns| { assert more[i] == turns[i]; }
    }
  }

  lemma TracedPrefix(turns: seq<Turn>, space: char -> bool)
    requires turns != [] && Traced(turns, space)
    ensures Traced(turns[..|turns| - 1], space)
    ensures forall i :: 0 <= i < |turns| ==> HeldBefore(turns[..|turns| - 1], i) == HeldBefore(turns, i)
  {
    var before := turns[..|turns| - 1];
    forall i, key | 0 <= i < |before| ensures Handled(HeldBefore(before, i), before[i], key, space) {
      assert Handled(HeldBefore(turns, i), turns[i], key, space);
    }
  }

  lemma {:induction false} SweptLoses(turns: seq<Turn>, key: Key, space: char -> bool)
    requires Traced(turns, space)
    ensures SweptHolding(turns, key, space) <==> Lost(turns, key, space) > 0
  {
    if turns != [] {
      var n := |turns| - 1;
      var before := turns[..n];
      TracedPrefix(turns, space);
      SweptLoses(before, key, space);
      BlankHasNoInk(TextIn(HeldBefore(turns, n), key), space);
      hide Ink, Blank, Traced, HeldBefore;
      if SweptHolding(before, key, space) {
        var i :| 0 <= i < |before| && Sweeps(before[i], key) && !Blank(TextIn(HeldBefore(before, i), key), space);
        assert Sweeps(turns[i], key) && !Blank(TextIn(HeldBefore(turns, i), key), space);
      }
      if SweptHolding(turns, key, space) && !(Sweeps(turns[n], key) && !Blank(TextIn(HeldBefore(turns, n), key), space)) {
        var i :| 0 <= i < |turns| && Sweeps(turns[i], key) && !Blank(TextIn(HeldBefore(turns, i), key), space);
        assert Sweeps(before[i], key) && !Blank(TextIn(HeldBefore(before, i), key), space);
      }
    }
  }

  lemma {:induction false} Balance(turns: seq<Turn>, key: Key, space: char -> bool)
    requires Traced(turns, space)
    ensures var said, held, heard := Said(turns, key, space), Ink(TextIn(HeldBefore(turns, |turns|), key), space), Heard(turns, key, space);
            && |said| + |held| + Lost(turns, key, space) == |heard|
            && (Lost(turns, key, space) == 0 ==> said + held == heard)
  {
    SpokenBlank(space);
    if turns != [] {
      var n := |turns| - 1;
      var before, t := turns[..n], turns[n];
      TracedPrefix(turns, space);
      Balance(before, key, space);
      assert Handled(HeldBefore(turns, n), t, key, space);
      hide Spoken, Ink, Traced;
      var was, now := Ink(TextIn(HeldBefore(turns, n), key), space), Ink(TextIn(t.held, key), space);
      if key == t.m.key {
        assert |Spoken(t.out, space) + now| == |was + Ink(t.m.text, space)|;
        Exchange(Said(before, key, space), was, Ink(t.m.text, space), Spoken(t.out, space), now);
      }
    }
  }

  /** However producers interleave, everything said for one of them plus what is still
      held for it is everything it sent, up to whitespace and in order, exactly when no
      sweep ever found it holding more than whitespace. */
  lemma ConservedIffNeverSwept(turns: seq<Turn>, key: Key, space: char -> bool)
    requires Traced(turns, space)
    ensures Said(turns, key, space) + Ink(TextIn(HeldBefore(turns, |turns|), key), space) == Heard(turns, key, space)
            <==> !SweptHolding(turns, key, space)
  {
    SweptLoses(turns, key, space);
    Balance(turns, key, space);
  }

  lemma Exchange(said: string, held: string, heard: string, out: string, kept: string)
    requires out + kept == held + heard
    ensures (said + out) + kept == (said + held) + heard
  {
    Regroup(said, out, kept);
    Regroup(said, held, heard);
  }
}
