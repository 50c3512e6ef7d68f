// The federation bridge's race between a cancel and learning the remote id.

module Relays {
  import opened Options

  /** A relay in flight. `remote` is known once its connection carried the envelope. */
  datatype Relay = Relay(cancelled: bool, remote: Option<string>)

  // ---- The state object: what each call does under its lock ----

  class RelayState {
    var byLocal: map<string, Relay>

    constructor ()
      ensures byLocal == map[]
    {
      byLocal := map[];
    }

    method Track(local: string)
      modifies this
      ensures byLocal == TrackF(old(byLocal), local)
    {
      if local == "" {
        return;
      }
      byLocal := byLocal[local := Relay(false, None)];
    }

    /** Records the remote id; the caller sends a cancel now if one came first. */
    method SetRemote(local: string, remote: string) returns (send: bool)
      modifies this
      ensures byLocal == SetRemoteF(old(byLocal), local, remote)
      ensures send <==> local in old(byLocal) && old(byLocal)[local].cancelled
    {
      if local !in byLocal {
        return false;
      }
      var t := byLocal[local];
      byLocal := byLocal[local := t.(remote := Some(remote))];
      send := t.cancelled;
    }

    method Done(local: string)
      modifies this
      ensures byLocal == old(byLocal) - {local}
    {
      byLocal := byLocal - {local};
    }

    /** Marks a relay cancelled; the caller sends a cancel now if the remote id is known. */
    method Cancel(local: string) returns (tracked: bool, remote: Option<string>)
      modifies this
      ensures byLocal == CancelF(old(byLocal), local)
      ensures tracked <==> local in old(byLocal)
      ensures remote == if tracked then old(byLocal)[local].remote else None
    {
      if local !in byLocal {
        return false, None;
      }
      var t := byLocal[local];
      byLocal := byLocal[local := t.(cancelled := true)];
      return true, t.remote;
    }
  }

  function TrackF(m: map<string, Relay>, local: string): map<string, Relay> {
    if local == "" then m else m[local := Relay(false, None)]
  }

  function SetRemoteF(m: map<string, Relay>, local: string, remote: string): map<string, Relay> {
    if local in m then m[local := m[local].(remote := Some(remote))] else m
  }

  function CancelF(m: map<string, Relay>, local: string): map<string, Relay> {
    if local in m then m[local := m[local].(cancelled := true)] else m
  }

  // ---- Interleavings: the wire is written after the lock is let go ----

  datatype Wire = Wire(local: string, remote: string)

  /** `due` are cancels decided on but not yet written. */
  datatype Bridge = Bridge(byLocal: map<string, Relay>, due: multiset<Wire>, written: multiset<Wire>)

  datatype Step =
    | Track(local: string)
    | SetRemote(local: string, remote: string)
    | Cancel(local: string)
    | Done(local: string)
    | Write(w: Wire)

  function StepF(b: Bridge, s: Step): Bridge {
    match s
    case Track(local) => b.(byLocal := TrackF(b.byLocal, local))
    case SetRemote(local, remote) =>
      b.(byLocal := SetRemoteF(b.byLocal, local, remote),
         due := if local in b.byLocal && b.byLocal[local].cancelled then b.due + multiset{Wire(local, remote)} else b.due)
    case Cancel(local) =>
      b.(byLocal := CancelF(b.byLocal, local),
         due := if local in b.byLocal && b.byLocal[local].remote.Some?
                then b.due + multiset{Wire(local, b.byLocal[local].remote.value)} else b.due)
    case Done(local) => b.(byLocal := b.byLocal - {local})
    case Write(w) => if w in b.due then b.(due := b.due - multiset{w}, written := b.written + multiset{w}) else b
  }

  function Run(steps: seq<Step>): Bridge {
    if steps == [] then Bridge(map[], multiset{}, multiset{})
    else StepF(Run(steps[..|steps| - 1]), steps[|steps| - 1])
  }

  /** Cancels decided on for one relay under one remote id, written or still to be. */
  function Decided(b: Bridge, w: Wire): nat {
    b.due[w] + b.written[w]
  }

  // ---- The reference: counting over the history of one relay ----

  /** How often a cancel found the relay tracked, before and after its remote id was learnt. */
  datatype History = History(tracked: bool, remote: Option<string>, early: nat, late: nat)

  function HistoryStep(h: History, s: Step, local: string): History {
    match s
    case Track(l) => if l == local && local != "" then h.(tracked := true) else h
    case SetRemote(l, remote) => if l == local && h.tracked then h.(remote := Some(remote)) else h
    case Cancel(l) =>
      if l != local || !h.tracked then h
      else if h.remote.Some? then h.(late := h.late + 1) else h.(early := h.early + 1)
    case Done(l) => if l == local then h.(tracked := false) else h
    case Write(_) => h
  }

  /** A relay's own history, read off the steps that name it. */
  function HistoryOf(steps: seq<Step>, local: string): History {
    if steps == [] then History(false, None, 0, 0)
    else HistoryStep(HistoryOf(steps[..|steps| - 1], local), steps[|steps| - 1], local)
  }

  /** The relay's life as the bridge lives it: tracked once, told its remote id at most once. */
  ghost predicate OneLife(steps: seq<Step>, local: string) {
    && (forall i, j :: 0 <= i < j < |steps| ==> !(steps[i] == Track(local) && steps[j] == Track(local)))
    && (forall i, j :: 0 <= i < j < |steps| ==> !(Learns(steps[i], local) && Learns(steps[j], local)))
  }

  ghost predicate Learns(s: Step, local: string) {
    s.SetRemote? && s.local == local
  }

  function CancelsFor(h: History): nat {
    if h.remote.None? then 0 else (if h.early > 0 then 1 else 0) + h.late
  }

  /** What the bridge knows of one relay against that relay's history. */
  ghost predicate Accounts(b: Bridge, h: History, local: string) {
    && (h.tracked <==> local in b.byLocal)
    && (h.remote.None? ==> h.late == 0)
    && (h.tracked ==> b.byLocal[local] == Relay(h.early + h.late > 0, h.remote))
    && (forall remote :: Decided(b, Wire(local, remote)) == if h.remote == Some(remote) then CancelsFor(h) else 0)
  }

  ghost predicate Never(steps: seq<Step>, local: string) {
    forall i :: 0 <= i < |steps| ==> steps[i] != Track(local)
  }

  ghost predicate Unlearned(steps: seq<Step>, local: string) {
    forall i :: 0 <= i < |steps| ==> !Learns(steps[i], local)
  }

  lemma {:induction false} Untouched(steps: seq<Step>, local: string)
    ensures Never(steps, local) ==> HistoryOf(steps, local) == History(false, None, 0, 0)
    ensures Unlearned(steps, local) ==> HistoryOf(steps, local).remote.None?
  {
    if steps != [] {
      var before := steps[..|steps| - 1];
      Untouched(before, local);
      assert forall i :: 0 <= i < |before| ==> before[i] == steps[i];
    }
  }

  lemma {:induction false} AccountsInEveryRun(steps: seq<Step>, local: string)
    requires OneLife(steps, local)
    ensures Accounts(Run(steps), HistoryOf(steps, local), local)
  {
    if steps != [] {
      var before, last := steps[..|steps| - 1], steps[|steps| - 1];
      assert forall i :: 0 <= i < |before| ==> before[i] == steps[i];
      AccountsInEveryRun(before, local);
      Untouched(before, local);
      assert last == Track(local) ==> Never(before, local);
      assert Learns(last, local) ==> Unlearned(before, local);
      hide Accounts, HistoryStep, Never, Unlearned, OneLife;
      AccountsStep(Run(before), HistoryOf(before, local), last, local);
    }
  }

  /** Whether this step decides on a wire cancel for this relay under this remote id. */
  function Decides(b: Bridge, s: Step, w: Wire): nat {
    match s
    case SetRemote(local, remote) =>
      if w == Wire(local, remote) && local in b.byLocal && b.byLocal[local].cancelled then 1 else 0
    case Cancel(local) =>
      if w.local == local && local in b.byLocal && b.byLocal[local].remote == Some(w.remote) then 1 else 0
    case _ => 0
  }

  lemma DecidedStep(b: Bridge, s: Step, w: Wire)
    ensures Decided(StepF(b, s), w) == Decided(b, w) + Decides(b, s, w)
  {
  }

  lemma AccountsStep(b: Bridge, h: History, s: Step, local: string)
    requires Accounts(b, h, local)
    requires s == Track(local) ==> h == History(false, None, 0, 0)
    requires Learns(s, local) ==> h.remote.None?
    ensures Accounts(StepF(b, s), HistoryStep(h, s, local), local)
  {
    var t, now := StepF(b, s), HistoryStep(h, s, local);
    forall remote ensures Decided(t, Wire(local, remote)) == if now.remote == Some(remote) then CancelsFor(now) else 0 {
      assert Decided(b, Wire(local, remote)) == if h.remote == Some(remote) then CancelsFor(h) else 0;
      DecidedStep(b, s, Wire(local, remote));
      hide Decided, StepF;
    }
    hide Decided;
  }

  /** Under every interleaving, once the writes it owes are done, a relay that learnt
      its remote id has sent one cancel for all those that came before it knew, and
      one more for each that came after; one that never learnt it has sent none. */
  lemma CancelsWritten(steps: seq<Step>, local: string, remote: string)
    requires OneLife(steps, local)
    ensures var h := HistoryOf(steps, local);
            Run(steps).due[Wire(local, remote)] + Run(steps).written[Wire(local, remote)]
            == if h.remote == Some(remote) then (if h.early > 0 then 1 else 0) + h.late else 0
  {
    AccountsInEveryRun(steps, local);
    assert Decided(Run(steps), Wire(local, remote)) == Run(steps).due[Wire(local, remote)] + Run(steps).written[Wire(local, remote)];
  }

  /** Exactly one: cancelled once while tracked, and it learns its remote id, in
      either order and with anything else in between. Never cancelled, never a cancel. */
  lemma OneCancelEach(steps: seq<Step>, local: string, remote: string)
    requires OneLife(steps, local) && Run(steps).due[Wire(local, remote)] == 0
    ensures var h := HistoryOf(steps, local);
            && (h.early + h.late == 1 && h.remote == Some(remote) ==> Run(steps).written[Wire(local, remote)] == 1)
            && (h.early + h.late == 0 || h.remote != Some(remote) ==> Run(steps).written[Wire(local, remote)] == 0)
  {
    CancelsWritten(steps, local, remote);
  }

  /** Repeating a cancel repeats the wire cancel exactly when the remote id is known. */
  lemma CancelAgain(b: Bridge, local: string, remote: string)
    requires local in b.byLocal && b.byLocal[local].cancelled
    ensures var t := StepF(b, Cancel(local));
            && t.byLocal == b.byLocal
            && (Decided(t, Wire(local, remote)) == Decided(b, Wire(local, remote)) + 1
                <==> b.byLocal[local].remote == Some(remote))
  {
  }
}
