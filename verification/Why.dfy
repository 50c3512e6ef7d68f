// `aura why`: the walk back along causes, from a failure to what started it.

module Why {
  import opened Options
  import opened Envelopes
  import opened BoundedFifo
  import opened Kernel
  import opened Frames
  import opened Books
  import opened Chains
  import opened Resumes
  import opened Aims
  import Hops
  import opened LongLogs
  import opened LongChains

  /** The last event under each id. */
  function ById(events: seq<Envelope>): map<Id, Envelope> {
    if events == [] then map[]
    else ById(events[..|events| - 1])[events[|events| - 1].id := events[|events| - 1]]
  }

  lemma {:induction false} ByIdHolds(events: seq<Envelope>)
    ensures forall id :: id in ById(events) ==> ById(events)[id] in events && ById(events)[id].id == id
    ensures forall i :: 0 <= i < |events| ==> events[i].id in ById(events)
  {
    if events != [] {
      var before, last := events[..|events| - 1], events[|events| - 1];
      ByIdHolds(before);
      assert events == before + [last];
      assert forall i :: 0 <= i < |before| ==> events[i] == before[i];
    }
  }

  /** The walk goes on from here. */
  predicate Goes(byId: map<Id, Envelope>, e: Envelope) {
    e.cause != NoId && e.cause in byId
  }

  /** Every event cites something logged earlier, or nothing on record. */
  ghost predicate CausesEarlier(events: seq<Envelope>) {
    forall i :: 0 <= i < |events| && events[i].cause != NoId && FirstAt(events, events[i].cause) < |events| ==>
      FirstAt(events, events[i].cause) < FirstAt(events, events[i].id)
  }

  ghost predicate Linked(chain: seq<Envelope>) {
    forall i :: 0 < i < |chain| ==> chain[i].cause == chain[i - 1].id
  }

  ghost predicate AllIn(chain: seq<Envelope>, log: seq<Envelope>) {
    forall i :: 0 <= i < |chain| ==> chain[i] in log
  }

  ghost predicate Absent(log: seq<Envelope>, id: Id) {
    id == NoId || forall i :: 0 <= i < |log| ==> log[i].id != id
  }

  /** The position of the last error, or of the last event when nothing failed. */
  ghost predicate FocusAt(events: seq<Envelope>, i: nat) {
    && i < |events|
    && (events[i].kind != Error ==> i == |events| - 1 && forall j :: 0 <= j < |events| ==> events[j].kind != Error)
    && (events[i].kind == Error ==> forall j :: i < j < |events| ==> events[j].kind != Error)
  }

  /** The last error, or the last event when nothing failed. */
  method Focus(events: seq<Envelope>) returns (focus: Envelope, failed: bool)
    requires events != []
    ensures exists i: nat :: FocusAt(events, i) && events[i] == focus
    ensures failed <==> exists i :: 0 <= i < |events| && events[i].kind == Error
    ensures focus in events
  {
    var i := |events|;
    while i > 0
      invariant 0 <= i <= |events|
      invariant forall j :: i <= j < |events| ==> events[j].kind != Error
    {
      i := i - 1;
      if events[i].kind == Error {
        assert FocusAt(events, i);
        return events[i], true;
      }
    }
    assert FocusAt(events, |events| - 1);
    return events[|events| - 1], false;
  }

  /** The causal walk. On a log in causal order it ends, and what it shows is a chain
      of events each caused by the one before, from one with no recorded cause down
      to the event in question. */
  method Walk(events: seq<Envelope>, focus: Envelope) returns (chain: seq<Envelope>)
    requires CausesEarlier(events) && focus in events
    ensures chain != [] && chain[|chain| - 1] == focus && Linked(chain)
    ensures AllIn(chain, events) && Absent(events, chain[0].cause)
  {
    hide FirstAt;
    var byId := Index(events);
    ByIdHolds(events);
    chain := [focus];
    var cur := focus.cause;
    hide ById, CausesEarlier;
    while cur != NoId && cur in byId
      invariant chain != [] && chain[|chain| - 1] == focus && Linked(chain) && chain[0].cause == cur
      invariant AllIn(chain, events)
      decreases FirstAt(events, chain[0].id)
    {
      var parent := byId[cur];
      Grow(events, chain, parent);
      chain := [parent] + chain;
      cur := parent.cause;
    }
  }

  /** One pass over the events, the last under each id winning. */
  method Index(events: seq<Envelope>) returns (byId: map<Id, Envelope>)
    ensures byId == ById(events)
  {
    byId := map[];
    for i := 0 to |events|
      invariant byId == ById(events[..i])
    {
      assert events[..i + 1][..i] == events[..i];
      byId := byId[events[i].id := events[i]];
    }
    assert events[..|events|] == events;
  }

  lemma Grow(events: seq<Envelope>, chain: seq<Envelope>, parent: Envelope)
    requires CausesEarlier(events) && chain != [] && AllIn(chain, events) && Linked(chain)
    requires parent in events && parent.id == chain[0].cause && chain[0].cause != NoId
    ensures FirstAt(events, parent.id) < FirstAt(events, chain[0].id)
    ensures Linked([parent] + chain) && AllIn([parent] + chain, events)
  {
    assert chain[0] in events;
    EarlierParent(events, chain[0], parent);
  }

  lemma EarlierParent(events: seq<Envelope>, e: Envelope, parent: Envelope)
    requires CausesEarlier(events) && e in events && parent in events && parent.id == e.cause && e.cause != NoId
    ensures FirstAt(events, parent.id) < FirstAt(events, e.id)
  {
    var i :| 0 <= i < |events| && events[i] == e;
    var j :| 0 <= j < |events| && events[j] == parent;
    assert FirstAt(events, e.cause) <= j;
  }

  // ---- The logs a session keeps are in causal order. ----

  /** What arrives cites nothing, a passed-on cancel, or something on record. */
  ghost predicate CitesPast(s: State, env: Envelope) {
    env.cause == NoId || env.cause in s.cancelIds || Known(s, env.cause)
  }

  ghost predicate PastRun(c: Config, inputs: seq<Input>) {
    inputs != [] ==>
      var before, last := inputs[..|inputs| - 1], inputs[|inputs| - 1];
      PastRun(c, before) && (last.Arrive? ==> CitesPast(Run(c, before), last.env))
  }

  ghost predicate PastCited(log: seq<Envelope>, cancels: set<Id>) {
    forall i :: 0 <= i < |log| && log[i].id.External? ==>
      log[i].cause == NoId || log[i].cause in cancels || KnownBefore(log, i, log[i].cause)
  }

  lemma PastGrows(s: State, env: Envelope, t: State)
    requires PastCited(s.log, s.cancelIds) && CitesPast(s, env) && env.id.External?
    requires OnlyFrom(s.log, t.log, env) && s.cancelIds <= t.cancelIds
    ensures PastCited(t.log, t.cancelIds)
  {
    KnownGrows(s.log, t.log);
    forall i | 0 <= i < |t.log| && t.log[i].id.External?
      ensures t.log[i].cause == NoId || t.log[i].cause in t.cancelIds || KnownBefore(t.log, i, t.log[i].cause)
    {
      if i < |s.log| { assert t.log[i] == s.log[i]; }
    }
  }

  lemma {:induction false} PastInEveryRun(c: Config, inputs: seq<Input>)
    requires LongRun(c, inputs) && PastRun(c, inputs)
    ensures PastCited(Run(c, inputs).log, Run(c, inputs).cancelIds)
  {
    if inputs != [] {
      var before, last := inputs[..|inputs| - 1], inputs[|inputs| - 1];
      PastInEveryRun(c, before);
      hide RouteF, Replay;
      match last {
        case Arrive(env, w) =>
          RouteLogs(c, w, Run(c, before), env);
          PastGrows(Run(c, before), env, RouteF(c, w, Run(c, before), env));
        case Crash =>
      }
    }
  }

  lemma LogIsCausal(log: seq<Envelope>, cancels: set<Id>, mint: nat)
    requires OnRecord(log, cancels, mint) && PastCited(log, cancels)
    ensures CausesEarlier(log)
  {
    forall i | 0 <= i < |log| && log[i].cause != NoId && FirstAt(log, log[i].cause) < |log|
      ensures FirstAt(log, log[i].cause) < FirstAt(log, log[i].id)
    {
      var f := FirstAt(log, log[i].id);
      assert log[f] == log[i];
      assert EntryOk(log, mint, f);
      var g := FirstAt(log, log[i].cause);
      NeverLogged(log, cancels, g);
      var j :| 0 <= j < f && log[j].id == log[f].cause;
    }
  }

  lemma PastCitedPrefix(log: seq<Envelope>, cancels: set<Id>, n: nat)
    requires PastCited(log, cancels) && n <= |log|
    ensures PastCited(log[..n], cancels)
  {
    forall i | 0 <= i < n && log[..n][i].id.External? && !(log[i].cause == NoId || log[i].cause in cancels)
      ensures KnownBefore(log[..n], i, log[i].cause)
    {
      Hops.KnownGrowsBack(log, log[..n], i);
    }
  }

  /** Over every honest run of any length, crashes included, in which what arrives cites
      only what is already on record, the causal walk of the log ends, at an event that
      cites nothing on record; and so does the walk of as much of it as is handed out. */
  lemma WalkEndsOnSessionLogs(c: Config, inputs: seq<Input>)
    requires LongRun(c, inputs) && PastRun(c, inputs) && Resumes.DistinctEdges(c)
    ensures CausesEarlier(Run(c, inputs).log) && CausesEarlier(Readable(Run(c, inputs).log))
  {
    TruthfulInEveryRun(c, inputs);
    PastInEveryRun(c, inputs);
    var s := Run(c, inputs);
    hide Run, CausesEarlier;
    LivingHolds(c, s);
    var part := Readable(s.log);
    assert part == s.log[..|part|];
    RecordPrefix(s.log, s.cancelIds, s.mint, |part|);
    PastCitedPrefix(s.log, s.cancelIds, |part|);
    LogIsCausal(s.log, s.cancelIds, s.mint);
    LogIsCausal(part, s.cancelIds, s.mint);
  }

  /** The events handed out are the first thousand, so what is explained is what should
      be exactly when the log has no more, or an error is among them and none after. */
  lemma FocusReadIff(log: seq<Envelope>, i: nat, j: nat)
    requires FocusAt(Readable(log), i) && FocusAt(log, j)
    ensures i == j <==> |log| <= RESUME_LIMIT
                        || (log[i].kind == Error && forall k :: RESUME_LIMIT <= k < |log| ==> log[k].kind != Error)
  {
    var part := Readable(log);
    assert forall k :: 0 <= k < |part| ==> part[k] == log[k];
  }

  ghost predicate Shows(chain: seq<Envelope>, k: nat, root: Id) {
    exists i :: 0 <= i <= k && i < |chain| && chain[i].id == root && ClientSent(chain[i])
  }

  /** The chain shown passes through the client message the kernel holds the event's
      work to belong to. */
  lemma {:induction false} WalkShowsTheRoot(log: seq<Envelope>, cancels: set<Id>, chain: seq<Envelope>, k: nat)
    requires HonestLog(log, cancels) && Linked(chain) && k < |chain| && AllIn(chain, log) && Absent(log, chain[0].cause)
    requires Tracked(chain[k]) && ChainRoot(log, chain[k]) != NoId
    ensures Shows(chain, k, ChainRoot(log, chain[k]))
  {
    hide Linked, HonestLog, Tracked, AllIn, Absent, ClientSent;
    if ClientSent(chain[k]) {
      assert ChainRoot(log, chain[k]) == chain[k].id;
    } else {
      ShownParent(log, cancels, chain, k);
      hide ChainRoot;
      WalkShowsTheRoot(log, cancels, chain, k - 1);
      var root := ChainRoot(log, chain[k - 1]);
      var i :| 0 <= i <= k - 1 && i < |chain| && chain[i].id == root && ClientSent(chain[i]);
      assert Shows(chain, k, root);
    }
  }

  lemma ShownParent(log: seq<Envelope>, cancels: set<Id>, chain: seq<Envelope>, k: nat)
    requires HonestLog(log, cancels) && Linked(chain) && k < |chain| && AllIn(chain, log) && Absent(log, chain[0].cause)
    requires Tracked(chain[k]) && ChainRoot(log, chain[k]) != NoId && !ClientSent(chain[k])
    ensures k > 0 && Tracked(chain[k - 1]) && ChainRoot(log, chain[k]) == ChainRoot(log, chain[k - 1])
  {
    hide ChainRoot;
    var e := chain[k];
    assert e in log;
    var i :| 0 <= i < |log| && log[i] == e;
    assert Cites(log, cancels, i, e);
    if e.cause == NoId || e.cause in cancels {
      UncitedRoot(log, cancels, e);
    } else {
      var j := FollowerRoot(log, cancels, i, e);
      if k == 0 {
        NeverLogged(log, cancels, j);
      } else {
        assert chain[k - 1] in log;
        var p :| 0 <= p < |log| && log[p] == chain[k - 1];
        SameEntry(log, cancels, p, j);
      }
    }
  }

  // ---- Otherwise the walk may never end. ----

  /** The walk's n-th step back, if it gets that far. */
  ghost function Back(byId: map<Id, Envelope>, focus: Envelope, n: nat): Option<Envelope> {
    if n == 0 then Some(focus)
    else
      match Back(byId, focus, n - 1)
      case None => None
      case Some(e) => if Goes(byId, e) then Some(byId[e.cause]) else None
  }

  lemma {:induction false} SelfCitationLoops(byId: map<Id, Envelope>, e: Envelope, n: nat)
    requires e.cause == e.id && e.id != NoId && e.id in byId && byId[e.id] == e
    ensures Back(byId, e, n) == Some(e)
  {
    if n > 0 { SelfCitationLoops(byId, e, n - 1); }
  }

  ghost predicate Ends(byId: map<Id, Envelope>, focus: Envelope) {
    exists n :: Back(byId, focus, n) == None
  }

  ghost predicate Recurs(byId: map<Id, Envelope>, focus: Envelope) {
    exists i, j :: 0 <= i < j && Back(byId, focus, i) == Back(byId, focus, j) && Back(byId, focus, i) != None
  }

  lemma {:induction false} BackShift(byId: map<Id, Envelope>, focus: Envelope, i: nat, j: nat, n: nat)
    requires Back(byId, focus, i) == Back(byId, focus, j)
    ensures Back(byId, focus, i + n) == Back(byId, focus, j + n)
  {
    if n > 0 { BackShift(byId, focus, i, j, n - 1); }
  }

  lemma {:induction false} BackStays(byId: map<Id, Envelope>, focus: Envelope, n: nat, m: nat)
    requires Back(byId, focus, n) == None && n <= m
    ensures Back(byId, focus, m) == None
    decreases m - n
  {
    if n < m { BackStays(byId, focus, n + 1, m); }
  }

  /** A recurring event is met again and again. */
  lemma {:induction false} RecursForever(byId: map<Id, Envelope>, focus: Envelope, i: nat, j: nat, n: nat)
    requires i < j && Back(byId, focus, i) == Back(byId, focus, j) != None
    ensures Back(byId, focus, n) != None
    decreases n
  {
    if n <= j {
      if Back(byId, focus, n) == None { BackStays(byId, focus, n, j); }
    } else {
      RecursForever(byId, focus, i, j, n - (j - i));
      BackShift(byId, focus, i, j, n - j);
    }
  }

  /** The events met in the first steps back. */
  ghost function Met(byId: map<Id, Envelope>, focus: Envelope, n: nat): set<Envelope> {
    if n == 0 then {}
    else Met(byId, focus, n - 1) + if Back(byId, focus, n).Some? then {Back(byId, focus, n).value} else {}
  }

  ghost predicate SeenAt(byId: map<Id, Envelope>, focus: Envelope, i: nat, e: Envelope) {
    Back(byId, focus, i) == Some(e)
  }

  ghost predicate MetBy(byId: map<Id, Envelope>, focus: Envelope, n: nat, e: Envelope) {
    exists i: nat :: 1 <= i <= n && SeenAt(byId, focus, i, e)
  }

  lemma {:induction false} MetAre(byId: map<Id, Envelope>, focus: Envelope, n: nat)
    ensures Met(byId, focus, n) <= byId.Values
    ensures forall e :: e in Met(byId, focus, n) ==> MetBy(byId, focus, n, e)
    ensures !Recurs(byId, focus) && Back(byId, focus, n) != None ==> |Met(byId, focus, n)| == n
  {
    if n > 0 {
      MetAre(byId, focus, n - 1);
      forall e | e in Met(byId, focus, n) ensures MetBy(byId, focus, n, e) {
        if e in Met(byId, focus, n - 1) {
          assert MetBy(byId, focus, n - 1, e);
        } else {
          assert SeenAt(byId, focus, n, e);
        }
      }
      if Back(byId, focus, n).Some? {
        var e := Back(byId, focus, n - 1).value;
        assert e.cause in byId;
      }
    }
  }

  /** The walk ends exactly when it never comes back to an event it has shown. */
  lemma WalkEndsIff(byId: map<Id, Envelope>, focus: Envelope)
    ensures Ends(byId, focus) <==> !Recurs(byId, focus)
  {
    if Recurs(byId, focus) {
      var i: nat, j: nat :| i < j && Back(byId, focus, i) == Back(byId, focus, j) && Back(byId, focus, i) != None;
      forall n: nat ensures Back(byId, focus, n) != None {
        RecursForever(byId, focus, i, j, n);
      }
    } else {
      var n := |byId.Values| + 1;
      MetAre(byId, focus, n);
      if Back(byId, focus, n) != None {
        Fewer(Met(byId, focus, n), byId.Values);
      }
    }
  }

  // ---- The same condition read off the log: a ring of causes. ----

  /** `path` follows cause links from one event to the next. */
  ghost predicate Path(byId: map<Id, Envelope>, path: seq<Envelope>) {
    forall i :: 0 <= i < |path| - 1 ==> Goes(byId, path[i]) && path[i + 1] == byId[path[i].cause]
  }

  /** Events each citing the next, the last one citing the first. */
  ghost predicate Ring(byId: map<Id, Envelope>, ring: seq<Envelope>) {
    ring != [] && Path(byId, ring + [ring[0]])
  }

  /** Some ring of causes can be reached from the event in question. */
  ghost predicate RingBehind(byId: map<Id, Envelope>, focus: Envelope) {
    exists path, ring :: path != [] && path[0] == focus && Path(byId, path)
                         && Ring(byId, ring) && ring[0] == path[|path| - 1]
  }

  /** The events met from one step back to another. */
  ghost function Trail(byId: map<Id, Envelope>, focus: Envelope, from: nat, last: nat): (t: seq<Envelope>)
    requires from <= last && Back(byId, focus, last) != None
    ensures |t| == last - from + 1
  {
    var e := Back(byId, focus, last).value;
    if from == last then [e]
    else Trail(byId, focus, from, last - 1) + [e]
  }

  lemma {:induction false} TrailIsPath(byId: map<Id, Envelope>, focus: Envelope, from: nat, last: nat)
    requires from <= last && Back(byId, focus, last) != None
    ensures Path(byId, Trail(byId, focus, from, last))
    ensures Back(byId, focus, from) == Some(Trail(byId, focus, from, last)[0])
    ensures Back(byId, focus, last) == Some(Trail(byId, focus, from, last)[last - from])
  {
    if from < last {
      TrailIsPath(byId, focus, from, last - 1);
    }
  }

  lemma {:induction false} PathIsBack(byId: map<Id, Envelope>, focus: Envelope, path: seq<Envelope>, n: nat, i: nat)
    requires Path(byId, path) && i < |path| && Back(byId, focus, n) == Some(path[0])
    ensures Back(byId, focus, n + i) == Some(path[i])
  {
    if i > 0 {
      PathIsBack(byId, focus, path, n, i - 1);
      assert Goes(byId, path[i - 1]) && path[i] == byId[path[i - 1].cause];
    }
  }

  lemma RecurrenceIsRing(byId: map<Id, Envelope>, focus: Envelope, i: nat, j: nat)
    requires i < j && Back(byId, focus, i) == Back(byId, focus, j) && Back(byId, focus, i) != None
    ensures RingBehind(byId, focus)
  {
    TrailIsPath(byId, focus, 0, i);
    TrailIsPath(byId, focus, i, j);
    var path, round := Trail(byId, focus, 0, i), Trail(byId, focus, i, j);
    hide Trail, Back, Path;
    var ring := round[..|round| - 1];
    assert ring + [ring[0]] == round;
    assert Ring(byId, ring);
  }

  lemma RingRecurs(byId: map<Id, Envelope>, focus: Envelope, path: seq<Envelope>, ring: seq<Envelope>)
    requires path != [] && path[0] == focus && Path(byId, path) && Ring(byId, ring) && ring[0] == path[|path| - 1]
    ensures Recurs(byId, focus)
  {
    assert Back(byId, focus, 0) == Some(focus);
    PathIsBack(byId, focus, path, 0, |path| - 1);
    PathIsBack(byId, focus, ring + [ring[0]], |path| - 1, |ring|);
    hide Back, Path;
    var i, j := |path| - 1, |path| - 1 + |ring|;
    assert 0 <= i < j && Back(byId, focus, i) == Back(byId, focus, j) && Back(byId, focus, i) != None;
  }

  /** The walk ends exactly when no ring of causes lies behind the event it starts from. */
  lemma WalkEndsWithoutRing(byId: map<Id, Envelope>, focus: Envelope)
    ensures Ends(byId, focus) <==> !RingBehind(byId, focus)
  {
    WalkEndsIff(byId, focus);
    hide Back, Path, Ends;
    if Recurs(byId, focus) {
      var i: nat, j: nat :| i < j && Back(byId, focus, i) == Back(byId, focus, j) && Back(byId, focus, i) != None;
      RecurrenceIsRing(byId, focus, i, j);
    }
    if RingBehind(byId, focus) {
      var path, ring :| path != [] && path[0] == focus && Path(byId, path)
                        && Ring(byId, ring) && ring[0] == path[|path| - 1];
      RingRecurs(byId, focus, path, ring);
    }
  }
}
