// The session executor as a state machine: what one arriving envelope, one gate
// answer, one cancel and one restart do to a session, its log and its ledger.
// Session.dfy proves the executor's step-by-step code against these definitions.

module Kernel {
  import opened Options
  import opened Envelopes
  import opened BoundedFifo
  import opened Indexes
  import opened Policies
  import opened RateLimits
  import opened Graphs
  import opened Wiring
  import opened Approvers
  import opened Budgets
  import opened Speculation

  /** What a session is built from. `bytes` is the encoded length of a payload and
      `signed` the signature check bound to this node and session. */
  datatype Config = Config(
    routes: Routes,
    pol: Policy,
    hasLedger: bool,
    undoOf: string,
    budget: int,
    bytes: Payload -> nat,
    signed: Approval -> bool)

  /** What the outside decides while one envelope is routed: the clock when a
      delivery is stamped and when it is about to be made, whether the node-wide
      limiter admits it, whether it could be sealed, whether the transport took
      it, what an attestation hashes to ("" when malformed or not stored), and
      the roster in force. Each is asked by the number of the id being minted. */
  datatype World = World(
    clock: nat -> int,
    late: nat -> int,
    admit: nat -> bool,
    seal: nat -> bool,
    send: nat -> bool,
    attest: string -> string,
    roster: Option<Roster>)

  /** A delivery waiting for a human. */
  datatype Held = Held(env: Envelope, to: Dest)

  /** One sealed effect. `via` is history: the gate whose answer released it. */
  datatype Entry = Entry(
    envelope: Id,
    cause: Id,
    skill: Skill,
    decision: Decision,
    delivered: bool,
    payload: Payload,
    waived: bool,
    compensates: string,
    inference: seq<string>,
    approver: Option<Approval>,
    via: Id)

  /** History of what the kernel handed to the transport, which may refuse it
      (`World.send`): the envelope, where to, the gate whose answer caused it (NoId if
      none), and how long the log was just before. */
  datatype Send = Send(env: Envelope, to: Dest, via: Id, at: nat)

  /** History of a gate's life. */
  datatype GateEvent =
    | Opened(req: Id, held: Held)
    | Released(req: Id, held: Held, answer: Envelope, approval: Option<Approval>, roster: Option<Roster>)
    | Refused(req: Id, held: Held, answer: Envelope)

  datatype State = State(
    // volatile
    seqNo: map<Endpoint, nat>,
    dedup: Fifo<string, ()>,
    pending: map<Id, Held>,
    approved: map<Id, Approval>,
    causal: Fifo<Id, Id>,
    inFlight: Fifo<Id, map<Endpoint, Hop>>,
    cancelled: Fifo<Id, ()>,
    attests: Attests,
    spec: SpecValue,
    consumed: nat,
    // durable
    log: seq<Envelope>,
    ledger: seq<Entry>,
    mint: nat,
    // history: `cuts` is how long the log was when a chain was last cancelled
    sent: seq<Send>,
    cancelsSent: multiset<Hop>,
    cancelIds: set<Id>,
    cuts: map<Id, nat>,
    gates: seq<GateEvent>)

  function Start(): State {
    State(map[], Empty(MAX_DEDUP), map[], map[], Empty(MAX_CAUSAL_ROOTS), Empty(MAX_IN_FLIGHT_ROOTS),
          Empty(MAX_CANCELLED), Attests(Empty(MAX_ATTEST_ROOTS), {}),
          SpecValue(Empty(MAX_SPEC_ROOTS), 0, 0, 0), 0,
          [], [], 0, [], multiset{}, {}, map[], [])
  }

  function ClientDest(port: string): Dest {
    Dest(CLIENT, port, Ungated, None, false, QOS_RELIABLE, false, 0, 0, Endpoint("", ""))
  }

  /** The client message an envelope's chain began with, as far as the index knows. */
  function RootIn(causal: Fifo<Id, Id>, env: Envelope): Id {
    if env.node == CLIENT then env.id else RootF(causal, env.cause)
  }

  function RootOf(s: State, env: Envelope): Id {
    RootIn(s.causal, env)
  }

  function ErrorEnvelope(id: Id, cause: Id): Envelope {
    KernelEnvelope(id, cause, CLIENT, "text_in", Error, "std/status@1", Notice("error"))
  }

  function EmitErrorF(s: State, cause: Id, via: Id): State {
    var e := ErrorEnvelope(Minted(s.mint), cause);
    s.(mint := s.mint + 1,
       log := s.log + [e],
       sent := s.sent + [Send(e, ClientDest("text_in"), via, |s.log|)])
  }

  // ---- Forwarding ----

  function At(seqNo: map<Endpoint, nat>, hop: Endpoint): nat {
    if hop in seqNo then seqNo[hop] else 0
  }

  function Outgoing(w: World, s: State, src: Envelope, d: Dest): Envelope {
    var hop := Endpoint(d.ref, d.port);
    Envelope(Minted(s.mint), src.id, d.ref, d.port, At(s.seqNo, hop) + 1, HopKey(src.idem, hop), src.schema,
             src.kind, src.payload, None, "",
             InheritDeadline(src.deadline, d.deadlineMS, w.clock(s.mint)), d.priority, d.speculative)
  }

  predicate RateRefused(c: Config, w: World, s: State, src: Envelope, d: Dest) {
    d.skill.Some? && src.kind == Data && Limited(c.pol, d.skill.value.capability) && !w.admit(s.mint)
  }

  function ForwardF(c: Config, w: World, s: State, src: Envelope, d: Dest, via: Id): State {
    if RateRefused(c, w, s, src, d) then EmitErrorF(s, src.id, via)
    else DispatchF(c, w, s, src, d, via)
  }

  function DispatchF(c: Config, w: World, s: State, src: Envelope, d: Dest, via: Id): State {
    var out := Outgoing(w, s, src, d);
    var (consumed, over) := ContextF(c, s, out);
    var s1 := s.(mint := s.mint + 1, seqNo := s.seqNo[Source(out) := out.seqNo], consumed := consumed);
    if over then EmitErrorF(s1, src.id, via)
    else CheckpointF(c, w, TrackF(s1, src, out), src, out, d, RootOf(s1, src), via)
  }

  /** Only data into a skill counts against the graph's context budget. */
  function ContextF(c: Config, s: State, out: Envelope): (nat, bool) {
    if out.kind != Data || out.node == CLIENT then (s.consumed, false)
    else ChargeF(c.budget, s.consumed, c.bytes(out.payload))
  }

  function TrackF(s: State, src: Envelope, out: Envelope): State {
    var root := RootOf(s, src);
    s.(causal := SetRootF(s.causal, out.id, root),
       inFlight := RecordF(s.inFlight, root, Hop(Source(out), src.id)))
  }

  predicate IsEffectDelivery(d: Dest, kind: Kind) {
    d.skill.Some? && IsMotor(d.skill.value) && kind == Data
  }

  function DeliveredEntry(c: Config, s: State, out: Envelope, d: Dest, root: Id, via: Id): Entry
    requires d.skill.Some?
  {
    Entry(out.id, out.cause, d.skill.value, if d.gate == HumanApproval then Gate else Allow, true,
          out.payload, d.waived, c.undoOf, AttestedF(s.attests, root).hashes,
          if out.cause in s.approved then Some(s.approved[out.cause]) else None, via)
  }

  /** The effect checkpoint: seal, then deliver; what a failed seal costs is policy's. */
  function CheckpointF(c: Config, w: World, s: State, src: Envelope, out: Envelope, d: Dest, root: Id, via: Id): State
    requires out.id.Minted?
  {
    if !c.hasLedger || !IsEffectDelivery(d, out.kind) then DeliverF(c, w, s, src, out, d, via)
    else
      var taken := s.(approved := s.approved - {out.cause});
      if w.seal(out.id.n) then
        DeliverF(c, w, taken.(ledger := s.ledger + [DeliveredEntry(c, s, out, d, root, via)]),
                 src, out.(receipt := Some(|s.ledger|)), d, via)
      else if c.pol.refuseOnSealFailure then EmitErrorF(taken, src.id, via)
      else DeliverF(c, w, taken, src, out, d, via)
  }

  /** What is persisted of a delivery: a realtime payload is described, not kept. */
  function Loggable(c: Config, out: Envelope, qos: string): Envelope {
    if qos != QOS_REALTIME || c.bytes(out.payload) == 0 then out else out.(payload := Elided)
  }

  predicate Dropped(w: World, out: Envelope)
    requires out.id.Minted?
  {
    out.kind == Data && Expired(out.deadline, w.late(out.id.n))
  }

  function DeliverF(c: Config, w: World, s: State, src: Envelope, out: Envelope, d: Dest, via: Id): State
    requires out.id.Minted?
  {
    if Dropped(w, out) then s.(log := s.log + [out.(payload := Elided)])
    else
      var s1 := s.(log := s.log + [Loggable(c, out, d.qos)], sent := s.sent + [Send(out, d, via, |s.log|)]);
      if w.send(out.id.n) then s1 else EmitErrorF(s1, src.id, via)
  }

  // ---- Gates ----

  function RequestEnvelope(id: Id, env: Envelope, d: Dest): Envelope {
    KernelEnvelope(id, env.id, CLIENT, "confirm_in", ConfirmRequest, "std/confirmation@1",
                   Question(env.id, d.ref, d.port))
  }

  function HoldF(s: State, env: Envelope, d: Dest): State {
    var req := RequestEnvelope(Minted(s.mint), env, d);
    s.(mint := s.mint + 1,
       pending := s.pending[req.id := Held(env, d)],
       log := s.log + [req],
       sent := s.sent + [Send(req, ClientDest("confirm_in"), NoId, |s.log|)],
       gates := s.gates + [Opened(req.id, Held(env, d))])
  }

  datatype Verdict = Approves(approval: Option<Approval>) | Denies(approval: Option<Approval>) | Rejected

  /** What a gate answer actually authorizes. */
  function AuthorizeGate(c: Config, roster: Option<Roster>, held: Held, answer: Payload): Verdict {
    var (approve, signature) := DecodeAnswer(answer);
    match signature
    case None =>
      if SignedRequired(c.pol) then Rejected
      else if approve then Approves(None) else Denies(None)
    case Some(a) =>
      if roster.None? || !Check(roster.value, a, held.env.id, c.signed) then Rejected
      else if !CoversAll(a, c.pol.requireContext) then Rejected
      else if (a.decision == APPROVE) != approve then Rejected
      else if approve then Approves(Some(a)) else Denies(Some(a))
  }

  function SealDenialF(c: Config, w: World, s: State, held: Held, approval: Option<Approval>, via: Id): State {
    if !c.hasLedger || held.to.skill.None? || !w.seal(s.mint) then s
    else
      var skill := held.to.skill.value;
      s.(ledger := s.ledger + [
           Entry(held.env.id, held.env.cause, skill, Gate, false, held.env.payload, false, c.undoOf,
                 AttestedF(s.attests, RootOf(s, held.env)).hashes, approval, via)])
  }

  function DenyF(c: Config, w: World, s: State, req: Id, held: Held, answer: Envelope, approval: Option<Approval>): State {
    EmitErrorF(SealDenialF(c, w, s.(gates := s.gates + [Refused(req, held, answer)]), held, approval, req),
               answer.id, req)
  }

  function ReleaseF(c: Config, w: World, s: State, req: Id, held: Held, answer: Envelope, approval: Option<Approval>): State {
    var parked := if approval.Some? then s.(approved := s.approved[held.env.id := approval.value]) else s;
    ForwardF(c, w, parked.(gates := s.gates + [Released(req, held, answer, approval, w.roster)]),
             held.env, held.to, req)
  }

  function ResolveGateF(c: Config, w: World, s: State, answer: Envelope): State {
    if answer.cause !in s.pending then s
    else
      var held := s.pending[answer.cause];
      var s1 := s.(pending := s.pending - {answer.cause}, log := s.log + [answer]);
      match AuthorizeGate(c, w.roster, held, answer.payload)
      case Rejected => DenyF(c, w, s1, answer.cause, held, answer, None)
      case Denies(a) => DenyF(c, w, s1, answer.cause, held, answer, a)
      case Approves(a) => ReleaseF(c, w, s1, answer.cause, held, answer, a)
  }

  // ---- Speculation on one edge ----

  function AbandonF(s: State, id: Id, d: Dest): State {
    var s1 := s.(cancelled := CancelF(s.cancelled, id));
    if d.skill.None? then s1
    else
      var e := KernelEnvelope(Minted(s.mint), id, d.ref, d.port, Cancel, "", Notice("superseded"));
      s1.(mint := s.mint + 1, log := s.log + [e], sent := s.sent + [Send(e, d, NoId, |s.log|)])
  }

  function AbandonAllF(s: State, ids: seq<Id>, d: Dest): State {
    if ids == [] then s else AbandonF(AbandonAllF(s, ids[..|ids| - 1], d), ids[|ids| - 1], d)
  }

  function ForwardSpeculativelyF(c: Config, w: World, s: State, env: Envelope, d: Dest, root: Id): State {
    if env.kind != Data || root == NoId then ForwardF(c, w, s, env, d, NoId)
    else
      var key := SpecKey(root, d.from);
      var folded := FoldF(s.spec, key, env.schema, env.payload);
      var running := RunningF(folded, key);
      if !IsFinal(env.payload) then
        var guessed := ForwardF(c, w, s.(spec := folded), env.(payload := MarkFinal(running)), d, NoId);
        guessed.(spec := SpeculateF(guessed.spec, key, env.id))
      else
        var resolved := s.(spec := ResolveF(folded, key, running));
        if GuessStands(folded, key, running) then resolved
        else ForwardF(c, w, AbandonAllF(resolved, StaleF(folded, key, running), d),
                      env.(payload := running), d, NoId)
  }

  // ---- Routing ----

  function ToDestF(c: Config, w: World, s: State, env: Envelope, d: Dest, root: Id): State {
    if d.speculative then ForwardSpeculativelyF(c, w, s, env, d, root)
    else if d.gate == HumanApproval then HoldF(s, env, d)
    else ForwardF(c, w, s, env, d, NoId)
  }

  function ToDestsF(c: Config, w: World, s: State, env: Envelope, dests: seq<Dest>, root: Id): State {
    if dests == [] then s
    else ToDestF(c, w, ToDestsF(c, w, s, env, dests[..|dests| - 1], root), env, dests[|dests| - 1], root)
  }

  function CancelTarget(s: State, named: Id): Id {
    var root := RootF(s.causal, named);
    if root != NoId then root else named
  }

  function HandleCancelF(s: State, env: Envelope): State {
    var root := CancelTarget(s, env.cause);
    if root == NoId then s else AbandonChainF(s, root)
  }

  /** `k` ids drawn from the `n`-th on. */
  function Drawn(n: nat, k: nat): set<Id> {
    set i | n <= i < n + k :: Minted(i)
  }

  /** Mark a chain cancelled, and ask everyone working on it to stop. */
  function AbandonChainF(s: State, root: Id): State {
    var hops := Get(s.inFlight, root, map[]);
    s.(cancelled := CancelF(s.cancelled, root),
       inFlight := Remove(s.inFlight, root),
       mint := s.mint + |hops|,
       cancelsSent := s.cancelsSent + multiset(hops.Values),
       cancelIds := s.cancelIds + Drawn(s.mint, |hops|),
       cuts := s.cuts[root := |s.log|])
  }

  predicate Duplicate(s: State, env: Envelope) {
    env.kind == Data && env.idem != "" && env.idem in s.dedup.m
  }

  function RouteF(c: Config, w: World, s: State, env: Envelope): State {
    var logged := s.(log := s.log + [env]);
    if env.kind == Cancel then HandleCancelF(logged, env)
    else if Duplicate(s, env) then logged
    else
      var seen := if env.kind == Data then logged.(dedup := SeenF(s.dedup, env.idem)) else logged;
      if env.kind == ConfirmResponse then ResolveGateF(c, w, seen, env)
      else PropagateF(c, w, seen, env)
  }

  function PropagateF(c: Config, w: World, s: State, env: Envelope): State {
    var root := RootOf(s, env);
    if CancelledF(s.cancelled, root) then s
    else
      var noted := s.(attests := if env.attest == "" then s.attests
                                 else AttestF(s.attests, MAX_ATTEST_PER_ROOT, root, w.attest(env.attest)));
      ToDestsF(c, w, noted, env, DestsAt(c.routes, Source(env)), root)
  }

  // ---- Restart: a new session rebuilt from the log ----

  /** The store hands back at most this many events, oldest first, when asked
      without a limit of the caller's own. */
  const RESUME_LIMIT := 1000

  datatype Replayed = Replayed(
    byId: map<Id, Envelope>,
    candidates: map<Id, Envelope>,
    maxSeq: map<Endpoint, nat>,
    dedup: Fifo<string, ()>,
    causal: Fifo<Id, Id>,
    inFlight: Fifo<Id, map<Endpoint, Hop>>,
    cancelled: Fifo<Id, ()>)

  predicate LeadsTo(dests: seq<Dest>, ep: Endpoint) {
    exists i :: 0 <= i < |dests| && Endpoint(dests[i].ref, dests[i].port) == ep
  }

  predicate IsDest(c: Config, ep: Endpoint) {
    exists from :: from in c.routes && LeadsTo(c.routes[from], ep)
  }

  /** One log entry's effect on the bookkeeping being rebuilt. */
  function ReplayStep(c: Config, r: Replayed, env: Envelope): Replayed {
    var root := RootIn(r.causal, env);
    var causal := SetRootF(r.causal, env.id, root);
    var at := Source(env);
    var named := RootF(causal, env.cause);
    Replayed(
      r.byId[env.id := env],
      if env.kind == ConfirmRequest then r.candidates[env.id := env]
      else if env.kind == ConfirmResponse then r.candidates - {env.cause}
      else r.candidates,
      if IsDest(c, at) && env.seqNo > (if at in r.maxSeq then r.maxSeq[at] else 0) then r.maxSeq[at := env.seqNo]
      else r.maxSeq,
      if env.kind == Data then SeenF(r.dedup, env.idem) else r.dedup,
      causal,
      if IsDest(c, at) && env.kind == Data then RecordF(r.inFlight, root, Hop(at, env.cause)) else r.inFlight,
      if env.kind == Cancel then CancelF(r.cancelled, if named != NoId then named else env.cause) else r.cancelled)
  }

  function Replay(c: Config, log: seq<Envelope>): Replayed {
    if log == [] then
      Replayed(map[], map[], map[], Empty(MAX_DEDUP), Empty(MAX_CAUSAL_ROOTS),
               Empty(MAX_IN_FLIGHT_ROOTS), Empty(MAX_CANCELLED))
    else ReplayStep(c, Replay(c, log[..|log| - 1]), log[|log| - 1])
  }

  /** The first gated destination of a source with the named ref and port. */
  function GateFor(dests: seq<Dest>, ref: string, port: string): Option<Dest> {
    if dests == [] then None
    else if dests[0].ref == ref && dests[0].port == port && dests[0].gate == HumanApproval then Some(dests[0])
    else GateFor(dests[1..], ref, port)
  }

  function HeldFor(c: Config, r: Replayed, req: Envelope): Option<Held> {
    if req.cause !in r.byId then None
    else
      var held := r.byId[req.cause];
      var (ref, port) := match req.payload case Question(_, ref, port) => (ref, port) case _ => ("", "");
      match GateFor(DestsAt(c.routes, Source(held)), ref, port)
      case Some(d) => Some(Held(held, d))
      case None => None
  }

  function PendingFrom(c: Config, r: Replayed): map<Id, Held> {
    map id | id in r.candidates && HeldFor(c, r, r.candidates[id]).Some? :: HeldFor(c, r, r.candidates[id]).value
  }

  function Readable(log: seq<Envelope>): seq<Envelope> {
    if |log| <= RESUME_LIMIT then log else log[..RESUME_LIMIT]
  }

  /** A crash loses everything volatile; NewSession starts empty and replays. */
  function ResumeF(c: Config, s: State): State {
    var r := Replay(c, Readable(s.log));
    Start().(log := s.log, ledger := s.ledger, mint := s.mint,
             sent := s.sent, cancelsSent := s.cancelsSent, cancelIds := s.cancelIds, cuts := s.cuts, gates := s.gates,
             seqNo := r.maxSeq, dedup := r.dedup, causal := r.causal, inFlight := r.inFlight,
             cancelled := r.cancelled, pending := PendingFrom(c, r))
  }

  // ---- Runs ----

  datatype Input = Arrive(env: Envelope, w: World) | Crash

  function Step(c: Config, s: State, i: Input): State {
    match i
    case Arrive(env, w) => RouteF(c, w, s, env)
    case Crash => ResumeF(c, s)
  }

  function Run(c: Config, inputs: seq<Input>): State {
    if inputs == [] then Start() else Step(c, Run(c, inputs[..|inputs| - 1]), inputs[|inputs| - 1])
  }
}
