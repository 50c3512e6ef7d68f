// Wiring a session: every edge becomes a destination carrying whatever gate the
// node decided on.

module Wiring {
  import opened Options
  import opened Envelopes
  import opened Policies
  import opened Graphs

  /** A wired destination of an edge. */
  datatype Dest = Dest(
    ref: string,
    port: string,
    gate: EdgeGate,
    skill: Option<Skill>,
    waived: bool,
    qos: string,
    speculative: bool,
    deadlineMS: int,
    priority: int,
    from: Endpoint)

  const QOS_RELIABLE := "reliable"
  const QOS_REALTIME := "realtime"

  datatype WireError = SpeculativeMotor | OmittedGate | DeniedByPolicy

  function GateOf(gate: string): EdgeGate {
    if gate == GATE_HUMAN then HumanApproval else if gate == GATE_NONE then Waived else Ungated
  }

  /** The node's safety invariant, applied to one edge. */
  function ApplyPolicy(d: Dest, pol: Policy, published: bool): Result<Dest, WireError> {
    if d.skill.None? then Ok(d)
    else if d.speculative && IsMotor(d.skill.value) then Err(SpeculativeMotor)
    else
      var speculative := d.speculative && pol.allowSpeculation;
      if published && d.gate == Ungated && IsMotor(d.skill.value) then Err(OmittedGate)
      else
        var asked := if published && d.gate == Waived then Ungated else d.gate;
        match Authorize(pol, d.skill.value.capability, asked)
        case Err(_) => Err(DeniedByPolicy)
        case Ok(auth) => Ok(d.(speculative := speculative, gate := auth.gate, waived := auth.waived))
  }

  predicate Splittable(edges: seq<Edge>) {
    forall e :: e in edges ==> '.' in e.from && '.' in e.to
  }

  /** The destination an edge asks for, before policy. */
  function Asked(e: Edge, resolved: map<string, Skill>): Dest
    requires '.' in e.from && '.' in e.to
  {
    var to := SplitEndpoint(e.to);
    Dest(to.node, to.port, GateOf(e.gate),
         if to.node != CLIENT && to.node in resolved then Some(resolved[to.node]) else None,
         false, if e.qos == "" then QOS_RELIABLE else e.qos, e.speculative, e.deadlineMS, e.priority,
         SplitEndpoint(e.from))
  }

  type Routes = map<Endpoint, seq<Dest>>

  function DestsAt(routes: Routes, from: Endpoint): seq<Dest> {
    if from in routes then routes[from] else []
  }

  function AddDest(routes: Routes, d: Dest): Routes {
    routes[d.from := DestsAt(routes, d.from) + [d]]
  }

  function Wire(edges: seq<Edge>, resolved: map<string, Skill>, pol: Policy, published: bool)
    : Result<Routes, WireError>
    requires Splittable(edges)
  {
    if edges == [] then Ok(map[])
    else
      var last := |edges| - 1;
      match Wire(edges[..last], resolved, pol, published)
      case Err(e) => Err(e)
      case Ok(routes) =>
        match ApplyPolicy(Asked(edges[last], resolved), pol, published)
        case Err(e) => Err(e)
        case Ok(d) => Ok(AddDest(routes, d))
  }

  /** NewSession's wiring loop. */
  method WireSession(edges: seq<Edge>, resolved: map<string, Skill>, pol: Policy, published: bool)
    returns (r: Result<Routes, WireError>)
    requires Splittable(edges)
    ensures r == Wire(edges, resolved, pol, published)
  {
    var routes: Routes := map[];
    for i := 0 to |edges|
      invariant Wire(edges[..i], resolved, pol, published) == Ok(routes)
    {
      assert edges[..i + 1][..i] == edges[..i];
      var d := ApplyPolicy(Asked(edges[i], resolved), pol, published);
      if d.Err? {
        WireStops(edges, resolved, pol, published, i + 1);
        return Err(d.error);
      }
      routes := AddDest(routes, d.value);
    }
    assert edges[..|edges|] == edges;
    r := Ok(routes);
  }

  lemma {:induction false} WireStops(edges: seq<Edge>, resolved: map<string, Skill>, pol: Policy, published: bool, i: nat)
    requires Splittable(edges) && i <= |edges|
    requires Wire(edges[..i], resolved, pol, published).Err?
    ensures Wire(edges, resolved, pol, published) == Wire(edges[..i], resolved, pol, published)
    decreases |edges| - i
  {
    if i < |edges| {
      assert edges[..i + 1][..i] == edges[..i];
      WireStops(edges, resolved, pol, published, i + 1);
    } else {
      assert edges[..i] == edges;
    }
  }

  // ---- What a wired session is entitled to deliver without asking. ----

  /** The node's standing authority for an ungated edge: it allowed the effect
      itself and the graph did not ask for a gate, or it honours waivers, is not
      published, and this graph asked for one. */
  ghost predicate UngatedByRight(pol: Policy, published: bool, capability: string, asked: EdgeGate, waived: bool) {
    var decision := Decide(pol, capability).0;
    && asked != HumanApproval
    && (decision == Allow || (asked == Waived && pol.allowGraphWaiver && !published))
    && (waived <==> decision == Gate)
  }

  /** `d` is what policy made of some edge of the graph. */
  ghost predicate Authorized(edges: seq<Edge>, resolved: map<string, Skill>, pol: Policy, published: bool, d: Dest)
    requires Splittable(edges)
  {
    exists e :: e in edges && ApplyPolicy(Asked(e, resolved), pol, published) == Ok(d)
  }

  lemma {:induction false} WiredIsAuthorized(edges: seq<Edge>, resolved: map<string, Skill>, pol: Policy, published: bool,
                                             from: Endpoint, d: Dest)
    requires Splittable(edges) && Wire(edges, resolved, pol, published).Ok?
    requires d in DestsAt(Wire(edges, resolved, pol, published).value, from)
    ensures Authorized(edges, resolved, pol, published, d) && d.from == from
  {
    if edges != [] {
      var last := |edges| - 1;
      var before := Wire(edges[..last], resolved, pol, published).value;
      var e := edges[last];
      var added := ApplyPolicy(Asked(e, resolved), pol, published).value;
      if d in DestsAt(before, from) {
        WiredIsAuthorized(edges[..last], resolved, pol, published, from, d);
        var e' :| e' in edges[..last] && ApplyPolicy(Asked(e', resolved), pol, published) == Ok(d);
        assert e' in edges;
      } else {
        assert d == added;
        assert e in edges;
      }
    }
  }

  /** The wiring invariant of every destination that acts on the world: it never
      speculates, policy does not deny it, and it is either gated or ungated by
      the node's own right. */
  lemma MotorDestination(edges: seq<Edge>, resolved: map<string, Skill>, pol: Policy, published: bool, d: Dest)
    requires Splittable(edges) && Authorized(edges, resolved, pol, published, d)
    requires d.skill.Some? && IsMotor(d.skill.value)
    ensures !d.speculative
    ensures Decide(pol, d.skill.value.capability).0 != Deny
    ensures d.gate == HumanApproval || d.gate == Ungated
    ensures d.gate == HumanApproval ==> !d.waived
    ensures d.gate == Ungated ==>
              exists e :: e in edges && ApplyPolicy(Asked(e, resolved), pol, published) == Ok(d)
                          && UngatedByRight(pol, published, d.skill.value.capability, GateOf(e.gate), d.waived)
  {
    var e :| e in edges && ApplyPolicy(Asked(e, resolved), pol, published) == Ok(d);
    hide Asked, GateOf, Decide;
    AskedGate(e, resolved);
    MotorEdge(Asked(e, resolved), pol, published, d);
  }

  lemma AskedGate(e: Edge, resolved: map<string, Skill>)
    requires '.' in e.from && '.' in e.to
    ensures Asked(e, resolved).gate == GateOf(e.gate) && !Asked(e, resolved).waived
  {
  }

  lemma MotorEdge(asked: Dest, pol: Policy, published: bool, d: Dest)
    requires ApplyPolicy(asked, pol, published) == Ok(d) && d.skill.Some? && IsMotor(d.skill.value) && !asked.waived
    ensures !d.speculative
    ensures Decide(pol, d.skill.value.capability).0 != Deny
    ensures d.gate == HumanApproval || d.gate == Ungated
    ensures d.gate == HumanApproval ==> !d.waived
    ensures d.gate == Ungated ==> UngatedByRight(pol, published, d.skill.value.capability, asked.gate, d.waived)
  {
    hide Decide;
  }
}
