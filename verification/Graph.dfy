// Contract C2: the graph document, the checks it must pass, and the names its
// endpoints give to hops.

module Graphs {
  import opened Options
  import opened Strings
  import opened Envelopes

  const IR_MAJOR := "1"
  const GATE_HUMAN := "human-approval"
  const GATE_NONE := "none"

  datatype Node = Node(ref: string, resolve: string, use: string)

  datatype Edge = Edge(from: string, to: string, gate: string, qos: string,
                       speculative: bool, deadlineMS: int, priority: int)

  datatype Graph = Graph(ir: string, graphId: string, originKind: string,
                         nodes: seq<Node>, edges: seq<Edge>, contextBudget: int)

  datatype ParseError =
    | UnsupportedMajor
    | MissingGraphId
    | BadOrigin
    | EmptyGraph
    | InvalidRef(ref: string)
    | DuplicateRef(ref: string)
    | NothingToResolve(ref: string)
    | InvalidEndpoint(from: string, to: string)
    | UnknownNode(ref: string)
    | UnknownGate(gate: string)
    | NegativeDeadline(from: string, to: string)
    | SpeculativeGate(from: string, to: string)
    | NegativeBudget

  predicate RefChar(c: char) {
    PortChar(c) || c == '-'
  }

  predicate PortChar(c: char) {
    'a' <= c <= 'z' || '0' <= c <= '9' || c == '_'
  }

  /** ref "." port, both nonempty, over their own alphabets. */
  predicate IsEndpoint(s: string) {
    exists i :: 0 < i < |s| - 1 && s[i] == '.'
                && (forall j :: 0 <= j < i ==> RefChar(s[j]))
                && (forall j :: i < j < |s| ==> PortChar(s[j]))
  }

  /** Where the first separator stands, or the length of the string. */
  function FirstDot(s: string): (i: nat)
    ensures i <= |s| && '.' !in s[..i] && (i < |s| ==> s[i] == '.')
  {
    if s == [] || s[0] == '.' then 0
    else
      var i := FirstDot(s[1..]);
      assert s[..1 + i] == [s[0]] + s[1..][..i];
      1 + i
  }

  function SplitEndpoint(s: string): (e: Endpoint)
    requires '.' in s
    ensures s == e.node + "." + e.port && '.' !in e.node
  {
    var i := FirstDot(s);
    assert '.' in s[..i] + s[i..];
    Endpoint(s[..i], s[i + 1..])
  }

  ghost predicate NodeOk(g: Graph, i: nat)
    requires i < |g.nodes|
  {
    var n := g.nodes[i];
    && n.ref != "" && n.ref != CLIENT
    && (forall j :: 0 <= j < i ==> g.nodes[j].ref != n.ref)
    && (n.resolve != "" || n.use != "")
  }

  ghost predicate KnownRef(g: Graph, ref: string) {
    ref == CLIENT || exists n :: n in g.nodes && n.ref == ref
  }

  ghost predicate EdgeOk(g: Graph, e: Edge) {
    && IsEndpoint(e.from) && IsEndpoint(e.to)
    && KnownRef(g, e.from[..FirstDot(e.from)])
    && KnownRef(g, e.to[..FirstDot(e.to)])
    && (e.gate == "" || e.gate == GATE_HUMAN || e.gate == GATE_NONE)
    && e.deadlineMS >= 0
    && !(e.speculative && e.gate == GATE_HUMAN)
  }

  /** The whole of what a graph accepted by ParseGraph may be relied on for. */
  ghost predicate WellFormed(g: Graph) {
    && g.ir == IR_MAJOR && g.graphId != ""
    && (g.originKind == "declared" || g.originKind == "planner")
    && g.nodes != [] && g.edges != []
    && (forall i :: 0 <= i < |g.nodes| ==> NodeOk(g, i))
    && (forall e :: e in g.edges ==> EdgeOk(g, e))
    && g.contextBudget >= 0
  }

  method CheckEndpoint(s: string) returns (ok: bool)
    ensures ok <==> IsEndpoint(s)
  {
    if '.' !in s {
      return false;
    }
    var i := FirstDot(s);
    assert s == s[..i] + s[i..];
    OnlyDot(s);
    ok := 0 < i < |s| - 1 && (forall j :: 0 <= j < i ==> RefChar(s[j]))
          && (forall j :: i < j < |s| ==> PortChar(s[j]));
  }

  lemma DotIsNoRef()
    ensures !RefChar('.')
  {
  }

  /** No port character and no ref character is a dot, so an endpoint has one. */
  lemma OnlyDot(s: string)
    requires '.' in s
    ensures IsEndpoint(s) ==>
              var i := FirstDot(s);
              && 0 < i < |s| - 1
              && (forall j :: 0 <= j < i ==> RefChar(s[j]))
              && (forall j :: i < j < |s| ==> PortChar(s[j]))
  {
    if IsEndpoint(s) {
      var k :| 0 < k < |s| - 1 && s[k] == '.' && (forall j :: 0 <= j < k ==> RefChar(s[j]))
               && (forall j :: k < j < |s| ==> PortChar(s[j]));
      var i := FirstDot(s);
      DotIsNoRef();
      hide RefChar, PortChar, FirstDot;
      assert forall j :: 0 <= j < i ==> s[..i][j] == s[j];
      assert i == k;
    }
  }

  /** Validates the document, stopping at the first violation. */
  method ParseGraph(g: Graph) returns (err: Option<ParseError>)
    ensures err.None? <==> WellFormed(g)
  {
    if g.ir != IR_MAJOR { return Some(UnsupportedMajor); }
    if g.graphId == "" { return Some(MissingGraphId); }
    if g.originKind != "declared" && g.originKind != "planner" { return Some(BadOrigin); }
    if |g.nodes| == 0 || |g.edges| == 0 { return Some(EmptyGraph); }
    var refs := {CLIENT};
    for i := 0 to |g.nodes|
      invariant forall r :: r in refs <==> r == CLIENT || exists j :: 0 <= j < i && g.nodes[j].ref == r
      invariant forall j :: 0 <= j < i ==> NodeOk(g, j)
    {
      var n := g.nodes[i];
      if n.ref == "" || n.ref == CLIENT { assert !NodeOk(g, i); return Some(InvalidRef(n.ref)); }
      if n.ref in refs { assert !NodeOk(g, i); return Some(DuplicateRef(n.ref)); }
      if n.resolve == "" && n.use == "" { assert !NodeOk(g, i); return Some(NothingToResolve(n.ref)); }
      refs := refs + {n.ref};
    }
    assert forall r :: r in refs <==> KnownRef(g, r);
    for i := 0 to |g.edges|
      invariant forall j :: 0 <= j < i ==> EdgeOk(g, g.edges[j])
    {
      var e := g.edges[i];
      err := CheckEdge(g, e, refs);
      if err.Some? {
        assert e in g.edges;
        return;
      }
    }
    if g.contextBudget < 0 { return Some(NegativeBudget); }
    err := None;
  }

  method CheckEdge(ghost g: Graph, e: Edge, refs: set<string>) returns (err: Option<ParseError>)
    requires forall r :: r in refs <==> KnownRef(g, r)
    ensures err.None? <==> EdgeOk(g, e)
  {
    var fromOk := CheckEndpoint(e.from);
    var toOk := CheckEndpoint(e.to);
    if !fromOk || !toOk { return Some(InvalidEndpoint(e.from, e.to)); }
    var from, to := e.from[..FirstDot(e.from)], e.to[..FirstDot(e.to)];
    if from !in refs { return Some(UnknownNode(from)); }
    if to !in refs { return Some(UnknownNode(to)); }
    if e.gate != "" && e.gate != GATE_HUMAN && e.gate != GATE_NONE { return Some(UnknownGate(e.gate)); }
    if e.deadlineMS < 0 { return Some(NegativeDeadline(e.from, e.to)); }
    if e.speculative && e.gate == GATE_HUMAN { return Some(SpeculativeGate(e.from, e.to)); }
    err := None;
  }

  // ---- Names ----

  /** Joining with a dot identifies an accepted endpoint: no other (node, port) an
      envelope may carry looks the same, whatever characters it uses. */
  lemma EndpointKeyInjective(node: string, port: string, e: Endpoint)
    requires '.' !in e.node && '.' !in e.port
    ensures node + "." + port == e.node + "." + e.port <==> Endpoint(node, port) == e
  {
    var a, b := node + "." + port, e.node + "." + e.port;
    if a == b {
      assert a[|node|] == '.' && b[|e.node|] == '.';
      assert |node| == |e.node|;
      assert node == a[..|node|] == e.node;
      assert port == a[|node| + 1..] == e.port;
    }
  }

  /** The separators of an accepted endpoint: one dot, and no colon anywhere. */
  lemma AcceptedEndpoint(s: string)
    requires IsEndpoint(s)
    ensures '.' in s
    ensures '.' !in SplitEndpoint(s).port && '.' !in SplitEndpoint(s).node
    ensures ':' !in SplitEndpoint(s).node && ':' !in SplitEndpoint(s).port
  {
    OnlyDot(s);
    assert !RefChar(':') && !PortChar(':') && !PortChar('.');
  }

  /** The idempotency key of one hop: the source's key extended with the hop's name. */
  function HopKey(idem: string, e: Endpoint): string {
    idem + ":" + e.node + ":" + e.port
  }

  function PathKey(idem: string, path: seq<Endpoint>): string {
    if path == [] then idem else HopKey(PathKey(idem, path[..|path| - 1]), path[|path| - 1])
  }

  ghost predicate ColonFree(path: seq<Endpoint>) {
    forall e :: e in path ==> ':' !in e.node && ':' !in e.port
  }

  lemma TailInjective(a: string, x: string, b: string, y: string)
    requires ':' !in x && ':' !in y && a + ":" + x == b + ":" + y
    ensures a == b && x == y
  {
    var s, t := a + ":" + x, b + ":" + y;
    assert s[|a|] == ':' && t[|b|] == ':';
    assert |a| == |b|;
    assert a == s[..|a|] == b;
    assert x == s[|a| + 1..] == y;
  }

  /** Hop keys are deterministic and collision-free: after equally many hops two
      deliveries share a key exactly when they share the origin key and every hop. */
  lemma {:induction false} PathKeyInjective(a: string, p: seq<Endpoint>, b: string, q: seq<Endpoint>)
    requires |p| == |q| && ColonFree(p) && ColonFree(q)
    ensures PathKey(a, p) == PathKey(b, q) <==> a == b && p == q
  {
    if p != [] && PathKey(a, p) == PathKey(b, q) {
      var p', e, q', f := p[..|p| - 1], p[|p| - 1], q[..|q| - 1], q[|q| - 1];
      assert e in p && f in q;
      TailInjective(PathKey(a, p') + ":" + e.node, e.port, PathKey(b, q') + ":" + f.node, f.port);
      TailInjective(PathKey(a, p'), e.node, PathKey(b, q'), f.node);
      PathKeyInjective(a, p', b, q');
      assert p == p' + [e] && q == q' + [f];
    }
  }

  /** The equal-length hypothesis is needed: an origin key is free text, so a
      client can choose one that looks like another delivery's hop. */
  lemma UnequalLengthsCollide(e: Endpoint, idem: string)
    ensures PathKey(idem, [e]) == PathKey(HopKey(idem, e), [])
  {
    assert [e][..0] == [];
  }
}
