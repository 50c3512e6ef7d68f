// The session's bounded in-memory indexes (dedup window, causal index, in-flight
// index, attestation index, cancelled set), each a map or set plus an order list
// edited in place, proved against BoundedFifo.

module Indexes {
  import opened Options
  import opened Envelopes
  import opened BoundedFifo

  const MAX_DEDUP := 4096
  const MAX_CAUSAL_ROOTS := 8192
  const MAX_IN_FLIGHT_ROOTS := 1024
  const MAX_CANCELLED := 1024
  const MAX_ATTEST_ROOTS := 1024
  const MAX_ATTEST_PER_ROOT := 16

  /** Where work of a chain went, and the id a cancel sent there has to cite. */
  datatype Hop = Hop(to: Endpoint, cause: Id)

  /** The attestations bound to one chain: the first few distinct hashes, and
      whether any was dropped at the cap. */
  datatype Attested = Attested(hashes: seq<string>, truncated: bool)

  /** The attestation index: hashes per root, and the roots that dropped one. */
  datatype Attests = Attests(byRoot: Fifo<Id, seq<string>>, truncated: set<Id>)

  // ---- Abstract operations ----

  /** The window once `key` has been seen: unchanged if it is there or empty. */
  function SeenF(f: Fifo<string, ()>, key: string): Fifo<string, ()> {
    if key == "" || key in f.m then f else Put(f, key, ())
  }

  function SetRootF(f: Fifo<Id, Id>, id: Id, root: Id): Fifo<Id, Id> {
    if id == NoId || root == NoId then f else Put(f, id, root)
  }

  function RootF(f: Fifo<Id, Id>, id: Id): Id {
    if id == NoId then NoId else Get(f, id, NoId)
  }

  function RecordF(f: Fifo<Id, map<Endpoint, Hop>>, root: Id, h: Hop): Fifo<Id, map<Endpoint, Hop>> {
    if root == NoId || h.to.node == CLIENT then f
    else Put(f, root, Get(f, root, map[])[h.to := h])
  }

  function CancelF(f: Fifo<Id, ()>, root: Id): Fifo<Id, ()> {
    if root == NoId || root in f.m then f else Put(f, root, ())
  }

  predicate CancelledF(f: Fifo<Id, ()>, root: Id) {
    root != NoId && root in f.m
  }

  function AttestF(a: Attests, cap: nat, root: Id, hash: string): Attests {
    if root == NoId || hash == "" then a
    else
      var now := AddHash(AttestedF(a, root), cap, hash);
      var byRoot := Put(a.byRoot, root, now.hashes);
      Attests(byRoot, if now.truncated then (a.truncated + {root}) * byRoot.m.Keys
                      else a.truncated * byRoot.m.Keys)
  }

  function AttestedF(a: Attests, root: Id): Attested {
    if root == NoId then Attested([], false)
    else Attested(Get(a.byRoot, root, []), root in a.truncated)
  }

  function AddHash(a: Attested, cap: nat, hash: string): Attested {
    if hash in a.hashes then a
    else if |a.hashes| >= cap then a.(truncated := true)
    else a.(hashes := a.hashes + [hash])
  }

  /** The distinct strings of `s` in order of first appearance. */
  function Distinct(s: seq<string>): seq<string> {
    if s == [] then []
    else
      var before := Distinct(s[..|s| - 1]);
      if s[|s| - 1] in before then before else before + [s[|s| - 1]]
  }

  function AddAll(a: Attested, cap: nat, added: seq<string>): Attested {
    if added == [] then a else AddHash(AddAll(a, cap, added[..|added| - 1]), cap, added[|added| - 1])
  }

  /** While its root is tracked, a chain cites all distinct hashes added to it, or
      the first `cap` of them, and says so exactly when one was dropped. */
  lemma {:induction false} AttestationsComplete(cap: nat, added: seq<string>)
    requires cap >= 1
    ensures var a := AddAll(Attested([], false), cap, added);
            && a.hashes == (if |Distinct(added)| <= cap then Distinct(added) else Distinct(added)[..cap])
            && (a.truncated <==> |Distinct(added)| > cap)
  {
    if added != [] {
      AttestationsComplete(cap, added[..|added| - 1]);
    }
  }

  /** One more hash for a chain changes what that chain cites as `AddHash` says,
      whether or not the chain was tracked before. */
  lemma AttestStep(a: Attests, cap: nat, root: Id, hash: string)
    requires Valid(a.byRoot) && a.truncated <= a.byRoot.m.Keys && cap >= 1
    requires root != NoId && hash != ""
    ensures AttestedF(AttestF(a, cap, root, hash), root) == AddHash(AttestedF(a, root), cap, hash)
    ensures Valid(AttestF(a, cap, root, hash).byRoot)
    ensures AttestF(a, cap, root, hash).truncated <= AttestF(a, cap, root, hash).byRoot.m.Keys
    ensures forall r :: r != root && r in AttestF(a, cap, root, hash).byRoot.m ==>
                          AttestedF(AttestF(a, cap, root, hash), r) == AttestedF(a, r)
  {
    PutValid(a.byRoot, root, AddHash(AttestedF(a, root), cap, hash).hashes);
  }

  // ---- The classes ----

  /** channel.Dedup: the bounded at-least-once window. */
  class Dedup {
    var seen: set<string>
    var order: seq<string>
    const max: nat

    ghost function Value(): Fifo<string, ()>
      reads this
    {
      Fifo(map k | k in seen :: (), order, max)
    }

    constructor (max: nat)
      requires max >= 1
      ensures Value() == Empty(max)
    {
      this.max := max;
      seen, order := {}, [];
    }

    method Seen(key: string) returns (already: bool)
      requires Valid(Value())
      modifies this
      ensures Value() == SeenF(old(Value()), key) && Valid(Value())
      ensures already == (key != "" && key in old(Value()).m)
    {
      if key == "" {
        return false;
      }
      if key in seen {
        return true;
      }
      PutValid(Value(), key, ());
      ghost var before := order;
      seen := seen + {key};
      order := order + [key];
      if |order| > max {
        var oldest := order[0];
        assert oldest == before[0];
        order := order[1..];
        seen := seen - {oldest};
      }
      already := false;
    }
  }

  /** causalIndex: under each id, the client message its chain began with. */
  class CausalIndex {
    var root: map<Id, Id>
    var order: seq<Id>
    const max: nat

    ghost function Value(): Fifo<Id, Id>
      reads this
    {
      Fifo(root, order, max)
    }

    constructor (max: nat)
      requires max >= 1
      ensures Value() == Empty(max)
    {
      this.max := max;
      root, order := map[], [];
    }

    method Set(id: Id, r: Id)
      requires Valid(Value())
      modifies this
      ensures Value() == SetRootF(old(Value()), id, r) && Valid(Value())
    {
      if id == NoId || r == NoId {
        return;
      }
      PutValid(Value(), id, r);
      if id !in root {
        order := order + [id];
        if |order| > max {
          var oldest := order[0];
          order := order[1..];
          root := root - {oldest};
        }
      }
      root := root[id := r];
    }

    /** The root recorded for an id, or NoId. */
    method Lookup(id: Id) returns (r: Id)
      ensures r == RootF(Value(), id)
    {
      if id == NoId {
        return NoId;
      }
      r := if id in root then root[id] else NoId;
    }
  }

  /** Where a listed key first stands in an order list. */
  method Position(order: seq<Id>, k: Id) returns (i: nat)
    requires k in order
    ensures i < |order| && order[i] == k && k !in order[..i]
  {
    i := 0;
    while order[i] != k
      invariant i < |order| && k !in order[..i] && k in order[i..]
      decreases |order| - i
    {
      i := i + 1;
    }
  }

  /** inFlightIndex: root to the latest delivery per destination. */
  class InFlightIndex {
    var byRoot: map<Id, map<Endpoint, Hop>>
    var order: seq<Id>
    const max: nat

    ghost function Value(): Fifo<Id, map<Endpoint, Hop>>
      reads this
    {
      Fifo(byRoot, order, max)
    }

    constructor (max: nat)
      requires max >= 1
      ensures Value() == Empty(max)
    {
      this.max := max;
      byRoot, order := map[], [];
    }

    method Record(root: Id, h: Hop)
      requires Valid(Value())
      modifies this
      ensures Value() == RecordF(old(Value()), root, h) && Valid(Value())
    {
      if root == NoId || h.to.node == CLIENT {
        return;
      }
      var dests := if root in byRoot then byRoot[root] else map[];
      PutValid(Value(), root, dests[h.to := h]);
      if root !in byRoot {
        order := order + [root];
        if |order| > max {
          var oldest := order[0];
          order := order[1..];
          byRoot := byRoot - {oldest};
        }
      }
      byRoot := byRoot[root := dests[h.to := h]];
    }

    /** The hops of one chain, which is then tracked no longer. */
    method Take(root: Id) returns (hops: map<Endpoint, Hop>)
      requires Valid(Value())
      modifies this
      ensures hops == Get(old(Value()), root, map[])
      ensures Value() == Remove(old(Value()), root) && Valid(Value())
    {
      if root !in byRoot {
        return map[];
      }
      hops := byRoot[root];
      RemoveValid(Value(), root);
      var i := Position(order, root);
      WithoutAt(order, root, i);
      order := order[..i] + order[i + 1..];
      byRoot := byRoot - {root};
    }
  }

  /** cancelledSet: the bounded set of abandoned roots. */
  class CancelledSet {
    var seen: set<Id>
    var order: seq<Id>
    const max: nat

    ghost function Value(): Fifo<Id, ()>
      reads this
    {
      Fifo(map k | k in seen :: (), order, max)
    }

    constructor (max: nat)
      requires max >= 1
      ensures Value() == Empty(max)
    {
      this.max := max;
      seen, order := {}, [];
    }

    method Add(root: Id)
      requires Valid(Value())
      modifies this
      ensures Value() == CancelF(old(Value()), root) && Valid(Value())
    {
      if root == NoId || root in seen {
        return;
      }
      PutValid(Value(), root, ());
      ghost var before := order;
      seen := seen + {root};
      order := order + [root];
      if |order| > max {
        var oldest := order[0];
        assert oldest == before[0];
        order := order[1..];
        seen := seen - {oldest};
      }
    }

    method Has(root: Id) returns (b: bool)
      ensures b == CancelledF(Value(), root)
    {
      b := root != NoId && root in seen;
    }
  }

  /** attestIndex: root to the C5 attestations produced anywhere in its chain. */
  class AttestIndex {
    var byRoot: map<Id, seq<string>>
    var truncated: set<Id>
    var order: seq<Id>
    const max: nat
    const maxPerRoot: nat

    ghost function Value(): Attests
      reads this
    {
      Attests(Fifo(byRoot, order, max), truncated)
    }

    /** `truncated` is only ever set for a tracked root. */
    ghost predicate Sound()
      reads this
    {
      Valid(Value().byRoot) && truncated <= byRoot.Keys && maxPerRoot >= 1
    }

    constructor (max: nat, maxPerRoot: nat)
      requires max >= 1 && maxPerRoot >= 1
      ensures Value() == Attests(Empty(max), {}) && Sound() && this.maxPerRoot == maxPerRoot
    {
      this.max, this.maxPerRoot := max, maxPerRoot;
      byRoot, truncated, order := map[], {}, [];
    }

    method Add(root: Id, hash: string)
      requires Sound()
      modifies this
      ensures Value() == AttestF(old(Value()), maxPerRoot, root, hash) && Sound()
    {
      if root == NoId || hash == "" {
        return;
      }
      ghost var v := Value();
      ghost var now := AddHash(AttestedF(v, root), maxPerRoot, hash);
      var existing := if root in byRoot then byRoot[root] else [];
      PutValid(v.byRoot, root, existing);
      PutValid(v.byRoot, root, now.hashes);
      PutAgain(v.byRoot, root, existing, now.hashes);
      if root !in byRoot {
        Track(root);
      }
      hide Put;
      assert Value().byRoot == Put(v.byRoot, root, existing);
      if hash in existing {
        return;
      }
      if |existing| >= maxPerRoot {
        truncated := truncated + {root};
        return;
      }
      byRoot := byRoot[root := existing + [hash]];
    }

    /** Starts tracking a root, dropping the oldest when the index is full. */
    method Track(root: Id)
      requires Sound() && root !in byRoot
      modifies this
      ensures Sound() && Value().byRoot == Put(old(Value().byRoot), root, [])
      ensures truncated == old(truncated) * byRoot.Keys
    {
      PutValid(Value().byRoot, root, []);
      order := order + [root];
      if |order| > max {
        var oldest := order[0];
        order := order[1..];
        byRoot := byRoot - {oldest};
        truncated := truncated - {oldest};
      }
      byRoot := byRoot[root := []];
    }

    method Cited(root: Id) returns (a: Attested)
      requires Sound()
      ensures a == AttestedF(Value(), root)
    {
      if root == NoId {
        return Attested([], false);
      }
      var src := if root in byRoot then byRoot[root] else [];
      a := Attested(src, root in truncated);
    }
  }
}
