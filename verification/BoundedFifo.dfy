// The bounded, oldest-first-evicting map every session index is an instance of.

module BoundedFifo {
  datatype Fifo<K(==), V> = Fifo(m: map<K, V>, order: seq<K>, max: nat)

  ghost predicate NoDup<K>(s: seq<K>) {
    forall i, j :: 0 <= i < j < |s| ==> s[i] != s[j]
  }

  /** The order list is duplicate-free, lists exactly the keys, and fits the bound. */
  ghost predicate Valid<K(!new), V>(f: Fifo<K, V>) {
    && f.max >= 1
    && NoDup(f.order)
    && (forall k :: k in f.order <==> k in f.m)
    && |f.order| <= f.max
  }

  function Empty<K(==), V>(max: nat): Fifo<K, V> {
    Fifo(map[], [], max)
  }

  function Put<K(==), V>(f: Fifo<K, V>, k: K, v: V): Fifo<K, V> {
    if k in f.m then f.(m := f.m[k := v])
    else
      var order := f.order + [k];
      if |order| > f.max then Fifo((f.m - {order[0]})[k := v], order[1..], f.max)
      else Fifo(f.m[k := v], order, f.max)
  }

  function Without<K(==)>(s: seq<K>, k: K): seq<K> {
    if s == [] then []
    else if s[0] == k then s[1..]
    else [s[0]] + Without(s[1..], k)
  }

  function Remove<K(==), V>(f: Fifo<K, V>, k: K): Fifo<K, V> {
    if k in f.m then Fifo(f.m - {k}, Without(f.order, k), f.max) else f
  }

  function Get<K(==), V>(f: Fifo<K, V>, k: K, default: V): V {
    if k in f.m then f.m[k] else default
  }

  lemma WithoutIsRemoval<K(!new)>(s: seq<K>, k: K)
    requires NoDup(s)
    ensures NoDup(Without(s, k))
    ensures forall x :: x in Without(s, k) <==> x in s && x != k
    ensures |Without(s, k)| == if k in s then |s| - 1 else |s|
  {
    if s != [] && s[0] != k {
      WithoutIsRemoval(s[1..], k);
      assert s[0] !in Without(s[1..], k);
      forall x ensures x in Without(s, k) <==> x in s && x != k {
        assert x in s <==> x == s[0] || x in s[1..];
      }
    }
  }

  lemma {:induction false} WithoutAt<K>(s: seq<K>, k: K, i: nat)
    requires i < |s| && s[i] == k && k !in s[..i]
    ensures Without(s, k) == s[..i] + s[i + 1..]
  {
    if i > 0 {
      assert s[0] in s[..i];
      assert s[1..][..i - 1] == s[..i][1..];
      WithoutAt(s[1..], k, i - 1);
      assert s[..i] == [s[0]] + s[1..][..i - 1];
      assert s[1..][i..] == s[i + 1..];
    }
  }

  lemma PutValid<K(!new), V>(f: Fifo<K, V>, k: K, v: V)
    requires Valid(f)
    ensures Valid(Put(f, k, v))
    ensures k in Put(f, k, v).m && Put(f, k, v).m[k] == v
    ensures Put(f, k, v).max == f.max
    ensures |f.order| <= |Put(f, k, v).order| <= |f.order| + 1
    ensures |f.order| < f.max || k in f.m ==> Put(f, k, v).m == f.m[k := v]
    ensures Put(f, k, v).m.Keys <= f.m.Keys + {k}
    ensures forall x :: x in Put(f, k, v).m && x != k ==> x in f.m && Put(f, k, v).m[x] == f.m[x]
  {
    var g := Put(f, k, v);
    if k !in f.m {
      var order := f.order + [k];
      assert NoDup(order);
      forall x ensures x in g.order <==> x in g.m {
        assert x in order <==> x in f.m || x == k;
        assert order == [order[0]] + order[1..];
        assert x in order <==> x == order[0] || x in order[1..];
        assert order[0] !in order[1..];
      }
    }
  }

  lemma PutAgain<K, V>(f: Fifo<K, V>, k: K, v: V, w: V)
    requires f.max >= 1
    ensures Put(f, k, w) == Put(f, k, v).(m := Put(f, k, v).m[k := w])
  {
    assert f.m[k := v][k := w] == f.m[k := w];
    var oldest := (f.order + [k])[0];
    assert (f.m - {oldest})[k := v][k := w] == (f.m - {oldest})[k := w];
  }

  lemma RemoveValid<K(!new), V>(f: Fifo<K, V>, k: K)
    requires Valid(f)
    ensures Valid(Remove(f, k))
    ensures Remove(f, k).m == f.m - {k}
    ensures Remove(f, k).max == f.max
    ensures |Remove(f, k).order| <= |f.order|
  {
    WithoutIsRemoval(f.order, k);
  }

  // ---- A bounded index agrees with the plain map until something is evicted. ----

  datatype Op<K, V> = PutOp(k: K, v: V) | RemoveOp(k: K)

  function ApplyFifo<K(==), V>(f: Fifo<K, V>, op: Op<K, V>): Fifo<K, V> {
    match op
    case PutOp(k, v) => Put(f, k, v)
    case RemoveOp(k) => Remove(f, k)
  }

  function ApplyMap<K(==), V>(m: map<K, V>, op: Op<K, V>): map<K, V> {
    match op
    case PutOp(k, v) => m[k := v]
    case RemoveOp(k) => m - {k}
  }

  function RunFifo<K(==), V>(max: nat, ops: seq<Op<K, V>>): Fifo<K, V> {
    if ops == [] then Empty(max)
    else ApplyFifo(RunFifo(max, ops[..|ops| - 1]), ops[|ops| - 1])
  }

  function RunMap<K(==), V>(ops: seq<Op<K, V>>): map<K, V> {
    if ops == [] then map[]
    else ApplyMap(RunMap(ops[..|ops| - 1]), ops[|ops| - 1])
  }

  lemma Fewer<T>(a: set<T>, b: set<T>)
    requires a <= b
    ensures |a| <= |b|
  {
    assert b == a + (b - a);
  }

  lemma OrderSize<K(!new), V>(f: Fifo<K, V>)
    requires Valid(f)
    ensures |f.order| == |f.m|
  {
    SeqSize(f.order, f.m.Keys);
  }

  lemma SeqSize<K(!new)>(s: seq<K>, keys: set<K>)
    requires NoDup(s) && forall k :: k in s <==> k in keys
    ensures |s| == |keys|
  {
    if s == [] {
      assert keys == {};
    } else {
      var last := s[|s| - 1];
      var rest := s[..|s| - 1];
      forall k ensures k in rest <==> k in keys - {last} {
        assert s == rest + [last];
      }
      SeqSize(rest, keys - {last});
    }
  }

  /** `f` is a sound, possibly partial view of the plain map `m`. */
  ghost predicate Within<K(!new), V>(f: Fifo<K, V>, m: map<K, V>) {
    forall k :: k in f.m ==> k in m && f.m[k] == m[k]
  }

  lemma ApplyWithin<K(!new), V>(f: Fifo<K, V>, m: map<K, V>, op: Op<K, V>)
    requires Valid(f) && Within(f, m)
    ensures Valid(ApplyFifo(f, op)) && ApplyFifo(f, op).max == f.max
    ensures Within(ApplyFifo(f, op), ApplyMap(m, op))
    ensures f.m == m && |ApplyMap(m, op)| <= f.max ==> ApplyFifo(f, op).m == ApplyMap(m, op)
  {
    match op {
      case PutOp(k, v) => PutWithin(f, m, k, v);
      case RemoveOp(k) => RemoveValid(f, k);
    }
  }

  lemma PutWithin<K(!new), V>(f: Fifo<K, V>, m: map<K, V>, k: K, v: V)
    requires Valid(f) && Within(f, m)
    ensures Valid(Put(f, k, v)) && Put(f, k, v).max == f.max && Within(Put(f, k, v), m[k := v])
    ensures f.m == m && |m[k := v]| <= f.max ==> Put(f, k, v).m == m[k := v]
  {
    hide Put, Valid;
    OrderSize(f);
    PutValid(f, k, v);
    assert m[k := v].Keys == m.Keys + {k};
    if f.m == m && k !in m { assert |m.Keys + {k}| == |m.Keys| + 1; }
  }

  ghost predicate NeverOver<K(!new), V(!new)>(max: nat, ops: seq<Op<K, V>>) {
    |RunMap(ops)| <= max && (ops != [] ==> NeverOver(max, ops[..|ops| - 1]))
  }

  /** Under any interleaving of puts and removals the index stays well formed and
      never invents an entry, and as long as the plain map it stands for never
      outgrew the bound it *is* that map. */
  lemma {:induction false} AgreesUntilEviction<K(!new), V(!new)>(max: nat, ops: seq<Op<K, V>>)
    requires max >= 1
    ensures Valid(RunFifo(max, ops)) && RunFifo(max, ops).max == max
    ensures Within(RunFifo(max, ops), RunMap(ops))
    ensures NeverOver(max, ops) ==> RunFifo(max, ops).m == RunMap(ops)
  {
    if ops != [] {
      var before, op := ops[..|ops| - 1], ops[|ops| - 1];
      AgreesUntilEviction(max, before);
      ApplyWithin(RunFifo(max, before), RunMap(before), op);
    }
  }

  // ---- The at-least-once window: exactly the last `max` fresh keys. ----

  /** The keys a put-only index has ever recorded as fresh, oldest first. */
  function Recorded<K(==)>(max: nat, keys: seq<K>): seq<K> {
    if keys == [] then []
    else
      var before := Recorded(max, keys[..|keys| - 1]);
      var k := keys[|keys| - 1];
      if Recent(before, max, k) then before else before + [k]
  }

  predicate Recent<K(==)>(s: seq<K>, n: nat, k: K) {
    exists i :: 0 <= i < |s| && |s| - n <= i && s[i] == k
  }

  function Last<K>(s: seq<K>, n: nat): seq<K> {
    if |s| <= n then s else s[|s| - n..]
  }

  function Window<K(==)>(max: nat, keys: seq<K>): Fifo<K, ()> {
    if keys == [] then Empty(max)
    else Put(Window(max, keys[..|keys| - 1]), keys[|keys| - 1], ())
  }

  /** After any sequence of calls the window holds exactly the last `max` keys
      that were recorded as fresh, in the order they were recorded: a key is
      forgotten only once `max` newer ones have been. */
  lemma {:induction false} WindowIsLastRecorded<K(!new)>(max: nat, keys: seq<K>)
    requires max >= 1
    ensures Valid(Window(max, keys))
    ensures Window(max, keys).order == Last(Recorded(max, keys), max)
    ensures Window(max, keys).max == max
  {
    if keys != [] {
      var before, k := keys[..|keys| - 1], keys[|keys| - 1];
      WindowIsLastRecorded(max, before);
      RecentIsLast(Recorded(max, before), max, k);
      var f, r := Window(max, before), Recorded(max, before);
      hide Recorded, Window, Recent, Last;
      PutValid(f, k, ());
      if k !in f.m { PutFresh(f, r, max, k); }
    }
  }

  lemma RecentIsLast<K(!new)>(s: seq<K>, n: nat, k: K)
    ensures Recent(s, n, k) <==> k in Last(s, n)
  {
    if Recent(s, n, k) {
      var i :| 0 <= i < |s| && |s| - n <= i && s[i] == k;
      assert Last(s, n)[if |s| <= n then i else i - (|s| - n)] == k;
    }
  }

  lemma PutFresh<K(!new)>(f: Fifo<K, ()>, r: seq<K>, max: nat, k: K)
    requires Valid(f) && f.max == max && f.order == Last(r, max) && k !in f.m
    ensures Put(f, k, ()).order == Last(r + [k], max)
  {
    if |r| >= max {
      assert f.order + [k] == (r + [k])[|r| - max..];
    }
  }

  /** The key recorded last is still refused after any further calls that record
      fewer than `max` newer ones. */
  lemma {:induction false} NotForgottenEarly<K(!new)>(max: nat, keys: seq<K>, more: seq<K>)
    requires max >= 1
    requires Recorded(max, keys) != []
    requires |Recorded(max, keys + more)| < |Recorded(max, keys)| + max
    ensures Recorded(max, keys)[|Recorded(max, keys)| - 1] in Window(max, keys + more).m
  {
    WindowIsLastRecorded(max, keys + more);
    RecordedGrows(max, keys, keys + more);
    LastHolds(Recorded(max, keys), Recorded(max, keys + more), max);
    hide Recorded, Window, Last, NoDup;
  }

  lemma LastHolds<K>(r: seq<K>, all: seq<K>, n: nat)
    requires r != [] && r <= all && |all| < |r| + n
    ensures r[|r| - 1] in Last(all, n)
  {
    var window := Last(all, n);
    assert window[|r| - 1 - (|all| - |window|)] == r[|r| - 1];
  }

  lemma RecordedStep<K(!new)>(max: nat, keys: seq<K>, k: K)
    ensures Recorded(max, keys) <= Recorded(max, keys + [k])
  {
    assert (keys + [k])[..|keys + [k]| - 1] == keys;
  }

  lemma {:induction false} RecordedGrows<K(!new)>(max: nat, keys: seq<K>, all: seq<K>)
    requires keys <= all
    ensures Recorded(max, keys) <= Recorded(max, all)
    decreases |all|
  {
    if |keys| < |all| {
      var less := all[..|all| - 1];
      RecordedGrows(max, keys, less);
      RecordedStep(max, less, all[|all| - 1]);
      assert less + [all[|all| - 1]] == all;
    } else {
      assert keys == all;
    }
  }
}
