// Operators: whose signature a gate takes, and that no key is held under two names.

module Approvers {
  import opened Options
  import opened Envelopes

  datatype OperatorRow = OperatorRow(pubkey: string, revoked: bool)

  type Roster = map<string, OperatorRow>

  /** Signed for this held envelope and no other. */
  predicate Binds(a: Approval, envelope: Id) {
    a.envelope != NoId && a.envelope == envelope
  }

  /** The stateless half: well formed, and signed by the key it carries. `signed`
      stands for the Ed25519 check over this node, session and approval. */
  predicate Verifies(a: Approval, signed: Approval -> bool) {
    && a.operator != ""
    && a.envelope != NoId
    && (a.decision == APPROVE || a.decision == "deny")
    && signed(a)
  }

  /** Enrolled here under that name and key, and not revoked. */
  predicate Enrolled(ops: Roster, a: Approval) {
    a.operator in ops && !ops[a.operator].revoked && ops[a.operator].pubkey == a.pubkey
  }

  predicate Check(ops: Roster, a: Approval, envelope: Id, signed: Approval -> bool) {
    Binds(a, envelope) && Verifies(a, signed) && Enrolled(ops, a)
  }

  predicate Shows(a: Approval, name: string) {
    exists i :: 0 <= i < |a.context| && a.context[i].name == name
  }

  predicate CoversAll(a: Approval, required: seq<string>) {
    forall i :: 0 <= i < |required| ==> Shows(a, required[i])
  }

  // ---- The roster itself ----

  datatype Rows = Rows(stored: Roster, cached: Roster)

  /** No key answers under two names, among those who may answer. */
  ghost predicate OneKeyOneOperator(ops: Roster) {
    forall a, b :: a in ops && b in ops && a != b && !ops[a].revoked && !ops[b].revoked ==>
      ops[a].pubkey != ops[b].pubkey
  }

  predicate KeyTaken(ops: Roster, name: string, key: string) {
    exists o :: o in ops && o != name && ops[o].pubkey == key && !ops[o].revoked
  }

  /** Enroll as a step over what is stored and what is cached. `saved` and `read`
      say whether the two store operations succeed. */
  function EnrollF(r: Rows, name: string, key: string, validKey: bool, saved: bool, read: bool): Rows {
    if name == "" || !validKey || KeyTaken(r.cached, name, key) || !saved then r
    else
      var stored := r.stored[name := OperatorRow(key, false)];
      Rows(stored, if read then stored else r.cached)
  }

  function RevokeF(r: Rows, name: string, saved: bool, read: bool): Rows {
    if !saved || name !in r.stored || r.stored[name].revoked then r
    else
      var stored := r.stored[name := r.stored[name].(revoked := true)];
      Rows(stored, if read then stored else r.cached)
  }

  class Registry {
    var stored: Roster
    var cached: Roster

    ghost function Value(): Rows
      reads this
    {
      Rows(stored, cached)
    }

    constructor (stored: Roster)
      ensures Value() == Rows(stored, stored)
    {
      this.stored, this.cached := stored, stored;
    }

    method Reload(read: bool) returns (ok: bool)
      modifies this`cached
      ensures ok == read && cached == if read then stored else old(cached)
    {
      if read {
        cached := stored;
      }
      ok := read;
    }

    method Enroll(name: string, key: string, validKey: bool, saved: bool, read: bool) returns (ok: bool)
      modifies this
      ensures Value() == EnrollF(old(Value()), name, key, validKey, saved, read)
    {
      if name == "" || !validKey {
        return false;
      }
      if exists o :: o in cached && o != name && cached[o].pubkey == key && !cached[o].revoked {
        return false;
      }
      if !saved {
        return false;
      }
      stored := stored[name := OperatorRow(key, false)];
      ok := Reload(read);
    }

    method Revoke(name: string, saved: bool, read: bool) returns (changed: bool)
      modifies this
      ensures Value() == RevokeF(old(Value()), name, saved, read)
    {
      if !saved || name !in stored || stored[name].revoked {
        return false;
      }
      stored := stored[name := stored[name].(revoked := true)];
      changed := Reload(read);
    }
  }

  datatype RosterOp =
    | EnrollOp(name: string, key: string, validKey: bool, saved: bool, read: bool)
    | RevokeOp(name: string, saved: bool, read: bool)

  function ApplyOp(r: Rows, op: RosterOp): Rows {
    match op
    case EnrollOp(name, key, validKey, saved, read) => EnrollF(r, name, key, validKey, saved, read)
    case RevokeOp(name, saved, read) => RevokeF(r, name, saved, read)
  }

  function RunRoster(ops: seq<RosterOp>): Rows {
    if ops == [] then Rows(map[], map[]) else ApplyOp(RunRoster(ops[..|ops| - 1]), ops[|ops| - 1])
  }

  /** Over any run in which every re-read of the store succeeds, no two operators
      who may approve share a key, so a verified approval says who gave it. */
  lemma {:induction false} KeysStayUnique(ops: seq<RosterOp>)
    requires forall op :: op in ops ==> op.read
    ensures RunRoster(ops).cached == RunRoster(ops).stored
    ensures OneKeyOneOperator(RunRoster(ops).stored)
  {
    if ops != [] {
      KeysStayUnique(ops[..|ops| - 1]);
      assert ops[|ops| - 1] in ops;
    }
  }

  /** The enrollment goes through: nothing refuses it and it is saved. */
  predicate Enrolls(r: Rows, op: RosterOp) {
    op.EnrollOp? && op.name != "" && op.validKey && !KeyTaken(r.cached, op.name, op.key) && op.saved
  }

  /** A step cannot make a key ambiguous: it is no enrollment, or one that is refused
      or not saved, or no other operator who may approve holds the key in the store. */
  predicate Harmless(r: Rows, op: RosterOp) {
    Enrolls(r, op) ==> !KeyTaken(r.stored, op.name, op.key)
  }

  /** From unique stored rows, one step leaves them unique exactly when it is harmless. */
  lemma StaysUniqueIff(r: Rows, op: RosterOp)
    requires OneKeyOneOperator(r.stored)
    ensures OneKeyOneOperator(ApplyOp(r, op).stored) <==> Harmless(r, op)
  {
    var stored := ApplyOp(r, op).stored;
    if Enrolls(r, op) && KeyTaken(r.stored, op.name, op.key) {
      var o :| o in r.stored && o != op.name && r.stored[o].pubkey == op.key && !r.stored[o].revoked;
      assert o in stored && op.name in stored && stored[o].pubkey == stored[op.name].pubkey;
    }
  }

  ghost predicate AlwaysUnique(ops: seq<RosterOp>) {
    forall i :: 0 <= i <= |ops| ==> OneKeyOneOperator(RunRoster(ops[..i]).stored)
  }

  ghost predicate AlwaysHarmless(ops: seq<RosterOp>) {
    forall i :: 0 <= i < |ops| ==> Harmless(RunRoster(ops[..i]), ops[i])
  }

  lemma UniqueMore(ops: seq<RosterOp>, op: RosterOp)
    ensures AlwaysUnique(ops + [op]) <==> AlwaysUnique(ops) && OneKeyOneOperator(RunRoster(ops + [op]).stored)
  {
    hide OneKeyOneOperator, RunRoster;
    var more := ops + [op];
    assert more[..|more|] == more;
    assert forall i :: 0 <= i <= |ops| ==> more[..i] == ops[..i];
    if AlwaysUnique(more) {
      forall i | 0 <= i <= |ops| ensures OneKeyOneOperator(RunRoster(ops[..i]).stored) {
        assert OneKeyOneOperator(RunRoster(more[..i]).stored);
      }
    }
  }

  lemma HarmlessMore(ops: seq<RosterOp>, op: RosterOp)
    ensures AlwaysHarmless(ops + [op]) <==> AlwaysHarmless(ops) && Harmless(RunRoster(ops), op)
  {
    hide Harmless, RunRoster;
    var more := ops + [op];
    assert forall i :: 0 <= i <= |ops| ==> more[..i] == ops[..i];
    assert ops[..|ops|] == ops && more[|ops|] == op;
    if AlwaysHarmless(more) {
      forall i | 0 <= i < |ops| ensures Harmless(RunRoster(ops[..i]), ops[i]) {
        assert Harmless(RunRoster(more[..i]), more[i]);
      }
    }
  }

  /** Over any run, whatever saves and re-reads fail, keys stay unique throughout
      exactly when every step was harmless when it was taken. */
  lemma {:induction false} AlwaysUniqueIff(ops: seq<RosterOp>)
    ensures AlwaysUnique(ops) <==> AlwaysHarmless(ops)
  {
    hide AlwaysUnique, AlwaysHarmless, OneKeyOneOperator, Harmless, ApplyOp;
    if ops == [] {
      NothingEnrolled(ops);
    } else {
      var before, op := ops[..|ops| - 1], ops[|ops| - 1];
      assert before + [op] == ops;
      AlwaysUniqueIff(before);
      UniqueMore(before, op);
      HarmlessMore(before, op);
      UniqueAtEnd(before);
      if AlwaysUnique(before) { StaysUniqueIff(RunRoster(before), op); }
    }
  }

  lemma NothingEnrolled(ops: seq<RosterOp>)
    requires ops == []
    ensures AlwaysUnique(ops) && AlwaysHarmless(ops)
  {
    assert ops[..0] == [];
  }

  lemma UniqueAtEnd(ops: seq<RosterOp>)
    ensures AlwaysUnique(ops) ==> OneKeyOneOperator(RunRoster(ops).stored)
  {
    hide OneKeyOneOperator, RunRoster;
    assert ops[..|ops|] == ops;
  }

  /** With a failed re-read the uniqueness check runs against a stale roster, and
      two operators can end up enrolled under one key. */
  lemma StaleCacheSharesAKey(key: string)
    ensures var ops := [EnrollOp("a", key, true, true, false), EnrollOp("b", key, true, true, true)];
            !OneKeyOneOperator(RunRoster(ops).stored)
  {
    var first := EnrollOp("a", key, true, true, false);
    var ops := [first, EnrollOp("b", key, true, true, true)];
    assert ops[..1] == [first] && [first][..0] == [];
    assert RunRoster([first]) == Rows(map["a" := OperatorRow(key, false)], map[]);
    var r := RunRoster(ops).stored;
    assert "a" in r && "b" in r && "a" != "b" && r["a"].pubkey == r["b"].pubkey;
  }
}
