// The node's authorization document: ordered rules, first match wins.

module Strings {
  predicate HasPrefix(s: string, p: string) {
    p <= s
  }

  predicate HasSuffix(s: string, x: string) {
    |x| <= |s| && s[|s| - |x|..] == x
  }

  /** The pieces of `s` between separators; a string without one is one piece. */
  function Segments(s: string, sep: char): seq<string> {
    if s == [] then [[]]
    else if s[0] == sep then [[]] + Segments(s[1..], sep)
    else
      var rest := Segments(s[1..], sep);
      [[s[0]] + rest[0]] + rest[1..]
  }

  lemma {:induction false} SegmentsJoin(p: string, rest: string, sep: char)
    ensures Segments(p + [sep] + rest, sep) == Segments(p, sep) + Segments(rest, sep)
  {
    var whole := p + [sep] + rest;
    if p == [] {
      assert whole[1..] == rest;
    } else {
      assert whole[1..] == p[1..] + [sep] + rest;
      SegmentsJoin(p[1..], rest, sep);
      assert whole[0] == p[0];
      var a, b := Segments(p[1..], sep), Segments(rest, sep);
      assert a != [] && Segments(whole[1..], sep) == a + b;
      if p[0] == sep {
        assert ([[]] + a) + b == [[]] + (a + b);
      } else {
        assert ([[p[0]] + a[0]] + a[1..]) + b == [[p[0]] + (a + b)[0]] + (a + b)[1..];
      }
    }
  }

  lemma {:induction false} SegmentsPrefix(p: string, s: string, sep: char)
    requires Segments(p, sep) <= Segments(s, sep)
    ensures s == p || HasPrefix(s, p + [sep])
  {
    if p == [] {
      assert Segments(s, sep)[0] == Segments(p, sep)[0];
    } else {
      var sp, ss := Segments(p, sep), Segments(s, sep);
      assert sp[0] == ss[0];
      if p[0] == sep {
        assert |sp| >= 2;
        assert s != [] && s[0] == sep;
        assert Segments(p[1..], sep) == sp[1..] <= ss[1..] == Segments(s[1..], sep);
      } else {
        assert ss[0][0] == p[0];
        assert s != [] && s[0] == p[0];
        var rp, rs := Segments(p[1..], sep), Segments(s[1..], sep);
        assert rp[0] == sp[0][1..] == ss[0][1..] == rs[0];
        assert rp[1..] == sp[1..] && rs[1..] == ss[1..];
        assert rp <= rs;
      }
      SegmentsPrefix(p[1..], s[1..], sep);
      assert s == [s[0]] + s[1..];
    }
  }
}

module Policies {
  import opened Options
  import opened Strings

  datatype Decision = Allow | Gate | Deny

  /** An edge's gate as the graph writes it, or as wiring resolved it. */
  datatype EdgeGate = Ungated | Waived | HumanApproval

  datatype Rule = Rule(pattern: string, decision: Decision, limit: Option<int>)

  datatype Policy = Policy(
    default: Decision,
    allowGraphWaiver: bool,
    allowSpeculation: bool,
    requireSigned: bool,
    requireContext: seq<string>,
    refuseOnSealFailure: bool,
    rules: seq<Rule>)

  const MOTOR := "motor"

  predicate IsEffect(capability: string) {
    capability == MOTOR || HasPrefix(capability, MOTOR + ".")
  }

  predicate MatchCapability(pattern: string, capability: string) {
    if pattern == "*" then true
    else if HasSuffix(pattern, ".*") then
      var prefix := pattern[..|pattern| - 2];
      capability == prefix || HasPrefix(capability, prefix + ".")
    else pattern == capability
  }

  function Decide(pol: Policy, capability: string): (Decision, Option<int>) {
    DecideFrom(pol.rules, pol.default, capability)
  }

  function DecideFrom(rules: seq<Rule>, default: Decision, capability: string): (Decision, Option<int>) {
    if rules == [] then (if IsEffect(capability) then default else Allow, None)
    else if MatchCapability(rules[0].pattern, capability) then (rules[0].decision, rules[0].limit)
    else DecideFrom(rules[1..], default, capability)
  }

  predicate SignedRequired(pol: Policy) {
    pol.requireSigned || pol.requireContext != []
  }

  datatype Authorization = Authorization(gate: EdgeGate, waived: bool)

  /** The gate an edge is wired with, from the rules' decision and the gate it asks
      for; `Err` when the rules deny the capability. */
  function Authorize(pol: Policy, capability: string, graphGate: EdgeGate): Result<Authorization, ()> {
    var decision := Decide(pol, capability).0;
    if decision == Deny then Err(())
    else if graphGate == HumanApproval then Ok(Authorization(HumanApproval, false))
    else if graphGate == Waived && pol.allowGraphWaiver then Ok(Authorization(Ungated, decision == Gate))
    else if decision == Gate then Ok(Authorization(HumanApproval, false))
    else Ok(Authorization(Ungated, false))
  }

  /** A `prefix.*` pattern covers exactly the capabilities whose dot-separated
      segments start with the prefix's: the bare prefix and everything below it,
      and never a name that merely begins with the same letters. */
  lemma WildcardIsSegmentPrefix(prefix: string, capability: string)
    ensures MatchCapability(prefix + ".*", capability) <==>
            Segments(prefix, '.') <= Segments(capability, '.')
  {
    var pattern := prefix + ".*";
    assert pattern[|pattern| - 2..] == ".*" && pattern[..|pattern| - 2] == prefix;
    assert |pattern| == |prefix| + 2;
    if HasPrefix(capability, prefix + ".") {
      var rest := capability[|prefix| + 1..];
      assert capability == prefix + ['.'] + rest;
      SegmentsJoin(prefix, rest, '.');
    }
    if Segments(prefix, '.') <= Segments(capability, '.') {
      SegmentsPrefix(prefix, capability, '.');
    }
  }

  /** The decision is that of the first rule that matches, or the default when
      none does and the capability acts on the world. */
  lemma {:induction false} FirstMatchWins(rules: seq<Rule>, default: Decision, capability: string, i: nat)
    requires i <= |rules|
    requires forall j :: 0 <= j < i ==> !MatchCapability(rules[j].pattern, capability)
    requires i < |rules| ==> MatchCapability(rules[i].pattern, capability)
    ensures DecideFrom(rules, default, capability) ==
            if i < |rules| then (rules[i].decision, rules[i].limit)
            else (if IsEffect(capability) then default else Allow, None)
  {
    if i > 0 {
      FirstMatchWins(rules[1..], default, capability, i - 1);
    }
  }

  /** What combining can lose: an edge comes out ungated exactly when it asked for no
      gate and the rules allow the effect, or when it asked for a waiver that the node
      grants; the waiver is marked exactly when the rules wanted a gate. */
  lemma NeverLaxer(pol: Policy, capability: string, graphGate: EdgeGate)
    ensures Authorize(pol, capability, graphGate).Err? <==> Decide(pol, capability).0 == Deny
    ensures Authorize(pol, capability, graphGate).Ok? ==>
              var a := Authorize(pol, capability, graphGate).value;
              && (a.gate == Ungated <==>
                  && graphGate != HumanApproval
                  && (Decide(pol, capability).0 == Allow || (graphGate == Waived && pol.allowGraphWaiver)))
              && (a.waived <==>
                  Decide(pol, capability).0 == Gate && graphGate == Waived && pol.allowGraphWaiver)
              && a.gate != Waived
  {
  }

  // ---- Manifests ----

  const SKILL_TYPES := ["sensorial", "cognitive", "logical", "motor", "memory"]

  datatype Skill = Skill(name: string, version: string, capability: string, kind: string, compensates: string)

  /** What manifest validation guarantees of a registered skill's type. */
  predicate ValidSkill(s: Skill) {
    s.kind in SKILL_TYPES && HasPrefix(s.capability, s.kind + ".")
  }

  predicate IsMotor(s: Skill) {
    s.kind == MOTOR
  }

  /** The manifest's declared type and the capability's prefix agree, so the two
      tests for "acts on the world" the kernel uses are one test. */
  lemma MotorIsEffect(s: Skill)
    requires ValidSkill(s)
    ensures IsMotor(s) <==> IsEffect(s.capability)
  {
    assert s.capability[0] == s.kind[0] && s.capability[1] == s.kind[1];
  }
}
