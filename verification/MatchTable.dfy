/**
  The match-action table (rtl/classifiers/match_table.sv): a priority encoder over wildcard rules.
  A zero field matches anything; port fields are looked at only when the packet has ports.
 */
module MatchTable {
  import opened NpePkg
  import opened Parsers

  datatype Rule = Rule(valid: bool, protocol: nat, srcIp: nat, dstIp: nat, srcPort: nat, dstPort: nat,
                       action: RuleAction, classId: nat, modAction: ModAction, modData: ModData)

  datatype Verdict = Verdict(found: bool, action: RuleAction, classId: nat, modAction: ModAction, modData: ModData)

  const NO_MATCH := Verdict(false, Drop, 0, Nop, NO_MOD_DATA)

  function VerdictOf(r: Rule): Verdict {
    Verdict(true, r.action, r.classId, r.modAction, r.modData)
  }

  predicate HasPorts(m: Metadata) {
    m.udpValid || m.tcpValid
  }

  predicate FieldMatches(want: nat, have: nat) {
    want == 0 || want == have
  }

  predicate Matches(r: Rule, m: Metadata) {
    && r.valid
    && FieldMatches(r.protocol, m.protocol)
    && FieldMatches(r.srcIp, m.srcIp)
    && FieldMatches(r.dstIp, m.dstIp)
    && (HasPorts(m) ==> FieldMatches(r.srcPort, m.srcPort) && FieldMatches(r.dstPort, m.dstPort))
  }

  /** The first rule of the table that matches, as a recursive search. */
  function Lookup(rules: seq<Rule>, m: Metadata): Verdict {
    if rules == [] then NO_MATCH
    else if Matches(rules[0], m) then VerdictOf(rules[0])
    else Lookup(rules[1..], m)
  }

  ghost predicate IsFirstMatch(rules: seq<Rule>, m: Metadata, i: nat) {
    && i < |rules|
    && Matches(rules[i], m)
    && forall j :: 0 <= j < i ==> !Matches(rules[j], m)
  }

  lemma {:induction false} LookupIsFirstMatch(rules: seq<Rule>, m: Metadata, i: nat)
    requires IsFirstMatch(rules, m, i)
    ensures Lookup(rules, m) == VerdictOf(rules[i])
  {
    if i > 0 {
      assert !Matches(rules[0], m);
      assert forall j :: 0 <= j < i - 1 ==> rules[1..][j] == rules[j + 1];
      LookupIsFirstMatch(rules[1..], m, i - 1);
    }
  }

  lemma {:induction false} LookupMissesExactlyWhen(rules: seq<Rule>, m: Metadata)
    ensures Lookup(rules, m) == NO_MATCH <==> forall r <- rules :: !Matches(r, m)
  {
    if rules != [] {
      LookupMissesExactlyWhen(rules[1..], m);
      assert rules == [rules[0]] + rules[1..];
    }
  }

  /** The encoder loop: it keeps running after a match, guarded by match_found. */
  method Encode(rules: seq<Rule>, m: Metadata) returns (v: Verdict)
    ensures v == Lookup(rules, m)
    ensures v.found ==> exists i: nat :: IsFirstMatch(rules, m, i) && v == VerdictOf(rules[i])
    ensures !v.found ==> v == NO_MATCH && forall r <- rules :: !Matches(r, m)
  {
    v := NO_MATCH;
    ghost var at := 0;
    for i := 0 to |rules|
      invariant v.found ==> IsFirstMatch(rules, m, at) && v == VerdictOf(rules[at])
      invariant !v.found ==> v == NO_MATCH && forall j :: 0 <= j < i ==> !Matches(rules[j], m)
    {
      var r := rules[i];
      if r.valid && !v.found {
        var localMatch := true;
        if r.protocol != 0 { localMatch := localMatch && r.protocol == m.protocol; }
        if r.srcIp != 0 { localMatch := localMatch && r.srcIp == m.srcIp; }
        if r.dstIp != 0 { localMatch := localMatch && r.dstIp == m.dstIp; }
        if r.srcPort != 0 && (m.udpValid || m.tcpValid) { localMatch := localMatch && r.srcPort == m.srcPort; }
        if r.dstPort != 0 && (m.udpValid || m.tcpValid) { localMatch := localMatch && r.dstPort == m.dstPort; }
        if localMatch {
          v := VerdictOf(r);
          at := i;
        }
      }
    }
    if v.found {
      LookupIsFirstMatch(rules, m, at);
    } else {
      LookupMissesExactlyWhen(rules, m);
    }
  }

  // ---------------------------------------------------------------------------
  // Redundant rules
  // ---------------------------------------------------------------------------

  /** Every packet the rule b matches is matched by a as well. */
  ghost predicate Covers(a: Rule, b: Rule) {
    forall m: Metadata :: Matches(b, m) ==> Matches(a, m)
  }

  predicate FieldCovers(a: nat, b: nat) {
    a == 0 || a == b
  }

  /** A packet that b matches and that agrees with a on as little as possible. */
  function Probe(a: Rule, b: Rule): Metadata {
    NO_METADATA.(
      protocol := if b.protocol != 0 then b.protocol else a.protocol + 1,
      srcIp := if b.srcIp != 0 then b.srcIp else a.srcIp + 1,
      dstIp := if b.dstIp != 0 then b.dstIp else a.dstIp + 1,
      udpValid := true,
      srcPort := if b.srcPort != 0 then b.srcPort else a.srcPort + 1,
      dstPort := if b.dstPort != 0 then b.dstPort else a.dstPort + 1)
  }

  /** Covering can be read off the rules, field by field. */
  lemma CoversExactlyWhen(a: Rule, b: Rule)
    requires b.valid
    ensures Covers(a, b) <==>
      && a.valid
      && FieldCovers(a.protocol, b.protocol) && FieldCovers(a.srcIp, b.srcIp) && FieldCovers(a.dstIp, b.dstIp)
      && FieldCovers(a.srcPort, b.srcPort) && FieldCovers(a.dstPort, b.dstPort)
  {
    assert Matches(b, Probe(a, b));
  }

  /** A rule that an earlier one covers can be taken out of the table without changing any verdict. */
  lemma {:induction false} ShadowedRuleIsDead(rules: seq<Rule>, i: nat, j: nat, m: Metadata)
    requires i < j < |rules| && Covers(rules[i], rules[j])
    ensures Lookup(rules[..j] + rules[j + 1..], m) == Lookup(rules, m)
  {
    var fewer := rules[..j] + rules[j + 1..];
    if i == 0 {
      if Matches(rules[0], m) {
      } else {
        SkipUnmatched(rules, j, m);
      }
    } else if !Matches(rules[0], m) {
      ShadowedRuleIsDead(rules[1..], i - 1, j - 1, m);
      assert fewer[1..] == rules[1..][..j - 1] + rules[1..][j..];
    }
  }

  lemma {:induction false} SkipUnmatched(rules: seq<Rule>, j: nat, m: Metadata)
    requires j < |rules| && !Matches(rules[j], m)
    ensures Lookup(rules[..j] + rules[j + 1..], m) == Lookup(rules, m)
  {
    var fewer := rules[..j] + rules[j + 1..];
    if j == 0 {
      assert fewer == rules[1..];
    } else if !Matches(rules[0], m) {
      SkipUnmatched(rules[1..], j - 1, m);
      assert fewer[1..] == rules[1..][..j - 1] + rules[1..][j..];
    }
  }

  // ---------------------------------------------------------------------------
  // The built-in rules
  // ---------------------------------------------------------------------------

  const EMPTY_RULE := Rule(false, 0, 0, 0, 0, 0, Allow, 0, Nop, NO_MOD_DATA)

  function AllowPort(protocol: nat, dstPort: nat, classId: nat): Rule {
    Rule(true, protocol, 0, 0, 0, dstPort, Allow, classId, Nop, NO_MOD_DATA)
  }

  function DefaultRules(n: nat): (rules: seq<Rule>)
    requires n >= 5
    ensures |rules| == n
  {
    [AllowPort(PROTO_UDP, 53, 1), AllowPort(PROTO_TCP, 80, 2), AllowPort(PROTO_TCP, 443, 3),
     AllowPort(PROTO_TCP, 22, 4),
     Rule(true, 0, 0, 0, 0, 0, Allow, 0, TtlDec, NO_MOD_DATA)] + seq(n - 5, _ => EMPTY_RULE)
  }

  /** With the built-in rules nothing is ever dropped, and the class is 1 for UDP port 53 and 2, 3, 4
      for TCP ports 80, 443, 22; a packet without ports but with one of the two protocol
      numbers lands in the first class of its protocol, and everything else in class 0. */
  lemma DefaultVerdict(n: nat, m: Metadata)
    requires n >= 5
    ensures var v := Lookup(DefaultRules(n), m);
      && v.found && v.action == Allow
      && v.classId ==
        (if m.protocol == PROTO_UDP && (HasPorts(m) ==> m.dstPort == 53) then 1
         else if m.protocol == PROTO_TCP && (HasPorts(m) ==> m.dstPort == 80) then 2
         else if m.protocol == PROTO_TCP && m.dstPort == 443 then 3
         else if m.protocol == PROTO_TCP && m.dstPort == 22 then 4
         else 0)
      && v.modAction == if v.classId == 0 then TtlDec else Nop
  {
    var rules := DefaultRules(n);
    var i := if Matches(rules[0], m) then 0 else if Matches(rules[1], m) then 1
      else if Matches(rules[2], m) then 2 else if Matches(rules[3], m) then 3 else 4;
    LookupIsFirstMatch(rules, m, i);
  }

  // ---------------------------------------------------------------------------
  // The stage
  // ---------------------------------------------------------------------------

  function Decided(m: Metadata, v: Verdict): Info {
    Info(m.(classId := v.classId, drop := v.action == Drop), v.modAction, v.modData)
  }

  /** What the match stage records on a first beat. */
  function MatchCapture(rules: seq<Rule>): Capture {
    (b: Beat, i: Info) => Decided(i.meta, Lookup(rules, i.meta))
  }
}
