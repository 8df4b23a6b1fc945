/** The routing rules as the user writes them: their meaning on traffic, and their validation. */
module Rules {
  import opened Base

  datatype PortSpec = PortSpec(single: nat, from: nat, to: nat)

  datatype DomainMatcher = DomainMatcher(kind: string, value: string)

  datatype Conditions = Conditions(
    processes: seq<string>, domains: seq<DomainMatcher>, ipCidrs: seq<string>, geo: seq<string>,
    ports: seq<PortSpec>, protocols: seq<string>)

  datatype Rule = Rule(id: string, enabled: bool, action: string, conditions: Conditions)

  datatype Group = Group(name: string, enabled: bool, rules: seq<Rule>)

  datatype Model = Model(groups: seq<Group>, defaultAction: string)

  /** A connection, as the tests it passes: which domain matchers its name satisfies, which address ranges hold its
      destination, and which site and country lists contain it. */
  datatype Flow = Flow(
    process: string, network: string, port: nat, dns: bool,
    names: set<DomainMatcher>, ranges: set<string>, sites: set<string>, countries: set<string>)

  /** The checks of regular expressions and of addresses are library functions. */
  datatype Syntax = Syntax(regex: string -> bool, address: string -> bool)

  // ---------------------------------------------------------------- meaning

  predicate Covers(p: PortSpec, port: nat) {
    if p.single != 0 then p.single == port else p.from <= port <= p.to
  }

  predicate Starts(s: string, prefix: string) { |prefix| <= |s| && s[..|prefix|] == prefix }

  /** The list a flow must be on for a geo entry to apply. */
  predicate Located(g: string, f: Flow) {
    || (Starts(g, "geosite:") && g[8..] in f.sites)
    || (Starts(g, "geoip:") && g[6..] in f.countries)
  }

  ghost predicate NameMatches(c: Conditions, f: Flow) { exists d :: d in c.domains && d in f.names }

  ghost predicate AddressMatches(c: Conditions, f: Flow) { exists r :: r in c.ipCidrs && r in f.ranges }

  ghost predicate PlaceMatches(c: Conditions, f: Flow) { exists g :: g in c.geo && Located(g, f) }

  ghost predicate PortMatches(c: Conditions, f: Flow) { exists p :: p in c.ports && Covers(p, f.port) }

  /** Any test within a kind, all kinds that have a test. */
  ghost predicate Matches(c: Conditions, f: Flow) {
    && (c.processes == [] || f.process in c.processes)
    && (c.domains == [] || NameMatches(c, f))
    && (c.ipCidrs == [] || AddressMatches(c, f))
    && (c.geo == [] || PlaceMatches(c, f))
    && (c.ports == [] || PortMatches(c, f))
    && (c.protocols == [] || f.network in c.protocols)
  }

  /** The rules in force, in order. */
  function Active(rules: seq<Rule>): seq<Rule> {
    if rules == [] then []
    else Active(rules[..|rules| - 1]) + if rules[|rules| - 1].enabled then [rules[|rules| - 1]] else []
  }

  function InForce(groups: seq<Group>): seq<Rule> {
    if groups == [] then []
    else
      var g := groups[|groups| - 1];
      InForce(groups[..|groups| - 1]) + if g.enabled then Active(g.rules) else []
  }

  ghost function FirstMatch(rules: seq<Rule>, f: Flow): Option<string> {
    if rules == [] then None
    else if Matches(rules[0].conditions, f) then Some(rules[0].action)
    else FirstMatch(rules[1..], f)
  }

  ghost function ModelVerdict(m: Model, f: Flow): string {
    var r := FirstMatch(InForce(m.groups), f);
    if r.Some? then r.value else m.defaultAction
  }

  // ---------------------------------------------------------------- validation

  predicate KnownAction(a: string) { a == "proxy" || a == "direct" || a == "block" }

  predicate KnownKind(k: string) { k == "exact" || k == "suffix" || k == "keyword" || k == "regex" }

  predicate IsEmpty(c: Conditions) {
    |c.processes| + |c.domains| + |c.ipCidrs| + |c.geo| + |c.ports| + |c.protocols| == 0
  }

  /** A single port, or a range that is not empty; never both. */
  predicate ValidPort(p: PortSpec) {
    if p.single != 0 then p.from == 0 && p.to == 0 else 0 < p.from <= p.to
  }

  predicate ValidDomain(d: DomainMatcher, syntax: Syntax) {
    KnownKind(d.kind) && d.value != "" && (d.kind == "regex" ==> syntax.regex(d.value))
  }

  predicate ValidGeo(g: string) { Starts(g, "geosite:") || Starts(g, "geoip:") }

  ghost predicate ValidConditions(c: Conditions, syntax: Syntax) {
    && (forall p :: p in c.ports ==> ValidPort(p))
    && (forall d :: d in c.domains ==> ValidDomain(d, syntax))
    && (forall r :: r in c.ipCidrs ==> syntax.address(r))
    && (forall g :: g in c.geo ==> ValidGeo(g))
  }

  ghost predicate ValidRule(r: Rule, syntax: Syntax) {
    r.id != "" && KnownAction(r.action) && !IsEmpty(r.conditions) && ValidConditions(r.conditions, syntax)
  }

  ghost predicate ValidModel(m: Model, syntax: Syntax) {
    KnownAction(m.defaultAction) &&
    forall g, r :: g in m.groups && r in g.rules ==> ValidRule(r, syntax)
  }

  method ValidateConditions(c: Conditions, syntax: Syntax) returns (ok: bool)
    ensures ok == ValidConditions(c, syntax)
  {
    for i := 0 to |c.ports|
      invariant forall p :: p in c.ports[..i] ==> ValidPort(p)
    {
      var p := c.ports[i];
      assert p in c.ports;
      if p.single != 0 && (p.from != 0 || p.to != 0) {
        return false;
      }
      if p.single == 0 && (p.from == 0 || p.to == 0 || p.from > p.to) {
        return false;
      }
    }
    for i := 0 to |c.domains|
      invariant forall d :: d in c.domains[..i] ==> ValidDomain(d, syntax)
    {
      var d := c.domains[i];
      assert d in c.domains;
      if !KnownKind(d.kind) || d.value == "" {
        return false;
      }
      if d.kind == "regex" && !syntax.regex(d.value) {
        return false;
      }
    }
    for i := 0 to |c.ipCidrs|
      invariant forall r :: r in c.ipCidrs[..i] ==> syntax.address(r)
    {
      if !syntax.address(c.ipCidrs[i]) {
        return false;
      }
    }
    for i := 0 to |c.geo|
      invariant forall g :: g in c.geo[..i] ==> ValidGeo(g)
    {
      assert c.geo[i] in c.geo;
      if !(Starts(c.geo[i], "geosite:") || Starts(c.geo[i], "geoip:")) {
        return false;
      }
    }
    return true;
  }

  method ValidateRule(r: Rule, syntax: Syntax) returns (ok: bool)
    ensures ok == ValidRule(r, syntax)
  {
    if r.id == "" || !KnownAction(r.action) || IsEmpty(r.conditions) {
      return false;
    }
    ok := ValidateConditions(r.conditions, syntax);
  }

  method Validate(m: Model, syntax: Syntax) returns (ok: bool)
    ensures ok == ValidModel(m, syntax)
  {
    if !KnownAction(m.defaultAction) {
      return false;
    }
    for i := 0 to |m.groups|
      invariant forall g, r :: g in m.groups[..i] && r in g.rules ==> ValidRule(r, syntax)
    {
      var rules := m.groups[i].rules;
      for j := 0 to |rules|
        invariant forall r :: r in rules[..j] ==> ValidRule(r, syntax)
      {
        var valid := ValidateRule(rules[j], syntax);
        if !valid {
          assert m.groups[i] in m.groups && rules[j] in m.groups[i].rules;
          return false;
        }
      }
      assert m.groups[..i + 1] == m.groups[..i] + [m.groups[i]];
    }
    return true;
  }

  /** A rule is accepted exactly when it is named, has one of the three actions and at least one test, and each test is
      one that can be compiled. */
  lemma AcceptedExactly(r: Rule, syntax: Syntax)
    ensures var c := r.conditions;
            ValidRule(r, syntax) ==
            (&& r.id != "" && r.action in {"proxy", "direct", "block"}
             && !(c.processes == [] && c.domains == [] && c.ipCidrs == [] && c.geo == [] && c.ports == [] && c.protocols == [])
             && (forall p :: p in c.ports ==>
                   (p.single != 0 && p.from == 0 && p.to == 0) || (p.single == 0 && p.from != 0 && p.to != 0 && p.from <= p.to))
             && (forall d :: d in c.domains ==>
                   d.kind in {"exact", "suffix", "keyword", "regex"} && d.value != "" && (d.kind == "regex" ==> syntax.regex(d.value)))
             && (forall a :: a in c.ipCidrs ==> syntax.address(a))
             && (forall g :: g in c.geo ==> Starts(g, "geosite:") || Starts(g, "geoip:")))
  {
    var c := r.conditions;
    assert forall p :: p in c.ports ==> (ValidPort(p) <==>
      ((p.single != 0 && p.from == 0 && p.to == 0) || (p.single == 0 && p.from != 0 && p.to != 0 && p.from <= p.to)));
  }
}
