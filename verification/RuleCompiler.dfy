/** Compiling the rules to a sing-box route, and why the compiled route says the same as the rules. */
module RuleCompiler {
  import opened Base
  import opened Rules

  /** A route rule; a key that is absent is an empty sequence or string. */
  datatype RouteRule = RouteRule(
    outbound: string, action: string, protocol: string,
    processName: seq<string>, network: seq<string>, port: seq<nat>, portRange: seq<(nat, nat)>,
    ipCidr: seq<string>, domain: seq<string>, domainSuffix: seq<string>, domainKeyword: seq<string>,
    domainRegex: seq<string>, ruleSet: seq<string>)

  datatype Compiled = Compiled(final: string, rules: seq<RouteRule>)

  function Blank(): RouteRule { RouteRule("", "", "", [], [], [], [], [], [], [], [], [], []) }

  // ---------------------------------------------------------------- what sing-box does with a rule

  ghost predicate AnyName(kind: string, values: seq<string>, f: Flow) {
    exists v :: v in values && DomainMatcher(kind, v) in f.names
  }

  /** Rule sets are declared under the name of the list they hold. */
  predicate Listed(tag: string, f: Flow) {
    || (Starts(tag, "geosite-") && tag[8..] in f.sites)
    || (Starts(tag, "geoip-") && tag[6..] in f.countries)
  }

  predicate NoDestination(r: RouteRule) {
    r.domain + r.domainSuffix + r.domainKeyword + r.domainRegex + r.ipCidr + r.ruleSet == []
  }

  /** The destination keys are alternatives of one another. */
  ghost predicate Destination(r: RouteRule, f: Flow) {
    || AnyName("exact", r.domain, f) || AnyName("suffix", r.domainSuffix, f)
    || AnyName("keyword", r.domainKeyword, f) || AnyName("regex", r.domainRegex, f)
    || (exists a :: a in r.ipCidr && a in f.ranges)
    || (exists t :: t in r.ruleSet && Listed(t, f))
  }

  /** So are the two port keys. */
  ghost predicate Port(r: RouteRule, f: Flow) {
    f.port in r.port || exists p :: p in r.portRange && p.0 <= f.port <= p.1
  }

  /** All other keys must hold. The protocol is known only once the flow was sniffed. */
  ghost predicate Hits(r: RouteRule, f: Flow, sniffed: bool) {
    && (NoDestination(r) || Destination(r, f))
    && ((r.port == [] && r.portRange == []) || Port(r, f))
    && (r.processName == [] || f.process in r.processName)
    && (r.network == [] || f.network in r.network)
    && (r.protocol == "" || (sniffed && f.dns && r.protocol == "dns"))
  }

  predicate Unconditional(r: RouteRule) {
    NoDestination(r) && r.port == [] && r.portRange == [] && r.processName == [] && r.network == [] && r.protocol == ""
  }

  datatype Verdict = Hijacked | Via(outbound: string)

  /** First match, where sniffing only looks and goes on. */
  ghost function Evaluate(rules: seq<RouteRule>, f: Flow, sniffed: bool): Option<Verdict> {
    if rules == [] then None
    else if !Hits(rules[0], f, sniffed) then Evaluate(rules[1..], f, sniffed)
    else if rules[0].action == "sniff" then Evaluate(rules[1..], f, true)
    else if rules[0].action == "hijack-dns" then Some(Hijacked)
    else Some(Via(rules[0].outbound))
  }

  ghost function RouteVerdict(rules: seq<RouteRule>, final: string, f: Flow): Verdict {
    var v := Evaluate(rules, f, false);
    if v.Some? then v.value else Via(final)
  }

  // ---------------------------------------------------------------- the compiler

  function Values(l: seq<DomainMatcher>, kind: string): seq<string> {
    if l == [] then []
    else Values(l[..|l| - 1], kind) + if l[|l| - 1].kind == kind then [l[|l| - 1].value] else []
  }

  function Singles(l: seq<PortSpec>): seq<nat> {
    if l == [] then [] else Singles(l[..|l| - 1]) + if l[|l| - 1].single != 0 then [l[|l| - 1].single] else []
  }

  function Ranges(l: seq<PortSpec>): seq<(nat, nat)> {
    if l == [] then []
    else Ranges(l[..|l| - 1]) + if l[|l| - 1].single != 0 then [] else [(l[|l| - 1].from, l[|l| - 1].to)]
  }

  function Tag(g: string): seq<string> {
    if Starts(g, "geosite:") then ["geosite-" + g[8..]]
    else if Starts(g, "geoip:") then ["geoip-" + g[6..]]
    else []
  }

  function Tags(l: seq<string>): seq<string> {
    if l == [] then [] else Tags(l[..|l| - 1]) + Tag(l[|l| - 1])
  }

  function RuleOf(r: Rule): RouteRule {
    var c := r.conditions;
    RouteRule(r.action, "", "", c.processes, c.protocols, Singles(c.ports), Ranges(c.ports), c.ipCidrs,
              Values(c.domains, "exact"), Values(c.domains, "suffix"), Values(c.domains, "keyword"),
              Values(c.domains, "regex"), Tags(c.geo))
  }

  function RulesOf(rules: seq<Rule>): (r: seq<RouteRule>)
    ensures |r| == |rules| && forall i :: 0 <= i < |r| ==> r[i] == RuleOf(rules[i])
  {
    seq(|rules|, i requires 0 <= i < |rules| => RuleOf(rules[i]))
  }

  method CompileRule(r: Rule) returns (out: RouteRule)
    ensures out == RuleOf(r)
  {
    var c := r.conditions;
    var singles: seq<nat>, ranges: seq<(nat, nat)> := [], [];
    for i := 0 to |c.ports|
      invariant singles == Singles(c.ports[..i]) && ranges == Ranges(c.ports[..i])
    {
      assert c.ports[..i + 1][..i] == c.ports[..i];
      if c.ports[i].single != 0 {
        singles := singles + [c.ports[i].single];
      } else {
        ranges := ranges + [(c.ports[i].from, c.ports[i].to)];
      }
    }
    assert c.ports[..|c.ports|] == c.ports;
    var domain, suffix, keyword, regex := SplitDomains(c.domains);
    var ruleset: seq<string> := [];
    for i := 0 to |c.geo|
      invariant ruleset == Tags(c.geo[..i])
    {
      assert c.geo[..i + 1][..i] == c.geo[..i];
      if Starts(c.geo[i], "geosite:") {
        ruleset := ruleset + ["geosite-" + c.geo[i][8..]];
      } else if Starts(c.geo[i], "geoip:") {
        ruleset := ruleset + ["geoip-" + c.geo[i][6..]];
      }
    }
    assert c.geo[..|c.geo|] == c.geo;
    out := Blank().(outbound := r.action, processName := c.processes, ipCidr := c.ipCidrs, network := c.protocols,
                    port := singles, portRange := ranges, domain := domain, domainSuffix := suffix,
                    domainKeyword := keyword, domainRegex := regex, ruleSet := ruleset);
  }

  /** The switch on the kind has no default: a matcher of an unknown kind is dropped. */
  method SplitDomains(l: seq<DomainMatcher>) returns (domain: seq<string>, suffix: seq<string>, keyword: seq<string>, regex: seq<string>)
    ensures domain == Values(l, "exact") && suffix == Values(l, "suffix")
    ensures keyword == Values(l, "keyword") && regex == Values(l, "regex")
  {
    domain, suffix, keyword, regex := [], [], [], [];
    for i := 0 to |l|
      invariant domain == Values(l[..i], "exact") && suffix == Values(l[..i], "suffix")
      invariant keyword == Values(l[..i], "keyword") && regex == Values(l[..i], "regex")
    {
      assert l[..i + 1][..i] == l[..i];
      var d := l[i];
      if d.kind == "exact" {
        domain := domain + [d.value];
      } else if d.kind == "suffix" {
        suffix := suffix + [d.value];
      } else if d.kind == "keyword" {
        keyword := keyword + [d.value];
      } else if d.kind == "regex" {
        regex := regex + [d.value];
      }
    }
    assert l[..|l|] == l;
  }

  /** Compilation refuses exactly the models that do not validate. */
  method Compile(m: Model, syntax: Syntax) returns (r: Result<Compiled>)
    ensures r.Ok? == ValidModel(m, syntax)
    ensures r.Ok? ==> r.value == Compiled(m.defaultAction, RulesOf(InForce(m.groups)))
  {
    var valid := Validate(m, syntax);
    if !valid {
      return Err;
    }
    var out: seq<RouteRule> := [];
    for gi := 0 to |m.groups|
      invariant out == RulesOf(InForce(m.groups[..gi]))
    {
      assert m.groups[..gi + 1][..gi] == m.groups[..gi];
      if m.groups[gi].enabled {
        var compiled := CompileActive(m.groups[gi].rules);
        RulesOfConcat(InForce(m.groups[..gi]), Active(m.groups[gi].rules));
        out := out + compiled;
      }
    }
    assert m.groups[..|m.groups|] == m.groups;
    return Ok(Compiled(m.defaultAction, out));
  }

  method CompileActive(rules: seq<Rule>) returns (out: seq<RouteRule>)
    ensures out == RulesOf(Active(rules))
  {
    out := [];
    for ri := 0 to |rules|
      invariant out == RulesOf(Active(rules[..ri]))
    {
      assert rules[..ri + 1][..ri] == rules[..ri];
      if rules[ri].enabled {
        var compiled := CompileRule(rules[ri]);
        RulesOfConcat(Active(rules[..ri]), [rules[ri]]);
        out := out + [compiled];
      }
    }
    assert rules[..|rules|] == rules;
  }

  lemma RulesOfConcat(a: seq<Rule>, b: seq<Rule>)
    ensures RulesOf(a + b) == RulesOf(a) + RulesOf(b)
  {}

  // ---------------------------------------------------------------- a rule and its compilation

  lemma {:induction false} ValuesAre(l: seq<DomainMatcher>, kind: string)
    ensures forall v :: v in Values(l, kind) <==> DomainMatcher(kind, v) in l
  {
    if l != [] {
      ValuesAre(l[..|l| - 1], kind);
      assert l == l[..|l| - 1] + [l[|l| - 1]];
    }
  }

  lemma {:induction false} PortsAre(l: seq<PortSpec>, port: nat)
    ensures (exists p :: p in l && Covers(p, port)) ==
            (port in Singles(l) || exists p :: p in Ranges(l) && p.0 <= port <= p.1)
    ensures (Singles(l) == [] && Ranges(l) == []) == (l == [])
    requires forall p :: p in l ==> ValidPort(p)
  {
    if l != [] {
      var init, last := l[..|l| - 1], l[|l| - 1];
      PortsAre(init, port);
      assert l == init + [last];
      assert last in l;
      if Covers(last, port) && last.single == 0 {
        assert (last.from, last.to) in Ranges(l);
      }
      if exists p :: p in Ranges(init) && p.0 <= port <= p.1 {
        var p :| p in Ranges(init) && p.0 <= port <= p.1;
        assert p in Ranges(l);
      }
    }
  }

  /** The tag of a geo entry names the list the entry means. */
  lemma TagMeans(g: string, f: Flow)
    requires ValidGeo(g)
    ensures |Tag(g)| == 1 && Listed(Tag(g)[0], f) == Located(g, f)
  {
    var tag := Tag(g)[0];
    if Starts(g, "geosite:") {
      assert tag[..8] == "geosite-" && tag[8..] == g[8..];
      assert tag[3] == 's' && g[3] == 's';
      assert "geoip-"[3] == 'i' && "geoip:"[3] == 'i';
    } else {
      assert tag[..6] == "geoip-" && tag[6..] == g[6..];
      assert tag[3] == 'i' && "geosite-"[3] == 's';
    }
  }

  lemma {:induction false} TagsMean(l: seq<string>, f: Flow)
    requires forall g :: g in l ==> ValidGeo(g)
    ensures (exists g :: g in l && Located(g, f)) == (exists t :: t in Tags(l) && Listed(t, f))
    ensures (Tags(l) == []) == (l == [])
  {
    if l != [] {
      var init, last := l[..|l| - 1], l[|l| - 1];
      TagsMean(init, f);
      assert l == init + [last];
      TagMeans(last, f);
      assert Tags(l) == Tags(init) + [Tag(last)[0]];
    }
  }

  lemma NamesMean(c: Conditions, syntax: Syntax, r: RouteRule, f: Flow)
    requires ValidConditions(c, syntax)
    requires r.domain == Values(c.domains, "exact") && r.domainSuffix == Values(c.domains, "suffix")
    requires r.domainKeyword == Values(c.domains, "keyword") && r.domainRegex == Values(c.domains, "regex")
    ensures NameMatches(c, f) ==
            (AnyName("exact", r.domain, f) || AnyName("suffix", r.domainSuffix, f) ||
             AnyName("keyword", r.domainKeyword, f) || AnyName("regex", r.domainRegex, f))
    ensures (r.domain + r.domainSuffix + r.domainKeyword + r.domainRegex == []) == (c.domains == [])
  {
    ValuesAre(c.domains, "exact");
    ValuesAre(c.domains, "suffix");
    ValuesAre(c.domains, "keyword");
    ValuesAre(c.domains, "regex");
    if NameMatches(c, f) {
      var d :| d in c.domains && d in f.names;
      assert ValidDomain(d, syntax) && d == DomainMatcher(d.kind, d.value);
      assert d.value in Values(c.domains, d.kind);
    }
    if c.domains != [] {
      var d := c.domains[0];
      assert d in c.domains && ValidDomain(d, syntax) && d == DomainMatcher(d.kind, d.value);
      assert d.value in Values(c.domains, d.kind);
    }
  }

  /** How many of the three kinds of destination tests a rule uses. */
  function DestinationKinds(c: Conditions): nat {
    (if c.domains == [] then 0 else 1) + (if c.ipCidrs == [] then 0 else 1) + (if c.geo == [] then 0 else 1)
  }

  /** The conditions with the kinds of destination tests as alternatives: all that sing-box can express. */
  ghost predicate AppliesTo(c: Conditions, f: Flow) {
    && (DestinationKinds(c) == 0 || NameMatches(c, f) || AddressMatches(c, f) || PlaceMatches(c, f))
    && (c.ports == [] || PortMatches(c, f))
    && (c.processes == [] || f.process in c.processes)
    && (c.protocols == [] || f.network in c.protocols)
  }

  /** Compilation keeps every test of a valid rule, but turns the destination kinds into alternatives. */
  lemma CompiledMeans(r: Rule, syntax: Syntax, f: Flow, sniffed: bool)
    requires ValidRule(r, syntax)
    ensures Hits(RuleOf(r), f, sniffed) == AppliesTo(r.conditions, f)
  {
    var c, o := r.conditions, RuleOf(r);
    NamesMean(c, syntax, o, f);
    TagsMean(c.geo, f);
    PortsAre(c.ports, f.port);
    assert Destination(o, f) == (NameMatches(c, f) || AddressMatches(c, f) || PlaceMatches(c, f));
    assert NoDestination(o) == (DestinationKinds(c) == 0) by {
      var names := o.domain + o.domainSuffix + o.domainKeyword + o.domainRegex;
      assert |names + o.ipCidr + o.ruleSet| == |names| + |o.ipCidr| + |o.ruleSet|;
    }
  }

  /** A valid rule compiles to one that applies to the same traffic exactly when it uses at most one kind of
      destination test: the rules mean all kinds, sing-box means any. */
  lemma RuleKeepsItsMeaning(r: Rule, syntax: Syntax)
    requires ValidRule(r, syntax)
    ensures (forall f: Flow :: Hits(RuleOf(r), f, true) == Matches(r.conditions, f)) == (DestinationKinds(r.conditions) <= 1)
  {
    if DestinationKinds(r.conditions) <= 1 {
      forall f: Flow ensures Hits(RuleOf(r), f, true) == Matches(r.conditions, f) {
        OneKindMeans(r, syntax, f, true);
      }
    } else {
      var f := OneSided(r, syntax);
    }
  }

  lemma OneKindMeans(r: Rule, syntax: Syntax, f: Flow, sniffed: bool)
    requires ValidRule(r, syntax) && DestinationKinds(r.conditions) <= 1
    ensures Hits(RuleOf(r), f, sniffed) == Matches(r.conditions, f)
  {
    CompiledMeans(r, syntax, f, sniffed);
  }

  /** With two kinds there is a flow that passes one of them only, and everything else. */
  lemma OneSided(r: Rule, syntax: Syntax) returns (f: Flow)
    requires ValidRule(r, syntax) && DestinationKinds(r.conditions) >= 2
    ensures Hits(RuleOf(r), f, true) && !Matches(r.conditions, f)
  {
    var c := r.conditions;
    var port := if c.ports == [] then 0 else if c.ports[0].single != 0 then c.ports[0].single else c.ports[0].from;
    f := Flow(if c.processes == [] then "" else c.processes[0],
              if c.protocols == [] then "" else c.protocols[0], port, false,
              if c.domains == [] then {} else {c.domains[0]},
              if c.domains == [] then {c.ipCidrs[0]} else {}, {}, {});
    if c.ports != [] {
      assert c.ports[0] in c.ports && ValidPort(c.ports[0]);
      assert Covers(c.ports[0], f.port);
    }
    if c.domains == [] {
      assert c.ipCidrs[0] in c.ipCidrs && AddressMatches(c, f);
    } else {
      assert c.domains[0] in c.domains && NameMatches(c, f);
    }
    assert !PlaceMatches(c, f);
    CompiledMeans(r, syntax, f, true);
  }

  // ---------------------------------------------------------------- nothing compiles to a rule for everything

  /** Some test of the rule survives the compiler's switches. */
  ghost predicate SomeTestCompiles(c: Conditions) {
    || c.processes != [] || c.ipCidrs != [] || c.protocols != [] || c.ports != []
    || (exists d :: d in c.domains && KnownKind(d.kind))
    || (exists g :: g in c.geo && ValidGeo(g))
  }

  lemma {:induction false} PortsCompile(l: seq<PortSpec>)
    ensures (Singles(l) == [] && Ranges(l) == []) == (l == [])
  {}

  lemma {:induction false} TagsCompile(l: seq<string>)
    ensures (Tags(l) != []) == exists g :: g in l && ValidGeo(g)
  {
    if l != [] {
      TagsCompile(l[..|l| - 1]);
      assert l == l[..|l| - 1] + [l[|l| - 1]];
      assert (Tag(l[|l| - 1]) != []) == ValidGeo(l[|l| - 1]);
    }
  }

  lemma ValuesCompile(l: seq<DomainMatcher>)
    ensures (Values(l, "exact") + Values(l, "suffix") + Values(l, "keyword") + Values(l, "regex") != []) ==
            exists d :: d in l && KnownKind(d.kind)
  {}

  /** Any rule, valid or not, compiles to one for all traffic exactly when none of its tests survives. */
  lemma UnconditionalExactly(r: Rule)
    ensures Unconditional(RuleOf(r)) == !SomeTestCompiles(r.conditions)
  {
    var c, o := r.conditions, RuleOf(r);
    PortsCompile(c.ports);
    TagsCompile(c.geo);
    ValuesCompile(c.domains);
    var names := o.domain + o.domainSuffix + o.domainKeyword + o.domainRegex;
    assert |names + o.ipCidr + o.ruleSet| == |names| + |o.ipCidr| + |o.ruleSet|;
  }

  /** Validation is what rules it out. */
  lemma ValidIsConditional(r: Rule, syntax: Syntax)
    requires ValidRule(r, syntax)
    ensures !Unconditional(RuleOf(r))
  {
    UnconditionalExactly(r);
    var c := r.conditions;
    if c.domains != [] {
      assert c.domains[0] in c.domains && ValidDomain(c.domains[0], syntax);
    }
    if c.geo != [] {
      assert c.geo[0] in c.geo && ValidGeo(c.geo[0]);
    }
  }

  /** Without it a misspelt kind would capture everything, though the rule itself applies to nothing here. */
  lemma MisspeltKindCapturesAll(action: string, f: Flow)
    requires f.names == {}
    ensures var r := Rule("r1", true, action, Conditions([], [DomainMatcher("suffx", "example.org")], [], [], [], []));
            Hits(RuleOf(r), f, true) && !Matches(r.conditions, f)
  {}

  // ---------------------------------------------------------------- the whole model

  lemma {:induction false} ActiveAre(rules: seq<Rule>)
    ensures forall r :: r in Active(rules) ==> r in rules
  {
    if rules != [] {
      ActiveAre(rules[..|rules| - 1]);
    }
  }

  lemma {:induction false} InForceAre(groups: seq<Group>, r: Rule)
    requires r in InForce(groups)
    ensures exists g :: g in groups && r in g.rules
  {
    var init, g := groups[..|groups| - 1], groups[|groups| - 1];
    ActiveAre(g.rules);
    if r in InForce(init) {
      InForceAre(init, r);
    } else {
      assert g in groups && r in g.rules;
    }
  }

  lemma {:induction false} ActiveIs(rules: seq<Rule>, r: Rule)
    ensures r in Active(rules) <==> r in rules && r.enabled
  {
    if rules != [] {
      ActiveIs(rules[..|rules| - 1], r);
      assert rules == rules[..|rules| - 1] + [rules[|rules| - 1]];
    }
  }

  /** A rule is in force exactly when it is enabled in a group that is. */
  lemma {:induction false} InForceIs(groups: seq<Group>, r: Rule)
    ensures r in InForce(groups) <==> exists g :: g in groups && g.enabled && r in g.rules && r.enabled
  {
    if groups != [] {
      var init, last := groups[..|groups| - 1], groups[|groups| - 1];
      InForceIs(init, r);
      ActiveIs(last.rules, r);
      assert groups == init + [last];
    }
  }

  /** Groups and rules keep their order. */
  lemma {:induction false} InForceInOrder(a: seq<Group>, b: seq<Group>)
    ensures InForce(a + b) == InForce(a) + InForce(b)
  {
    if b == [] {
      assert a + b == a;
    } else {
      assert (a + b)[..|a + b| - 1] == a + b[..|b| - 1];
      InForceInOrder(a, b[..|b| - 1]);
    }
  }

  lemma {:induction false} ActiveInOrder(a: seq<Rule>, b: seq<Rule>)
    ensures Active(a + b) == Active(a) + Active(b)
  {
    if b == [] {
      assert a + b == a;
    } else {
      assert (a + b)[..|a + b| - 1] == a + b[..|b| - 1];
      ActiveInOrder(a, b[..|b| - 1]);
    }
  }

  lemma {:induction false} FirstIsKnown(rules: seq<Rule>, f: Flow)
    requires forall r :: r in rules ==> KnownAction(r.action)
    ensures FirstApplying(rules, f).Some? ==> KnownAction(FirstApplying(rules, f).value)
  {
    if rules != [] {
      assert rules[0] in rules;
      FirstIsKnown(rules[1..], f);
    }
  }

  /** Every verdict of a valid model is one of the three outbounds that the document declares. */
  lemma VerdictIsKnown(m: Model, syntax: Syntax, f: Flow)
    requires ValidModel(m, syntax)
    ensures RouteVerdict(RulesOf(InForce(m.groups)), m.defaultAction, f) in {Via("proxy"), Via("direct"), Via("block")}
  {
    CompiledVerdict(m, syntax, f);
    forall r | r in InForce(m.groups) ensures KnownAction(r.action) {
      InForceAre(m.groups, r);
      var g :| g in m.groups && r in g.rules;
      assert ValidRule(r, syntax);
    }
    FirstIsKnown(InForce(m.groups), f);
  }

  ghost function FirstApplying(rules: seq<Rule>, f: Flow): Option<string> {
    if rules == [] then None
    else if AppliesTo(rules[0].conditions, f) then Some(rules[0].action)
    else FirstApplying(rules[1..], f)
  }

  function Lift(r: Option<string>): Option<Verdict> { if r.Some? then Some(Via(r.value)) else None }

  lemma {:induction false} EvaluateApplies(rules: seq<Rule>, syntax: Syntax, f: Flow, sniffed: bool)
    requires forall r :: r in rules ==> ValidRule(r, syntax)
    ensures Evaluate(RulesOf(rules), f, sniffed) == Lift(FirstApplying(rules, f))
  {
    if rules != [] {
      assert rules[0] in rules;
      CompiledMeans(rules[0], syntax, f, sniffed);
      assert RulesOf(rules)[1..] == RulesOf(rules[1..]);
      EvaluateApplies(rules[1..], syntax, f, sniffed);
    }
  }

  lemma ModelApplies(m: Model, syntax: Syntax, f: Flow, sniffed: bool)
    requires ValidModel(m, syntax)
    ensures Evaluate(RulesOf(InForce(m.groups)), f, sniffed) == Lift(FirstApplying(InForce(m.groups), f))
  {
    var rules := InForce(m.groups);
    forall r | r in rules ensures ValidRule(r, syntax) {
      InForceAre(m.groups, r);
      var g :| g in m.groups && r in g.rules;
    }
    EvaluateApplies(rules, syntax, f, sniffed);
  }

  /** The verdict of the compiled route of any valid model on every flow: the first rule in force that applies, with
      the kinds of destination tests as alternatives, and else the default action. */
  lemma CompiledVerdict(m: Model, syntax: Syntax, f: Flow)
    requires ValidModel(m, syntax)
    ensures RouteVerdict(RulesOf(InForce(m.groups)), m.defaultAction, f) ==
            var r := FirstApplying(InForce(m.groups), f); Via(if r.Some? then r.value else m.defaultAction)
  {
    ModelApplies(m, syntax, f, false);
  }

  /** Every rule in force uses at most one kind of destination test. */
  ghost predicate OneKindEach(m: Model) {
    forall r :: r in InForce(m.groups) ==> DestinationKinds(r.conditions) <= 1
  }

  lemma {:induction false} ReadingsAgree(rules: seq<Rule>, f: Flow)
    requires forall r :: r in rules ==> DestinationKinds(r.conditions) <= 1
    ensures FirstApplying(rules, f) == FirstMatch(rules, f)
  {
    if rules != [] {
      assert rules[0] in rules;
      ReadingsAgree(rules[1..], f);
    }
  }

  /** Where every rule keeps its meaning, that is the verdict of the model itself. */
  lemma ModelVerdictKept(m: Model, syntax: Syntax, f: Flow)
    requires ValidModel(m, syntax) && OneKindEach(m)
    ensures RouteVerdict(RulesOf(InForce(m.groups)), m.defaultAction, f) == Via(ModelVerdict(m, f))
  {
    CompiledVerdict(m, syntax, f);
    ReadingsAgree(InForce(m.groups), f);
  }
}
