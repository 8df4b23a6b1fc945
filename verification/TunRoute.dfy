/** The route block of the generated sing-box document: the compiled rules, and what is wrapped around them. */
module TunRoute {
  import opened Base
  import opened Rules
  import opened RuleCompiler

  datatype Input = Input(tun: bool, allowLan: bool, tunIPv6: string, fakeIPv6Range: string)

  function LanRanges(): seq<string> {
    ["10.0.0.0/8", "172.16.0.0/12", "192.168.0.0/16", "127.0.0.0/8", "fc00::/7", "fe80::/10", "224.0.0.0/4"]
  }

  function Sniff(): RouteRule { Blank().(action := "sniff") }

  function HijackDns(): RouteRule { Blank().(protocol := "dns", action := "hijack-dns") }

  function LanBypass(): RouteRule { Blank().(ipCidr := LanRanges(), outbound := "direct") }

  function BlockV6(): RouteRule { Blank().(ipCidr := ["::/0"], outbound := "block") }

  function CatchAll(): RouteRule { Blank().(outbound := "proxy") }

  predicate LanDirect(r: RouteRule) { r.outbound == "direct" && forall c :: c in LanRanges() ==> c in r.ipCidr }

  /** Some rule sends all the LAN ranges direct, whatever else it asks for and wherever it stands. */
  predicate HasEquivalent(rules: seq<RouteRule>) { exists i :: 0 <= i < |rules| && LanDirect(rules[i]) }

  function AfterFirst(rules: seq<RouteRule>, more: seq<RouteRule>): seq<RouteRule> {
    if rules == [] then more else [rules[0]] + more + rules[1..]
  }

  function Tail(blockV6: bool): seq<RouteRule> { (if blockV6 then [BlockV6()] else []) + [CatchAll()] }

  predicate BlocksV6(i: Input) { i.tunIPv6 != "" && i.fakeIPv6Range == "" }

  // ---------------------------------------------------------------- building it

  class Route {
    var final: string
    var rules: seq<RouteRule>

    constructor (compiled: Compiled)
      ensures final == compiled.final && rules == compiled.rules
    {
      final, rules := compiled.final, compiled.rules;
    }

    method HasEquivalentLanBypass() returns (found: bool)
      ensures found == HasEquivalent(rules)
    {
      var i := 0;
      found := false;
      while i < |rules| && !found
        invariant i <= |rules| && found == HasEquivalent(rules[..i])
      {
        found := SendsLanDirect(rules[i]);
        assert rules[..i + 1] == rules[..i] + [rules[i]];
        HasEquivalentSnoc(rules[..i], rules[i]);
        i := i + 1;
      }
      if found {
        assert rules == rules[..i] + rules[i..];
      } else {
        assert rules[..i] == rules;
      }
    }

    /** Right after the first rule. */
    method PrependLanBypass()
      modifies this`rules
      ensures rules == AfterFirst(old(rules), [LanBypass()])
    {
      if rules == [] {
        rules := [LanBypass()];
      } else {
        rules := [rules[0], LanBypass()] + rules[1..];
      }
    }

    /** DNS is hijacked before the LAN goes direct, both right after the sniffing; whatever is left over is
        proxied, after global IPv6 is blocked where it must not be tunnelled. */
    method ApplyTunModeKillswitch(lanBypassPrepended: bool, blockV6: bool)
      modifies this
      ensures final == "block"
      ensures rules ==
              AfterFirst(old(rules), [HijackDns()] + if lanBypassPrepended || HasEquivalent(old(rules)) then [] else [LanBypass()])
              + Tail(blockV6)
    {
      final := "block";
      var equivalent := HasEquivalentLanBypass();
      var inserted := DnsRules(!(lanBypassPrepended || equivalent));
      rules := if |rules| > 0 then [rules[0]] + inserted + rules[1..] else inserted;
      var tail := TailRules(blockV6);
      rules := rules + tail;
    }
  }

  method DnsRules(lan: bool) returns (l: seq<RouteRule>)
    ensures l == [HijackDns()] + if lan then [LanBypass()] else []
  {
    l := [HijackDns()];
    if lan {
      l := l + [LanBypass()];
    }
  }

  method TailRules(blockV6: bool) returns (l: seq<RouteRule>)
    ensures l == Tail(blockV6)
  {
    l := [];
    if blockV6 {
      l := l + [BlockV6()];
    }
    l := l + [CatchAll()];
  }

  method SendsLanDirect(r: RouteRule) returns (all: bool)
    ensures all == LanDirect(r)
  {
    all := r.outbound == "direct";
    var lan := LanRanges();
    for j := 0 to |lan|
      invariant all == (r.outbound == "direct" && forall c :: c in lan[..j] ==> c in r.ipCidr)
    {
      assert lan[..j + 1] == lan[..j] + [lan[j]];
      all := all && lan[j] in r.ipCidr;
    }
    assert lan[..|lan|] == lan;
  }

  lemma HasEquivalentSnoc(rules: seq<RouteRule>, r: RouteRule)
    ensures HasEquivalent(rules + [r]) == (HasEquivalent(rules) || LanDirect(r))
  {
    assert (rules + [r])[|rules|] == r;
    if i :| 0 <= i < |rules| && LanDirect(rules[i]) {
      assert LanDirect((rules + [r])[i]);
    }
  }

  /** The rules of the generated route, from the rules in force. */
  function Wrapped(compiled: seq<RouteRule>, i: Input): seq<RouteRule> {
    if i.tun then
      [Sniff(), HijackDns()] + (if i.allowLan || !HasEquivalent(compiled) then [LanBypass()] else []) + compiled
      + Tail(BlocksV6(i))
    else [Sniff()] + (if i.allowLan then [LanBypass()] else []) + compiled
  }

  /** The steps of the construction, put together. */
  lemma WrappedInSteps(compiled: seq<RouteRule>, i: Input)
    ensures var sniffing := [Sniff()] + compiled;
            var bypassing := if i.allowLan then AfterFirst(sniffing, [LanBypass()]) else sniffing;
            var dns := [HijackDns()] + if i.allowLan || HasEquivalent(bypassing) then [] else [LanBypass()];
            Wrapped(compiled, i) == if i.tun then AfterFirst(bypassing, dns) + Tail(BlocksV6(i)) else bypassing
  {}

  /** A model that does not validate yields no document. */
  method BuildRoute(m: Model, syntax: Syntax, i: Input) returns (ok: bool, route: Route)
    ensures ok == ValidModel(m, syntax)
    ensures ok ==> route.rules == Wrapped(RulesOf(InForce(m.groups)), i)
    ensures ok ==> route.final == if i.tun then "block" else m.defaultAction
  {
    var compiled := Compile(m, syntax);
    if compiled.Err? {
      route := new Route(Compiled("", []));
      return false, route;
    }
    ok := true;
    route := new Route(compiled.value);
    route.rules := [Sniff()] + route.rules;
    if i.allowLan {
      route.PrependLanBypass();
    }
    WrappedInSteps(compiled.value.rules, i);
    if i.tun {
      route.ApplyTunModeKillswitch(i.allowLan, BlocksV6(i));
    }
  }

  // ---------------------------------------------------------------- what it does to traffic

  ghost predicate ToLan(f: Flow) { exists c :: c in LanRanges() && c in f.ranges }

  lemma {:induction false} EvaluateConcat(a: seq<RouteRule>, b: seq<RouteRule>, f: Flow, sniffed: bool)
    requires forall i :: 0 <= i < |a| ==> a[i].action == ""
    ensures Evaluate(a + b, f, sniffed) ==
            var v := Evaluate(a, f, sniffed); if v.Some? then v else Evaluate(b, f, sniffed)
  {
    if a == [] {
      assert a + b == b;
    } else {
      assert (a + b)[1..] == a[1..] + b;
      EvaluateConcat(a[1..], b, f, sniffed);
    }
  }

  lemma EvaluateCons(r: RouteRule, b: seq<RouteRule>, f: Flow, sniffed: bool)
    ensures Evaluate([r] + b, f, sniffed) ==
            if !Hits(r, f, sniffed) then Evaluate(b, f, sniffed)
            else if r.action == "sniff" then Evaluate(b, f, true)
            else if r.action == "hijack-dns" then Some(Hijacked)
            else Some(Via(r.outbound))
  {}

  /** When each of the inserted rules applies. */
  lemma InsertedHit(f: Flow, sniffed: bool)
    ensures Hits(Sniff(), f, sniffed) && Hits(CatchAll(), f, sniffed)
    ensures Hits(HijackDns(), f, true) == f.dns
    ensures Hits(LanBypass(), f, sniffed) == ToLan(f)
    ensures Hits(BlockV6(), f, sniffed) == ("::/0" in f.ranges)
  {}

  lemma TailVerdict(blockV6: bool, f: Flow)
    ensures Evaluate(Tail(blockV6), f, true) == Some(Via(if blockV6 && "::/0" in f.ranges then "block" else "proxy"))
  {}

  lemma LanThen(lan: bool, rest: seq<RouteRule>, f: Flow)
    ensures Evaluate((if lan then [LanBypass()] else []) + rest, f, true) ==
            if lan && ToLan(f) then Some(Via("direct")) else Evaluate(rest, f, true)
  {
    InsertedHit(f, true);
    EvaluateCons(LanBypass(), rest, f, true);
    assert [] + rest == rest;
    assert |"sniff"| == 5 && |"hijack-dns"| == 10;
  }

  lemma SniffThenDns(rest: seq<RouteRule>, f: Flow)
    ensures Evaluate([Sniff()] + ([HijackDns()] + rest), f, false) == if f.dns then Some(Hijacked) else Evaluate(rest, f, true)
  {}

  /** In TUN mode, whatever the rules in force compile to and whatever `final` is: the verdict never falls through. */
  lemma WrappedVerdict(compiled: seq<RouteRule>, i: Input, f: Flow, final: string)
    requires i.tun && forall k :: 0 <= k < |compiled| ==> compiled[k].action == ""
    ensures var mine := Evaluate(compiled, f, true);
            RouteVerdict(Wrapped(compiled, i), final, f) ==
            if f.dns then Hijacked
            else if (i.allowLan || !HasEquivalent(compiled)) && ToLan(f) then Via("direct")
            else if mine.Some? then mine.value
            else if BlocksV6(i) && "::/0" in f.ranges then Via("block")
            else Via("proxy")
  {
    var lan := i.allowLan || !HasEquivalent(compiled);
    var rest := compiled + Tail(BlocksV6(i));
    var afterDns := (if lan then [LanBypass()] else []) + rest;
    assert Wrapped(compiled, i) == [Sniff()] + ([HijackDns()] + afterDns);
    SniffThenDns(afterDns, f);
    LanThen(lan, rest, f);
    EvaluateConcat(compiled, Tail(BlocksV6(i)), f, true);
    TailVerdict(BlocksV6(i), f);
  }

  // ---------------------------------------------------------------- the same, naming the traffic

  /** To an address of a private, loopback, link-local or multicast range. */
  predicate ToPrivate(f: Flow) {
    || "10.0.0.0/8" in f.ranges || "172.16.0.0/12" in f.ranges || "192.168.0.0/16" in f.ranges || "127.0.0.0/8" in f.ranges
    || "fc00::/7" in f.ranges || "fe80::/10" in f.ranges || "224.0.0.0/4" in f.ranges
  }

  /** A rule in force sends all seven ranges direct. */
  ghost predicate BypassesAlready(rules: seq<Rule>) {
    exists r :: r in rules && r.action == "direct" && NamesAllPrivate(r.conditions.ipCidrs)
  }

  predicate NamesAllPrivate(l: seq<string>) {
    && "10.0.0.0/8" in l && "172.16.0.0/12" in l && "192.168.0.0/16" in l && "127.0.0.0/8" in l
    && "fc00::/7" in l && "fe80::/10" in l && "224.0.0.0/4" in l
  }

  lemma LanIsPrivate(f: Flow)
    ensures ToLan(f) == ToPrivate(f)
  {
    var l := LanRanges();
    assert l[0] in l && l[1] in l && l[2] in l && l[3] in l && l[4] in l && l[5] in l && l[6] in l;
  }

  lemma DirectNamesAll(r: RouteRule)
    ensures LanDirect(r) == (r.outbound == "direct" && NamesAllPrivate(r.ipCidr))
  {
    var l := LanRanges();
    assert l[0] in l && l[1] in l && l[2] in l && l[3] in l && l[4] in l && l[5] in l && l[6] in l;
  }

  lemma EquivalentBypasses(rules: seq<Rule>)
    ensures HasEquivalent(RulesOf(rules)) == BypassesAlready(rules)
  {
    var compiled := RulesOf(rules);
    forall i | 0 <= i < |rules| ensures LanDirect(compiled[i]) == (rules[i].action == "direct" && NamesAllPrivate(rules[i].conditions.ipCidrs)) {
      DirectNamesAll(compiled[i]);
    }
    if BypassesAlready(rules) {
      var r :| r in rules && r.action == "direct" && NamesAllPrivate(r.conditions.ipCidrs);
      var i :| 0 <= i < |rules| && rules[i] == r;
      assert LanDirect(compiled[i]);
    }
  }

  /** In TUN mode, for every valid model, flow and `final`: DNS is hijacked; traffic to private ranges goes direct, if that
      is allowed or no rule in force says so already; then the first rule that applies decides; then IPv6 is blocked
      exactly when the tunnel has an IPv6 address and there is no fake range for it; and the rest is proxied. So neither
      `final` nor the default action of the model is ever used. */
  lemma TunVerdict(m: Model, syntax: Syntax, i: Input, f: Flow, final: string)
    requires ValidModel(m, syntax) && i.tun
    ensures var rules := InForce(m.groups);
            var mine := FirstApplying(rules, f);
            && RouteVerdict(Wrapped(RulesOf(rules), i), final, f) ==
               (if f.dns then Hijacked
                else if (i.allowLan || !BypassesAlready(rules)) && ToPrivate(f) then Via("direct")
                else if mine.Some? then Via(mine.value)
                else if i.tunIPv6 != "" && i.fakeIPv6Range == "" && "::/0" in f.ranges then Via("block")
                else Via("proxy"))
            && (OneKindEach(m) ==> mine == FirstMatch(rules, f))
  {
    WrappedVerdict(RulesOf(InForce(m.groups)), i, f, final);
    LanIsPrivate(f);
    EquivalentBypasses(InForce(m.groups));
    ModelApplies(m, syntax, f, true);
    if OneKindEach(m) {
      ReadingsAgree(InForce(m.groups), f);
    }
  }

  /** What goes direct in TUN mode does so to a private range, or because a rule of the user says so. */
  lemma OnlyPrivateGoesDirect(m: Model, syntax: Syntax, i: Input, f: Flow, final: string)
    requires ValidModel(m, syntax) && i.tun
    requires RouteVerdict(Wrapped(RulesOf(InForce(m.groups)), i), final, f) == Via("direct")
    ensures !f.dns && (ToPrivate(f) || FirstApplying(InForce(m.groups), f) == Some("direct"))
  {
    TunVerdict(m, syntax, i, f, final);
    assert "block"[0] == 'b' && "proxy"[0] == 'p' && "direct"[0] == 'd';
  }

  /** A bypass the user wrote for one program counts as equivalent, so LAN traffic of the others is proxied. */
  lemma NarrowBypassCounts(i: Input, f: Flow, final: string)
    requires i.tun && !i.allowLan && !BlocksV6(i) && f.process != "ssh" && ToPrivate(f) && !f.dns
    ensures var r := Rule("r1", true, "direct", Conditions(["ssh"], [], LanRanges(), [], [], []));
            RouteVerdict(Wrapped(RulesOf([r]), i), final, f) == Via("proxy")
  {
    var r := Rule("r1", true, "direct", Conditions(["ssh"], [], LanRanges(), [], [], []));
    var compiled := RulesOf([r]);
    assert compiled == [RuleOf(r)] && LanDirect(compiled[0]);
    EvaluateCons(RuleOf(r), [], f, true);
    assert [RuleOf(r)] + [] == compiled;
    WrappedVerdict(compiled, i, f, final);
  }

  /** Otherwise the first rule that applies decides, down to the default action, after the bypass if that is allowed. */
  lemma ProxyModeVerdict(m: Model, syntax: Syntax, i: Input, f: Flow)
    requires ValidModel(m, syntax) && !i.tun
    ensures var mine := FirstApplying(InForce(m.groups), f);
            && RouteVerdict(Wrapped(RulesOf(InForce(m.groups)), i), m.defaultAction, f) ==
               Via(if i.allowLan && ToPrivate(f) then "direct" else if mine.Some? then mine.value else m.defaultAction)
            && (OneKindEach(m) ==> mine == FirstMatch(InForce(m.groups), f))
  {
    var compiled := RulesOf(InForce(m.groups));
    var rest := (if i.allowLan then [LanBypass()] else []) + compiled;
    assert Wrapped(compiled, i) == [Sniff()] + rest;
    InsertedHit(f, false);
    EvaluateCons(Sniff(), rest, f, false);
    assert |"sniff"| == 5 && |"hijack-dns"| == 10;
    LanThen(i.allowLan, compiled, f);
    LanIsPrivate(f);
    ModelApplies(m, syntax, f, true);
    if OneKindEach(m) {
      ReadingsAgree(InForce(m.groups), f);
    }
  }
}
