/**
 The two stored lists, subscriptions and servers, and the transactions on them.
 Every transaction runs under the store lock: it loads, changes and saves in one atomic step.
 */
module Stores {
  import opened Base
  import opened Text
  import opened Vless
  import opened Servers
  import opened Merging

  datatype Sub = Sub(id: string, url: string)

  datatype Disk = Disk(subs: seq<Sub>, servers: seq<Server>)

  datatype Txn =
    | AddSub(sub: string, url: string)
    | RemoveSub(sub: string)
    | EditSub(sub: string, url: string)
    | Commit(sub: string, url: string, incoming: seq<Server>)
    | Flip(id: Id)
    | Measure(latencies: map<Id, Option<nat>>)
    | AddServer(id: Id, name: string, config: Config)
    | RemoveServer(id: Id, active: Option<Id>)
    | EditServer(id: Id, name: string, config: Config)

  // ---------------------------------------------------------------- building servers

  function HostPort(address: string, port: nat): string {
    (if ':' in address then "[" + address + "]" else address) + ":" + Decimal(port)
  }

  function Shown(name: string, c: Config): string {
    if name != "" then name else if c.remark != "" then c.remark else HostPort(c.address, c.port)
  }

  function New(c: Config, src: string): Server {
    Server(StableID(c), Subscription, src, Shown("", c), c.remark, c, [], None, false, false)
  }

  function Built(configs: seq<Config>, src: string): (r: seq<Server>)
    ensures |r| == |configs| && forall i :: 0 <= i < |r| ==> r[i] == New(configs[i], src)
  {
    seq(|configs|, i requires 0 <= i < |configs| => New(configs[i], src))
  }

  /** The servers a fetched document declares, without repeats. */
  method FetchParse(configs: seq<Config>, src: string) returns (incoming: seq<Server>)
    ensures incoming == Unique(Built(configs, src)) && Fresh(incoming, src)
  {
    var seen: set<Config>;
    incoming, seen := [], {};
    for i := 0 to |configs|
      invariant incoming == Unique(Built(configs[..i], src)) && seen == Conns(incoming) && Fresh(incoming, src)
    {
      ghost var l := Built(configs[..i + 1], src);
      assert l[..|l| - 1] == Built(configs[..i], src);
      if ConnectionID(configs[i]) !in seen {
        seen := seen + {ConnectionID(configs[i])};
        ConnsSnoc(incoming, New(configs[i], src));
        incoming := incoming + [New(configs[i], src)];
      }
    }
    assert configs[..|configs|] == configs;
  }

  // ---------------------------------------------------------------- lists

  function Without(l: seq<Server>, src: string): seq<Server> {
    if l == [] then []
    else Without(l[..|l| - 1], src) + if l[|l| - 1].source == src then [] else [l[|l| - 1]]
  }

  function Except(l: seq<Server>, id: Id): seq<Server> {
    if l == [] then []
    else Except(l[..|l| - 1], id) + if l[|l| - 1].id == id then [] else [l[|l| - 1]]
  }

  function SubsExcept(l: seq<Sub>, id: string): seq<Sub> {
    if l == [] then []
    else SubsExcept(l[..|l| - 1], id) + if l[|l| - 1].id == id then [] else [l[|l| - 1]]
  }

  /** What a transaction does to one server that stays in the list. */
  function Touch(t: Txn, s: Server): (r: Server)
    ensures r.id == s.id && r.origin == s.origin && r.source == s.source
    ensures s.origin == Subscription ==> r.vless == s.vless
  {
    match t
    case Flip(id) => if s.id == id then s.(favorite := !s.favorite) else s
    case Measure(m) => if s.id in m then s.(latency := m[s.id]) else s
    case EditServer(id, name, c) =>
      if s.id == id && s.origin == Manual then s.(name := Shown(name, c), remark := c.remark, vless := c) else s
    case _ => s
  }

  function Touched(t: Txn, l: seq<Server>): (r: seq<Server>)
    ensures |r| == |l| && forall i :: 0 <= i < |l| ==> r[i] == Touch(t, l[i])
  {
    seq(|l|, i requires 0 <= i < |l| => Touch(t, l[i]))
  }

  function Moved(l: seq<Sub>, id: string, url: string): (r: seq<Sub>)
    ensures |r| == |l| && forall i :: 0 <= i < |l| ==> r[i] == if l[i].id == id then Sub(id, url) else l[i]
  {
    seq(|l|, i requires 0 <= i < |l| => if l[i].id == id then Sub(id, url) else l[i])
  }

  predicate HasSub(l: seq<Sub>, id: string) { exists i :: 0 <= i < |l| && l[i].id == id }

  predicate Removable(d: Disk, id: Id, active: Option<Id>) {
    active != Some(id) &&
    exists i :: 0 <= i < |d.servers| && d.servers[i].id == id &&
      (d.servers[i].origin == Manual || !HasSub(d.subs, d.servers[i].source))
  }

  function Apply(d: Disk, t: Txn): Disk {
    match t
    case AddSub(id, url) => d.(subs := d.subs + [Sub(id, url)])
    case RemoveSub(id) => Disk(SubsExcept(d.subs, id), Without(d.servers, id))
    case EditSub(id, url) =>
      if HasSub(d.subs, id) && Sub(id, url) !in d.subs then Disk(Moved(d.subs, id, url), Without(d.servers, id)) else d
    case Commit(id, url, incoming) =>
      if Sub(id, url) in d.subs then d.(servers := Merged(d.servers, incoming, id)) else d
    case AddServer(id, name, c) =>
      d.(servers := d.servers + [Server(id, Manual, "", Shown(name, c), c.remark, c, [], None, false, false)])
    case RemoveServer(id, active) =>
      if Removable(d, id, active) then d.(servers := Except(d.servers, id)) else d
    case _ => d.(servers := Touched(t, d.servers))
  }

  predicate SubsDistinct(l: seq<Sub>) { forall i, j :: 0 <= i < j < |l| ==> l[i].id != l[j].id }

  // ---------------------------------------------------------------- the stores

  class Store {
    var subs: seq<Sub>
    var servers: seq<Server>

    constructor ()
      ensures Valid() && Contents() == Disk([], [])
    {
      subs, servers := [], [];
    }

    ghost predicate Valid()
      reads this
    {
      SubsDistinct(subs) && Distinct(servers)
    }

    ghost function Contents(): Disk
      reads this
    {
      Disk(subs, servers)
    }

    method FindSub(id: string) returns (i: nat)
      ensures i <= |subs| && (forall j :: 0 <= j < i ==> subs[j].id != id) && (i < |subs| ==> subs[i].id == id)
      ensures HasSub(subs, id) == (i < |subs|)
    {
      i := 0;
      while i < |subs| && subs[i].id != id
        invariant i <= |subs| && forall j :: 0 <= j < i ==> subs[j].id != id
      {
        i := i + 1;
      }
    }

    method FindServer(id: Id) returns (i: nat)
      ensures i <= |servers| && (forall j :: 0 <= j < i ==> servers[j].id != id)
      ensures i < |servers| ==> servers[i].id == id
    {
      i := 0;
      while i < |servers| && servers[i].id != id
        invariant i <= |servers| && forall j :: 0 <= j < i ==> servers[j].id != id
      {
        i := i + 1;
      }
    }

    /** The identifier is freshly generated. */
    method AddSubscription(id: string, url: string)
      requires Valid() && !HasSub(subs, id)
      modifies this
      ensures Valid() && Contents() == Apply(old(Contents()), AddSub(id, url))
    {
      subs := subs + [Sub(id, url)];
    }

    method DropServersOf(id: string)
      requires Valid()
      modifies this`servers
      ensures Valid() && servers == Without(old(servers), id)
    {
      var kept: seq<Server> := [];
      for i := 0 to |servers|
        invariant kept == Without(servers[..i], id)
      {
        assert servers[..i + 1][..i] == servers[..i];
        if servers[i].source != id {
          kept := kept + [servers[i]];
        }
      }
      assert servers[..|servers|] == servers;
      WithoutFacts(servers, id);
      servers := kept;
    }

    /** The subscription and every server carrying its identifier as their source go together. */
    method RemoveSubscription(id: string)
      requires Valid()
      modifies this
      ensures Valid() && Contents() == Apply(old(Contents()), RemoveSub(id))
    {
      var out: seq<Sub> := [];
      for i := 0 to |subs|
        invariant out == SubsExcept(subs[..i], id)
      {
        assert subs[..i + 1][..i] == subs[..i];
        if subs[i].id != id {
          out := out + [subs[i]];
        }
      }
      assert subs[..|subs|] == subs;
      SubsExceptFacts(subs, id);
      subs := out;
      DropServersOf(id);
    }

    /** A changed URL drops the servers that came from the former one. */
    method EditSubscription(id: string, url: string) returns (found: bool)
      requires Valid()
      modifies this
      ensures Valid() && Contents() == Apply(old(Contents()), EditSub(id, url))
      ensures found == old(HasSub(subs, id))
    {
      var i := FindSub(id);
      found := i < |subs|;
      if found && subs[i].url != url {
        DropServersOf(id);
        var moved := subs[i := Sub(id, url)];
        assert moved == Moved(subs, id, url);
        subs := moved;
      }
    }

    /** The locked half of a sync: nothing happens unless the subscription still has the URL fetched from. */
    method CommitSync(id: string, url: string, incoming: seq<Server>) returns (matches: bool)
      requires Valid()
      modifies this`servers
      ensures Valid() && Contents() == Apply(old(Contents()), Commit(id, url, incoming))
      ensures matches == (Sub(id, url) in subs)
    {
      matches := false;
      var i := 0;
      while i < |subs| && !matches
        invariant i <= |subs| && matches == (Sub(id, url) in subs[..i])
      {
        matches := subs[i].id == id && subs[i].url == url;
        assert subs[..i + 1] == subs[..i] + [subs[i]];
        i := i + 1;
      }
      if matches {
        MergeKeepsIdsApart(servers, incoming, id);
        servers := Merge(servers, incoming, id);
      }
    }

    method ToggleFavorite(id: Id) returns (found: bool)
      requires Valid()
      modifies this`servers
      ensures Valid() && Contents() == Apply(old(Contents()), Flip(id))
      ensures found == old(id in Ids(servers))
    {
      var i := FindServer(id);
      found := i < |servers|;
      ghost var was := servers;
      if found {
        servers := servers[i := servers[i].(favorite := !servers[i].favorite)];
      }
      assert servers == Touched(Flip(id), was);
    }

    /** Latencies measured outside the lock are applied by identifier to a fresh read. */
    method ApplyLatencies(latencies: map<Id, Option<nat>>)
      requires Valid()
      modifies this`servers
      ensures Valid() && Contents() == Apply(old(Contents()), Measure(latencies))
    {
      var current := servers;
      for i := 0 to |servers|
        invariant |current| == |servers|
        invariant forall j :: 0 <= j < |servers| ==>
                    current[j] == if j < i then Touch(Measure(latencies), servers[j]) else servers[j]
      {
        if servers[i].id in latencies {
          current := current[i := current[i].(latency := latencies[servers[i].id])];
        }
      }
      assert current == Touched(Measure(latencies), servers);
      servers := current;
    }

    /** The background probe applies a list of results through an index of the current list. */
    method ApplyProbes(results: seq<(Id, Option<nat>)>)
      requires Valid()
      modifies this`servers
      ensures Valid() && Contents() == Apply(old(Contents()), Measure(Latest(results)))
    {
      var l := servers;
      var byID: map<Id, nat> := map[];
      for i := 0 to |l|
        invariant forall id :: id in byID ==> byID[id] < i && l[byID[id]].id == id
        invariant forall j :: 0 <= j < i ==> l[j].id in byID
      {
        byID := byID[l[i].id := i];
      }
      var current := l;
      assert current == Touched(Measure(Latest(results[..0])), l);
      for k := 0 to |results|
        invariant current == Touched(Measure(Latest(results[..k])), l)
      {
        var (id, latency) := results[k];
        assert results[..k + 1][..k] == results[..k];
        ghost var m := Latest(results[..k]);
        if id != Named("") {
          if id in byID {
            OneMore(l, m, byID[id], latency);
            current := current[byID[id] := current[byID[id]].(latency := latency)];
          } else {
            assert Touched(Measure(m[id := latency]), l) == Touched(Measure(m), l);
          }
        }
      }
      assert results[..|results|] == results;
      servers := current;
    }

    /** The identifier is freshly generated. */
    method AddManual(id: Id, name: string, config: Config)
      requires Valid() && id !in Ids(servers)
      modifies this`servers
      ensures Valid() && Contents() == Apply(old(Contents()), AddServer(id, name, config))
    {
      var shown := if name == "" then config.remark else name;
      if shown == "" {
        shown := HostPort(config.address, config.port);
      }
      servers := servers + [Server(id, Manual, "", shown, config.remark, config, [], None, false, false)];
    }

    method RemoveManual(id: Id, active: Option<Id>) returns (removed: bool)
      requires Valid()
      modifies this`servers
      ensures Valid() && Contents() == Apply(old(Contents()), RemoveServer(id, active))
      ensures removed == old(Removable(Contents(), id, active))
    {
      removed := false;
      var i := FindServer(id);
      if i < |servers| && active != Some(id) {
        var parent := FindSub(servers[i].source);
        if servers[i].origin == Manual || parent == |subs| {
          ExceptAt(servers, i);
          servers := servers[..i] + servers[i + 1..];
          removed := true;
        }
      }
    }

    method EditManual(id: Id, name: string, config: Config) returns (edited: bool)
      requires Valid()
      modifies this`servers
      ensures Valid() && Contents() == Apply(old(Contents()), EditServer(id, name, config))
      ensures edited == exists s :: s in old(servers) && s.id == id && s.origin == Manual
    {
      var i := FindServer(id);
      edited := i < |servers| && servers[i].origin == Manual;
      ghost var was := servers;
      if edited {
        assert servers[i] in servers;
        var shown := if name == "" then config.remark else name;
        if shown == "" {
          shown := HostPort(config.address, config.port);
        }
        servers := servers[i := servers[i].(name := shown, remark := config.remark, vless := config)];
      }
      assert servers == Touched(EditServer(id, name, config), was);
    }
  }

  lemma OneMore(l: seq<Server>, m: map<Id, Option<nat>>, i: nat, latency: Option<nat>)
    requires Distinct(l) && i < |l|
    ensures var t := Touched(Measure(m), l);
            Touched(Measure(m[l[i].id := latency]), l) == t[i := t[i].(latency := latency)]
  {}

  /** The last result for each identifier; workers that never ran leave a blank one. */
  function Latest(results: seq<(Id, Option<nat>)>): map<Id, Option<nat>> {
    if results == [] then map[]
    else
      var (id, latency) := results[|results| - 1];
      var m := Latest(results[..|results| - 1]);
      if id == Named("") then m else m[id := latency]
  }

  lemma {:induction false} WithoutFacts(l: seq<Server>, src: string)
    ensures forall s :: s in Without(l, src) <==> s in l && s.source != src
    ensures Distinct(l) ==> Distinct(Without(l, src))
  {
    if l != [] {
      var k := |l| - 1;
      WithoutFacts(l[..k], src);
      assert l == l[..k] + [l[k]];
      var init := Without(l[..k], src);
      if Distinct(l) {
        forall i | 0 <= i < |init| ensures init[i].id != l[k].id {
          assert init[i] in l[..k];
        }
      }
    }
  }

  lemma {:induction false} SubsExceptFacts(l: seq<Sub>, id: string)
    ensures forall s :: s in SubsExcept(l, id) <==> s in l && s.id != id
    ensures SubsDistinct(l) ==> SubsDistinct(SubsExcept(l, id))
  {
    if l != [] {
      var k := |l| - 1;
      SubsExceptFacts(l[..k], id);
      assert l == l[..k] + [l[k]];
      var init := SubsExcept(l[..k], id);
      if SubsDistinct(l) {
        forall i | 0 <= i < |init| ensures init[i].id != l[k].id {
          assert init[i] in l[..k];
        }
      }
    }
  }

  lemma {:induction false} ExceptAt(l: seq<Server>, i: nat)
    requires Distinct(l) && i < |l|
    ensures Except(l, l[i].id) == l[..i] + l[i + 1..]
  {
    var k := |l| - 1;
    var init := l[..k];
    if i < k {
      ExceptAt(init, i);
      assert l[..i] + l[i + 1..] == init[..i] + init[i + 1..] + [l[k]];
    } else {
      ExceptNone(init, l[i].id);
      assert l[i + 1..] == [];
    }
  }

  lemma {:induction false} ExceptNone(l: seq<Server>, id: Id)
    requires forall i :: 0 <= i < |l| ==> l[i].id != id
    ensures Except(l, id) == l
  {
    if l != [] {
      ExceptNone(l[..|l| - 1], id);
    }
  }
}
