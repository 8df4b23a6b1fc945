/** An xray subscription: many documents, each with many outbounds, read into one list of servers. */
module XraySubscription {
  import opened Base
  import opened Text
  import opened Vless
  import opened Xray
  import Servers

  /** An outbound; one of the vless protocol is given as what the parser of outbounds makes of it. */
  datatype Entry =
    | Broken
    | NoProtocol
    | BadProtocol
    | Service
    | Foreign(protocol: string)
    | BadVless
    | VlessEntry(nodes: Nodes)

  datatype Doc = BadDoc | Doc(remarks: string, entries: seq<Entry>)

  datatype Parsed = Parsed(configs: seq<Config>, invalid: nat, skipped: multiset<string>)

  /** A configuration, and whether the document named it. */
  datatype Candidate = Candidate(config: Config, named: bool)

  /** Lower case, as far as it can be a scheme; two characters beyond ASCII have plain lower-case letters. */
  function Lower(s: string): (r: string)
    ensures |r| == |s|
  {
    seq(|s|, i requires 0 <= i < |s| =>
      if 'A' <= s[i] <= 'Z' then (s[i] as int + 32) as char
      else if s[i] == '\U{212A}' then 'k'
      else if s[i] == '\U{0130}' then 'i'
      else s[i])
  }

  predicate Letter(c: char) { 'a' <= c <= 'z' || 'A' <= c <= 'Z' }

  predicate ValidScheme(s: string) {
    && 0 < |s| <= 32 && Letter(s[0])
    && forall i :: 0 < i < |s| ==> Letter(s[i]) || Digit(s[i]) || s[i] == '+' || s[i] == '-' || s[i] == '.'
  }

  /** A name that can be shown: whatever a document calls its protocol, short and of plain characters. */
  function SafeProtocol(p: string): (r: string)
    ensures ValidScheme(r)
  {
    if ValidScheme(Lower(p)) then Lower(p) else "unknown"
  }

  function Key(c: Config): Config { Servers.ConnectionID(c) }

  // ---------------------------------------------------------------- documents

  function EntryFound(e: Entry): Parsed {
    match e
    case Service => Parsed([], 0, multiset{})
    case Foreign(p) => Parsed([], 0, multiset{SafeProtocol(p)})
    case VlessEntry(n) =>
      if n.Complex? then Parsed([], 0, multiset{"xray-complex"}) else Parsed(n.configs, n.invalid, multiset{})
    case _ => Parsed([], 1, multiset{})
  }

  function Both(a: Parsed, b: Parsed): Parsed {
    Parsed(a.configs + b.configs, a.invalid + b.invalid, a.skipped + b.skipped)
  }

  function EntriesFound(l: seq<Entry>): Parsed {
    if l == [] then Parsed([], 0, multiset{}) else Both(EntriesFound(l[..|l| - 1]), EntryFound(l[|l| - 1]))
  }

  predicate Recognized(l: seq<Entry>) { exists i :: 0 <= i < |l| && !l[i].Broken? && !l[i].NoProtocol? }

  /** A document's remarks name its server when it has only one. */
  function Named(remarks: string, configs: seq<Config>): (r: seq<Candidate>)
    ensures |r| == |configs|
  {
    var name := Trim(remarks, Space);
    var named := |configs| == 1 && name != "";
    seq(|configs|, i requires 0 <= i < |configs| => Candidate(if named then configs[i].(remark := name) else configs[i], named))
  }

  function DocCandidates(d: Doc): seq<Candidate> {
    if d.BadDoc? then [] else Named(d.remarks, EntriesFound(d.entries).configs)
  }

  function Candidates(docs: seq<Doc>): seq<Candidate> {
    if docs == [] then [] else Candidates(docs[..|docs| - 1]) + DocCandidates(docs[|docs| - 1])
  }

  // ---------------------------------------------------------------- one server for each connection

  datatype Tally = Tally(configs: seq<Config>, named: set<Config>)

  function Find(l: seq<Config>, key: Config): (i: nat)
    ensures i <= |l| && (i < |l| ==> Key(l[i]) == key) && forall j :: 0 <= j < i ==> Key(l[j]) != key
  {
    if l == [] then 0
    else
      var i := Find(l[..|l| - 1], key);
      if i < |l| - 1 || Key(l[|l| - 1]) == key then i else |l|
  }

  /** A later candidate replaces an earlier one only to give it a name it lacks. */
  function Add(t: Tally, c: Candidate): Tally {
    var key := Key(c.config);
    var i := Find(t.configs, key);
    if i == |t.configs| then Tally(t.configs + [c.config], if c.named then t.named + {key} else t.named)
    else if c.named && key !in t.named then Tally(t.configs[i := c.config], t.named + {key})
    else t
  }

  function Tallied(l: seq<Candidate>): Tally {
    if l == [] then Tally([], {}) else Add(Tallied(l[..|l| - 1]), l[|l| - 1])
  }

  function First(l: seq<Candidate>, key: Config, named: bool): Option<Config> {
    if l == [] then None
    else
      var r, c := First(l[..|l| - 1], key, named), l[|l| - 1];
      if r.Some? then r else if Key(c.config) == key && (named ==> c.named) then Some(c.config) else None
  }

  /** The first candidate a document named, or else the first of all. */
  function Chosen(l: seq<Candidate>, key: Config): Option<Config> {
    var r := First(l, key, true);
    if r.Some? then r else First(l, key, false)
  }

  ghost predicate OnceEach(l: seq<Config>) { forall i, j :: 0 <= i < j < |l| ==> Key(l[i]) != Key(l[j]) }

  predicate Present(l: seq<Config>, key: Config) { exists i :: 0 <= i < |l| && Key(l[i]) == key }

  ghost predicate AllChosen(l: seq<Candidate>, configs: seq<Config>) {
    forall i :: 0 <= i < |configs| ==> Chosen(l, Key(configs[i])) == Some(configs[i])
  }

  ghost predicate AllPresent(l: seq<Candidate>, configs: seq<Config>) {
    forall k :: 0 <= k < |l| ==> Present(configs, Key(l[k].config))
  }

  ghost predicate NamedAre(l: seq<Candidate>, named: set<Config>) {
    forall key: Config {:trigger key in named} :: key in named <==> First(l, key, true).Some?
  }

  /** Each connection is there once, as the candidate chosen for it. */
  ghost predicate Settles(l: seq<Candidate>, t: Tally) {
    OnceEach(t.configs) && AllChosen(l, t.configs) && AllPresent(l, t.configs) && NamedAre(l, t.named)
  }

  lemma {:induction false} FirstNone(l: seq<Candidate>, key: Config, named: bool)
    requires forall k :: 0 <= k < |l| ==> Key(l[k].config) != key
    ensures First(l, key, named) == None
  {
    if l != [] {
      FirstNone(l[..|l| - 1], key, named);
    }
  }

  lemma ChosenSnoc(l: seq<Candidate>, c: Candidate, key: Config)
    ensures Chosen(l + [c], key) ==
            if Key(c.config) == key && c.named && First(l, key, true).None? then Some(c.config)
            else if Key(c.config) == key && Chosen(l, key).None? then Some(c.config)
            else Chosen(l, key)
  {}

  lemma AddChosen(l: seq<Candidate>, t: Tally, c: Candidate)
    requires Settles(l, t)
    ensures OnceEach(Add(t, c).configs) && AllChosen(l + [c], Add(t, c).configs)
  {
    var key, u := Key(c.config), Add(t, c);
    if Find(t.configs, key) == |t.configs| {
      NotYet(l, t, key);
    }
    forall i | 0 <= i < |u.configs| ensures Chosen(l + [c], Key(u.configs[i])) == Some(u.configs[i]) {
      ChosenSnoc(l, c, Key(u.configs[i]));
    }
  }

  lemma AddPresent(l: seq<Candidate>, t: Tally, c: Candidate)
    requires AllPresent(l, t.configs)
    ensures AllPresent(l + [c], Add(t, c).configs)
  {
    var u, at := Add(t, c), Find(t.configs, Key(c.config));
    assert Key(u.configs[at]) == Key(c.config);
    forall k | 0 <= k < |l| ensures Present(u.configs, Key(l[k].config)) {
      assert Present(t.configs, Key(l[k].config));
      var i :| 0 <= i < |t.configs| && Key(t.configs[i]) == Key(l[k].config);
      assert Key(u.configs[i]) == Key(l[k].config);
    }
  }

  lemma AddNamed(l: seq<Candidate>, t: Tally, c: Candidate)
    requires Settles(l, t)
    ensures NamedAre(l + [c], Add(t, c).named)
  {}

  lemma AddSettles(l: seq<Candidate>, t: Tally, c: Candidate)
    requires Settles(l, t)
    ensures Settles(l + [c], Add(t, c))
  {
    AddChosen(l, t, c);
    AddPresent(l, t, c);
    AddNamed(l, t, c);
  }

  /** A connection not in the list has had no candidate. */
  lemma NotYet(l: seq<Candidate>, t: Tally, key: Config)
    requires Settles(l, t) && Find(t.configs, key) == |t.configs|
    ensures First(l, key, true) == None && First(l, key, false) == None
  {
    forall k | 0 <= k < |l| ensures Key(l[k].config) != key {
      assert Present(t.configs, Key(l[k].config));
    }
    FirstNone(l, key, true);
    FirstNone(l, key, false);
  }

  /** The list has each connection once, as the first candidate that was named, or else the first of all. */
  lemma {:induction false} TalliedSettles(l: seq<Candidate>)
    ensures Settles(l, Tallied(l))
  {
    if l != [] {
      TalliedSettles(l[..|l| - 1]);
      AddSettles(l[..|l| - 1], Tallied(l[..|l| - 1]), l[|l| - 1]);
      assert l == l[..|l| - 1] + [l[|l| - 1]];
    }
  }

  // ---------------------------------------------------------------- the parser

  ghost predicate SomeRecognized(docs: seq<Doc>) {
    exists i :: 0 <= i < |docs| && docs[i].Doc? && Recognized(docs[i].entries)
  }

  /** What was counted rather than read. */
  function DocFound(d: Doc): Parsed { if d.BadDoc? then Parsed([], 1, multiset{}) else EntriesFound(d.entries) }

  function Invalid(docs: seq<Doc>): nat {
    if docs == [] then 0 else Invalid(docs[..|docs| - 1]) + DocFound(docs[|docs| - 1]).invalid
  }

  function Skipped(docs: seq<Doc>): multiset<string> {
    if docs == [] then multiset{} else Skipped(docs[..|docs| - 1]) + DocFound(docs[|docs| - 1]).skipped
  }

  ghost function Subscription(docs: seq<Doc>): Result<Parsed> {
    if SomeRecognized(docs)
    then Ok(Parsed(Tallied(Candidates(docs)).configs, Invalid(docs), Skipped(docs)))
    else Err
  }

  method ReadEntry(e: Entry) returns (found: Parsed, recognized: bool)
    ensures found == EntryFound(e) && recognized == (!e.Broken? && !e.NoProtocol?)
  {
    found, recognized := Parsed([], 0, multiset{}), false;
    if e.Broken? || e.NoProtocol? {
      found := found.(invalid := 1);
      return;
    }
    recognized := true;
    if e.BadProtocol? || e.BadVless? {
      found := found.(invalid := 1);
    } else if e.Foreign? {
      found := found.(skipped := multiset{SafeProtocol(e.protocol)});
    } else if e.VlessEntry? {
      if e.nodes.Complex? {
        found := found.(skipped := multiset{"xray-complex"});
      } else {
        found := found.(configs := e.nodes.configs, invalid := e.nodes.invalid);
      }
    }
  }

  method ReadEntries(l: seq<Entry>) returns (found: Parsed, recognized: bool)
    ensures found == EntriesFound(l) && recognized == Recognized(l)
  {
    found, recognized := Parsed([], 0, multiset{}), false;
    for i := 0 to |l|
      invariant found == EntriesFound(l[..i]) && recognized == Recognized(l[..i])
    {
      assert l[..i + 1] == l[..i] + [l[i]];
      RecognizedSnoc(l[..i], l[i]);
      EntriesSnoc(l[..i], l[i]);
      var one, known := ReadEntry(l[i]);
      found, recognized := Both(found, one), recognized || known;
    }
    assert l[..|l|] == l;
  }

  lemma EntriesSnoc(l: seq<Entry>, e: Entry)
    ensures EntriesFound(l + [e]) == Both(EntriesFound(l), EntryFound(e))
  {}

  lemma RecognizedSnoc(l: seq<Entry>, e: Entry)
    ensures Recognized(l + [e]) == (Recognized(l) || (!e.Broken? && !e.NoProtocol?))
  {
    var m := l + [e];
    assert m[|l|] == e;
    if i :| 0 <= i < |l| && !l[i].Broken? && !l[i].NoProtocol? {
      assert !m[i].Broken? && !m[i].NoProtocol?;
    }
  }

  /** The index by connection finds each configuration. */
  ghost predicate Indexed(configs: seq<Config>, seen: map<Config, nat>) {
    forall key: Config {:trigger key in seen} ::
      if key in seen then seen[key] == Find(configs, key) && seen[key] < |configs| else Find(configs, key) == |configs|
  }

  lemma FindSnoc(l: seq<Config>, c: Config, key: Config)
    ensures Find(l + [c], key) == if Find(l, key) < |l| then Find(l, key) else if Key(c) == key then |l| else |l| + 1
  {}

  lemma FindReplaced(l: seq<Config>, i: nat, c: Config, key: Config)
    requires i < |l| && Key(l[i]) == Key(c)
    ensures Find(l[i := c], key) == Find(l, key)
  {
    var m := l[i := c];
    assert forall j :: 0 <= j < |l| ==> Key(m[j]) == Key(l[j]);
  }

  /** One candidate, through the index. */
  method AddOne(t: Tally, seen: map<Config, nat>, c: Candidate) returns (t': Tally, seen': map<Config, nat>)
    requires Indexed(t.configs, seen)
    ensures t' == Add(t, c) && Indexed(t'.configs, seen')
  {
    t', seen' := t, seen;
    var key := Key(c.config);
    if key in seen {
      if c.named && key !in t.named {
        t' := Tally(t.configs[seen[key] := c.config], t.named + {key});
        forall k: Config ensures Find(t'.configs, k) == Find(t.configs, k) {
          FindReplaced(t.configs, seen[key], c.config, k);
        }
      }
    } else {
      seen' := seen[key := |t.configs|];
      t' := Tally(t.configs + [c.config], if c.named then t.named + {key} else t.named);
      forall k: Config {:trigger k in seen'} ensures
          if k in seen' then seen'[k] == Find(t'.configs, k) && seen'[k] < |t'.configs| else Find(t'.configs, k) == |t'.configs| {
        FindSnoc(t.configs, c.config, k);
      }
    }
  }

  function AddAll(t: Tally, l: seq<Candidate>): Tally {
    if l == [] then t else Add(AddAll(t, l[..|l| - 1]), l[|l| - 1])
  }

  lemma {:induction false} TalliedConcat(a: seq<Candidate>, b: seq<Candidate>)
    ensures Tallied(a + b) == AddAll(Tallied(a), b)
  {
    if b == [] {
      assert a + b == a;
    } else {
      assert (a + b)[..|a + b| - 1] == a + b[..|b| - 1];
      TalliedConcat(a, b[..|b| - 1]);
    }
  }

  /** The configurations of one document, under its name when it has one. */
  method AddDoc(t: Tally, seen: map<Config, nat>, remarks: string, configs: seq<Config>) returns (t': Tally, seen': map<Config, nat>)
    requires Indexed(t.configs, seen)
    ensures t' == AddAll(t, Named(remarks, configs)) && Indexed(t'.configs, seen')
  {
    t', seen' := t, seen;
    var name := Trim(remarks, Space);
    var preferred := |configs| == 1 && name != "";
    ghost var l := Named(remarks, configs);
    for i := 0 to |configs|
      invariant t' == AddAll(t, l[..i]) && Indexed(t'.configs, seen')
    {
      var c := configs[i];
      if preferred {
        c := c.(remark := name);
      }
      assert l[i] == Candidate(c, preferred);
      assert l[..i + 1][..i] == l[..i];
      t', seen' := AddOne(t', seen', Candidate(c, preferred));
    }
    assert l[..|l|] == l;
  }

  datatype Progress = Progress(t: Tally, seen: map<Config, nat>, invalid: nat, skipped: multiset<string>, recognized: bool)

  ghost predicate Read(p: Progress, docs: seq<Doc>) {
    && p.t == Tallied(Candidates(docs)) && Indexed(p.t.configs, p.seen)
    && p.invalid == Invalid(docs) && p.skipped == Skipped(docs) && p.recognized == SomeRecognized(docs)
  }

  ghost predicate Follows(q: Progress, p: Progress, d: Doc) {
    && q.t == AddAll(p.t, DocCandidates(d)) && Indexed(q.t.configs, q.seen)
    && q.recognized == (p.recognized || (d.Doc? && Recognized(d.entries)))
    && q.invalid == p.invalid + DocFound(d).invalid && q.skipped == p.skipped + DocFound(d).skipped
  }

  method ReadDoc(p: Progress, d: Doc) returns (q: Progress)
    requires Indexed(p.t.configs, p.seen)
    ensures Follows(q, p, d)
  {
    if d.BadDoc? {
      assert p.skipped + multiset{} == p.skipped;
      return p.(invalid := p.invalid + 1);
    }
    var found, known := ReadEntries(d.entries);
    var t, seen := AddDoc(p.t, p.seen, d.remarks, found.configs);
    return Progress(t, seen, p.invalid + found.invalid, p.skipped + found.skipped, p.recognized || known);
  }

  lemma ReadOneMore(p: Progress, q: Progress, docs: seq<Doc>, d: Doc)
    requires Read(p, docs) && Follows(q, p, d)
    ensures Read(q, docs + [d])
  {
    SomeRecognizedSnoc(docs, d);
    DocSnoc(docs, d);
    CountsSnoc(docs, d);
  }

  method ParseXray(docs: seq<Doc>) returns (r: Result<Parsed>)
    ensures r == Subscription(docs)
  {
    var p := Progress(Tally([], {}), map[], 0, multiset{}, false);
    for i := 0 to |docs|
      invariant Read(p, docs[..i])
    {
      assert docs[..i + 1] == docs[..i] + [docs[i]];
      var q := ReadDoc(p, docs[i]);
      ReadOneMore(p, q, docs[..i], docs[i]);
      p := q;
    }
    assert docs[..|docs|] == docs;
    return if p.recognized then Ok(Parsed(p.t.configs, p.invalid, p.skipped)) else Err;
  }

  lemma CountsSnoc(docs: seq<Doc>, d: Doc)
    ensures Invalid(docs + [d]) == Invalid(docs) + DocFound(d).invalid
    ensures Skipped(docs + [d]) == Skipped(docs) + DocFound(d).skipped
  {}

  lemma DocSnoc(docs: seq<Doc>, d: Doc)
    ensures Tallied(Candidates(docs + [d])) == AddAll(Tallied(Candidates(docs)), DocCandidates(d))
  {
    assert (docs + [d])[..|docs|] == docs;
    TalliedConcat(Candidates(docs), DocCandidates(d));
  }

  lemma SomeRecognizedSnoc(docs: seq<Doc>, d: Doc)
    ensures SomeRecognized(docs + [d]) == (SomeRecognized(docs) || (d.Doc? && Recognized(d.entries)))
  {
    var m := docs + [d];
    assert m[|docs|] == d;
    if i :| 0 <= i < |docs| && docs[i].Doc? && Recognized(docs[i].entries) {
      assert m[i].Doc? && Recognized(m[i].entries);
    }
  }

  // ---------------------------------------------------------------- what a subscription yields

  /** The entry is what the parser makes of some outbound. */
  ghost predicate Genuine(e: Entry) { e.VlessEntry? ==> exists out :: e.nodes == OutboundNodes(out) }

  ghost predicate GenuineDocs(docs: seq<Doc>) {
    forall i, k :: 0 <= i < |docs| && docs[i].Doc? && 0 <= k < |docs[i].entries| ==> Genuine(docs[i].entries[k])
  }

  lemma {:induction false} EntriesExportable(l: seq<Entry>)
    requires forall k :: 0 <= k < |l| ==> Genuine(l[k])
    ensures forall i :: 0 <= i < |EntriesFound(l).configs| ==> Exportable(EntriesFound(l).configs[i])
  {
    if l != [] {
      EntriesExportable(l[..|l| - 1]);
      var e := l[|l| - 1];
      GenuineExportable(e);
    }
  }

  lemma GenuineExportable(e: Entry)
    requires Genuine(e)
    ensures e.VlessEntry? ==> AllExportable(e.nodes)
  {
    if e.VlessEntry? {
      var out :| e.nodes == OutboundNodes(out);
      ReadIsExportable(out);
    }
  }

  lemma {:induction false} CandidatesExportable(docs: seq<Doc>)
    requires GenuineDocs(docs)
    ensures forall i :: 0 <= i < |Candidates(docs)| ==> Exportable(Candidates(docs)[i].config)
  {
    if docs != [] {
      CandidatesExportable(docs[..|docs| - 1]);
      var d := docs[|docs| - 1];
      if d.Doc? {
        EntriesExportable(d.entries);
        NamedExportable(d.remarks, EntriesFound(d.entries).configs);
      }
    }
  }

  lemma NamedExportable(remarks: string, configs: seq<Config>)
    requires forall i :: 0 <= i < |configs| ==> Exportable(configs[i])
    ensures forall i :: 0 <= i < |configs| ==> Exportable(Named(remarks, configs)[i].config)
  {}

  lemma {:induction false} FirstIsOne(l: seq<Candidate>, key: Config, named: bool)
    ensures var r := First(l, key, named); r.Some? ==> exists i :: 0 <= i < |l| && l[i].config == r.value
  {
    if l != [] {
      FirstIsOne(l[..|l| - 1], key, named);
      var r := First(l[..|l| - 1], key, named);
      if r.Some? {
        var i :| 0 <= i < |l| - 1 && l[..|l| - 1][i].config == r.value;
        assert l[i].config == r.value;
      }
    }
  }

  /** Whatever the documents are, the result has each connection once, as the first candidate that a document named
      or else the first of all, leaves no candidate out, and holds only configurations that can be written out again. */
  lemma SubscriptionYields(docs: seq<Doc>)
    requires Subscription(docs).Ok? && GenuineDocs(docs)
    ensures var configs := Subscription(docs).value.configs;
            && OnceEach(configs) && AllChosen(Candidates(docs), configs) && AllPresent(Candidates(docs), configs)
            && (forall i :: 0 <= i < |configs| ==> Exportable(configs[i]))
  {
    var l := Candidates(docs);
    TalliedSettles(l);
    CandidatesExportable(docs);
    var configs := Tallied(l).configs;
    forall i | 0 <= i < |configs| ensures Exportable(configs[i]) {
      FirstIsOne(l, Key(configs[i]), true);
      FirstIsOne(l, Key(configs[i]), false);
      assert Chosen(l, Key(configs[i])) == Some(configs[i]);
    }
  }

  lemma OneCandidate(c: Config)
    ensures Tallied([Candidate(c, false)]).configs == [c]
  {
    var k := Candidate(c, false);
    assert [k][..0] == [];
    assert Tallied([k]) == Add(Tally([], {}), k);
  }

  lemma OneDocCandidates(d: Doc, k: Candidate)
    requires DocCandidates(d) == [k]
    ensures Candidates([d]) == [k]
  {
    assert [d][..0] == [];
    assert Candidates([d][..0]) == [];
    assert [] + [k] == [k];
  }

  lemma OneDocFound(e: Entry, c: Config)
    requires EntryFound(e) == Parsed([c], 0, multiset{})
    ensures var d := Doc("", [e]); DocCandidates(d) == [Candidate(c, false)] && DocFound(d) == Parsed([c], 0, multiset{})
  {
    OneEntry(e, c);
    assert Trim("", Space) == "";
  }

  lemma OneDocCounts(d: Doc, c: Config)
    requires DocFound(d) == Parsed([c], 0, multiset{})
    ensures Invalid([d]) == 0 && Skipped([d]) == multiset{}
  {
    CountsSnoc([], d);
    assert [] + [d] == [d];
  }

  lemma OneDocRecognized(e: Entry)
    requires !e.Broken? && !e.NoProtocol?
    ensures SomeRecognized([Doc("", [e])])
  {
    RecognizedSnoc([], e);
    SomeRecognizedSnoc([], Doc("", [e]));
    assert [] + [e] == [e] && [] + [Doc("", [e])] == [Doc("", [e])];
  }

  lemma OneDoc(e: Entry, c: Config)
    requires EntryFound(e) == Parsed([c], 0, multiset{}) && !e.Broken? && !e.NoProtocol?
    ensures Subscription([Doc("", [e])]) == Ok(Parsed([c], 0, multiset{}))
  {
    var d := Doc("", [e]);
    OneDocFound(e, c);
    OneDocRecognized(e);
    OneDocCounts(d, c);
    OneDocCandidates(d, Candidate(c, false));
    OneCandidate(c);
  }

  /** The generated outbound as an entry of a subscription. */
  function GeneratedEntry(c: Config): Entry { VlessEntry(OutboundNodes(OutboundOf(c, ""))) }

  lemma GeneratedFound(c: Config)
    requires Exportable(c)
    ensures EntryFound(GeneratedEntry(c)) == Parsed([Settled(c)], 0, multiset{})
  {
    XrayReadsBack(c);
    FoundOf(GeneratedEntry(c).nodes, Settled(c));
  }

  lemma FoundOf(n: Nodes, c: Config)
    requires n == Nodes([c], 0)
    ensures EntryFound(VlessEntry(n)) == Parsed([c], 0, multiset{})
  {}

  /** The generated document of a configuration, read as a subscription, yields exactly the settled configuration. */
  lemma GeneratedDocument(c: Config)
    requires Exportable(c)
    ensures Subscription([Doc("", [GeneratedEntry(c)])]) == Ok(Parsed([Settled(c)], 0, multiset{}))
  {
    GeneratedFound(c);
    OneDoc(GeneratedEntry(c), Settled(c));
  }

  lemma OneEntry(e: Entry, c: Config)
    requires EntryFound(e) == Parsed([c], 0, multiset{})
    ensures EntriesFound([e]) == Parsed([c], 0, multiset{})
  {}

  /** A document with one server and remarks names it; no other document names anything or changes a configuration. */
  lemma NamesItsOnlyServer(remarks: string, configs: seq<Config>)
    ensures var l, name := Named(remarks, configs), Trim(remarks, Space);
            if |configs| == 1 && name != "" then l == [Candidate(configs[0].(remark := name), true)]
            else |l| == |configs| && forall i :: 0 <= i < |l| ==> l[i] == Candidate(configs[i], false)
  {}

  /** Every entry is accounted for once: its servers and its invalid users, one mark for what was set aside, and nothing
      for the entries that are no servers at all. */
  lemma EntryIsCounted(e: Entry)
    ensures var f := EntryFound(e);
            && |f.skipped| == (if e.Foreign? || (e.VlessEntry? && e.nodes.Complex?) then 1 else 0)
            && f.configs == (if e.VlessEntry? && e.nodes.Nodes? then e.nodes.configs else [])
            && f.invalid == (if e.VlessEntry? then (if e.nodes.Nodes? then e.nodes.invalid else 0)
                             else if e.Service? || e.Foreign? then 0 else 1)
  {}

  /** A protocol with a plain name is counted under it, in lower case. */
  lemma PlainNamesAreKept(p: string)
    requires ValidScheme(p)
    ensures SameFolded(SafeProtocol(p), p) && forall i :: 0 <= i < |p| ==> !('A' <= SafeProtocol(p)[i] <= 'Z')
    ensures (forall i :: 0 <= i < |p| ==> !('A' <= p[i] <= 'Z')) ==> SafeProtocol(p) == p
  {
    assert forall i :: 0 <= i < |p| ==> Lower(p)[i] == Folded(p[i]);
    assert ValidScheme(Lower(p));
  }
}
