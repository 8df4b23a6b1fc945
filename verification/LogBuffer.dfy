/** The in-memory log: one bounded ring for each source, read back as one history. */
module LogBuffer {
  import opened Base

  datatype Entry = Entry(seqNo: nat, time: int, level: string, source: string, message: string)

  // ---------------------------------------------------------------- histories

  /** The entries of one source. */
  function Of(h: seq<Entry>, src: string): seq<Entry> {
    if h == [] then []
    else Of(h[..|h| - 1], src) + if h[|h| - 1].source == src then [h[|h| - 1]] else []
  }

  /** How many entries of its source came after entry `i`. */
  function Later(h: seq<Entry>, i: nat): nat
    requires i < |h|
  {
    |Of(h[i + 1..], h[i].source)|
  }

  /** Of the first `n` entries, those still among the `cap` latest of their source. */
  function Kept(h: seq<Entry>, cap: nat, n: nat): seq<Entry>
    requires n <= |h|
  {
    if n == 0 then []
    else Kept(h, cap, n - 1) + if Later(h, n - 1) < cap then [h[n - 1]] else []
  }

  function Retained(h: seq<Entry>, cap: nat): seq<Entry> { Kept(h, cap, |h|) }

  ghost predicate Numbered(h: seq<Entry>) { forall i :: 0 <= i < |h| ==> h[i].seqNo == i + 1 }

  ghost predicate Increasing(s: seq<Entry>) { forall i, j :: 0 <= i < j < |s| ==> s[i].seqNo < s[j].seqNo }

  lemma {:induction false} OfConcat(a: seq<Entry>, b: seq<Entry>, src: string)
    ensures Of(a + b, src) == Of(a, src) + Of(b, src)
  {
    if b == [] {
      assert a + b == a;
    } else {
      assert (a + b)[..|a + b| - 1] == a + b[..|b| - 1];
      OfConcat(a, b[..|b| - 1], src);
    }
  }

  lemma {:induction false} OfLength(h: seq<Entry>, src: string)
    ensures |Of(h, src)| <= |h|
  {
    if h != [] {
      OfLength(h[..|h| - 1], src);
    }
  }

  // ---------------------------------------------------------------- the rings hold what is retained

  lemma OfThree(a: seq<Entry>, e: Entry, b: seq<Entry>)
    ensures Of(a + [e] + b, e.source) == Of(a, e.source) + [e] + Of(b, e.source)
  {
    OfConcat(a + [e], b, e.source);
    OfSnoc(a, e, e.source);
  }

  /** An entry is in its source's ring exactly when fewer than `cap` came after it. */
  lemma InRing(h: seq<Entry>, cap: nat, a: seq<Entry>, e: Entry, b: seq<Entry>)
    requires h == a + [e] + b && Numbered(h)
    ensures (e in LastN(Of(h, e.source), cap)) == (|Of(b, e.source)| < cap)
  {
    OfThree(a, e, b);
    OfIncreasing(h, e.source);
    MiddleInLastN(Of(a, e.source), e, Of(b, e.source), cap);
  }

  lemma MiddleInLastN(a: seq<Entry>, e: Entry, b: seq<Entry>, cap: nat)
    requires Increasing(a + [e] + b)
    ensures (e in LastN(a + [e] + b, cap)) == (|b| < cap)
  {
    OnlyAt(a + [e] + b, |a|, cap);
  }

  lemma OnlyAt(all: seq<Entry>, p: nat, cap: nat)
    requires p < |all| && Increasing(all)
    ensures (all[p] in LastN(all, cap)) == (|all| - p <= cap)
  {}

  lemma {:induction false} OfIncreasing(h: seq<Entry>, src: string)
    requires Numbered(h)
    ensures Increasing(Of(h, src)) && forall e :: e in Of(h, src) ==> e in h && e.source == src
  {
    if h != [] {
      OfIncreasing(h[..|h| - 1], src);
    }
  }

  /** Entry `i` is `e`, and still among the latest of its source. */
  ghost predicate StillIn(h: seq<Entry>, cap: nat, e: Entry, i: int) { 0 <= i < |h| && h[i] == e && Later(h, i) < cap }

  lemma {:induction false} KeptIs(h: seq<Entry>, cap: nat, n: nat)
    requires n <= |h| && Numbered(h)
    ensures Increasing(Kept(h, cap, n))
    ensures forall e :: e in Kept(h, cap, n) <==> exists i :: i < n && StillIn(h, cap, e, i)
  {
    if n > 0 {
      KeptIs(h, cap, n - 1);
      var k, r := Kept(h, cap, n - 1), Kept(h, cap, n);
      forall e | e in r ensures exists i :: i < n && StillIn(h, cap, e, i) {
        if e !in k {
          assert StillIn(h, cap, e, n - 1);
        }
      }
      assert Later(h, n - 1) < cap ==> h[n - 1] in r;
      forall j | 0 <= j < |k| ensures k[j].seqNo < n {
        assert k[j] in k;
      }
    }
  }

  ghost predicate SameMembers(a: seq<Entry>, b: seq<Entry>) { forall e :: e in a <==> e in b }

  lemma SameLast(a: seq<Entry>, b: seq<Entry>)
    requires Increasing(a) && Increasing(b) && SameMembers(a, b) && a != []
    ensures b != [] && a[|a| - 1] == b[|b| - 1]
  {
    assert a[0] in b;
    assert a[|a| - 1] in b && b[|b| - 1] in a;
  }

  lemma DropLast(a: seq<Entry>, e: Entry)
    requires Increasing(a) && a != []
    ensures (e in a[..|a| - 1]) == (e in a && e != a[|a| - 1])
  {}

  lemma SameInit(a: seq<Entry>, b: seq<Entry>)
    requires Increasing(a) && Increasing(b) && SameMembers(a, b) && a != [] && b != [] && a[|a| - 1] == b[|b| - 1]
    ensures SameMembers(a[..|a| - 1], b[..|b| - 1])
  {
    var c, d := a[..|a| - 1], b[..|b| - 1];
    forall e ensures e in c <==> e in d {
      DropLast(a, e);
      DropLast(b, e);
    }
  }

  lemma EmptyToo(a: seq<Entry>, b: seq<Entry>)
    requires SameMembers(a, b)
    ensures a == [] ==> b == []
  {
    if b != [] {
      assert b[0] in a;
    }
  }

  lemma {:induction false} SameIncreasing(a: seq<Entry>, b: seq<Entry>)
    requires Increasing(a) && Increasing(b) && SameMembers(a, b)
    ensures a == b
  {
    EmptyToo(a, b);
    if a != [] {
      SameLast(a, b);
      SameInit(a, b);
      SameIncreasing(a[..|a| - 1], b[..|b| - 1]);
      assert a == a[..|a| - 1] + [a[|a| - 1]] && b == b[..|b| - 1] + [b[|b| - 1]];
    }
  }

  // ---------------------------------------------------------------- the buffer

  /** A sorted sequence with one more entry in its place. */
  function Inserted(s: seq<Entry>, e: Entry): seq<Entry> {
    if s == [] || s[|s| - 1].seqNo < e.seqNo then s + [e]
    else Inserted(s[..|s| - 1], e) + [s[|s| - 1]]
  }

  lemma IncreasingSnoc(s: seq<Entry>, e: Entry)
    requires Increasing(s) && forall x :: x in s ==> x.seqNo < e.seqNo
    ensures Increasing(s + [e])
  {
    assert forall i :: 0 <= i < |s| ==> s[i] in s;
  }

  lemma BeforeLast(s: seq<Entry>)
    requires Increasing(s) && s != []
    ensures Increasing(s[..|s| - 1]) && forall x :: x in s[..|s| - 1] ==> x in s && x.seqNo < s[|s| - 1].seqNo
  {}

  lemma {:induction false} InsertedIs(s: seq<Entry>, e: Entry)
    requires Increasing(s) && (forall x :: x in s ==> x.seqNo != e.seqNo)
    ensures Increasing(Inserted(s, e)) && forall x :: x in Inserted(s, e) <==> x in s || x == e
  {
    if s != [] {
      BeforeLast(s);
      var init, last := s[..|s| - 1], s[|s| - 1];
      assert s == init + [last] && last in s;
      if last.seqNo < e.seqNo {
        IncreasingSnoc(s, e);
      } else {
        InsertedIs(init, e);
        IncreasingSnoc(Inserted(init, e), last);
      }
    }
  }

  /** The library sort by sequence number. */
  method SortBySeq(all: seq<Entry>) returns (r: seq<Entry>)
    requires Apart(all)
    ensures Increasing(r) && forall x :: x in r <==> x in all
  {
    r := [];
    for i := 0 to |all|
      invariant Increasing(r) && forall x :: x in r <==> x in all[..i]
    {
      InsertedIs(r, all[i]);
      r := Inserted(r, all[i]);
      assert all[..i + 1] == all[..i] + [all[i]];
    }
    assert all[..|all|] == all;
  }

  method Capped(s: seq<Entry>, cap: nat) returns (ring: seq<Entry>)
    ensures ring == LastN(s, cap)
  {
    ring := s;
    if |ring| > cap {
      ring := ring[|ring| - cap..];
    }
  }

  class Buffer {
    const cap: nat
    const redact: string -> string
    var perSrc: map<string, seq<Entry>>
    var count: nat
    ghost var history: seq<Entry>

    ghost predicate Valid()
      reads this
    {
      && cap > 0 && |history| == count && Numbered(history)
      && RingsOf(perSrc, history, cap)
    }

    /** What must not be logged is a library matter. */
    constructor (capPerSource: int, redact: string -> string)
      ensures Valid() && history == [] && this.redact == redact
      ensures cap == if capPerSource <= 0 then 2000 else capPerSource
    {
      cap := if capPerSource <= 0 then 2000 else capPerSource;
      this.redact := redact;
      perSrc, count, history := map[], 0, [];
    }

    method Add(source: string, level: string, message: string, time: int)
      requires Valid()
      modifies this
      ensures Valid() && history == old(history) + [Entry(old(count) + 1, time, level, source, redact(message))]
    {
      count := count + 1;
      var e := Entry(count, time, level, source, redact(message));
      var ring := Capped((if source in perSrc then perSrc[source] else []) + [e], cap);
      RingGrows(perSrc, history, cap, e, ring);
      NumberedGrows(history, e);
      perSrc := perSrc[source := ring];
      history := history + [e];
    }

    /** Rings are collected in no particular order, then sorted. */
    method Snapshot() returns (all: seq<Entry>)
      requires Valid()
      ensures all == Retained(history, cap)
    {
      all := [];
      var todo := perSrc.Keys;
      while todo != {}
        invariant todo <= perSrc.Keys
        invariant Apart(all) && Collected(all, perSrc, todo)
        decreases |todo|
      {
        var src :| src in todo;
        CollectsOne(all, perSrc, history, cap, todo, src);
        all := all + perSrc[src];
        todo := todo - {src};
      }
      all := SortBySeq(all);
      KeptIs(history, cap, |history|);
      forall e ensures e in all <==> e in Retained(history, cap) {
        RingsHold(perSrc, history, cap, e);
      }
      SameIncreasing(all, Retained(history, cap));
    }

    method Tail(n: int) returns (r: seq<Entry>)
      requires Valid()
      ensures r == if n <= 0 then Retained(history, cap) else LastN(Retained(history, cap), n)
      ensures 0 < n <= cap ==> r == LastN(history, n)
      ensures Increasing(r)
    {
      var all := Snapshot();
      KeptIs(history, cap, |history|);
      if 0 < n <= cap {
        TailIsGlobal(history, cap, n);
      }
      if n <= 0 || |all| <= n {
        return all;
      }
      return all[|all| - n..];
    }
  }

  /** Each ring holds the end of its source's history, and every source has one. */
  ghost predicate RingsOf(perSrc: map<string, seq<Entry>>, h: seq<Entry>, cap: nat) {
    AllRings(perSrc, h, cap) && AllSources(perSrc, h)
  }

  ghost predicate AllRings(perSrc: map<string, seq<Entry>>, h: seq<Entry>, cap: nat) {
    forall src :: src in perSrc ==> perSrc[src] == LastN(Of(h, src), cap)
  }

  ghost predicate AllSources(perSrc: map<string, seq<Entry>>, h: seq<Entry>) {
    forall e :: e in h ==> e.source in perSrc
  }

  lemma {:induction false} NoneOf(h: seq<Entry>, src: string)
    requires forall e :: e in h ==> e.source != src
    ensures Of(h, src) == []
  {
    if h != [] {
      assert h[|h| - 1] in h;
      NoneOf(h[..|h| - 1], src);
    }
  }

  lemma LastNSnoc<T>(s: seq<T>, x: T, n: nat)
    requires n > 0
    ensures LastN(LastN(s, n) + [x], n) == LastN(s + [x], n)
  {}

  lemma OfSnoc(h: seq<Entry>, e: Entry, src: string)
    ensures Of(h + [e], src) == Of(h, src) + if e.source == src then [e] else []
  {}

  lemma RingGrows(perSrc: map<string, seq<Entry>>, h: seq<Entry>, cap: nat, e: Entry, ring: seq<Entry>)
    requires cap > 0 && RingsOf(perSrc, h, cap)
    requires ring == LastN((if e.source in perSrc then perSrc[e.source] else []) + [e], cap)
    ensures RingsOf(perSrc[e.source := ring], h + [e], cap)
  {
    var now, g := perSrc[e.source := ring], h + [e];
    forall src | src in now ensures now[src] == LastN(Of(g, src), cap) {
      OneRing(perSrc, h, cap, e, src);
    }
    assert AllRings(now, g, cap);
    assert AllSources(now, g);
  }

  lemma OneRing(perSrc: map<string, seq<Entry>>, h: seq<Entry>, cap: nat, e: Entry, src: string)
    requires cap > 0 && RingsOf(perSrc, h, cap)
    ensures src == e.source ==>
              LastN((if e.source in perSrc then perSrc[e.source] else []) + [e], cap) == LastN(Of(h + [e], src), cap)
    ensures src != e.source && src in perSrc ==> perSrc[src] == LastN(Of(h + [e], src), cap)
  {
    if src == e.source {
      OwnRing(perSrc, h, cap, e);
    } else {
      OtherRing(h, e, src);
    }
  }

  lemma OwnRing(perSrc: map<string, seq<Entry>>, h: seq<Entry>, cap: nat, e: Entry)
    requires cap > 0 && RingsOf(perSrc, h, cap)
    ensures LastN((if e.source in perSrc then perSrc[e.source] else []) + [e], cap) == LastN(Of(h + [e], e.source), cap)
  {
    if e.source !in perSrc {
      NoneOf(h, e.source);
    }
    LastNSnoc(Of(h, e.source), e, cap);
    OfSnoc(h, e, e.source);
  }

  lemma OtherRing(h: seq<Entry>, e: Entry, src: string)
    requires src != e.source
    ensures Of(h + [e], src) == Of(h, src)
  {}

  ghost predicate Apart(s: seq<Entry>) { forall i, j :: 0 <= i < j < |s| ==> s[i].seqNo != s[j].seqNo }

  /** The rings of all sources but those still to do. */
  ghost predicate Collected(all: seq<Entry>, perSrc: map<string, seq<Entry>>, todo: set<string>) {
    forall e :: e in all <==> e.source in perSrc && e.source !in todo && e in perSrc[e.source]
  }

  lemma RingIs(perSrc: map<string, seq<Entry>>, h: seq<Entry>, cap: nat, src: string)
    requires RingsOf(perSrc, h, cap) && Numbered(h) && src in perSrc
    ensures Increasing(perSrc[src]) && forall e :: e in perSrc[src] ==> e in h && e.source == src
  {
    OfIncreasing(h, src);
    LastNIn(Of(h, src), cap);
  }

  lemma LastNIn(s: seq<Entry>, n: nat)
    ensures (forall x :: x in LastN(s, n) ==> x in s) && (Increasing(s) ==> Increasing(LastN(s, n)))
  {}

  lemma NumberedGrows(h: seq<Entry>, e: Entry)
    requires Numbered(h) && e.seqNo == |h| + 1
    ensures Numbered(h + [e])
  {}

  lemma ApartConcat(a: seq<Entry>, b: seq<Entry>)
    requires Apart(a) && Apart(b) && forall x, y :: x in a && y in b ==> x.seqNo != y.seqNo
    ensures Apart(a + b)
  {}

  /** The ring about to be collected shares no sequence number with those collected before. */
  lemma CollectsOne(all: seq<Entry>, perSrc: map<string, seq<Entry>>, h: seq<Entry>, cap: nat, todo: set<string>, src: string)
    requires RingsOf(perSrc, h, cap) && Numbered(h) && todo <= perSrc.Keys && src in todo
    requires Apart(all) && Collected(all, perSrc, todo)
    ensures Apart(all + perSrc[src]) && Collected(all + perSrc[src], perSrc, todo - {src})
  {
    RingIs(perSrc, h, cap, src);
    var ring := perSrc[src];
    forall x, y | x in all && y in ring ensures x.seqNo != y.seqNo {
      RingIs(perSrc, h, cap, x.source);
    }
    ApartConcat(all, ring);
  }

  lemma RingHolds(h: seq<Entry>, cap: nat, i: nat)
    requires i < |h| && Numbered(h)
    ensures (h[i] in LastN(Of(h, h[i].source), cap)) == (Later(h, i) < cap)
  {
    Around(h, i);
    InRing(h, cap, h[..i], h[i], h[i + 1..]);
  }

  lemma Around<T>(h: seq<T>, i: nat)
    requires i < |h|
    ensures h == h[..i] + [h[i]] + h[i + 1..]
  {}

  lemma RingsHold(perSrc: map<string, seq<Entry>>, h: seq<Entry>, cap: nat, e: Entry)
    requires RingsOf(perSrc, h, cap) && Numbered(h)
    ensures (e.source in perSrc && e in perSrc[e.source]) == exists i :: StillIn(h, cap, e, i)
  {
    if e in h {
      var i :| 0 <= i < |h| && h[i] == e;
      RingHolds(h, cap, i);
      assert e in perSrc[e.source] ==> StillIn(h, cap, e, i);
      assert forall j :: StillIn(h, cap, e, j) ==> j == i;
    } else if e.source in perSrc {
      RingIs(perSrc, h, cap, e.source);
    }
  }

  // ---------------------------------------------------------------- the tail is the end of the history

  lemma {:induction false} KeptEnd(h: seq<Entry>, cap: nat, k: nat, n: nat)
    requires k <= n <= |h| && |h| - k <= cap
    ensures Kept(h, cap, n) == Kept(h, cap, k) + h[k..n]
  {
    if k < n {
      KeptEnd(h, cap, k, n - 1);
      OfLength(h[n..], h[n - 1].source);
      SliceSnoc(Kept(h, cap, k), h, k, n);
    }
  }

  lemma SliceSnoc<T>(a: seq<T>, h: seq<T>, k: nat, n: nat)
    requires k < n <= |h|
    ensures a + h[k..n] == (a + h[k..n - 1]) + [h[n - 1]]
  {}

  /** Whatever the rings have dropped, the last `n` entries ever added are all there, and last. */
  lemma TailIsGlobal(h: seq<Entry>, cap: nat, n: nat)
    requires 0 < n <= cap
    ensures LastN(Retained(h, cap), n) == LastN(h, n)
  {
    var k := if |h| <= n then 0 else |h| - n;
    KeptEnd(h, cap, k, |h|);
    assert h[k..|h|] == h[k..] == LastN(h, n);
    LastNOfConcat(Kept(h, cap, k), h[k..], n);
  }

  lemma LastNOfConcat<T>(a: seq<T>, b: seq<T>, n: nat)
    requires |b| == n || a == []
    ensures LastN(a + b, n) == LastN(b, n)
  {
    assert a == [] ==> a + b == b;
  }
}
