/** Release tags: parsing, precedence after section 11 of Semantic Versioning 2.0.0, and the newest release. */
module Versions {
  import opened Base
  import opened Text

  datatype Version = Version(major: nat, minor: nat, patch: nat, pre: Option<seq<string>>)

  // ---------------------------------------------------------------- parsing

  predicate Ident(c: char) { Digit(c) || 'A' <= c <= 'Z' || 'a' <= c <= 'z' || c == '-' }

  predicate PreChar(c: char) { Ident(c) || c == '.' }

  /** White space and line ends of ECMAScript. */
  predicate ScriptSpace(c: char) {
    || '\t' <= c <= '\r' || c == ' ' || c == '\U{00A0}' || c == '\U{1680}' || '\U{2000}' <= c <= '\U{200A}'
    || c == '\U{2028}' || c == '\U{2029}' || c == '\U{202F}' || c == '\U{205F}' || c == '\U{3000}' || c == '\U{FEFF}'
  }

  /** How many characters at the front are of a kind. */
  function Leading(s: string, kind: char -> bool): (n: nat)
    ensures n <= |s| && (forall i :: 0 <= i < n ==> kind(s[i])) && (n < |s| ==> !kind(s[n]))
  {
    if s == "" || !kind(s[0]) then 0 else 1 + Leading(s[1..], kind)
  }

  /** Dot-separated identifiers, none empty. */
  predicate Build(s: string) {
    && s != "" && s[0] != '.' && s[|s| - 1] != '.'
    && (forall i :: 0 <= i < |s| ==> PreChar(s[i]))
    && (forall i :: 0 < i < |s| ==> s[i - 1] != '.' || s[i] != '.')
  }

  /** Build metadata is checked and dropped. */
  predicate Ends(s: string) { s == "" || (s[0] == '+' && Build(s[1..])) }

  function ParseSuffix(major: nat, minor: nat, patch: nat, s: string): Option<Version> {
    if s != "" && s[0] == '-' then
      var n := Leading(s[1..], PreChar);
      if n > 0 && Ends(s[1 + n..]) then Some(Version(major, minor, patch, Some(Split(s[1..1 + n], '.')))) else None
    else if Ends(s) then Some(Version(major, minor, patch, None))
    else None
  }

  /** A number and the dot that must follow it. */
  function Field(s: string): Option<(nat, string)> {
    var n := Leading(s, Digit);
    if 0 < n < |s| && s[n] == '.' then Some((Value(s[..n]), s[n + 1..])) else None
  }

  function ParseClean(s: string): Option<Version> {
    var major := Field(s);
    if major == None then None
    else
      var minor := Field(major.value.1);
      if minor == None then None
      else
        var t := minor.value.1;
        var n := Leading(t, Digit);
        if n == 0 then None
        else ParseSuffix(major.value.0, minor.value.0, Value(t[..n]), t[n..])
  }

  function Strip(tag: string): string {
    var t := Trim(tag, ScriptSpace);
    if t != "" && (t[0] == 'v' || t[0] == 'V') then t[1..] else t
  }

  function Parse(tag: string): Option<Version> { ParseClean(Strip(tag)) }

  predicate Plain(c: char) { PreChar(c) || c == '+' }

  lemma CleanIsPlain(s: string)
    requires ParseClean(s).Some?
    ensures s != "" && Digit(s[0]) && forall c :: c in s ==> Plain(c)
  {
    var w := TextIsParsed(s);
    TextIsPlain(w);
  }

  /** A tag that parses does so again, to the same version, once it is stripped. */
  lemma StrippedParsesTheSame(tag: string)
    requires Parse(tag).Some?
    ensures Strip(Strip(tag)) == Strip(tag) && Parse(Strip(tag)) == Parse(tag)
  {
    var s := Strip(tag);
    CleanIsPlain(s);
    assert s[|s| - 1] in s;
    StripOfPlain(s);
  }

  lemma StripOfPlain(s: string)
    requires s != "" && Digit(s[0]) && Plain(s[|s| - 1])
    ensures Strip(s) == s
  {}

  /** A version as it is written. */
  function Printed(v: Version): string {
    Decimal(v.major) + "." + (Decimal(v.minor) + "." + (Decimal(v.patch) + if v.pre.Some? then "-" + Join(v.pre.value, '.') else ""))
  }

  predicate Identifiers(l: seq<string>) {
    Join(l, '.') != "" && l != [] && forall i :: 0 <= i < |l| ==> forall c :: c in l[i] ==> Ident(c)
  }

  lemma LeadingIs(a: string, rest: string, kind: char -> bool)
    requires (forall i :: 0 <= i < |a| ==> kind(a[i])) && (rest == "" || !kind(rest[0]))
    ensures Leading(a + rest, kind) == |a|
  {
    assert forall i :: 0 <= i < |a| ==> (a + rest)[i] == a[i];
    assert rest != "" ==> (a + rest)[|a|] == rest[0];
    LeadingAt(a + rest, |a|, kind);
  }

  lemma LeadingAt(s: string, k: nat, kind: char -> bool)
    requires k <= |s| && (forall i :: 0 <= i < k ==> kind(s[i])) && (k == |s| || !kind(s[k]))
    ensures Leading(s, kind) == k
  {}

  lemma FieldOfPrinted(n: nat, rest: string)
    ensures Field(Decimal(n) + "." + rest) == Some((n, rest))
  {
    var d := Decimal(n);
    ValueOfDecimal(n);
    assert d + "." + rest == d + ("." + rest);
    LeadingIs(d, "." + rest, Digit);
    assert (d + "." + rest)[..|d|] == d && (d + "." + rest)[|d| + 1..] == rest;
  }

  lemma {:induction false} JoinIsPre(l: seq<string>)
    requires forall i :: 0 <= i < |l| ==> forall c :: c in l[i] ==> Ident(c)
    ensures forall c :: c in Join(l, '.') ==> PreChar(c)
  {
    if |l| > 1 {
      JoinIsPre(l[1..]);
    } else if |l| == 1 {
      assert forall c :: c in l[0] ==> Ident(c);
    }
  }

  lemma SuffixOfPrinted(major: nat, minor: nat, patch: nat, pre: Option<seq<string>>)
    requires pre.Some? ==> Identifiers(pre.value)
    ensures ParseSuffix(major, minor, patch, if pre.Some? then "-" + Join(pre.value, '.') else "") ==
            Some(Version(major, minor, patch, pre))
  {
    if pre.Some? {
      var j := Join(pre.value, '.');
      JoinIsPre(pre.value);
      assert forall i :: 0 <= i < |j| ==> j[i] in j;
      LeadingIs(j, "", PreChar);
      assert j + "" == j;
      var s := "-" + j;
      assert s[1..] == j && s[1..1 + |j|] == j && s[1 + |j|..] == "";
      forall i | 0 <= i < |pre.value| ensures '.' !in pre.value[i] {
        assert forall c :: c in pre.value[i] ==> Ident(c);
      }
      SplitJoin(pre.value, '.');
    }
  }

  lemma CleanOfPrinted(v: Version)
    requires v.pre.Some? ==> Identifiers(v.pre.value)
    ensures ParseClean(Printed(v)) == Some(v)
  {
    var suffix := if v.pre.Some? then "-" + Join(v.pre.value, '.') else "";
    var last := Decimal(v.patch) + suffix;
    FieldOfPrinted(v.major, Decimal(v.minor) + "." + last);
    FieldOfPrinted(v.minor, last);
    ValueOfDecimal(v.patch);
    LeadingIs(Decimal(v.patch), suffix, Digit);
    assert last[..|Decimal(v.patch)|] == Decimal(v.patch) && last[|Decimal(v.patch)|..] == suffix;
    SuffixOfPrinted(v.major, v.minor, v.patch, v.pre);
  }

  /** A written version is read back field by field, with or without a leading letter of either case. */
  lemma PrintedParses(v: Version)
    requires v.pre.Some? ==> Identifiers(v.pre.value)
    ensures Parse(Printed(v)) == Some(v) && Parse("v" + Printed(v)) == Some(v) && Parse("V" + Printed(v)) == Some(v)
  {
    var s := Printed(v);
    CleanOfPrinted(v);
    CleanIsPlain(s);
    assert s[|s| - 1] in s;
    StripOfPlain(s);
    StripOfLetter(s, 'v');
    StripOfLetter(s, 'V');
  }

  lemma StripOfLetter(s: string, c: char)
    requires s != "" && Plain(s[|s| - 1]) && (c == 'v' || c == 'V')
    ensures Strip([c] + s) == s
  {
    var t := [c] + s;
    assert t[|t| - 1] == s[|s| - 1] && Trimmed(t, ScriptSpace);
    assert t[1..] == s;
  }

  // ---------------------------------------------------------------- exactly what parses

  /** The text of a tag, taken apart: three numbers, a chain of identifiers or none, and build metadata or none. */
  datatype Written = Written(major: string, minor: string, patch: string, pre: Option<string>, build: Option<string>)

  function TextOf(w: Written): string {
    w.major + "." + (w.minor + "." + (w.patch + Suffix(w)))
  }

  function Tail(w: Written): string { if w.build.Some? then ['+'] + w.build.value else "" }

  function Suffix(w: Written): string { if w.pre.Some? then ['-'] + w.pre.value + Tail(w) else Tail(w) }

  lemma SuffixIsPlain(w: Written)
    requires WellFormed(w)
    ensures forall c :: c in Suffix(w) ==> Plain(c)
  {
    assert forall c :: c in Tail(w) ==> Plain(c);
    if w.pre.Some? {
      assert forall c :: c in w.pre.value ==> PreChar(c);
    }
  }

  lemma TextIsPlain(w: Written)
    requires WellFormed(w)
    ensures TextOf(w) != "" && Digit(TextOf(w)[0]) && forall c :: c in TextOf(w) ==> Plain(c)
  {
    SuffixIsPlain(w);
    assert forall c :: c in w.major + w.minor + w.patch ==> Digit(c);
    assert forall c :: c in w.patch + Suffix(w) ==> Plain(c);
    assert forall c :: c in w.minor + "." + (w.patch + Suffix(w)) ==> Plain(c);
  }

  predicate WellFormed(w: Written) {
    && AllDigits(w.major) && AllDigits(w.minor) && AllDigits(w.patch)
    && (w.pre.Some? ==> w.pre.value != "" && forall i :: 0 <= i < |w.pre.value| ==> PreChar(w.pre.value[i]))
    && (w.build.Some? ==> Build(w.build.value))
  }

  function Meaning(w: Written): Version {
    Version(Value(w.major), Value(w.minor), Value(w.patch), if w.pre.Some? then Some(Split(w.pre.value, '.')) else None)
  }

  lemma FieldOfText(d: string, rest: string)
    requires AllDigits(d)
    ensures Field(d + "." + rest) == Some((Value(d), rest))
  {
    assert d + "." + rest == d + ("." + rest);
    LeadingIs(d, "." + rest, Digit);
    assert (d + "." + rest)[..|d|] == d && (d + "." + rest)[|d| + 1..] == rest;
  }

  lemma Slices(c: char, p: string, tail: string)
    ensures var s := [c] + p + tail;
            s[0] == c && s[1..] == p + tail && s[1..1 + |p|] == p && s[1 + |p|..] == tail
  {}

  lemma WithChain(major: nat, minor: nat, patch: nat, p: string, tail: string)
    requires p != "" && (forall i :: 0 <= i < |p| ==> PreChar(p[i])) && Ends(tail)
    ensures ParseSuffix(major, minor, patch, ['-'] + p + tail) == Some(Version(major, minor, patch, Some(Split(p, '.'))))
  {
    var s := ['-'] + p + tail;
    Slices('-', p, tail);
    LeadingIs(p, tail, PreChar);
    assert Leading(s[1..], PreChar) == |p|;
    ChainThenEnd(major, minor, patch, s, |p|);
  }

  lemma ChainThenEnd(major: nat, minor: nat, patch: nat, s: string, n: nat)
    requires s != "" && s[0] == '-' && n == Leading(s[1..], PreChar) && n > 0 && Ends(s[1 + n..])
    ensures ParseSuffix(major, minor, patch, s) == Some(Version(major, minor, patch, Some(Split(s[1..1 + n], '.'))))
  {}

  lemma SuffixOfText(major: nat, minor: nat, patch: nat, w: Written)
    requires WellFormed(w)
    ensures ParseSuffix(major, minor, patch, Suffix(w)) ==
            Some(Version(major, minor, patch, if w.pre.Some? then Some(Split(w.pre.value, '.')) else None))
  {
    assert w.build.Some? ==> Tail(w)[1..] == w.build.value;
    assert Ends(Tail(w));
    if w.pre.Some? {
      WithChain(major, minor, patch, w.pre.value, Tail(w));
    }
  }

  lemma TextParses(w: Written)
    requires WellFormed(w)
    ensures ParseClean(TextOf(w)) == Some(Meaning(w))
  {
    var last := w.patch + Suffix(w);
    FieldOfText(w.major, w.minor + "." + last);
    FieldOfText(w.minor, last);
    NumberOfText(w);
    SuffixOfText(Value(w.major), Value(w.minor), Value(w.patch), w);
  }

  lemma NumberOfText(w: Written)
    requires WellFormed(w)
    ensures var last := w.patch + Suffix(w);
            Leading(last, Digit) == |w.patch| && last[..|w.patch|] == w.patch && last[|w.patch|..] == Suffix(w)
  {
    LeadingIs(w.patch, Suffix(w), Digit);
  }

  lemma EndIsText(s: string) returns (build: Option<string>)
    requires Ends(s)
    ensures s == (if build.Some? then ['+'] + build.value else "") && (build.Some? ==> Build(build.value))
  {
    build := None;
    if s != "" {
      build := Some(s[1..]);
      assert s == [s[0]] + s[1..];
    }
  }

  lemma ChainIsText(s: string, n: nat)
    requires s != "" && n < |s|
    ensures s == [s[0]] + s[1..1 + n] + s[1 + n..]
  {}

  lemma SuffixIsText(major: nat, minor: nat, patch: nat, s: string) returns (pre: Option<string>, build: Option<string>)
    requires ParseSuffix(major, minor, patch, s).Some?
    ensures var w := Written("0", "0", "0", pre, build); Suffix(w) == s
    ensures pre.Some? ==> pre.value != "" && forall i :: 0 <= i < |pre.value| ==> PreChar(pre.value[i])
    ensures build.Some? ==> Build(build.value)
  {
    if s != "" && s[0] == '-' {
      var n := Leading(s[1..], PreChar);
      pre := Some(s[1..1 + n]);
      ChainIsText(s, n);
      build := EndIsText(s[1 + n..]);
      assert forall i :: 0 <= i < n ==> pre.value[i] == s[1..][i];
    } else {
      pre := None;
      build := EndIsText(s);
    }
  }

  lemma FieldIsText(s: string) returns (d: string)
    requires Field(s).Some?
    ensures AllDigits(d) && s == d + "." + Field(s).value.1 && Value(d) == Field(s).value.0
  {
    var n := Leading(s, Digit);
    d := s[..n];
    assert s == s[..n] + [s[n]] + s[n + 1..];
    assert "." == ['.'];
  }

  lemma NumberThenRest(t: string)
    requires Leading(t, Digit) > 0
    ensures var n := Leading(t, Digit); AllDigits(t[..n]) && t == t[..n] + t[n..]
  {}

  lemma Pieces(s: string) returns (a: string, b: string, c: string, rest: string)
    requires ParseClean(s).Some?
    ensures AllDigits(a) && AllDigits(b) && AllDigits(c) && s == a + "." + (b + "." + (c + rest))
    ensures ParseSuffix(Value(a), Value(b), Value(c), rest).Some?
  {
    var major := Field(s).value;
    var minor := Field(major.1).value;
    var n := Leading(minor.1, Digit);
    a := FieldIsText(s);
    b := FieldIsText(major.1);
    c, rest := minor.1[..n], minor.1[n..];
    assert ParseClean(s) == ParseSuffix(major.0, minor.0, Value(c), rest);
    NumberThenRest(minor.1);
  }

  lemma TextIsParsed(s: string) returns (w: Written)
    requires ParseClean(s).Some?
    ensures WellFormed(w) && TextOf(w) == s
  {
    var a, b, c, rest := Pieces(s);
    var pre, build := SuffixIsText(Value(a), Value(b), Value(c), rest);
    w := Written(a, b, c, pre, build);
  }

  /** A tag parses exactly when, trimmed and without its letter, it is three numbers with an optional chain and optional
      metadata, and then to those numbers and that chain. */
  lemma ParsesExactly(tag: string, v: Version)
    ensures (Parse(tag) == Some(v)) == (exists w :: WellFormed(w) && TextOf(w) == Strip(tag) && Meaning(w) == v)
  {
    if Parse(tag) == Some(v) {
      var w := TextIsParsed(Strip(tag));
      TextParses(w);
    }
    if w :| WellFormed(w) && TextOf(w) == Strip(tag) && Meaning(w) == v {
      TextParses(w);
    }
  }

  // ---------------------------------------------------------------- precedence

  predicate LexLess(a: string, b: string) {
    b != "" && (a == "" || a[0] < b[0] || (a[0] == b[0] && LexLess(a[1..], b[1..])))
  }

  /** Section 11.4: numeric identifiers by value, others by their characters, numeric ones first. */
  predicate IdLower(a: string, b: string) {
    if AllDigits(a) then !AllDigits(b) || Value(a) < Value(b)
    else !AllDigits(b) && LexLess(a, b)
  }

  predicate SameId(a: string, b: string) {
    a == b || (AllDigits(a) && AllDigits(b) && Value(a) == Value(b))
  }

  /** The chains agree before field `k`, where the first is at its end or has the lower identifier. */
  predicate LowerAt(p: seq<string>, q: seq<string>, k: nat) {
    && k <= |p| && k < |q|
    && (forall j :: 0 <= j < k ==> SameId(p[j], q[j]))
    && (k == |p| || IdLower(p[k], q[k]))
  }

  ghost predicate ChainLower(p: seq<string>, q: seq<string>) { exists k :: LowerAt(p, q, k) }

  predicate SameChain(p: seq<string>, q: seq<string>) {
    |p| == |q| && forall j :: 0 <= j < |p| ==> SameId(p[j], q[j])
  }

  /** Section 11.3: a pre-release comes before its release. */
  ghost predicate PreLower(p: Option<seq<string>>, q: Option<seq<string>>) {
    p.Some? && (q.None? || ChainLower(p.value, q.value))
  }

  predicate SameCore(v: Version, w: Version) { v.major == w.major && v.minor == w.minor && v.patch == w.patch }

  predicate CoreLower(v: Version, w: Version) {
    v.major < w.major || (v.major == w.major && (v.minor < w.minor || (v.minor == w.minor && v.patch < w.patch)))
  }

  /** Section 11: precedence. */
  ghost predicate Lower(v: Version, w: Version) {
    CoreLower(v, w) || (SameCore(v, w) && PreLower(v.pre, w.pre))
  }

  lemma {:induction false} LexOrder(a: string, b: string)
    ensures a == b || LexLess(a, b) || LexLess(b, a)
    ensures !(LexLess(a, b) && LexLess(b, a)) && !LexLess(a, a)
  {
    if a != "" && b != "" {
      LexOrder(a[1..], b[1..]);
      assert a == [a[0]] + a[1..] && b == [b[0]] + b[1..];
    }
    if a != "" {
      LexOrder(a[1..], a[1..]);
    }
  }

  lemma {:induction false} LexTransitive(a: string, b: string, c: string)
    requires LexLess(a, b) && LexLess(b, c)
    ensures LexLess(a, c)
  {
    if a != "" && a[0] == b[0] == c[0] {
      LexTransitive(a[1..], b[1..], c[1..]);
    }
  }

  lemma IdOrder(a: string, b: string)
    ensures SameId(a, b) || IdLower(a, b) || IdLower(b, a)
    ensures !(SameId(a, b) && (IdLower(a, b) || IdLower(b, a))) && !(IdLower(a, b) && IdLower(b, a))
  {
    LexOrder(a, b);
  }

  lemma IdTransitive(a: string, b: string, c: string)
    requires (IdLower(a, b) || SameId(a, b)) && (IdLower(b, c) || SameId(b, c))
    ensures if SameId(a, b) && SameId(b, c) then SameId(a, c) else IdLower(a, c)
  {
    IdOrder(a, b);
    IdOrder(b, c);
    if LexLess(a, b) && LexLess(b, c) {
      LexTransitive(a, b, c);
    }
  }

  /** The first field where two chains differ, or the length of the shorter. */
  function Common(p: seq<string>, q: seq<string>, k: nat): (n: nat)
    requires k <= |p| && k <= |q| && forall j :: 0 <= j < k ==> SameId(p[j], q[j])
    ensures n <= |p| && n <= |q| && (forall j :: 0 <= j < n ==> SameId(p[j], q[j]))
    ensures n < |p| && n < |q| ==> !SameId(p[n], q[n])
    decreases |p| - k
  {
    if k < |p| && k < |q| && SameId(p[k], q[k]) then Common(p, q, k + 1) else k
  }

  lemma ChainOrder(p: seq<string>, q: seq<string>)
    ensures SameChain(p, q) || ChainLower(p, q) || ChainLower(q, p)
  {
    var n := Common(p, q, 0);
    if n < |p| && n < |q| {
      IdOrder(p[n], q[n]);
    }
    assert LowerAt(p, q, n) || LowerAt(q, p, n) || SameChain(p, q);
  }

  lemma NotBoth(p: seq<string>, q: seq<string>, k: nat, n: nat)
    requires LowerAt(p, q, k)
    ensures !LowerAt(q, p, n) && !SameChain(p, q)
  {
    if k < |p| {
      IdOrder(p[k], q[k]);
    }
    if n < |p| && n < |q| {
      IdOrder(p[n], q[n]);
    }
  }

  lemma ChainExclusive(p: seq<string>, q: seq<string>)
    requires ChainLower(p, q)
    ensures !ChainLower(q, p) && !SameChain(p, q)
  {
    var k :| LowerAt(p, q, k);
    forall n: nat ensures !LowerAt(q, p, n) {
      NotBoth(p, q, k, n);
    }
    NotBoth(p, q, k, 0);
  }

  lemma PairTransitive(p: seq<string>, q: seq<string>, r: seq<string>, n: nat)
    requires n <= |p| && n <= |q| && n <= |r|
    requires forall j :: 0 <= j < n ==> SameId(p[j], q[j]) && SameId(q[j], r[j])
    ensures forall j :: 0 <= j < n ==> SameId(p[j], r[j])
  {}

  lemma ChainTransitive(p: seq<string>, q: seq<string>, r: seq<string>)
    requires (ChainLower(p, q) || SameChain(p, q)) && (ChainLower(q, r) || SameChain(q, r))
    ensures if SameChain(p, q) && SameChain(q, r) then SameChain(p, r) else ChainLower(p, r)
  {
    if SameChain(p, q) && SameChain(q, r) {
      PairTransitive(p, q, r, |p|);
    } else {
      var k := if SameChain(p, q) then |p| else var k :| LowerAt(p, q, k); k;
      var n := if SameChain(q, r) then |q| else var n :| LowerAt(q, r, n); n;
      var m := if k < n then k else n;
      PairTransitive(p, q, r, m);
      if m < |p| && m < |q| && m < |r| {
        IdTransitive(p[m], q[m], r[m]);
      }
      assert LowerAt(p, r, m);
    }
  }

  ghost predicate SamePre(p: Option<seq<string>>, q: Option<seq<string>>) {
    (p.None? && q.None?) || (p.Some? && q.Some? && SameChain(p.value, q.value))
  }

  /** Same precedence. */
  ghost predicate Same(v: Version, w: Version) { SameCore(v, w) && SamePre(v.pre, w.pre) }

  /** Of two versions exactly one is lower, or they have the same precedence. */
  lemma OneOfThree(v: Version, w: Version)
    ensures Same(v, w) || Lower(v, w) || Lower(w, v)
    ensures !(Lower(v, w) && Lower(w, v)) && !(Same(v, w) && (Lower(v, w) || Lower(w, v)))
  {
    if v.pre.Some? && w.pre.Some? {
      var p, q := v.pre.value, w.pre.value;
      ChainOrder(p, q);
      if ChainLower(p, q) {
        ChainExclusive(p, q);
      }
      if ChainLower(q, p) {
        ChainExclusive(q, p);
      }
      assert SameChain(p, q) == SameChain(q, p);
    }
  }

  /** Not higher than. */
  ghost predicate AtMost(v: Version, w: Version) { !Lower(w, v) }

  /** Precedence is a total preorder. */
  lemma AtMostTransitive(u: Version, v: Version, w: Version)
    requires AtMost(u, v) && AtMost(v, w)
    ensures AtMost(u, w) && (Lower(u, v) || Lower(v, w) ==> Lower(u, w))
  {
    OneOfThree(u, v);
    OneOfThree(v, w);
    OneOfThree(u, w);
    if SameCore(u, v) && SameCore(v, w) && u.pre.Some? && v.pre.Some? && w.pre.Some? {
      ChainTransitive(u.pre.value, v.pre.value, w.pre.value);
    }
  }

  // ---------------------------------------------------------------- comparing

  method CompareIdentifier(a: string, b: string) returns (c: int)
    ensures (c < 0) == IdLower(a, b) && (c > 0) == IdLower(b, a) && (c == 0) == SameId(a, b)
  {
    IdOrder(a, b);
    if AllDigits(a) && AllDigits(b) {
      return Value(a) - Value(b);
    }
    if AllDigits(a) {
      return -1;
    }
    if AllDigits(b) {
      return 1;
    }
    if a == b {
      return 0;
    }
    return if LexLess(a, b) then -1 else 1;
  }

  method CompareChains(p: seq<string>, q: seq<string>) returns (c: int)
    ensures (c < 0) == ChainLower(p, q) && (c > 0) == ChainLower(q, p) && (c == 0) == SameChain(p, q)
  {
    ChainOrder(p, q);
    if ChainLower(p, q) {
      ChainExclusive(p, q);
    }
    if ChainLower(q, p) {
      ChainExclusive(q, p);
    }
    var len := if |p| > |q| then |p| else |q|;
    for i := 0 to len
      invariant i <= |p| && i <= |q| && forall j :: 0 <= j < i ==> SameId(p[j], q[j])
    {
      if i >= |p| {
        assert LowerAt(p, q, i);
        return -1;
      }
      if i >= |q| {
        assert LowerAt(q, p, i);
        return 1;
      }
      c := CompareIdentifier(p[i], q[i]);
      if c != 0 {
        assert LowerAt(p, q, i) || LowerAt(q, p, i);
        return c;
      }
    }
    return 0;
  }

  /** Nothing when either tag does not parse; otherwise the sign tells which is lower. */
  method CompareVersions(a: string, b: string) returns (c: Option<int>)
    ensures c.Some? == (Parse(a).Some? && Parse(b).Some?)
    ensures c.Some? ==>
              && (c.value < 0) == Lower(Parse(a).value, Parse(b).value)
              && (c.value > 0) == Lower(Parse(b).value, Parse(a).value)
              && (c.value == 0) == Same(Parse(a).value, Parse(b).value)
  {
    var va, vb := Parse(a), Parse(b);
    if va.None? || vb.None? {
      return None;
    }
    var order := CompareParsed(va.value, vb.value);
    return Some(order);
  }

  method CompareParsed(v: Version, w: Version) returns (c: int)
    ensures (c < 0) == Lower(v, w) && (c > 0) == Lower(w, v) && (c == 0) == Same(v, w)
  {
    OneOfThree(v, w);
    if v.major != w.major {
      return v.major - w.major;
    }
    if v.minor != w.minor {
      return v.minor - w.minor;
    }
    if v.patch != w.patch {
      return v.patch - w.patch;
    }
    if v.pre.None? && w.pre.None? {
      return 0;
    }
    if v.pre.None? {
      return 1;
    }
    if w.pre.None? {
      return -1;
    }
    c := CompareChains(v.pre.value, w.pre.value);
  }

  // ---------------------------------------------------------------- the newest release

  /** An entry of the release list; the tag may be missing. */
  datatype Release = Release(draft: bool, tag: Option<string>, url: string)

  datatype Picked = Picked(version: string, url: string)

  function TagOf(r: Release): string { if r.tag.Some? then r.tag.value else "" }

  /** The version of an entry that may be offered: drafts and malformed tags are not. */
  function Offered(r: Option<Release>): Option<Version> {
    if r.Some? && !r.value.draft then Parse(TagOf(r.value)) else None
  }

  /** A missing entry, a draft and a missing or malformed tag are never offered. */
  lemma OfferedExactly(r: Option<Release>, v: Version)
    ensures (Offered(r) == Some(v)) == (r.Some? && !r.value.draft && r.value.tag.Some? && Parse(r.value.tag.value) == Some(v))
  {
    assert Parse("") == None by {
      assert Strip("") == "";
      assert Leading("", Digit) == 0;
    }
  }

  function AllOffered(l: seq<Option<Release>>): (r: seq<Option<Version>>)
    ensures |r| == |l| && forall i :: 0 <= i < |l| ==> r[i] == Offered(l[i])
  {
    seq(|l|, i requires 0 <= i < |l| => Offered(l[i]))
  }

  /** Version `i` is there, none is higher, and none before it is as high. */
  ghost predicate FirstHighest(l: seq<Option<Version>>, i: nat) {
    && i < |l| && l[i].Some?
    && (forall j :: 0 <= j < |l| && l[j].Some? ==> AtMost(l[j].value, l[i].value))
    && (forall j :: 0 <= j < i && l[j].Some? ==> Lower(l[j].value, l[i].value))
  }

  predicate NoneThere(l: seq<Option<Version>>) { forall j :: 0 <= j < |l| ==> l[j].None? }

  lemma Overtakes(v: Version, best: Version, w: Version)
    requires AtMost(v, best) && Lower(best, w)
    ensures Lower(v, w) && AtMost(v, w) && AtMost(w, w)
  {
    OneOfThree(best, w);
    AtMostTransitive(v, best, w);
    OneOfThree(w, w);
  }

  lemma Higher(l: seq<Option<Version>>, i: nat, w: Version)
    requires FirstHighest(l, i) && Lower(l[i].value, w)
    ensures FirstHighest(l + [Some(w)], |l|)
  {
    Overtakes(l[i].value, l[i].value, w);
    forall j | 0 <= j < |l| && l[j].Some? ensures Lower(l[j].value, w) && AtMost(l[j].value, w) {
      Overtakes(l[j].value, l[i].value, w);
    }
  }

  lemma FirstThere(l: seq<Option<Version>>, w: Version)
    requires NoneThere(l)
    ensures FirstHighest(l + [Some(w)], |l|)
  {
    OneOfThree(w, w);
  }

  function PickOf(r: Option<Release>): Picked {
    if r.Some? then Picked(Strip(TagOf(r.value)), r.value.url) else Picked("", "")
  }

  function PicksOf(l: seq<Option<Release>>): (r: seq<Picked>)
    ensures |r| == |l| && forall i :: 0 <= i < |l| ==> r[i] == PickOf(l[i])
  {
    seq(|l|, i requires 0 <= i < |l| => PickOf(l[i]))
  }

  /** The first of the highest, or nothing exactly when there is no version at all. */
  ghost predicate Best(best: Option<Picked>, vs: seq<Option<Version>>, ps: seq<Picked>) {
    |vs| == |ps| && if best.None? then NoneThere(vs) else exists i: nat :: FirstHighest(vs, i) && best.value == ps[i]
  }

  /** So far, where `v` is the version of the best. */
  ghost predicate BestAt(best: Option<Picked>, v: Version, vs: seq<Option<Version>>, ps: seq<Picked>, i: nat) {
    |vs| == |ps| && if best.None? then NoneThere(vs) else FirstHighest(vs, i) && vs[i] == Some(v) && best.value == ps[i]
  }

  lemma Skips(best: Option<Picked>, v: Version, vs: seq<Option<Version>>, ps: seq<Picked>, i: nat, w: Option<Version>, p: Picked)
    requires BestAt(best, v, vs, ps, i) && (w.Some? ==> best.Some? && AtMost(w.value, v))
    ensures BestAt(best, v, vs + [w], ps + [p], i)
  {}

  lemma Takes(best: Option<Picked>, v: Version, vs: seq<Option<Version>>, ps: seq<Picked>, i: nat, w: Version, p: Picked)
    requires BestAt(best, v, vs, ps, i) && (best.Some? ==> Lower(v, w))
    ensures BestAt(Some(p), w, vs + [Some(w)], ps + [p], |vs|)
  {
    if best.Some? {
      Higher(vs, i, w);
    } else {
      FirstThere(vs, w);
    }
  }

  /** Whether a version replaces the best so far. */
  method Replaces(version: string, best: Option<Picked>, ghost w: Version, ghost v: Version) returns (higher: bool)
    requires Parse(version) == Some(w) && (best.Some? ==> Parse(best.value.version) == Some(v))
    ensures higher == (best.None? || Lower(v, w))
  {
    higher := best.None?;
    if best.Some? {
      var c := CompareVersions(version, best.value.version);
      higher := c.value > 0;
    }
  }

  ghost predicate Names(best: Option<Picked>, v: Version) { best.Some? ==> Parse(best.value.version) == Some(v) }

  /** One turn of the scan. */
  method Consider(r: Option<Release>, best: Option<Picked>,
                  ghost v: Version, ghost vs: seq<Option<Version>>, ghost ps: seq<Picked>, ghost i: nat)
    returns (next: Option<Picked>, ghost v': Version, ghost i': nat)
    requires BestAt(best, v, vs, ps, i) && Names(best, v)
    ensures BestAt(next, v', vs + [Offered(r)], ps + [PickOf(r)], i') && Names(next, v')
  {
    next, v', i' := best, v, i;
    if r.Some? && !r.value.draft && Parse(TagOf(r.value)).Some? {
      ghost var w := Parse(TagOf(r.value)).value;
      StrippedParsesTheSame(TagOf(r.value));
      var higher := Replaces(Strip(TagOf(r.value)), best, w, v);
      if higher {
        Takes(best, v, vs, ps, i, w, PickOf(r));
        next, v', i' := Some(Picked(Strip(TagOf(r.value)), r.value.url)), w, |vs|;
      } else {
        OneOfThree(v, w);
        Skips(best, v, vs, ps, i, Some(w), PickOf(r));
      }
    } else {
      Skips(best, v, vs, ps, i, None, PickOf(r));
    }
  }

  /** The first of the highest releases, or nothing exactly when none may be offered. */
  method PickLatestRelease(releases: seq<Option<Release>>) returns (best: Option<Picked>)
    ensures Best(best, AllOffered(releases), PicksOf(releases))
  {
    best := None;
    ghost var i: nat, v := 0, Version(0, 0, 0, None);
    for k := 0 to |releases|
      invariant BestAt(best, v, AllOffered(releases[..k]), PicksOf(releases[..k]), i) && Names(best, v)
    {
      Grows(releases, k);
      best, v, i := Consider(releases[k], best, v, AllOffered(releases[..k]), PicksOf(releases[..k]), i);
    }
    assert releases[..|releases|] == releases;
  }

  lemma Grows(l: seq<Option<Release>>, k: nat)
    requires k < |l|
    ensures AllOffered(l[..k + 1]) == AllOffered(l[..k]) + [Offered(l[k])]
    ensures PicksOf(l[..k + 1]) == PicksOf(l[..k]) + [PickOf(l[k])]
  {}
}
