/** Trimming and splitting of text. */
module Text {

  /** The letter without its case, for the letters that have two cases among the plain ones. */
  function Folded(c: char): char {
    if 'A' <= c <= 'Z' then (c as int + 32) as char
    else if c == '\U{017F}' then 's'
    else if c == '\U{212A}' then 'k'
    else c
  }

  /** The same text but for case. */
  predicate SameFolded(a: string, b: string) { |a| == |b| && forall i :: 0 <= i < |a| ==> Folded(a[i]) == Folded(b[i]) }

  /** White space and line ends, as Unicode has them. */
  predicate Space(c: char) {
    || '\t' <= c <= '\r' || c == ' ' || c == '\U{0085}' || c == '\U{00A0}' || c == '\U{1680}'
    || '\U{2000}' <= c <= '\U{200A}' || c == '\U{2028}' || c == '\U{2029}' || c == '\U{202F}' || c == '\U{205F}'
    || c == '\U{3000}'
  }

  function TrimRight(s: string, space: char -> bool): (r: string)
    ensures r <= s
    ensures r == "" || !space(r[|r| - 1])
    ensures forall i :: |r| <= i < |s| ==> space(s[i])
  {
    if s != "" && space(s[|s| - 1]) then TrimRight(s[..|s| - 1], space) else s
  }

  /** No space at either end. */
  predicate Trimmed(s: string, space: char -> bool) {
    s == "" || (!space(s[0]) && !space(s[|s| - 1]))
  }

  function Trim(s: string, space: char -> bool): (r: string)
    ensures Trimmed(r, space) && (Trimmed(s, space) ==> r == s)
  {
    if s != "" && space(s[0]) then Trim(s[1..], space)
    else if s != "" && space(s[|s| - 1]) then Trim(s[..|s| - 1], space)
    else s
  }

  lemma {:induction false} TrimKeepsOut(s: string, space: char -> bool, c: char)
    requires c !in s
    ensures c !in Trim(s, space)
  {
    if s != "" && space(s[0]) {
      TrimKeepsOut(s[1..], space, c);
    } else if s != "" && space(s[|s| - 1]) {
      TrimKeepsOut(s[..|s| - 1], space, c);
    }
  }

  /** The fields between occurrences of `sep`; always at least one. */
  function Split(s: string, sep: char): (r: seq<string>)
    ensures |r| > 0 && forall i :: 0 <= i < |r| ==> sep !in r[i]
  {
    if s == "" then [""]
    else
      var r := Split(s[1..], sep);
      if s[0] == sep then [""] + r else [[s[0]] + r[0]] + r[1..]
  }

  function Join(l: seq<string>, sep: char): string {
    if l == [] then "" else if |l| == 1 then l[0] else l[0] + [sep] + Join(l[1..], sep)
  }

  lemma {:induction false} SplitField(f: string, sep: char)
    requires sep !in f
    ensures Split(f, sep) == [f]
  {
    if f != "" {
      SplitField(f[1..], sep);
      assert [f[0]] + f[1..] == f;
    }
  }

  lemma {:induction false} SplitCons(f: string, rest: string, sep: char)
    requires sep !in f
    ensures Split(f + [sep] + rest, sep) == [f] + Split(rest, sep)
  {
    var s := f + [sep] + rest;
    if f == "" {
      assert s[1..] == rest;
    } else {
      assert s[1..] == f[1..] + [sep] + rest;
      SplitCons(f[1..], rest, sep);
      var r := Split(s[1..], sep);
      assert r[0] == f[1..] && r[1..] == Split(rest, sep);
      assert [f[0]] + f[1..] == f;
    }
  }

  /** Joining fields and splitting again gives the fields back. */
  lemma {:induction false} SplitJoin(l: seq<string>, sep: char)
    requires l != [] && forall i :: 0 <= i < |l| ==> sep !in l[i]
    ensures Split(Join(l, sep), sep) == l
  {
    if |l| == 1 {
      SplitField(l[0], sep);
    } else {
      SplitJoin(l[1..], sep);
      SplitCons(l[0], Join(l[1..], sep), sep);
      assert [l[0]] + l[1..] == l;
    }
  }

  // ---------------------------------------------------------------- numbers

  predicate Digit(c: char) { '0' <= c <= '9' }

  predicate AllDigits(s: string) { s != "" && forall i :: 0 <= i < |s| ==> Digit(s[i]) }

  /** The number a text of digits writes. */
  function Value(s: string): nat {
    if s == "" then 0
    else Value(s[..|s| - 1]) * 10 + if Digit(s[|s| - 1]) then s[|s| - 1] as int - '0' as int else 0
  }

  function Decimal(n: nat): string {
    (if n < 10 then "" else Decimal(n / 10)) + [('0' as int + n % 10) as char]
  }

  lemma ValueSnoc(s: string, d: nat)
    requires d < 10
    ensures Value(s + [('0' as int + d) as char]) == Value(s) * 10 + d
  {}

  lemma {:induction false} ValueOfDecimal(n: nat)
    ensures AllDigits(Decimal(n)) && Value(Decimal(n)) == n
  {
    if n < 10 {
      ValueSnoc("", n);
    } else {
      ValueOfDecimal(n / 10);
      ValueSnoc(Decimal(n / 10), n % 10);
    }
  }
}
