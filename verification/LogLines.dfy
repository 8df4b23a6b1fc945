/**
 Following a log file: the helper hands out the file in bounded chunks, and the poller puts the lines
 together again across chunk borders.
 */
module LogLines {
  import opened Base
  import opened Text

  // ---------------------------------------------------------------- splitting

  function IndexOf(s: string, c: char): (n: nat)
    ensures n <= |s| && c !in s[..n] && (n < |s| ==> s[n] == c)
  {
    if s == "" || s[0] == c then 0
    else
      var n := 1 + IndexOf(s[1..], c);
      assert s[..n] == [s[0]] + s[1..][..n - 1];
      n
  }

  /** The complete lines of `s`. */
  function Lines(s: string): seq<string>
    decreases |s|
  {
    var n := IndexOf(s, '\n');
    if n == |s| then [] else [s[..n]] + Lines(s[n + 1..])
  }

  /** What follows the last newline. */
  function Rest(s: string): string
    decreases |s|
  {
    var n := IndexOf(s, '\n');
    if n == |s| then s else Rest(s[n + 1..])
  }

  function Joined(lines: seq<string>, rest: string): string {
    if lines == [] then rest else lines[0] + "\n" + Joined(lines[1..], rest)
  }

  lemma JoinedCons(line: string, lines: seq<string>, rest: string)
    ensures Joined([line] + lines, rest) == line + "\n" + Joined(lines, rest)
  {}

  /** Lines and rest are the split of the text: they make it up again, and hold no newline. */
  lemma {:induction false} SplitIsExact(s: string)
    ensures Joined(Lines(s), Rest(s)) == s && '\n' !in Rest(s)
    ensures forall i :: 0 <= i < |Lines(s)| ==> '\n' !in Lines(s)[i]
    decreases |s|
  {
    var n := IndexOf(s, '\n');
    if n < |s| {
      var tail := s[n + 1..];
      SplitIsExact(tail);
      JoinedCons(s[..n], Lines(tail), Rest(tail));
      assert s == s[..n] + "\n" + tail;
    } else {
      assert s[..n] == s;
    }
  }

  lemma IndexIs(s: string, n: nat)
    requires n < |s| && s[n] == '\n' && '\n' !in s[..n]
    ensures IndexOf(s, '\n') == n
  {}

  lemma FirstLine(a: string, b: string)
    ensures var n := IndexOf(a, '\n');
            n < |a| ==>
              && Lines(a + b) == [a[..n]] + Lines(a[n + 1..] + b)
              && Rest(a + b) == Rest(a[n + 1..] + b)
  {
    var n := IndexOf(a, '\n');
    if n < |a| {
      assert (a + b)[..n] == a[..n];
      IndexIs(a + b, n);
      assert (a + b)[n + 1..] == a[n + 1..] + b;
    }
  }

  /** Splitting may stop anywhere and go on from the rest. */
  lemma {:induction false} SplitResumes(a: string, b: string)
    ensures Lines(a + b) == Lines(a) + Lines(Rest(a) + b)
    ensures Rest(a + b) == Rest(Rest(a) + b)
    decreases |a|
  {
    var n := IndexOf(a, '\n');
    if n < |a| {
      var tail := a[n + 1..];
      FirstLine(a, b);
      FirstLine(a, "");
      assert a + "" == a && tail + "" == tail;
      SplitResumes(tail, b);
      Associates([a[..n]], Lines(tail), Lines(Rest(tail) + b));
    } else {
      assert Lines(a) == [] && Rest(a) == a;
    }
  }

  lemma Associates<T>(a: seq<T>, b: seq<T>, c: seq<T>)
    ensures a + (b + c) == a + b + c
  {}

  // ---------------------------------------------------------------- reading and polling

  datatype Chunk = Chunk(data: string, offset: nat, truncated: bool)

  /** A file that is absent reads as nothing at offset zero; one shorter than the offset starts over. */
  function Read(file: Option<string>, offset: nat, cap: nat): Chunk {
    if file == None then Chunk("", 0, false)
    else
      var size := |file.value|;
      var start := if size < offset then 0 else offset;
      var end := if size - start <= cap then size else start + cap;
      Chunk(file.value[start..end], end, size < offset)
  }

  method ReadLogs(file: Option<string>, from: nat, cap: nat) returns (c: Chunk)
    ensures c == Read(file, from, cap)
  {
    if file == None {
      return Chunk("", 0, false);
    }
    var size := |file.value|;
    var offset, truncated := from, false;
    if size < offset {
      offset, truncated := 0, true;
    }
    var data := if size - offset <= cap then file.value[offset..] else file.value[offset..offset + cap];
    return Chunk(data, offset + |data|, truncated);
  }

  /** A line without the carriage returns and the escape codes. */
  function Clean(line: string, strip: string -> string): string { strip(TrimRight(line, c => c == '\r')) }

  /** What is shown of the lines; those left empty are not. */
  function Shown(lines: seq<string>, strip: string -> string): seq<string> {
    if lines == [] then []
    else
      var line := Clean(lines[|lines| - 1], strip);
      Shown(lines[..|lines| - 1], strip) + if line == "" then [] else [line]
  }

  /** The position in one file, with the start of a line whose end is yet to come. */
  class LogFile {
    var offset: nat
    var rest: string

    constructor ()
      ensures offset == 0 && rest == ""
    {
      offset, rest := 0, "";
    }

    /** The lines that one poll adds to the buffer. */
    method PollOnce(file: Option<string>, cap: nat, strip: string -> string) returns (added: seq<string>)
      modifies this
      ensures var c := Read(file, old(offset), cap);
              var text := (if c.truncated then "" else old(rest)) + c.data;
              offset == c.offset && rest == Rest(text) && added == Shown(Lines(text), strip)
    {
      var c := ReadLogs(file, offset, cap);
      if c.truncated {
        rest := "";
      }
      offset := c.offset;
      rest := rest + c.data;
      added, rest := SplitLines(rest, strip);
    }
  }

  /** The splitting loop. */
  method SplitLines(text: string, strip: string -> string) returns (added: seq<string>, rest: string)
    ensures added == Shown(Lines(text), strip) && rest == Rest(text)
  {
    rest, added := text, [];
    ghost var lines: seq<string> := [];
    var nl := IndexOf(rest, '\n');
    while nl < |rest|
      invariant nl == IndexOf(rest, '\n')
      invariant Lines(text) == lines + Lines(rest) && Rest(text) == Rest(rest)
      invariant added == Shown(lines, strip)
      decreases |rest|
    {
      var line := Clean(rest[..nl], strip);
      ghost var first, tail := rest[..nl], rest[nl + 1..];
      ShownSnoc(lines, first, strip);
      Associates(lines, [first], Lines(tail));
      lines := lines + [first];
      rest := rest[nl + 1..];
      if line != "" {
        added := added + [line];
      }
      nl := IndexOf(rest, '\n');
    }
    assert lines + [] == lines;
  }

  lemma ShownSnoc(lines: seq<string>, line: string, strip: string -> string)
    ensures var l := Clean(line, strip); Shown(lines + [line], strip) == Shown(lines, strip) + if l == "" then [] else [l]
  {}

  // ---------------------------------------------------------------- runs

  /**
   The file and its follower. `consumed` is what was read since the follower last started over, `lines` every
   line found since then, and `before` those of earlier starts.
   */
  datatype State = State(file: Option<string>, offset: nat, rest: string,
                         consumed: string, lines: seq<string>, before: seq<string>)

  datatype Label = Grow(bytes: string) | Replace(file: Option<string>) | Poll(cap: nat)

  function Initial(): State { State(None, 0, "", "", [], []) }

  function Polled(s: State, cap: nat): State {
    var c := Read(s.file, s.offset, cap);
    var text := (if c.truncated then "" else s.rest) + c.data;
    var restarts := c.truncated || s.file == None;
    State(s.file, c.offset, Rest(text),
          (if restarts then "" else s.consumed) + c.data,
          (if restarts then [] else s.lines) + Lines(text),
          s.before + if restarts then s.lines else [])
  }

  function Next(s: State, l: Label): State {
    match l
    case Grow(bytes) => if s.file.Some? then s.(file := Some(s.file.value + bytes)) else s.(file := Some(bytes))
    case Replace(file) => s.(file := file)
    case Poll(cap) => Polled(s, cap)
  }

  function After(s: State, run: seq<Label>): State
    decreases |run|
  {
    if run == [] then s else After(Next(s, run[0]), run[1..])
  }

  /** The lines and the held rest are exactly the split of what was consumed, and the offset is its length. */
  ghost predicate Exact(s: State) {
    |s.consumed| == s.offset && s.lines == Lines(s.consumed) && s.rest == Rest(s.consumed)
  }

  /** No poll finds the file gone while it holds the start of a line. */
  ghost predicate Whole(s: State, run: seq<Label>)
    decreases |run|
  {
    run == [] || ((run[0].Poll? && s.file == None ==> s.rest == "") && Whole(Next(s, run[0]), run[1..]))
  }

  /** A poll keeps the split exact unless it finds the file gone while it holds the start of a line. */
  lemma PollExactly(s: State, cap: nat)
    requires Exact(s)
    ensures Exact(Polled(s, cap)) == (s.file.Some? || s.rest == "")
  {
    var c := Read(s.file, s.offset, cap);
    SplitResumes(s.consumed, c.data);
    assert "" + c.data == c.data;
    SplitIsExact(s.consumed);
    if s.file == None {
      assert s.rest + "" == s.rest;
      assert IndexOf("", '\n') == 0;
      assert Rest("") == "";
      assert IndexOf(s.rest, '\n') == |s.rest|;
    }
  }

  /** For every history of the file and every schedule of polls, whatever their chunk sizes. */
  lemma {:induction false} LinesAreTheSplit(s: State, run: seq<Label>)
    requires Exact(s) && Whole(s, run)
    ensures Exact(After(s, run))
    decreases |run|
  {
    if run != [] {
      if run[0].Poll? {
        PollExactly(s, run[0].cap);
      }
      LinesAreTheSplit(Next(s, run[0]), run[1..]);
    }
  }

  /** What was consumed is the beginning of the file. */
  ghost predicate InStep(s: State) {
    s.file.Some? && s.offset <= |s.file.value| && s.consumed == s.file.value[..s.offset]
  }

  /** After a poll of a file that exists the follower is in step exactly when it was before, or the file had
      become shorter than the offset. */
  lemma PollInStep(s: State, cap: nat)
    requires Exact(s) && s.file.Some?
    ensures InStep(Polled(s, cap)) == (InStep(s) || |s.file.value| < s.offset)
  {}

  ghost predicate OnlyGrows(run: seq<Label>) { forall i :: 0 <= i < |run| ==> !run[i].Replace? }

  /** While the file only grows, the lines found and the rest held are the split of its first `offset` bytes. */
  lemma {:induction false} GrowingFileIsFollowed(s: State, run: seq<Label>)
    requires Exact(s) && InStep(s) && OnlyGrows(run)
    ensures var t := After(s, run);
            && InStep(t) && t.before == s.before
            && t.lines == Lines(t.file.value[..t.offset]) && t.rest == Rest(t.file.value[..t.offset])
    decreases |run|
  {
    if run != [] {
      var t := Next(s, run[0]);
      if run[0].Poll? {
        PollExactly(s, run[0].cap);
        PollInStep(s, run[0].cap);
      } else {
        assert t.file.value[..s.offset] == s.file.value[..s.offset];
      }
      GrowingFileIsFollowed(t, run[1..]);
    }
  }

  lemma NoNewline(s: string)
    requires '\n' !in s
    ensures Lines(s) == [] && Rest(s) == s
  {}

  lemma OneLine(s: string)
    requires '\n' !in s
    ensures Lines(s + "\n") == [s]
  {
    var t := s + "\n";
    assert t[..|s|] == s;
    IndexIs(t, |s|);
    assert t[|s| + 1..] == "";
    NoNewline("");
  }

  lemma HeldThenGone(held: string, cap: nat)
    requires '\n' !in held && |held| <= cap
    ensures Polled(State(Some(held), 0, "", "", [], []), cap) == State(Some(held), |held|, held, held, [], [])
    ensures Polled(State(None, |held|, held, held, [], []), cap) == State(None, 0, held, "", [], [])
  {}

  /** The start of a line held when the file goes away is put before the first line of the next one. */
  lemma RestOutlivesTheFile(held: string, text: string, cap: nat)
    requires '\n' !in held && '\n' !in text && |held| <= cap && |text| < cap
    ensures var reading := Next(Next(Initial(), Grow(held)), Poll(cap));
            var gone := Next(Next(reading, Replace(None)), Poll(cap));
            Next(Next(gone, Grow(text + "\n")), Poll(cap)).lines == [held + text]
  {
    HeldThenGone(held, cap);
    var gone := State(None, 0, held, "", [], []);
    assert Next(Next(Next(Next(Initial(), Grow(held)), Poll(cap)), Replace(None)), Poll(cap)) == gone;
    var back := Next(gone, Grow(text + "\n"));
    assert Read(back.file, 0, cap) == Chunk(text + "\n", |text| + 1, false);
    assert held + (text + "\n") == (held + text) + "\n";
    OneLine(held + text);
    assert [] + [held + text] == [held + text];
  }

  // ---------------------------------------------------------------- draining

  function PolledTimes(s: State, cap: nat, k: nat): State {
    if k == 0 then s else Polled(PolledTimes(s, cap, k - 1), cap)
  }

  function Ceiling(a: nat, b: nat): nat
    requires b > 0
  {
    (a + b - 1) / b
  }

  lemma {:induction false} OffsetAfter(s: State, cap: nat, k: nat)
    requires s.file.Some? && s.offset <= |s.file.value|
    ensures var t := PolledTimes(s, cap, k);
            t.file == s.file && t.offset == if s.offset + k * cap <= |s.file.value| then s.offset + k * cap else |s.file.value|
  {
    if k > 0 {
      OffsetAfter(s, cap, k - 1);
      assert k * cap == (k - 1) * cap + cap;
    }
  }

  lemma CeilingIs(a: nat, b: nat, k: nat)
    requires b > 0
    ensures (Ceiling(a, b) <= k) == (a <= k * b)
  {
    var q := Ceiling(a, b);
    assert q * b <= a + b - 1 < q * b + b;
    if q <= k {
      assert q * b <= k * b;
    } else {
      assert (k + 1) * b <= q * b;
    }
  }

  /** A file that does not grow is read to its end by exactly the polls its remaining bytes need. */
  lemma DrainsInTime(s: State, cap: nat, k: nat)
    requires cap > 0 && s.file.Some? && s.offset <= |s.file.value|
    ensures (PolledTimes(s, cap, k).offset == |s.file.value|) == (Ceiling(|s.file.value| - s.offset, cap) <= k)
  {
    OffsetAfter(s, cap, k);
    CeilingIs(|s.file.value| - s.offset, cap, k);
  }

  // ---------------------------------------------------------------- what is shown

  lemma {:induction false} ShownConcat(a: seq<string>, b: seq<string>, strip: string -> string)
    ensures Shown(a + b, strip) == Shown(a, strip) + Shown(b, strip)
  {
    if b == [] {
      assert a + b == a;
    } else {
      assert (a + b)[..|a + b| - 1] == a + b[..|b| - 1];
      ShownConcat(a, b[..|b| - 1], strip);
    }
  }

  /** A line is shown without the carriage returns at its end, and without its escape codes. */
  lemma CleanLine(line: string, strip: string -> string)
    ensures Clean(line + "\r", strip) == Clean(line, strip)
    ensures (line == "" || line[|line| - 1] != '\r') ==> Clean(line, strip) == strip(line)
  {
    var t := line + "\r";
    assert t[..|t| - 1] == line;
  }

  /** The lines one poll adds to the buffer, as `LogFile.PollOnce` does. */
  function AddedBy(s: State, l: Label, strip: string -> string): seq<string> {
    if !l.Poll? then []
    else
      var c := Read(s.file, s.offset, l.cap);
      Shown(Lines((if c.truncated then "" else s.rest) + c.data), strip)
  }

  function AddedOver(s: State, run: seq<Label>, strip: string -> string): seq<string>
    decreases |run|
  {
    if run == [] then [] else AddedBy(s, run[0], strip) + AddedOver(Next(s, run[0]), run[1..], strip)
  }

  function Found(s: State): seq<string> { s.before + s.lines }

  lemma StepFinds(s: State, l: Label) returns (more: seq<string>)
    requires l.Poll?
    ensures Found(Next(s, l)) == Found(s) + more
    ensures var c := Read(s.file, s.offset, l.cap); more == Lines((if c.truncated then "" else s.rest) + c.data)
  {
    var c := Read(s.file, s.offset, l.cap);
    more := Lines((if c.truncated then "" else s.rest) + c.data);
    Regroups(s.before, s.lines, more);
  }

  lemma Regroups(a: seq<string>, b: seq<string>, c: seq<string>)
    ensures (a + b) + ([] + c) == (a + b) + c && (a + []) + (b + c) == (a + b) + c
  {}

  lemma StepAdds(s: State, l: Label, strip: string -> string)
    ensures Shown(Found(Next(s, l)), strip) == Shown(Found(s), strip) + AddedBy(s, l, strip)
  {
    if l.Poll? {
      var more := StepFinds(s, l);
      ShownConcat(Found(s), more, strip);
    }
  }

  /** Over every run, what the polls add to the buffer is exactly the lines found, cleaned, without the empty ones. */
  lemma {:induction false} BufferGetsTheLines(s: State, run: seq<Label>, strip: string -> string)
    ensures Shown(Found(After(s, run)), strip) == Shown(Found(s), strip) + AddedOver(s, run, strip)
    decreases |run|
  {
    if run != [] {
      var t := Next(s, run[0]);
      StepAdds(s, run[0], strip);
      BufferGetsTheLines(t, run[1..], strip);
      Associates(Shown(Found(s), strip), AddedBy(s, run[0], strip), AddedOver(t, run[1..], strip));
    }
  }
}
