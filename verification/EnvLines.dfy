/** Splitting bytes into lines the way Python's bytes.splitlines(keepends=True) does, one char per byte. */
module EnvLines {

  predicate Terminator(c: char) { c == '\n' || c == '\r' }

  predicate Plain(s: string) {
    forall i :: 0 <= i < |s| ==> !Terminator(s[i])
  }

  // Where the first line's terminator starts.
  function PlainLength(s: string): (n: nat)
    ensures n <= |s| && Plain(s[..n]) && (n < |s| ==> Terminator(s[n]))
  {
    if s == "" || Terminator(s[0]) then 0
    else
      var n := PlainLength(s[1..]);
      assert s[..1 + n] == [s[0]] + s[1..][..n];
      1 + n
  }

  // LF, CR LF or a lone CR at the head of s.
  function HeadEnding(s: string): string {
    if s == "" || !Terminator(s[0]) then ""
    else if s[0] == '\r' && |s| > 1 && s[1] == '\n' then "\r\n"
    else [s[0]]
  }

  // The length of the first line, with its terminator.
  function FirstLine(s: string): (n: nat)
    requires s != ""
    ensures 0 < n <= |s|
  {
    PlainLength(s) + |HeadEnding(s[PlainLength(s)..])|
  }

  function SplitLines(s: string): seq<string> {
    if s == "" then [] else [s[..FirstLine(s)]] + SplitLines(s[FirstLine(s)..])
  }

  function Join(lines: seq<string>): string {
    if lines == [] then "" else Join(lines[..|lines| - 1]) + lines[|lines| - 1]
  }

  function Ending(line: string): string { HeadEnding(line[PlainLength(line)..]) }

  function Body(line: string): string { line[..PlainLength(line)] }

  // Not empty, and at most one terminator, at the end.
  predicate Line(line: string) { line != "" && line == Body(line) + Ending(line) }

  // Two lines that stay two lines when written one after the other.
  predicate Separate(a: string, b: string) {
    Ending(a) != "" && !(Ending(a) == "\r" && b != "" && b[0] == '\n')
  }

  ghost predicate Proper(lines: seq<string>) {
    && (forall i :: 0 <= i < |lines| ==> Line(lines[i]))
    && (forall i :: 0 <= i < |lines| - 1 ==> Separate(lines[i], lines[i + 1]))
  }

  // ---------------------------------------------------------------- lines and their parts

  lemma {:induction false} PlainLengthIs(body: string, rest: string)
    requires Plain(body) && (rest != "" ==> Terminator(rest[0]))
    ensures PlainLength(body + rest) == |body| && (body + rest)[|body|..] == rest && (body + rest)[..|body|] == body
  {
    if body == "" {
      assert body + rest == rest;
    } else {
      PlainLengthIs(body[1..], rest);
      assert (body + rest)[1..] == body[1..] + rest;
    }
  }

  lemma PartsOf(body: string, ending: string)
    requires Plain(body) && ending in {"", "\n", "\r", "\r\n"} && body + ending != ""
    ensures Body(body + ending) == body && Ending(body + ending) == ending && Line(body + ending)
  {
    PlainLengthIs(body, ending);
  }

  lemma HeadEndingCases(s: string)
    ensures HeadEnding(s) in {"", "\n", "\r", "\r\n"} && |HeadEnding(s)| <= |s| && HeadEnding(s) == s[..|HeadEnding(s)|]
  {
  }

  // What the first line is made of, and that what follows is a separate line.
  lemma FirstLineShape(s: string)
    requires s != ""
    ensures var line := s[..FirstLine(s)];
            Line(line) && (FirstLine(s) < |s| ==> Separate(line, s[FirstLine(s)..]))
  {
    var body := s[..PlainLength(s)];
    var rest := s[PlainLength(s)..];
    HeadEndingCases(rest);
    var ending := HeadEnding(rest);
    assert s[..FirstLine(s)] == body + ending;
    PartsOf(body, ending);
    if FirstLine(s) < |s| {
      assert s[FirstLine(s)..] == rest[|ending|..];
    }
  }

  // A line followed by anything it stays separate from is the first line.
  lemma LineIsFirst(line: string, rest: string)
    requires Line(line) && (rest != "" ==> Separate(line, rest))
    ensures FirstLine(line + rest) == |line|
  {
    var body, ending := Body(line), Ending(line);
    HeadEndingCases(line[PlainLength(line)..]);
    assert line + rest == body + (ending + rest);
    PlainLengthIs(body, ending + rest);
    assert HeadEnding(ending + rest) == ending;
  }

  // ---------------------------------------------------------------- joining

  lemma {:induction false} JoinConcat(a: seq<string>, b: seq<string>)
    ensures Join(a + b) == Join(a) + Join(b)
    decreases |b|
  {
    if b == [] {
      assert a + b == a;
    } else {
      var front := b[..|b| - 1];
      JoinConcat(a, front);
      assert (a + b)[..|a + b| - 1] == a + front;
    }
  }

  lemma JoinFront(line: string, lines: seq<string>)
    ensures Join([line] + lines) == line + Join(lines)
  {
    JoinConcat([line], lines);
    assert [line][..0] == [];
    assert Join([line]) == line;
  }

  lemma JoinNonEmpty(lines: seq<string>)
    requires lines != [] && lines[0] != ""
    ensures Join(lines) != "" && Join(lines)[0] == lines[0][0]
  {
    assert lines == [lines[0]] + lines[1..];
    JoinFront(lines[0], lines[1..]);
  }

  lemma ProperTail(lines: seq<string>)
    requires Proper(lines) && lines != []
    ensures Proper(lines[1..])
  {
    var rest := lines[1..];
    forall i | 0 <= i < |rest| ensures Line(rest[i]) { assert Line(lines[i + 1]); }
    forall i | 0 <= i < |rest| - 1 ensures Separate(rest[i], rest[i + 1]) { assert Separate(lines[i + 1], lines[i + 2]); }
  }

  /** Splitting what was joined from proper lines gives back the lines. */
  lemma {:induction false} SplitJoin(lines: seq<string>)
    requires Proper(lines)
    ensures SplitLines(Join(lines)) == lines
  {
    if lines != [] {
      var line, rest := lines[0], lines[1..];
      ProperTail(lines);
      SplitJoin(rest);
      assert lines == [line] + rest;
      JoinFront(line, rest);
      if rest != [] {
        assert Separate(lines[0], lines[1]) && Line(rest[0]);
        JoinNonEmpty(rest);
      }
      LineIsFirst(line, Join(rest));
      assert (line + Join(rest))[..|line|] == line && (line + Join(rest))[|line|..] == Join(rest);
    }
  }

  lemma ProperCons(line: string, lines: seq<string>)
    requires Line(line) && Proper(lines) && (lines != [] ==> Separate(line, lines[0]))
    ensures Proper([line] + lines)
  {
    var all := [line] + lines;
    forall i | 0 <= i < |all| ensures Line(all[i]) {
      if i > 0 { assert all[i] == lines[i - 1]; }
    }
    forall i | 0 <= i < |all| - 1 ensures Separate(all[i], all[i + 1]) {
      if i > 0 { assert all[i] == lines[i - 1] && all[i + 1] == lines[i]; }
    }
  }

  lemma ConsLines(s: string, lines: seq<string>)
    requires s != "" && Join(lines) == s[FirstLine(s)..] && Proper(lines)
    ensures var all := [s[..FirstLine(s)]] + lines; Join(all) == s && Proper(all)
  {
    FirstLineShape(s);
    JoinFront(s[..FirstLine(s)], lines);
    assert s == s[..FirstLine(s)] + s[FirstLine(s)..];
    if lines != [] {
      assert Line(lines[0]);
      JoinNonEmpty(lines);
    }
    ProperCons(s[..FirstLine(s)], lines);
  }

  /** Splitting loses nothing and yields proper lines. */
  lemma {:induction false} SplitIsProper(s: string)
    ensures Join(SplitLines(s)) == s && Proper(SplitLines(s))
    decreases |s|
  {
    if s != "" {
      SplitIsProper(s[FirstLine(s)..]);
      ConsLines(s, SplitLines(s[FirstLine(s)..]));
    }
  }

  // ---------------------------------------------------------------- unterminated lines merge

  function LineCount(s: string): nat { |SplitLines(s)| }

  lemma LineCountStep(s: string)
    requires s != ""
    ensures LineCount(s) == 1 + LineCount(s[FirstLine(s)..])
  {
  }

  lemma PlainHead(body: string, rest: string)
    requires Plain(body) && rest != ""
    ensures FirstLine(body + rest) == |body| + FirstLine(rest)
    ensures (body + rest)[FirstLine(body + rest)..] == rest[FirstLine(rest)..]
  {
    var n := PlainLength(rest);
    assert body + rest == (body + rest[..n]) + rest[n..];
    PlainLengthIs(body + rest[..n], rest[n..]);
  }

  lemma PlainMerges(body: string, rest: string)
    requires Plain(body) && rest != ""
    ensures LineCount(body + rest) == LineCount(rest)
  {
    PlainHead(body, rest);
    LineCountStep(body + rest);
    LineCountStep(rest);
  }

  lemma TerminatorFirst(s: string)
    requires s != "" && Terminator(s[0])
    ensures FirstLine(s) == |HeadEnding(s)|
  {
    assert s[0..] == s;
  }

  lemma CarriageReturnJoins(rest: string)
    requires rest != "" && rest[0] == '\n'
    ensures LineCount("\r" + rest) == LineCount(rest)
  {
    var s := "\r" + rest;
    TerminatorFirst(s);
    TerminatorFirst(rest);
    assert s[2..] == rest[1..];
    LineCountStep(s);
    LineCountStep(rest);
  }

  lemma AtMostOneMore(line: string, rest: string)
    requires Line(line)
    ensures LineCount(line + rest) <= 1 + LineCount(rest)
    ensures Ending(line) == "" && rest != "" ==> LineCount(line + rest) == LineCount(rest)
  {
    if rest == "" || Separate(line, rest) {
      LineIsFirst(line, rest);
      LineCountStep(line + rest);
      assert (line + rest)[|line|..] == rest;
    } else if Ending(line) == "" {
      PlainMerges(line, rest);
    } else {
      assert line + rest == Body(line) + ("\r" + rest);
      PlainMerges(Body(line), "\r" + rest);
      CarriageReturnJoins(rest);
    }
  }

  ghost predicate AllLines(lines: seq<string>) {
    forall i :: 0 <= i < |lines| ==> Line(lines[i])
  }

  ghost predicate Gap(lines: seq<string>) {
    exists i :: 0 <= i < |lines| - 1 && Ending(lines[i]) == ""
  }

  lemma GapFront(lines: seq<string>)
    requires lines != [] && Gap(lines)
    ensures |lines| > 1 && (Ending(lines[0]) == "" || Gap(lines[1..]))
  {
    var i :| 0 <= i < |lines| - 1 && Ending(lines[i]) == "";
    if i > 0 { assert lines[1..][i - 1] == lines[i]; }
  }

  lemma AllLinesFront(lines: seq<string>)
    requires AllLines(lines) && lines != []
    ensures Line(lines[0]) && AllLines(lines[1..]) && (|lines| > 1 ==> Line(lines[1..][0]))
    ensures lines == [lines[0]] + lines[1..]
  {
  }

  /** Writing lines never makes more lines of them, and makes fewer if one before the last is unterminated. */
  lemma {:induction false} JoinedCount(lines: seq<string>)
    requires AllLines(lines)
    ensures LineCount(Join(lines)) <= |lines|
    ensures Gap(lines) ==> LineCount(Join(lines)) < |lines|
  {
    if lines != [] {
      var line, rest := lines[0], lines[1..];
      AllLinesFront(lines);
      JoinedCount(rest);
      JoinFront(line, rest);
      AtMostOneMore(line, Join(rest));
      if Gap(lines) {
        GapFront(lines);
        JoinNonEmpty(rest);
      }
    }
  }
}
