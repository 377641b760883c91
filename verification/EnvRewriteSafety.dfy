/** What the environment rewriter keeps, exactly when it does, and what the secret validator sees afterwards. */
module EnvRewriteSafety {
  import opened EnvLines
  import opened EnvRewrite

  // No managed assignment before the last line ends in a lone CR, which the rewriter would drop.
  predicate NoLoneReturn(c: Config, lines: seq<string>) {
    forall i :: 0 <= i < |lines| - 1 && Managed(c, lines[i]) ==> Ending(lines[i]) != "\r"
  }

  // The lines no managed key is assigned in.
  function Others(c: Config, lines: seq<string>): seq<string> {
    if lines == [] then []
    else Others(c, lines[..|lines| - 1]) + if Managed(c, lines[|lines| - 1]) then [] else [lines[|lines| - 1]]
  }

  // The original lines, the last one terminated if settings follow it.
  function Padded(c: Config, original: string): seq<string>
    requires ConfigOk(c)
  {
    Pad(c, original, SplitLines(original))
  }

  predicate IsNewline(nl: string) { nl != "" && Terminator(nl[0]) && (nl == "\n" || nl == "\r\n") }

  // Settings follow, and the rewritten lines do not end in a terminator.
  predicate NeedsPad(c: Config, original: string)
    requires ConfigOk(c)
  {
    Missing(c.managed, SplitLines(original)) != [] && Unterminated(Join(RewriteAll(c, SplitLines(original))))
  }

  function Pad(c: Config, original: string, lines: seq<string>): (r: seq<string>)
    requires ConfigOk(c)
    ensures |r| == |lines|
  {
    if lines == [] || !NeedsPad(c, original) then lines
    else lines[..|lines| - 1] + [lines[|lines| - 1] + Newline(original)]
  }

  /** What the rewriter is for: every managed key is assigned once and has its value; every other line is kept. */
  ghost predicate Correct(c: Config, original: string)
    requires ConfigOk(c)
  {
    var lines := SplitLines(Output(c, original));
    && Others(c, lines) == Others(c, Padded(c, original))
    && (forall k :: k in c.managed ==> Count(k, lines) == 1)
    && (forall k, i :: k in c.managed && 0 <= i < |lines| && Assigns(k, lines[i]) ==> IsSetting(c, k, lines[i]))
  }

  // The line is the managed setting of the key, properly ended.
  predicate IsSetting(c: Config, key: string, line: string) {
    key in c.desired && Ending(line) != "\r" && line == Setting(c, key) + Ending(line)
  }

  // ---------------------------------------------------------------- single lines

  lemma SettingAssigns(c: Config, key: string, ending: string)
    requires ConfigOk(c) && key in c.managed
    ensures Assigns(key, Setting(c, key) + ending)
  {
    var line := Setting(c, key) + ending;
    assert KeyShape(key);
    assert line[0] == key[0] && SkipBlanks(line) == line;
    assert line[|key|..][0] == '=';
    assert line[..|key|] == key;
  }

  lemma SettingIsPlain(c: Config, key: string, ending: string)
    requires ConfigOk(c) && key in c.managed && ending in {"", "\n", "\r\n"}
    ensures Line(Setting(c, key) + ending) && Ending(Setting(c, key) + ending) == ending && Setting(c, key)[0] != '\n'
  {
    assert KeyShape(key) && Plain(Setting(c, key));
    PartsOf(Setting(c, key), ending);
  }

  lemma EndingCases(line: string)
    ensures Ending(line) in {"", "\n", "\r", "\r\n"}
  {
    HeadEndingCases(line[PlainLength(line)..]);
  }

  lemma ManagedHasKey(c: Config, line: string) returns (key: string)
    requires ConfigOk(c) && Managed(c, line)
    ensures key in c.managed && Assigns(key, line) && Rewrite(c, line) == Setting(c, key) + KeptEnding(line)
  {
    var i :| 0 <= i < |c.managed| && Assigns(c.managed[i], line);
    key := c.managed[i];
    OnlyKey(c, line, key);
  }

  lemma UnmanagedStays(c: Config, line: string)
    requires ConfigOk(c) && !Managed(c, line)
    ensures Rewrite(c, line) == line
  {
  }

  /** Rewriting a line changes neither which key it assigns nor, for other keys, that it assigns none. */
  lemma RewriteAssigns(c: Config, key: string, line: string)
    requires ConfigOk(c) && KeyShape(key)
    ensures Assigns(key, Rewrite(c, line)) <==> Assigns(key, line)
  {
    if Managed(c, line) {
      var k := ManagedHasKey(c, line);
      SettingAssigns(c, k, KeptEnding(line));
      if Assigns(key, line) { OneKey(key, k, line); }
      if Assigns(key, Rewrite(c, line)) { OneKey(key, k, Rewrite(c, line)); }
    } else {
      UnmanagedStays(c, line);
    }
  }

  lemma RewriteTwice(c: Config, line: string)
    requires ConfigOk(c) && Managed(c, line)
    ensures Rewrite(c, Rewrite(c, line)) == Rewrite(c, line) && Managed(c, Rewrite(c, line))
  {
    var k := ManagedHasKey(c, line);
    EndingCases(line);
    SettingAssigns(c, k, KeptEnding(line));
    SettingIsPlain(c, k, KeptEnding(line));
    OnlyKey(c, Rewrite(c, line), k);
    var i :| 0 <= i < |c.managed| && c.managed[i] == k;
  }

  lemma TerminatorIsNotBlank(c: char)
    requires Terminator(c)
    ensures !Blank(c)
  {
    assert '\n' != ' ' && '\n' != '\t' && '\r' != ' ' && '\r' != '\t';
  }

  lemma {:induction false} SkipBlanksAppend(s: string, nl: string)
    requires IsNewline(nl)
    ensures SkipBlanks(s + nl) == SkipBlanks(s) + nl
  {
    if s == "" {
      assert s + nl == nl && SkipBlanks(s) + nl == nl;
      TerminatorIsNotBlank(nl[0]);
    } else if Blank(s[0]) {
      SkipBlanksAppend(s[1..], nl);
      assert (s + nl)[1..] == s[1..] + nl;
    } else {
      assert (s + nl)[0] == s[0];
    }
  }

  lemma AssignsHereAppend(key: string, s: string, nl: string)
    requires KeyShape(key) && IsNewline(nl)
    ensures AssignsHere(key, s + nl) <==> AssignsHere(key, s)
  {
    if |s| < |key| {
      assert (s + nl)[|s|] == nl[0] && Terminator(nl[0]) && !Terminator(key[|s|]);
    } else {
      assert (s + nl)[..|key|] == s[..|key|];
      assert (s + nl)[|key|..] == s[|key|..] + nl;
      SkipBlanksAppend(s[|key|..], nl);
    }
  }

  lemma AssignsAppend(key: string, line: string, nl: string)
    requires KeyShape(key) && IsNewline(nl)
    ensures Assigns(key, line + nl) <==> Assigns(key, line)
  {
    var s := SkipBlanks(line);
    SkipBlanksAppend(line, nl);
    AssignsHereAppend(key, s, nl);
    var exports := "export" <= s && |s| > 6 && Blank(s[6]);
    assert exports <==> "export" <= s + nl && |s + nl| > 6 && Blank((s + nl)[6]) by {
      if |s| <= 6 {
        assert |s| == 6 ==> (s + nl)[6] == nl[0];
        assert forall i :: |s| <= i < 6 && i < |s + nl| ==> (s + nl)[i] == nl[i - |s|];
        assert "export" <= s + nl && |s| < 6 ==> "export"[|s|] == nl[0];
      } else {
        assert (s + nl)[..6] == s[..6];
      }
    }
    if exports {
      assert (s + nl)[6..] == s[6..] + nl;
      SkipBlanksAppend(s[6..], nl);
      AssignsHereAppend(key, SkipBlanks(s[6..]), nl);
    }
  }

  lemma ManagedAppend(c: Config, line: string, nl: string)
    requires ConfigOk(c) && IsNewline(nl)
    ensures Managed(c, line + nl) <==> Managed(c, line)
  {
    forall i | 0 <= i < |c.managed| ensures Assigns(c.managed[i], line + nl) <==> Assigns(c.managed[i], line) {
      AssignsAppend(c.managed[i], line, nl);
    }
  }

  // ---------------------------------------------------------------- the lines that are written

  function FinalLines(c: Config, original: string): seq<string>
    requires ConfigOk(c)
  {
    Pad(c, original, RewriteAll(c, SplitLines(original)))
    + Appended(c, Missing(c.managed, SplitLines(original)), Newline(original))
  }

  lemma JoinPadded(lines: seq<string>, nl: string)
    requires lines != []
    ensures Join(lines[..|lines| - 1] + [lines[|lines| - 1] + nl]) == Join(lines) + nl
  {
    var front, last := lines[..|lines| - 1], lines[|lines| - 1];
    JoinLast(front, last + nl);
    Associates(Join(front), last, nl);
  }

  lemma Associates(a: string, b: string, d: string)
    ensures a + (b + d) == a + b + d
  {
  }

  lemma OutputIsFinalLines(c: Config, original: string)
    requires ConfigOk(c)
    ensures Output(c, original) == Join(FinalLines(c, original))
  {
    var rewritten := RewriteAll(c, SplitLines(original));
    var padded := Pad(c, original, rewritten);
    var missing := Missing(c.managed, SplitLines(original));
    var tail := Appended(c, missing, Newline(original));
    JoinConcat(padded, tail);
    if NeedsPad(c, original) {
      assert rewritten != [];
      JoinPadded(rewritten, Newline(original));
    }
    assert Join(padded) == Join(rewritten) + if NeedsPad(c, original) then Newline(original) else "";
    if missing == [] { assert tail == []; }
  }

  lemma RewrittenLine(c: Config, line: string)
    requires ConfigOk(c) && Line(line)
    ensures Line(Rewrite(c, line))
    ensures Ending(Rewrite(c, line)) == if Managed(c, line) then KeptEnding(line) else Ending(line)
    ensures Managed(c, line) ==> Rewrite(c, line)[0] != '\n'
    ensures !Managed(c, line) ==> Rewrite(c, line) == line
  {
    EndingCases(line);
    if Managed(c, line) {
      var k := ManagedHasKey(c, line);
      SettingIsPlain(c, k, KeptEnding(line));
    } else {
      UnmanagedStays(c, line);
    }
  }

  lemma AllLinesWritten(c: Config, lines: seq<string>)
    requires ConfigOk(c) && AllLines(lines)
    ensures AllLines(RewriteAll(c, lines))
  {
    forall i | 0 <= i < |lines| ensures Line(RewriteAll(c, lines)[i]) {
      assert Line(lines[i]);
      RewrittenLine(c, lines[i]);
    }
  }

  lemma RewrittenIsProper(c: Config, lines: seq<string>)
    requires ConfigOk(c) && Proper(lines) && NoLoneReturn(c, lines)
    ensures Proper(RewriteAll(c, lines))
  {
    var r := RewriteAll(c, lines);
    AllLinesWritten(c, lines);
    forall i | 0 <= i < |r| - 1 ensures Separate(r[i], r[i + 1]) {
      assert Line(lines[i]) && Line(lines[i + 1]) && Separate(lines[i], lines[i + 1]);
      RewrittenLine(c, lines[i]);
      RewrittenLine(c, lines[i + 1]);
    }
  }

  // The whole text is unterminated exactly when its last line is.
  lemma UnterminatedIsLast(lines: seq<string>)
    requires AllLines(lines) && lines != []
    ensures Unterminated(Join(lines)) <==> Ending(lines[|lines| - 1]) == ""
    ensures Ending(lines[|lines| - 1]) == "" ==> Plain(lines[|lines| - 1])
  {
    var line := lines[|lines| - 1];
    assert Line(line);
    EndingCases(line);
    assert Join(lines)[|Join(lines)| - 1] == line[|line| - 1];
    if Ending(line) == "" {
      assert Body(line) == line;
    } else {
      assert line[|line| - 1] == Ending(line)[|Ending(line)| - 1];
    }
  }

  lemma NewlineCases(original: string)
    ensures IsNewline(Newline(original))
  {
  }

  lemma PaddedIsProper(c: Config, original: string)
    requires ConfigOk(c) && Proper(RewriteAll(c, SplitLines(original)))
    ensures var padded := Pad(c, original, RewriteAll(c, SplitLines(original)));
            Proper(padded)
            && (padded != [] && Missing(c.managed, SplitLines(original)) != [] ==> Ending(padded[|padded| - 1]) != "")
  {
    var r := RewriteAll(c, SplitLines(original));
    var padded := Pad(c, original, r);
    NewlineCases(original);
    if r != [] {
      UnterminatedIsLast(r);
      var n := |r| - 1;
      if NeedsPad(c, original) {
        PartsOf(r[n], Newline(original));
        forall i | 0 <= i < |padded| ensures Line(padded[i]) {
          assert Line(r[i]);
        }
        forall i | 0 <= i < |padded| - 1 ensures Separate(padded[i], padded[i + 1]) {
          assert Separate(r[i], r[i + 1]) && Line(r[i + 1]);
          assert padded[i] == r[i] && padded[i + 1][0] == r[i + 1][0];
        }
      }
    }
  }

  lemma ProperConcat(a: seq<string>, b: seq<string>)
    requires Proper(a) && Proper(b) && (a != [] && b != [] ==> Separate(a[|a| - 1], b[0]))
    ensures Proper(a + b)
  {
    var all := a + b;
    forall i | 0 <= i < |all| ensures Line(all[i]) {
      if i < |a| { assert Line(a[i]); } else { assert Line(b[i - |a|]); }
    }
    forall i | 0 <= i < |all| - 1 ensures Separate(all[i], all[i + 1]) {
      if i + 1 < |a| {
        assert Separate(a[i], a[i + 1]);
      } else if i >= |a| {
        assert Separate(b[i - |a|], b[i + 1 - |a|]);
      }
    }
  }

  lemma AppendedIsProper(c: Config, keys: seq<string>, nl: string)
    requires ConfigOk(c) && IsNewline(nl) && forall k :: k in keys ==> k in c.managed
    ensures Proper(Appended(c, keys, nl))
    ensures keys != [] ==> Appended(c, keys, nl)[0][0] != '\n'
  {
    var r := Appended(c, keys, nl);
    forall i | 0 <= i < |r| ensures Line(r[i]) && Ending(r[i]) == nl && r[i][0] != '\n' {
      assert keys[i] in c.managed;
      SettingIsPlain(c, keys[i], nl);
    }
  }

  /** Without lone returns after managed settings, what is read back is line by line what was written. */
  lemma WrittenLines(c: Config, original: string)
    requires ConfigOk(c) && NoLoneReturn(c, SplitLines(original))
    ensures SplitLines(Output(c, original)) == FinalLines(c, original)
  {
    var lines := SplitLines(original);
    SplitIsProper(original);
    RewrittenIsProper(c, lines);
    PaddedIsProper(c, original);
    NewlineCases(original);
    var missing := Missing(c.managed, lines);
    AppendedIsProper(c, missing, Newline(original));
    ProperConcat(Pad(c, original, RewriteAll(c, lines)), Appended(c, missing, Newline(original)));
    OutputIsFinalLines(c, original);
    SplitJoin(FinalLines(c, original));
  }

  // ---------------------------------------------------------------- line endings

  ghost predicate AllEnd(lines: seq<string>, ending: string) {
    forall i :: 0 <= i < |lines| ==> Line(lines[i]) && Ending(lines[i]) == ending
  }

  lemma {:induction false} NoReturns(lines: seq<string>)
    requires AllEnd(lines, "\n")
    ensures '\r' !in Join(lines)
  {
    if lines != [] {
      var last := lines[|lines| - 1];
      NoReturns(lines[..|lines| - 1]);
      assert last == Body(last) + "\n" && Plain(Body(last));
    }
  }

  lemma ReturnsAreThere(original: string, first: string, rest: string)
    requires original == first + rest && Line(first) && Ending(first) == "\r\n"
    ensures HasCrLf(original)
  {
    var n := |Body(first)|;
    assert first == Body(first) + "\r\n";
    assert original[n] == '\r' && original[n + 1] == '\n';
  }

  lemma NoReturnNoPair(s: string)
    requires '\r' !in s
    ensures !HasCrLf(s)
  {
    assert forall i :: 0 <= i < |s| ==> s[i] != '\r';
  }

  lemma FirstIsThere(s: string)
    requires s != ""
    ensures SplitLines(s) != [] && s == SplitLines(s)[0] + s[|SplitLines(s)[0]|..]
  {
  }

  lemma NewlineIsTheirs(original: string, ending: string)
    requires original != "" && AllEnd(SplitLines(original), ending) && (ending == "\n" || ending == "\r\n")
    ensures Newline(original) == ending
  {
    if ending == "\n" {
      SplitIsProper(original);
      NoReturns(SplitLines(original));
      NoReturnNoPair(original);
    } else {
      FirstIsThere(original);
      ReturnsAreThere(original, SplitLines(original)[0], original[|SplitLines(original)[0]|..]);
    }
  }

  lemma RewrittenEnd(c: Config, lines: seq<string>, ending: string)
    requires ConfigOk(c) && AllEnd(lines, ending) && ending != "\r"
    ensures AllEnd(RewriteAll(c, lines), ending)
  {
    forall i | 0 <= i < |lines| ensures Line(Rewrite(c, lines[i])) && Ending(Rewrite(c, lines[i])) == ending { RewrittenLine(c, lines[i]); }
  }

  lemma AppendedEnd(c: Config, keys: seq<string>, ending: string)
    requires ConfigOk(c) && (forall k :: k in keys ==> k in c.managed) && (ending == "\n" || ending == "\r\n")
    ensures (forall k :: k in keys ==> k in c.desired) && AllEnd(Appended(c, keys, ending), ending)
  {
    forall k | k in keys ensures k in c.desired { assert k in c.managed; }
    forall i | 0 <= i < |keys| ensures Line(Setting(c, keys[i]) + ending) && Ending(Setting(c, keys[i]) + ending) == ending {
      assert keys[i] in keys;
      SettingIsPlain(c, keys[i], ending);
    }
  }

  lemma NothingToPad(c: Config, original: string, r: seq<string>, ending: string)
    requires ConfigOk(c) && r == RewriteAll(c, SplitLines(original)) && r != [] && AllEnd(r, ending) && ending != ""
    ensures Pad(c, original, r) == r
  {
    UnterminatedIsLast(r);
  }

  lemma FinalEnd(c: Config, original: string, ending: string)
    requires ConfigOk(c) && original != "" && (ending == "\n" || ending == "\r\n") && AllEnd(SplitLines(original), ending)
    ensures AllEnd(FinalLines(c, original), ending)
  {
    var (lines, missing) := (SplitLines(original), Missing(c.managed, SplitLines(original)));
    NewlineIsTheirs(original, ending);
    RewrittenEnd(c, lines, ending);
    NothingToPad(c, original, RewriteAll(c, lines), ending);
    AppendedEnd(c, missing, ending);
  }

  /** A file whose lines all end alike, in LF or in CR LF, still does after the rewriting: what is appended follows it. */
  lemma EndingsStayUniform(c: Config, original: string, ending: string)
    requires ConfigOk(c) && original != "" && (ending == "\n" || ending == "\r\n") && AllEnd(SplitLines(original), ending)
    ensures AllEnd(SplitLines(Output(c, original)), ending)
  {
    WrittenLines(c, original);
    FinalEnd(c, original, ending);
  }

  // ---------------------------------------------------------------- counting

  lemma {:induction false} CountConcat(key: string, a: seq<string>, b: seq<string>)
    ensures Count(key, a + b) == Count(key, a) + Count(key, b)
    decreases |b|
  {
    if b == [] {
      assert a + b == a;
    } else {
      CountConcat(key, a, b[..|b| - 1]);
      assert (a + b)[..|a + b| - 1] == a + b[..|b| - 1];
    }
  }

  lemma {:induction false} OthersConcat(c: Config, a: seq<string>, b: seq<string>)
    ensures Others(c, a + b) == Others(c, a) + Others(c, b)
    decreases |b|
  {
    if b == [] {
      assert a + b == a;
    } else {
      OthersConcat(c, a, b[..|b| - 1]);
      assert (a + b)[..|a + b| - 1] == a + b[..|b| - 1];
    }
  }

  lemma {:induction false} RewriteCounts(c: Config, key: string, lines: seq<string>)
    requires ConfigOk(c) && KeyShape(key)
    ensures Count(key, RewriteAll(c, lines)) == Count(key, lines)
  {
    if lines != [] {
      RewriteCounts(c, key, lines[..|lines| - 1]);
      RewriteAssigns(c, key, lines[|lines| - 1]);
      assert RewriteAll(c, lines)[..|lines| - 1] == RewriteAll(c, lines[..|lines| - 1]);
    }
  }

  lemma RewriteManaged(c: Config, line: string)
    requires ConfigOk(c)
    ensures Managed(c, Rewrite(c, line)) <==> Managed(c, line)
    ensures !Managed(c, line) ==> Rewrite(c, line) == line
  {
    if Managed(c, line) { RewriteTwice(c, line); } else { UnmanagedStays(c, line); }
  }

  lemma {:induction false} RewriteOthers(c: Config, lines: seq<string>)
    requires ConfigOk(c)
    ensures Others(c, RewriteAll(c, lines)) == Others(c, lines)
  {
    if lines != [] {
      RewriteOthers(c, lines[..|lines| - 1]);
      RewriteManaged(c, lines[|lines| - 1]);
      assert RewriteAll(c, lines)[..|lines| - 1] == RewriteAll(c, lines[..|lines| - 1]);
    }
  }

  lemma PadCounts(c: Config, original: string, key: string, lines: seq<string>)
    requires ConfigOk(c) && KeyShape(key)
    ensures Count(key, Pad(c, original, lines)) == Count(key, lines)
  {
    if lines != [] && NeedsPad(c, original) {
      var last := lines[|lines| - 1];
      NewlineCases(original);
      AssignsAppend(key, last, Newline(original));
      assert Pad(c, original, lines)[..|lines| - 1] == lines[..|lines| - 1];
    }
  }

  lemma PadOthers(c: Config, original: string)
    requires ConfigOk(c)
    ensures Others(c, Pad(c, original, RewriteAll(c, SplitLines(original)))) == Others(c, Padded(c, original))
  {
    var lines := SplitLines(original);
    RewriteOthers(c, lines);
    if lines != [] && NeedsPad(c, original) {
      var last := lines[|lines| - 1];
      NewlineCases(original);
      RewriteOthers(c, lines[..|lines| - 1]);
      RewriteManaged(c, last);
      ManagedAppend(c, last, Newline(original));
      ManagedAppend(c, Rewrite(c, last), Newline(original));
      assert RewriteAll(c, lines)[..|lines| - 1] == RewriteAll(c, lines[..|lines| - 1]);
      PadSplits(c, original, RewriteAll(c, lines));
      PadSplits(c, original, lines);
    }
  }

  lemma PadSplits(c: Config, original: string, lines: seq<string>)
    requires ConfigOk(c) && lines != [] && NeedsPad(c, original)
    ensures var last := lines[|lines| - 1] + Newline(original);
            Others(c, Pad(c, original, lines)) == Others(c, lines[..|lines| - 1]) + if Managed(c, last) then [] else [last]
  {
    assert Pad(c, original, lines)[..|lines| - 1] == lines[..|lines| - 1];
  }

  ghost predicate Distinct(keys: seq<string>) {
    forall i, j :: 0 <= i < j < |keys| ==> keys[i] != keys[j]
  }

  lemma {:induction false} MissingDistinct(keys: seq<string>, lines: seq<string>)
    requires Distinct(keys)
    ensures Distinct(Missing(keys, lines))
  {
    if keys != [] {
      var front := keys[..|keys| - 1];
      assert forall k :: k in front ==> k != keys[|keys| - 1];
      MissingDistinct(front, lines);
    }
  }

  lemma {:induction false} AppendedCounts(c: Config, keys: seq<string>, nl: string, key: string)
    requires ConfigOk(c) && Distinct(keys) && KeyShape(key) && forall k :: k in keys ==> k in c.managed
    ensures Count(key, Appended(c, keys, nl)) == if key in keys then 1 else 0
  {
    if keys != [] {
      var front, last := keys[..|keys| - 1], keys[|keys| - 1];
      AppendedCounts(c, front, nl, key);
      SettingAssigns(c, last, nl);
      if Assigns(key, Setting(c, last) + nl) { OneKey(key, last, Setting(c, last) + nl); }
      assert Appended(c, keys, nl)[..|keys| - 1] == Appended(c, front, nl);
      assert key in keys <==> key in front || key == last;
      assert last !in front;
    }
  }

  lemma {:induction false} AppendedOthers(c: Config, keys: seq<string>, nl: string)
    requires ConfigOk(c) && forall k :: k in keys ==> k in c.managed
    ensures Others(c, Appended(c, keys, nl)) == []
  {
    if keys != [] {
      var front, last := keys[..|keys| - 1], keys[|keys| - 1];
      AppendedOthers(c, front, nl);
      SettingAssigns(c, last, nl);
      var i :| 0 <= i < |c.managed| && c.managed[i] == last;
      assert Managed(c, Setting(c, last) + nl);
      assert Appended(c, keys, nl)[..|keys| - 1] == Appended(c, front, nl);
    }
  }

  lemma FinalCounts(c: Config, original: string, key: string)
    requires ConfigOk(c) && KeyShape(key)
    ensures Count(key, FinalLines(c, original))
            == Count(key, SplitLines(original)) + if key in Missing(c.managed, SplitLines(original)) then 1 else 0
  {
    var lines := SplitLines(original);
    MissingDistinct(c.managed, lines);
    RewriteCounts(c, key, lines);
    PadCounts(c, original, key, RewriteAll(c, lines));
    AppendedCounts(c, Missing(c.managed, lines), Newline(original), key);
    CountConcat(key, Pad(c, original, RewriteAll(c, lines)), Appended(c, Missing(c.managed, lines), Newline(original)));
  }

  lemma FinalOthers(c: Config, original: string)
    requires ConfigOk(c)
    ensures Others(c, FinalLines(c, original)) == Others(c, Padded(c, original))
  {
    var missing := Missing(c.managed, SplitLines(original));
    PadOthers(c, original);
    AppendedOthers(c, missing, Newline(original));
    OthersConcat(c, Pad(c, original, RewriteAll(c, SplitLines(original))), Appended(c, missing, Newline(original)));
  }

  // Every key is assigned once in the written lines.
  lemma FinalAssignsOnce(c: Config, original: string, key: string)
    requires ConfigOk(c) && !AssignedTwice(c, SplitLines(original)) && key in c.managed
    ensures Count(key, FinalLines(c, original)) == 1
  {
    var i :| 0 <= i < |c.managed| && c.managed[i] == key;
    assert KeyShape(key) && Count(c.managed[i], SplitLines(original)) <= 1;
    FinalCounts(c, original, key);
  }

  // ---------------------------------------------------------------- main results

  lemma RewrittenSetting(c: Config, key: string, line: string)
    requires ConfigOk(c) && key in c.managed && Assigns(key, Rewrite(c, line))
    ensures Rewrite(c, line) == Setting(c, key) + KeptEnding(line) && IsSetting(c, key, Rewrite(c, line))
  {
    RewriteAssigns(c, key, line);
    OnlyKey(c, line, key);
    EndingCases(line);
    SettingIsPlain(c, key, KeptEnding(line));
  }

  lemma PaddedSetting(c: Config, original: string, key: string, i: nat)
    requires ConfigOk(c) && key in c.managed && i < |SplitLines(original)|
    requires Assigns(key, Pad(c, original, RewriteAll(c, SplitLines(original)))[i])
    ensures IsSetting(c, key, Pad(c, original, RewriteAll(c, SplitLines(original)))[i])
  {
    var lines := SplitLines(original);
    var r := RewriteAll(c, lines);
    if i == |lines| - 1 && NeedsPad(c, original) {
      NewlineCases(original);
      AssignsAppend(key, r[i], Newline(original));
      RewrittenSetting(c, key, lines[i]);
      SplitIsProper(original);
      AllLinesWritten(c, lines);
      UnterminatedIsLast(r);
      SettingIsPlain(c, key, "");
      SettingIsPlain(c, key, Newline(original));
      assert r[i] == Setting(c, key);
    } else {
      RewrittenSetting(c, key, lines[i]);
    }
  }

  lemma AppendedSetting(c: Config, key: string, k: string, nl: string)
    requires ConfigOk(c) && key in c.managed && k in c.managed && IsNewline(nl) && Assigns(key, Setting(c, k) + nl)
    ensures IsSetting(c, key, Setting(c, k) + nl)
  {
    SettingAssigns(c, k, nl);
    OneKey(key, k, Setting(c, k) + nl);
    SettingIsPlain(c, k, nl);
  }

  // A list of lines followed by appended settings assigns a key only by settings, if the list does.
  lemma PiecesSetting(c: Config, key: string, lines: seq<string>, keys: seq<string>, nl: string, i: nat)
    requires ConfigOk(c) && key in c.managed && IsNewline(nl) && forall k :: k in keys ==> k in c.managed
    requires i < |lines| + |keys| && Assigns(key, (lines + Appended(c, keys, nl))[i])
    requires i < |lines| && Assigns(key, lines[i]) ==> IsSetting(c, key, lines[i])
    ensures IsSetting(c, key, (lines + Appended(c, keys, nl))[i])
  {
    if i >= |lines| {
      var k := keys[i - |lines|];
      assert k in keys;
      AppendedSetting(c, key, k, nl);
    }
  }

  lemma FinalSetting(c: Config, original: string, key: string, i: nat)
    requires ConfigOk(c) && key in c.managed && i < |FinalLines(c, original)| && Assigns(key, FinalLines(c, original)[i])
    ensures IsSetting(c, key, FinalLines(c, original)[i])
  {
    var padded := Pad(c, original, RewriteAll(c, SplitLines(original)));
    NewlineCases(original);
    if i < |padded| && Assigns(key, padded[i]) { PaddedSetting(c, original, key, i); }
    PiecesSetting(c, key, padded, Missing(c.managed, SplitLines(original)), Newline(original), i);
  }

  lemma CleanIsCorrect(c: Config, original: string)
    requires ConfigOk(c) && !AssignedTwice(c, SplitLines(original)) && NoLoneReturn(c, SplitLines(original))
    ensures Correct(c, original)
  {
    WrittenLines(c, original);
    FinalOthers(c, original);
    forall k | k in c.managed ensures Count(k, FinalLines(c, original)) == 1 { FinalAssignsOnce(c, original, k); }
    forall k, i | k in c.managed && 0 <= i < |FinalLines(c, original)| && Assigns(k, FinalLines(c, original)[i])
      ensures IsSetting(c, k, FinalLines(c, original)[i])
    {
      FinalSetting(c, original, k, i);
    }
  }

  // How many managed assignments the lines hold.
  function TotalCount(keys: seq<string>, lines: seq<string>): nat {
    if keys == [] then 0 else TotalCount(keys[..|keys| - 1], lines) + Count(keys[|keys| - 1], lines)
  }

  predicate Among(keys: seq<string>, line: string) {
    exists i :: 0 <= i < |keys| && Assigns(keys[i], line)
  }

  lemma AmongSplits(keys: seq<string>, line: string)
    requires keys != []
    ensures Among(keys, line) <==> Among(keys[..|keys| - 1], line) || Assigns(keys[|keys| - 1], line)
  {
    var front := keys[..|keys| - 1];
    if Among(keys, line) {
      var i :| 0 <= i < |keys| && Assigns(keys[i], line);
      if i < |front| { assert Assigns(front[i], line); }
    }
    if Among(front, line) {
      var i :| 0 <= i < |front| && Assigns(front[i], line);
      assert Assigns(keys[i], line);
    }
  }

  lemma {:induction false} TotalStep(keys: seq<string>, lines: seq<string>)
    requires lines != [] && Distinct(keys) && forall i :: 0 <= i < |keys| ==> KeyShape(keys[i])
    ensures TotalCount(keys, lines)
            == TotalCount(keys, lines[..|lines| - 1]) + if Among(keys, lines[|lines| - 1]) then 1 else 0
  {
    if keys != [] {
      var front, last := keys[..|keys| - 1], keys[|keys| - 1];
      var line := lines[|lines| - 1];
      TotalStep(front, lines);
      AmongSplits(keys, line);
      if Among(front, line) {
        var i :| 0 <= i < |front| && Assigns(front[i], line);
        assert keys[i] != last;
        if Assigns(last, line) { OneKey(front[i], last, line); }
      }
    }
  }

  lemma {:induction false} TotalOfNone(keys: seq<string>)
    ensures TotalCount(keys, []) == 0
  {
    if keys != [] { TotalOfNone(keys[..|keys| - 1]); }
  }

  // Every line is either another line or exactly one managed assignment.
  lemma {:induction false} LinesAddUp(c: Config, lines: seq<string>)
    requires ConfigOk(c)
    ensures |lines| == |Others(c, lines)| + TotalCount(c.managed, lines)
  {
    if lines == [] {
      TotalOfNone(c.managed);
    } else {
      LinesAddUp(c, lines[..|lines| - 1]);
      TotalStep(c.managed, lines);
    }
  }

  lemma {:induction false} OnceEach(keys: seq<string>, lines: seq<string>)
    requires forall k :: k in keys ==> Count(k, lines) == 1
    ensures TotalCount(keys, lines) == |keys|
  {
    if keys != [] { OnceEach(keys[..|keys| - 1], lines); }
  }

  lemma LoneReturnMerges(c: Config, original: string)
    requires ConfigOk(c) && !NoLoneReturn(c, SplitLines(original))
    ensures LineCount(Output(c, original)) < |FinalLines(c, original)|
  {
    var lines := SplitLines(original);
    SplitIsProper(original);
    AllLinesWritten(c, lines);
    var final := FinalLines(c, original);
    FinalAllLines(c, original);
    var i :| 0 <= i < |lines| - 1 && Managed(c, lines[i]) && Ending(lines[i]) == "\r";
    RewrittenLine(c, lines[i]);
    assert final[i] == Rewrite(c, lines[i]);
    assert Gap(final);
    OutputIsFinalLines(c, original);
    JoinedCount(final);
  }

  lemma ReplaceLast(lines: seq<string>, line: string)
    requires AllLines(lines) && lines != [] && Line(line)
    ensures AllLines(lines[..|lines| - 1] + [line])
  {
  }

  lemma PaddedAllLines(c: Config, original: string)
    requires ConfigOk(c)
    ensures AllLines(Pad(c, original, RewriteAll(c, SplitLines(original))))
  {
    var r := RewriteAll(c, SplitLines(original));
    SplitIsProper(original);
    AllLinesWritten(c, SplitLines(original));
    if r != [] && NeedsPad(c, original) {
      NewlineCases(original);
      UnterminatedIsLast(r);
      PartsOf(r[|r| - 1], Newline(original));
      ReplaceLast(r, r[|r| - 1] + Newline(original));
    }
  }

  lemma FinalAllLines(c: Config, original: string)
    requires ConfigOk(c)
    ensures AllLines(FinalLines(c, original))
  {
    PaddedAllLines(c, original);
    NewlineCases(original);
    AppendedIsProper(c, Missing(c.managed, SplitLines(original)), Newline(original));
  }

  /** The rewriter's condition is exact: when no managed key is assigned twice, the output has every managed key
      once with its value and every other line unchanged in order, if and only if no managed assignment before
      the last line ends in a lone carriage return. */
  lemma CorrectIff(c: Config, original: string)
    requires ConfigOk(c) && !AssignedTwice(c, SplitLines(original))
    ensures Correct(c, original) <==> NoLoneReturn(c, SplitLines(original))
  {
    if NoLoneReturn(c, SplitLines(original)) {
      CleanIsCorrect(c, original);
    } else if Correct(c, original) {
      var written, final := SplitLines(Output(c, original)), FinalLines(c, original);
      LoneReturnMerges(c, original);
      FinalOthers(c, original);
      forall k | k in c.managed ensures Count(k, final) == 1 { FinalAssignsOnce(c, original, k); }
      LinesAddUp(c, written);
      LinesAddUp(c, final);
      OnceEach(c.managed, written);
      OnceEach(c.managed, final);
      assert false;
    }
  }

  // ---------------------------------------------------------------- a file that gets damaged

  // One managed key, and a file that assigns it on a line that ends in a lone CR.
  function SmallConfig(): Config { Config(["K"], map["K" := "x"], []) }

  function Victim(): string { "K=1\rA=1\n" }

  lemma JoinTwo(a: string, b: string)
    ensures Join([a, b]) == a + b
  {
    assert [a, b][..1] == [a] && [a][..0] == [];
    assert Join([a]) == "" + a;
  }

  lemma VictimLines()
    ensures SplitLines(Victim()) == ["K=1\r", "A=1\n"] && Ending("K=1\r") == "\r"
  {
    var (first, second) := ("K=1" + "\r", "A=1" + "\n");
    PartsOf("K=1", "\r");
    PartsOf("A=1", "\n");
    assert Proper([first, second]);
    JoinTwo(first, second);
    SplitJoin([first, second]);
    assert first + second == Victim() && first == "K=1\r" && second == "A=1\n";
  }

  lemma VictimKeys()
    ensures Assigns("K", "K=1\r") && !Assigns("K", "A=1\n") && Count("K", ["K=1\r", "A=1\n"]) == 1
  {
    assert SkipBlanks("K=1\r") == "K=1\r" && "K=1\r"[1..] == "=1\r" && SkipBlanks("=1\r") == "=1\r";
    assert SkipBlanks("A=1\n") == "A=1\n";
    assert ["K=1\r", "A=1\n"][..1] == ["K=1\r"] && ["K=1\r"][..0] == [];
  }

  lemma VictimIsRewritten()
    requires ConfigOk(SmallConfig())
    ensures Rewrite(SmallConfig(), "K=1\r") == "K=x" && Rewrite(SmallConfig(), "A=1\n") == "A=1\n"
  {
    var c := SmallConfig();
    VictimLines();
    VictimKeys();
    OnlyKey(c, "K=1\r", c.managed[0]);
    assert Setting(c, c.managed[0]) == "K=x";
    NoKeyIndex(c, "A=1\n");
  }

  lemma NothingMissingHere()
    ensures Missing(["K"], ["K=1\r", "A=1\n"]) == []
  {
    VictimKeys();
    assert ["K"][..0] == [];
  }

  lemma RewriteTwo(c: Config, a: string, b: string)
    requires ConfigOk(c)
    ensures RewriteAll(c, [a, b]) == [Rewrite(c, a), Rewrite(c, b)]
  {
  }

  lemma OutputOfTwo(c: Config, original: string, a: string, b: string)
    requires ConfigOk(c) && SplitLines(original) == [a, b] && Missing(c.managed, [a, b]) == []
    ensures Output(c, original) == Rewrite(c, a) + Rewrite(c, b)
  {
    RewriteTwo(c, a, b);
    JoinTwo(Rewrite(c, a), Rewrite(c, b));
  }

  lemma VictimOutput(c: Config, original: string)
    requires ConfigOk(c) && c == SmallConfig() && original == Victim()
    ensures Output(c, original) == "K=x" + "A=1\n"
  {
    VictimLines();
    NothingMissingHere();
    VictimIsRewritten();
    OutputOfTwo(c, original, "K=1\r", "A=1\n");
  }

  lemma VictimIsIncorrect()
    requires ConfigOk(SmallConfig())
    ensures !AssignedTwice(SmallConfig(), SplitLines(Victim())) && !Correct(SmallConfig(), Victim())
  {
    VictimLines();
    VictimKeys();
    assert SmallConfig().managed[0] == "K" && Managed(SmallConfig(), "K=1\r");
    CorrectIff(SmallConfig(), Victim());
  }

  /** It happens: the next setting is swallowed by the managed one. */
  lemma DamageHappens(c: Config, original: string)
    requires c == SmallConfig() && original == Victim()
    ensures ConfigOk(c) && !AssignedTwice(c, SplitLines(original))
    ensures Output(c, original) == "K=x" + "A=1\n" && !Correct(c, original)
  {
    VictimOutput(c, original);
    VictimIsIncorrect();
  }

  lemma SettingStays(c: Config, line: string)
    requires ConfigOk(c) && forall k :: k in c.managed && Assigns(k, line) ==> IsSetting(c, k, line)
    ensures Rewrite(c, line) == line
  {
    if Managed(c, line) {
      var k := ManagedHasKey(c, line);
      EndingCases(line);
    } else {
      UnmanagedStays(c, line);
    }
  }

  lemma FinalIsFixed(c: Config, original: string)
    requires ConfigOk(c)
    ensures RewriteAll(c, FinalLines(c, original)) == FinalLines(c, original)
  {
    var final := FinalLines(c, original);
    forall i | 0 <= i < |final| ensures Rewrite(c, final[i]) == final[i] {
      forall k | k in c.managed && Assigns(k, final[i]) ensures IsSetting(c, k, final[i]) { FinalSetting(c, original, k, i); }
      SettingStays(c, final[i]);
    }
  }

  lemma NothingMissing(c: Config, lines: seq<string>)
    requires forall k :: k in c.managed ==> Count(k, lines) == 1
    ensures Missing(c.managed, lines) == [] && !AssignedTwice(c, lines)
  {
    if Missing(c.managed, lines) != [] { assert Missing(c.managed, lines)[0] in Missing(c.managed, lines); }
  }

  /** Running the rewriter on its own output changes nothing. */
  lemma RewritingTwiceIsOnce(c: Config, original: string)
    requires ConfigOk(c) && !AssignedTwice(c, SplitLines(original)) && NoLoneReturn(c, SplitLines(original))
    ensures !AssignedTwice(c, SplitLines(Output(c, original)))
    ensures Output(c, Output(c, original)) == Output(c, original)
  {
    var final := FinalLines(c, original);
    WrittenLines(c, original);
    OutputIsFinalLines(c, original);
    forall k | k in c.managed ensures Count(k, final) == 1 { FinalAssignsOnce(c, original, k); }
    FinalIsFixed(c, original);
    NothingMissing(c, final);
  }

  // ---------------------------------------------------------------- which lines assign a key

  ghost predicate Blanks(s: string) {
    forall i :: 0 <= i < |s| ==> Blank(s[i])
  }

  // Nothing, or the word export and at least one blank.
  ghost predicate IsExport(s: string) {
    s == "" || ("export" < s && Blanks(s[6..]))
  }

  ghost predicate Reads(key: string, line: string, before: string, export_: string, after: string, value: string) {
    line == before + export_ + key + after + "=" + value && Blanks(before) && IsExport(export_) && Blanks(after)
  }

  lemma {:induction false} SkipParts(s: string) returns (blanks: string)
    ensures s == blanks + SkipBlanks(s) && Blanks(blanks) && (SkipBlanks(s) != "" ==> !Blank(SkipBlanks(s)[0]))
  {
    if s != "" && Blank(s[0]) {
      var rest := SkipParts(s[1..]);
      blanks := [s[0]] + rest;
    } else {
      blanks := "";
    }
  }

  lemma {:induction false} SkipsTo(blanks: string, rest: string)
    requires Blanks(blanks) && rest != "" && !Blank(rest[0])
    ensures SkipBlanks(blanks + rest) == rest
  {
    if blanks == "" {
      assert blanks + rest == rest;
    } else {
      SkipsTo(blanks[1..], rest);
      assert (blanks + rest)[1..] == blanks[1..] + rest;
    }
  }

  lemma HereParts(key: string, s: string) returns (after: string, value: string)
    requires AssignsHere(key, s)
    ensures s == key + after + "=" + value && Blanks(after)
  {
    after := SkipParts(s[|key|..]);
    value := SkipBlanks(s[|key|..])[1..];
    assert s == key + s[|key|..];
  }

  lemma PartsHere(key: string, after: string, value: string)
    requires Blanks(after)
    ensures AssignsHere(key, key + after + "=" + value)
  {
    var s := key + after + "=" + value;
    assert s[|key|..] == after + ("=" + value);
    SkipsTo(after, "=" + value);
  }

  lemma HereReads(key: string, line: string) returns (before: string, after: string, value: string)
    requires AssignsHere(key, SkipBlanks(line))
    ensures Reads(key, line, before, "", after, value)
  {
    before := SkipParts(line);
    after, value := HereParts(key, SkipBlanks(line));
    assert before + "" + key + after + "=" + value == before + (key + after + "=" + value);
  }

  lemma ExportReads(key: string, line: string) returns (before: string, export_: string, after: string, value: string)
    requires var s := SkipBlanks(line); "export" <= s && |s| > 6 && Blank(s[6]) && AssignsHere(key, SkipBlanks(s[6..]))
    ensures Reads(key, line, before, export_, after, value)
  {
    var s := SkipBlanks(line);
    before := SkipParts(line);
    var gap := SkipParts(s[6..]);
    after, value := HereParts(key, SkipBlanks(s[6..]));
    export_ := "export" + gap;
    GapIsThere(s[6..], gap);
    assert export_[6..] == gap;
    assert s == "export" + s[6..] == export_ + SkipBlanks(s[6..]);
  }

  lemma GapIsThere(s: string, gap: string)
    requires s != "" && Blank(s[0]) && s == gap + SkipBlanks(s) && (SkipBlanks(s) != "" ==> !Blank(SkipBlanks(s)[0]))
    ensures gap != ""
  {
  }

  lemma AssignsReads(key: string, line: string) returns (before: string, export_: string, after: string, value: string)
    requires Assigns(key, line)
    ensures Reads(key, line, before, export_, after, value)
  {
    if AssignsHere(key, SkipBlanks(line)) {
      export_ := "";
      before, after, value := HereReads(key, line);
    } else {
      before, export_, after, value := ExportReads(key, line);
    }
  }

  lemma ReadsAssigns(key: string, line: string, before: string, export_: string, after: string, value: string)
    requires KeyShape(key) && Reads(key, line, before, export_, after, value)
    ensures Assigns(key, line)
  {
    var here := key + after + "=" + value;
    PartsHere(key, after, value);
    assert line == before + (export_ + here);
    SkipsTo(before, export_ + here);
    if export_ != "" {
      var s := export_ + here;
      assert s[6..] == export_[6..] + here && s[6] == export_[6..][0];
      SkipsTo(export_[6..], here);
    } else {
      assert export_ + here == here;
    }
  }

  /** A line assigns a key exactly if it reads, up to blanks, `key=` or `export key=`, and then anything. */
  lemma AssignsIff(key: string, line: string)
    requires KeyShape(key)
    ensures Assigns(key, line) <==> exists before, export_, after, value :: Reads(key, line, before, export_, after, value)
  {
    if Assigns(key, line) {
      var before, export_, after, value := AssignsReads(key, line);
    }
    forall before, export_, after, value | Reads(key, line, before, export_, after, value) ensures Assigns(key, line) {
      ReadsAssigns(key, line, before, export_, after, value);
    }
  }
}
