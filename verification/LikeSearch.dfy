/** Literal substring search through PostgreSQL pattern matching (section 9.7.1 of its documentation, with
    the default backslash escape). */
module LikeSearch {

  const ESCAPE: char := '\\'

  // Case folding of ILIKE, one character at a time.
  type Fold = char -> char

  predicate Same(fold: Fold, a: char, b: char) { fold(a) == fold(b) }

  /** Does the whole text match the pattern? A dangling escape matches nothing; PostgreSQL raises an error. */
  ghost predicate Like(fold: Fold, pattern: string, text: string)
    decreases |pattern|
  {
    if pattern == "" then text == ""
    else if pattern[0] == '%' then exists k :: 0 <= k <= |text| && Like(fold, pattern[1..], text[k..])
    else if pattern[0] == '_' then text != "" && Like(fold, pattern[1..], text[1..])
    else if pattern[0] == ESCAPE then
      |pattern| > 1 && text != "" && Same(fold, pattern[1], text[0]) && Like(fold, pattern[2..], text[1..])
    else text != "" && Same(fold, pattern[0], text[0]) && Like(fold, pattern[1..], text[1..])
  }

  // PostgreSQL rejects a pattern that ends in an unfinished escape.
  predicate WellFormed(pattern: string)
    decreases |pattern|
  {
    if pattern == "" then true
    else if pattern[0] == ESCAPE then |pattern| > 1 && WellFormed(pattern[2..])
    else WellFormed(pattern[1..])
  }

  ghost predicate StartsWith(fold: Fold, text: string, s: string) {
    |s| <= |text| && forall i :: 0 <= i < |s| ==> Same(fold, s[i], text[i])
  }

  ghost predicate Contains(fold: Fold, text: string, s: string) {
    exists k :: 0 <= k <= |text| && StartsWith(fold, text[k..], s)
  }

  // ---------------------------------------------------------------- the two escapers

  function ReplaceAll(s: string, c: char, repl: string): string {
    if s == "" then "" else (if s[0] == c then repl else [s[0]]) + ReplaceAll(s[1..], c, repl)
  }

  function EscapeIlikePattern(value: string): string {
    ReplaceAll(ReplaceAll(ReplaceAll(value, '\\', "\\\\"), '%', "\\%"), '_', "\\_")
  }

  function EscapeLikePattern(value: string): string {
    OnePass(c => c in "\\%_,().*", value)
  }

  // Every special character preceded by a backslash.
  function OnePass(special: char -> bool, s: string): string {
    if s == "" then "" else (if special(s[0]) then [ESCAPE, s[0]] else [s[0]]) + OnePass(special, s[1..])
  }

  function SearchPattern(escaped: string): string { "%" + escaped + "%" }

  // ---------------------------------------------------------------- the chain of replacements

  lemma {:induction false} ReplaceConcat(a: string, b: string, c: char, repl: string)
    ensures ReplaceAll(a + b, c, repl) == ReplaceAll(a, c, repl) + ReplaceAll(b, c, repl)
  {
    if a == "" {
      assert a + b == b;
    } else {
      ReplaceConcat(a[1..], b, c, repl);
      var head := if a[0] == c then repl else [a[0]];
      assert (a + b)[1..] == a[1..] + b && (a + b)[0] == a[0];
      assert (head + ReplaceAll(a[1..], c, repl)) + ReplaceAll(b, c, repl) == head + (ReplaceAll(a[1..], c, repl) + ReplaceAll(b, c, repl));
    }
  }

  lemma {:induction false} ReplaceTwo(x: char, y: char, c: char, repl: string)
    ensures ReplaceAll([x], c, repl) == if x == c then repl else [x]
    ensures ReplaceAll([x, y], c, repl) == (if x == c then repl else [x]) + if y == c then repl else [y]
  {
    assert ReplaceAll("", c, repl) == "";
    assert [x][1..] == "" && [y][1..] == "" && [x, y][1..] == [y];
    assert ReplaceAll([y], c, repl) == (if y == c then repl else [y]) + "";
  }

  /** Replacing backslashes first, the chain equals one pass: no replacement touches what another inserted. */
  lemma {:induction false} ChainIsOnePass(s: string)
    ensures EscapeIlikePattern(s) == OnePass(c => c in "\\%_", s)
  {
    if s != "" {
      ChainIsOnePass(s[1..]);
      var head: string := if s[0] == '\\' then "\\\\" else [s[0]];
      var rest := ReplaceAll(s[1..], '\\', "\\\\");
      ReplaceConcat(head, rest, '%', "\\%");
      ReplaceTwo('\\', '\\', '%', "\\%");
      ReplaceTwo(s[0], s[0], '%', "\\%");
      var head2: string := ReplaceAll(head, '%', "\\%");
      ReplaceConcat(head2, ReplaceAll(rest, '%', "\\%"), '_', "\\_");
      ReplaceTwo('\\', '\\', '_', "\\_");
      ReplaceTwo('\\', '%', '_', "\\_");
      ReplaceTwo(s[0], s[0], '_', "\\_");
    }
  }

  // ---------------------------------------------------------------- the search is literal

  ghost predicate Covers(special: char -> bool) {
    special('\\') && special('%') && special('_')
  }

  /** An escaped string followed by `%` matches exactly the texts that start with the string. */
  lemma {:induction false} EscapedPrefix(fold: Fold, special: char -> bool, s: string, text: string)
    requires Covers(special)
    ensures Like(fold, OnePass(special, s) + "%", text) <==> StartsWith(fold, text, s)
    decreases |s|
  {
    var pattern := OnePass(special, s) + "%";
    if s == "" {
      assert pattern == "%" && pattern[1..] == "" && text[|text|..] == "";
      assert Like(fold, pattern[1..], text[|text|..]);
    } else {
      var rest := OnePass(special, s[1..]) + "%";
      if special(s[0]) {
        assert pattern[0] == ESCAPE && pattern[1] == s[0] && pattern[2..] == rest;
      } else {
        assert pattern[0] == s[0] && pattern[1..] == rest;
      }
      if text != "" {
        EscapedPrefix(fold, special, s[1..], text[1..]);
        assert Like(fold, pattern, text) <==> Same(fold, s[0], text[0]) && StartsWith(fold, text[1..], s[1..]);
        if Same(fold, s[0], text[0]) && StartsWith(fold, text[1..], s[1..]) {
          forall i | 0 <= i < |s| ensures Same(fold, s[i], text[i]) {
            if i > 0 { assert s[1..][i - 1] == s[i] && text[1..][i - 1] == text[i]; }
          }
        }
        if StartsWith(fold, text, s) {
          forall i | 0 <= i < |s[1..]| ensures Same(fold, s[1..][i], text[1..][i]) {
            assert Same(fold, s[i + 1], text[i + 1]);
          }
        }
      }
    }
  }

  /** The search pattern of any escaper that covers the three special characters finds exactly the texts
      that contain the search string. */
  lemma SearchIsLiteral(fold: Fold, special: char -> bool, s: string, text: string)
    requires Covers(special)
    ensures Like(fold, SearchPattern(OnePass(special, s)), text) <==> Contains(fold, text, s)
  {
    var pattern := SearchPattern(OnePass(special, s));
    assert pattern[0] == '%' && pattern[1..] == OnePass(special, s) + "%";
    forall k | 0 <= k <= |text|
      ensures Like(fold, pattern[1..], text[k..]) <==> StartsWith(fold, text[k..], s)
    {
      EscapedPrefix(fold, special, s, text[k..]);
    }
  }

  lemma ReportSearchIsLiteral(fold: Fold, search: string, title: string)
    ensures Like(fold, SearchPattern(EscapeIlikePattern(search)), title) <==> Contains(fold, title, search)
  {
    ChainIsOnePass(search);
    SearchIsLiteral(fold, c => c in "\\%_", search, title);
  }

  lemma ProgramSearchIsLiteral(fold: Fold, search: string, name: string)
    ensures Like(fold, SearchPattern(EscapeLikePattern(search)), name) <==> Contains(fold, name, search)
  {
    SearchIsLiteral(fold, c => c in "\\%_,().*", search, name);
  }

  lemma {:induction false} EscapedIsWellFormed(special: char -> bool, s: string)
    requires Covers(special)
    ensures WellFormed(OnePass(special, s) + "%")
    decreases |s|
  {
    var pattern := OnePass(special, s) + "%";
    if s == "" {
      assert pattern == "%" && pattern[1..] == "";
    } else {
      EscapedIsWellFormed(special, s[1..]);
      var rest := OnePass(special, s[1..]) + "%";
      if special(s[0]) {
        assert pattern[0] == ESCAPE && pattern[2..] == rest;
      } else {
        assert pattern[0] != ESCAPE && pattern[1..] == rest;
      }
    }
  }

  /** Neither escaper ever leaves a dangling escape, whatever the search string ends in. */
  lemma NoDanglingEscape(search: string)
    ensures WellFormed(SearchPattern(EscapeIlikePattern(search))) && WellFormed(SearchPattern(EscapeLikePattern(search)))
  {
    ChainIsOnePass(search);
    EscapedIsWellFormed(c => c in "\\%_", search);
    EscapedIsWellFormed(c => c in "\\%_,().*", search);
    assert SearchPattern(EscapeIlikePattern(search))[1..] == EscapeIlikePattern(search) + "%";
    assert SearchPattern(EscapeLikePattern(search))[1..] == EscapeLikePattern(search) + "%";
  }
}
