/** The rewriter that puts the managed settings into the production environment file, and the validator of
    the required secrets that runs before it. */
module EnvRewrite {
  import opened EnvLines

  // The managed keys in dictionary order with their values, and the required secrets.
  datatype Config = Config(managed: seq<string>, desired: map<string, string>, required: seq<string>)

  datatype Result = Rendered(bytes: string) | Duplicate(key: string)

  predicate Blank(c: char) { c == ' ' || c == '\t' }

  function SkipBlanks(s: string): string {
    if s != "" && Blank(s[0]) then SkipBlanks(s[1..]) else s
  }

  // key [ \t]* =
  predicate AssignsHere(key: string, s: string) {
    key <= s && var rest := SkipBlanks(s[|key|..]); rest != "" && rest[0] == '='
  }

  // ^[ \t]*(?:export[ \t]+)?key[ \t]*=
  predicate Assigns(key: string, line: string) {
    var s := SkipBlanks(line);
    AssignsHere(key, s) || ("export" <= s && |s| > 6 && Blank(s[6]) && AssignsHere(key, SkipBlanks(s[6..])))
  }

  predicate Managed(c: Config, line: string) {
    exists i :: 0 <= i < |c.managed| && Assigns(c.managed[i], line)
  }

  // Letters of a key: no blank, no `=`, no terminator; keys are upper case, so none starts like `export`.
  predicate KeyShape(key: string) {
    key != "" && key[0] != 'e' && forall i :: 0 <= i < |key| ==> !Blank(key[i]) && key[i] != '=' && !Terminator(key[i])
  }

  ghost predicate ConfigOk(c: Config) {
    && (forall i :: 0 <= i < |c.managed| ==> KeyShape(c.managed[i]) && c.managed[i] in c.desired && Plain(c.desired[c.managed[i]]))
    && (forall i, j :: 0 <= i < j < |c.managed| ==> c.managed[i] != c.managed[j])
    && (forall i :: 0 <= i < |c.required| ==> KeyShape(c.required[i]) && c.required[i] !in c.managed)
  }

  function Count(key: string, lines: seq<string>): nat {
    if lines == [] then 0
    else Count(key, lines[..|lines| - 1]) + if Assigns(key, lines[|lines| - 1]) then 1 else 0
  }

  function Setting(c: Config, key: string): string
    requires key in c.desired
  {
    key + "=" + c.desired[key]
  }

  // A lone CR is not kept as an ending.
  function KeptEnding(line: string): string {
    if Ending(line) == "\r" then "" else Ending(line)
  }

  // The first managed key the line assigns.
  function KeyIndex(keys: seq<string>, line: string): (i: nat)
    ensures i <= |keys| && (i < |keys| ==> Assigns(keys[i], line)) && forall j :: 0 <= j < i ==> !Assigns(keys[j], line)
  {
    if keys == [] || Assigns(keys[0], line) then 0
    else
      var i := KeyIndex(keys[1..], line);
      assert forall j :: 1 <= j < |keys| ==> keys[j] == keys[1..][j - 1];
      1 + i
  }

  function Rewrite(c: Config, line: string): string
    requires ConfigOk(c)
  {
    var i := KeyIndex(c.managed, line);
    if i < |c.managed| then Setting(c, c.managed[i]) + KeptEnding(line) else line
  }

  function RewriteAll(c: Config, lines: seq<string>): (r: seq<string>)
    requires ConfigOk(c)
    ensures |r| == |lines| && forall i :: 0 <= i < |lines| ==> r[i] == Rewrite(c, lines[i])
  {
    if lines == [] then [] else RewriteAll(c, lines[..|lines| - 1]) + [Rewrite(c, lines[|lines| - 1])]
  }

  // The managed keys no line assigns, in order.
  function Missing(keys: seq<string>, lines: seq<string>): (r: seq<string>)
    ensures forall k :: k in r <==> k in keys && Count(k, lines) == 0
  {
    if keys == [] then []
    else
      var last := keys[|keys| - 1];
      Missing(keys[..|keys| - 1], lines) + if Count(last, lines) == 0 then [last] else []
  }

  predicate HasCrLf(s: string) {
    exists i :: 0 <= i < |s| - 1 && s[i] == '\r' && s[i + 1] == '\n'
  }

  function Newline(original: string): string {
    if HasCrLf(original) then "\r\n" else "\n"
  }

  function Appended(c: Config, keys: seq<string>, newline: string): (r: seq<string>)
    requires forall k :: k in keys ==> k in c.desired
    ensures |r| == |keys| && forall i :: 0 <= i < |keys| ==> r[i] == Setting(c, keys[i]) + newline
  {
    if keys == [] then [] else Appended(c, keys[..|keys| - 1], newline) + [Setting(c, keys[|keys| - 1]) + newline]
  }

  predicate Unterminated(s: string) { s != "" && !Terminator(s[|s| - 1]) }

  // The bytes that are written when no key is assigned twice.
  function Output(c: Config, original: string): string
    requires ConfigOk(c)
  {
    var lines := SplitLines(original);
    var text := Join(RewriteAll(c, lines));
    var missing := Missing(c.managed, lines);
    if missing == [] then text
    else text + (if Unterminated(text) then Newline(original) else "") + Join(Appended(c, missing, Newline(original)))
  }

  predicate AssignedTwice(c: Config, lines: seq<string>) {
    exists i :: 0 <= i < |c.managed| && Count(c.managed[i], lines) > 1
  }

  // ---------------------------------------------------------------- a line assigns at most one key

  lemma OneKeyHere(a: string, b: string, s: string)
    requires KeyShape(a) && KeyShape(b) && |a| <= |b| && AssignsHere(a, s) && AssignsHere(b, s)
    ensures a == b
  {
    assert a == s[..|a|];
  }

  lemma OneKey(a: string, b: string, line: string)
    requires KeyShape(a) && KeyShape(b) && Assigns(a, line) && Assigns(b, line)
    ensures a == b
  {
    var s := SkipBlanks(line);
    assert "export" <= s ==> s[0] == 'e';
    assert (AssignsHere(a, s) ==> a[0] == s[0]) && (AssignsHere(b, s) ==> b[0] == s[0]);
    var at := if "export" <= s then SkipBlanks(s[6..]) else s;
    if |a| <= |b| { OneKeyHere(a, b, at); } else { OneKeyHere(b, a, at); }
  }

  // ---------------------------------------------------------------- the rewriter

  // One round of the first loop: the text to write and the new counters, or the key seen twice.
  method RewriteOne(c: Config, lines: seq<string>, i: nat, counts: map<string, nat>)
    returns (text: string, matches: map<string, nat>, twice: seq<string>)
    requires ConfigOk(c) && i < |lines| && Counted(c, counts, lines[..i])
    ensures twice == [] ==> text == Rewrite(c, lines[i]) && Counted(c, matches, lines[..i + 1])
    ensures twice != [] ==> twice[0] in c.managed && Count(twice[0], lines) > 1 && AssignedTwice(c, lines)
  {
    text, matches, twice := lines[i], counts, [];
    var matching := MatchingKeys(c, lines[i]);
    if |matching| > 1 {
      OneKey(matching[0], matching[1], lines[i]);
      assert false;
    }
    CountedStep(c, counts, lines, i, matching);
    if matching != [] {
      var key := matching[0];
      matches := matches[key := matches[key] + 1];
      if matches[key] > 1 {
        TwiceIsFinal(c, lines, i + 1, key);
        return text, matches, [key];
      }
      text := Setting(c, key) + KeptEnding(lines[i]);
    }
  }

  // The first loop: rewrites the lines and counts the assignments, or stops at the second one of a key.
  method RewriteLines(c: Config, lines: seq<string>) returns (output: string, matches: map<string, nat>, twice: seq<string>)
    requires ConfigOk(c)
    ensures twice == [] ==> output == Join(RewriteAll(c, lines)) && Counted(c, matches, lines) && !AssignedTwice(c, lines)
    ensures twice != [] ==> twice[0] in c.managed && Count(twice[0], lines) > 1 && AssignedTwice(c, lines)
  {
    matches := map k | k in c.managed :: 0;
    output, twice := "", [];
    assert lines[..0] == [];
    for i := 0 to |lines|
      invariant twice == [] && output == Join(RewriteAll(c, lines[..i])) && Counted(c, matches, lines[..i])
    {
      var text;
      text, matches, twice := RewriteOne(c, lines, i, matches);
      if twice != [] { return; }
      LineStep(c, lines, i);
      output := output + text;
    }
    CountsAreSingle(c, lines);
  }

  /** render_updated_environment. The ambiguous-assignment error is never reached; the call fails exactly when
      some managed key is assigned twice. */
  method RenderUpdatedEnvironment(c: Config, original: string) returns (r: Result)
    requires ConfigOk(c)
    ensures r.Duplicate? <==> AssignedTwice(c, SplitLines(original))
    ensures r.Duplicate? ==> r.key in c.managed && Count(r.key, SplitLines(original)) > 1
    ensures r.Rendered? ==> r.bytes == Output(c, original)
  {
    var output, matches, twice := RewriteLines(c, SplitLines(original));
    if twice != [] { return Duplicate(twice[0]); }
    r := AppendMissing(c, original, output, matches);
  }

  lemma AppendedStep(c: Config, keys: seq<string>, i: nat, newline: string, start: string)
    requires i < |keys| && forall k :: k in keys ==> k in c.desired
    ensures start + Join(Appended(c, keys[..i + 1], newline))
            == start + Join(Appended(c, keys[..i], newline)) + (Setting(c, keys[i]) + newline)
  {
    assert keys[..i + 1][..i] == keys[..i];
    var line := Setting(c, keys[i]) + newline;
    JoinLast(Appended(c, keys[..i], newline), line);
    assert start + (Join(Appended(c, keys[..i], newline)) + line) == start + Join(Appended(c, keys[..i], newline)) + line;
  }

  method AppendKeys(c: Config, keys: seq<string>, newline: string, start: string) returns (output: string)
    requires forall k :: k in keys ==> k in c.desired
    ensures output == start + Join(Appended(c, keys, newline))
  {
    output := start;
    for i := 0 to |keys|
      invariant output == start + Join(Appended(c, keys[..i], newline))
    {
      AppendedStep(c, keys, i, newline, start);
      output := output + (Setting(c, keys[i]) + newline);
    }
    assert keys[..|keys|] == keys;
  }

  // The managed keys whose counter is zero, in order.
  method Unmatched(c: Config, matches: map<string, nat>, ghost lines: seq<string>) returns (missing: seq<string>)
    requires Counted(c, matches, lines)
    ensures missing == Missing(c.managed, lines)
  {
    missing := [];
    for i := 0 to |c.managed|
      invariant missing == Missing(c.managed[..i], lines)
    {
      assert c.managed[..i + 1][..i] == c.managed[..i];
      var key := c.managed[i];
      if matches[key] == 0 { missing := missing + [key]; }
    }
    assert c.managed[..|c.managed|] == c.managed;
  }

  // The part of render_updated_environment after its first loop.
  method AppendMissing(c: Config, original: string, rewritten: string, matches: map<string, nat>) returns (r: Result)
    requires ConfigOk(c) && rewritten == Join(RewriteAll(c, SplitLines(original))) && Counted(c, matches, SplitLines(original))
    ensures r == Rendered(Output(c, original))
  {
    var missing := Unmatched(c, matches, SplitLines(original));
    if missing == [] { return Rendered(rewritten); }
    var newline := Newline(original);
    var output := AppendKeys(c, missing, newline, rewritten + if Unterminated(rewritten) then newline else "");
    r := Rendered(output);
  }

  lemma LineStep(c: Config, lines: seq<string>, i: nat)
    requires ConfigOk(c) && i < |lines|
    ensures Join(RewriteAll(c, lines[..i + 1])) == Join(RewriteAll(c, lines[..i])) + Rewrite(c, lines[i])
  {
    assert lines[..i + 1][..i] == lines[..i];
    JoinLast(RewriteAll(c, lines[..i]), Rewrite(c, lines[i]));
  }

  // The counters hold what was counted so far, and no key was seen twice.
  ghost predicate Counted(c: Config, matches: map<string, nat>, lines: seq<string>) {
    forall k :: k in c.managed ==> k in matches && matches[k] == Count(k, lines) <= 1
  }

  lemma CountedStep(c: Config, matches: map<string, nat>, lines: seq<string>, i: nat, matching: seq<string>)
    requires i < |lines| && Counted(c, matches, lines[..i]) && |matching| <= 1
    requires forall k :: k in matching <==> k in c.managed && Assigns(k, lines[i])
    ensures matching == [] ==> Counted(c, matches, lines[..i + 1])
    ensures matching != [] ==>
              var key := matching[0];
              && key in matches && matches[key] + 1 == Count(key, lines[..i + 1])
              && (matches[key] == 0 ==> Counted(c, matches[key := matches[key] + 1], lines[..i + 1]))
  {
    assert lines[..i + 1][..i] == lines[..i];
    if matching != [] { assert matching[0] in matching; }
  }

  lemma CountsAreSingle(c: Config, lines: seq<string>)
    requires forall k :: k in c.managed ==> Count(k, lines[..|lines|]) <= 1
    ensures !AssignedTwice(c, lines) && lines[..|lines|] == lines
  {
    assert lines[..|lines|] == lines;
  }

  lemma TwiceIsFinal(c: Config, lines: seq<string>, n: nat, key: string)
    requires n <= |lines| && key in c.managed && Count(key, lines[..n]) > 1
    ensures AssignedTwice(c, lines) && Count(key, lines) > 1
  {
    CountGrows(key, lines, n);
    var i :| 0 <= i < |c.managed| && c.managed[i] == key;
    assert Count(c.managed[i], lines) > 1;
  }

  method MatchingKeys(c: Config, line: string) returns (keys: seq<string>)
    requires ConfigOk(c)
    ensures forall k :: k in keys <==> k in c.managed && Assigns(k, line)
    ensures forall i :: 0 <= i < |keys| ==> KeyShape(keys[i])
    ensures |keys| == 0 ==> Rewrite(c, line) == line
    ensures |keys| == 1 ==> keys[0] in c.desired && Rewrite(c, line) == Setting(c, keys[0]) + KeptEnding(line)
    ensures forall i, j :: 0 <= i < j < |keys| ==> keys[i] != keys[j]
  {
    keys := [];
    for i := 0 to |c.managed|
      invariant forall k :: k in keys <==> k in c.managed[..i] && Assigns(k, line)
      invariant forall a :: 0 <= a < |keys| ==> KeyShape(keys[a])
      invariant forall a, b :: 0 <= a < b < |keys| ==> keys[a] != keys[b]
    {
      assert c.managed[..i + 1] == c.managed[..i] + [c.managed[i]];
      if Assigns(c.managed[i], line) { keys := keys + [c.managed[i]]; }
    }
    assert c.managed[..|c.managed|] == c.managed;
    if |keys| == 0 {
      NoKeyIndex(c, line);
    } else {
      OnlyKey(c, line, keys[0]);
    }
  }

  lemma JoinLast(lines: seq<string>, line: string)
    ensures Join(lines + [line]) == Join(lines) + line
  {
    assert (lines + [line])[..|lines|] == lines;
  }

  lemma NoKeyIndex(c: Config, line: string)
    requires ConfigOk(c) && forall k :: k in c.managed ==> !Assigns(k, line)
    ensures Rewrite(c, line) == line
  {
  }

  lemma OnlyKey(c: Config, line: string, key: string)
    requires ConfigOk(c) && key in c.managed && Assigns(key, line)
    ensures KeyIndex(c.managed, line) < |c.managed| && c.managed[KeyIndex(c.managed, line)] == key
    ensures Rewrite(c, line) == Setting(c, key) + KeptEnding(line)
    ensures forall k :: k in c.managed && k != key ==> !Assigns(k, line)
  {
    forall k | k in c.managed && Assigns(k, line) ensures k == key { OneKey(k, key, line); }
  }

  lemma {:induction false} CountGrows(key: string, lines: seq<string>, n: nat)
    requires n <= |lines|
    ensures Count(key, lines[..n]) <= Count(key, lines)
  {
    if n == |lines| {
      assert lines[..n] == lines;
    } else {
      CountGrows(key, lines[..|lines| - 1], n);
      assert lines[..|lines| - 1][..n] == lines[..n];
    }
  }
}
