/** The required-secret validator, and that the rewriter never changes its verdict. */
module EnvSecrets {
  import opened EnvLines
  import opened EnvRewrite
  import opened EnvRewriteSafety

  datatype Verdict = Valid | NotExactlyOnce(key: string) | BlankSecret(key: string)

  // Python's ASCII whitespace.
  predicate White(c: char) { c in " \t\n\r" || c == '\U{0B}' || c == '\U{0C}' }

  function StripRight(s: string): string {
    if s != "" && White(s[|s| - 1]) then StripRight(s[..|s| - 1]) else s
  }

  function StripLeft(s: string): string {
    if s != "" && White(s[0]) then StripLeft(s[1..]) else s
  }

  function Strip(s: string): string { StripLeft(StripRight(s)) }

  // Where the key starts, after blanks and an optional export.
  function KeyStart(key: string, line: string): string
    requires Assigns(key, line)
    ensures AssignsHere(key, KeyStart(key, line))
  {
    var s := SkipBlanks(line);
    if AssignsHere(key, s) then s else SkipBlanks(s[6..])
  }

  // The captured group, stripped.
  function ValueOf(key: string, line: string): string
    requires Assigns(key, line)
  {
    Strip(SkipBlanks(KeyStart(key, line)[|key|..])[1..])
  }

  function Values(key: string, lines: seq<string>): seq<string> {
    if lines == [] then []
    else
      var last := lines[|lines| - 1];
      Values(key, lines[..|lines| - 1]) + if Assigns(key, last) then [ValueOf(key, last)] else []
  }

  function Unquoted(value: string): string {
    if |value| >= 2 && value[0] in "\"'" && value[|value| - 1] == value[0] then Strip(value[1..|value| - 1]) else value
  }

  function KeyVerdict(key: string, values: seq<string>): Verdict {
    if |values| != 1 then NotExactlyOnce(key)
    else if Unquoted(Strip(values[0])) == "" then BlankSecret(key)
    else Valid
  }

  // The verdict on the first required key that fails.
  function Validate(required: seq<string>, lines: seq<string>): Verdict {
    if required == [] then Valid
    else
      var v := KeyVerdict(required[0], Values(required[0], lines));
      if v.Valid? then Validate(required[1..], lines) else v
  }

  /** The loops of validate_required_secrets. */
  method ValidateRequiredSecrets(c: Config, original: string) returns (v: Verdict)
    ensures v == Validate(c.required, SplitLines(original))
  {
    var lines := SplitLines(original);
    var matches: map<string, seq<string>> := map k | k in c.required :: [];
    assert lines[..0] == [];
    for i := 0 to |lines|
      invariant forall k :: k in c.required ==> k in matches && matches[k] == Values(k, lines[..i])
    {
      assert lines[..i + 1][..i] == lines[..i];
      matches := map k | k in c.required :: matches[k] + if Assigns(k, lines[i]) then [ValueOf(k, lines[i])] else [];
    }
    assert lines[..|lines|] == lines;
    for j := 0 to |c.required|
      invariant Validate(c.required[j..], lines) == Validate(c.required, lines)
    {
      var key := c.required[j];
      assert c.required[j..][1..] == c.required[j + 1..];
      var verdict := KeyVerdict(key, matches[key]);
      if verdict != Valid { return verdict; }
    }
    v := Valid;
  }

  // ---------------------------------------------------------------- which files are refused

  predicate AllWhite(s: string) {
    forall i :: 0 <= i < |s| ==> White(s[i])
  }

  // Nothing but whitespace, or whitespace between a pair of quotes.
  ghost predicate IsBlank(value: string) {
    AllWhite(value) || exists before, quote, inside, after :: Quotes(value, before, quote, inside, after) && AllWhite(inside)
  }

  ghost predicate Quotes(value: string, before: string, quote: char, inside: string, after: string) {
    value == before + [quote] + inside + [quote] + after && quote in "\"'" && AllWhite(before) && AllWhite(after)
  }

  lemma {:induction false} StripRightParts(s: string) returns (after: string)
    ensures s == StripRight(s) + after && AllWhite(after) && (StripRight(s) != "" ==> !White(StripRight(s)[|StripRight(s)| - 1]))
  {
    if s != "" && White(s[|s| - 1]) {
      var rest := StripRightParts(s[..|s| - 1]);
      after := rest + [s[|s| - 1]];
    } else {
      after := "";
    }
  }

  lemma {:induction false} StripLeftParts(s: string) returns (before: string)
    ensures s == before + StripLeft(s) && AllWhite(before) && (StripLeft(s) != "" ==> !White(StripLeft(s)[0]))
  {
    if s != "" && White(s[0]) {
      var rest := StripLeftParts(s[1..]);
      before := [s[0]] + rest;
    } else {
      before := "";
    }
  }

  // Whitespace on both sides goes, and nothing else.
  lemma StripParts(s: string) returns (before: string, after: string)
    ensures s == before + Strip(s) + after && AllWhite(before) && AllWhite(after)
    ensures Strip(s) != "" ==> !White(Strip(s)[0]) && !White(Strip(s)[|Strip(s)| - 1])
  {
    after := StripRightParts(s);
    before := StripLeftParts(StripRight(s));
  }

  lemma StripEmptyIff(s: string)
    ensures Strip(s) == "" <==> AllWhite(s)
  {
    var before, after := StripParts(s);
    if Strip(s) != "" { assert s[|before|] == Strip(s)[0]; }
  }

  // The parts are determined by where the text starts and ends.
  lemma CoreIsUnique(s: string, a: string, core: string, b: string, a': string, core': string, b': string)
    requires s == a + core + b && s == a' + core' + b' && AllWhite(a) && AllWhite(b) && AllWhite(a') && AllWhite(b')
    requires core != "" && !White(core[0]) && !White(core[|core| - 1])
    requires core' != "" && !White(core'[0]) && !White(core'[|core'| - 1])
    ensures core == core'
  {
    assert s[|a|] == core[0] && s[|a'|] == core'[0];
    assert forall i :: 0 <= i < |a| ==> s[i] == a[i] && White(s[i]);
    assert forall i :: 0 <= i < |a'| ==> s[i] == a'[i] && White(s[i]);
    var (e, e') := (|a| + |core|, |a'| + |core'|);
    assert s[e - 1] == core[|core| - 1] && s[e' - 1] == core'[|core'| - 1];
    assert forall i :: e <= i < |s| ==> s[i] == b[i - e] && White(s[i]);
    assert forall i :: e' <= i < |s| ==> s[i] == b'[i - e'] && White(s[i]);
    assert core == s[|a|..|a| + |core|] && core' == s[|a'|..|a'| + |core'|];
  }

  lemma QuotesAreTheCore(value: string, before: string, quote: char, inside: string, after: string)
    requires Quotes(value, before, quote, inside, after)
    ensures Strip(value) == [quote] + inside + [quote]
  {
    var core := [quote] + inside + [quote];
    var a, b := StripParts(value);
    assert value == before + core + after;
    assert value[|before|] == quote;
    StripEmptyIff(value);
    CoreIsUnique(value, before, core, after, a, Strip(value), b);
  }

  lemma BlankIff(value: string)
    ensures Unquoted(Strip(value)) == "" <==> IsBlank(value)
  {
    var core := Strip(value);
    var before, after := StripParts(value);
    StripEmptyIff(value);
    forall a, q, inside, b | Quotes(value, a, q, inside, b) && AllWhite(inside) ensures Unquoted(core) == "" {
      QuotesAreTheCore(value, a, q, inside, b);
      assert core[1..|core| - 1] == inside;
      StripEmptyIff(inside);
    }
    if Unquoted(core) == "" && core != "" {
      var inside := core[1..|core| - 1];
      assert core == [core[0]] + inside + [core[0]];
      assert Quotes(value, before, core[0], inside, after);
      StripEmptyIff(inside);
    }
  }

  // The required key stands in exactly one line, with something in it.
  ghost predicate IsGiven(key: string, lines: seq<string>) {
    |Values(key, lines)| == 1 && !IsBlank(Values(key, lines)[0])
  }

  lemma {:induction false} ValuesCount(key: string, lines: seq<string>)
    ensures |Values(key, lines)| == Count(key, lines)
  {
    if lines != [] { ValuesCount(key, lines[..|lines| - 1]); }
  }

  lemma KeyIsGivenIff(key: string, lines: seq<string>)
    ensures KeyVerdict(key, Values(key, lines)).Valid? <==> IsGiven(key, lines)
    ensures KeyVerdict(key, Values(key, lines)) == NotExactlyOnce(key) <==> Count(key, lines) != 1
  {
    ValuesCount(key, lines);
    if |Values(key, lines)| == 1 { BlankIff(Values(key, lines)[0]); }
  }

  // The first required key that is not given, and what is wrong with it.
  ghost predicate FirstMissing(required: seq<string>, lines: seq<string>, i: nat, v: Verdict) {
    && i < |required| && !IsGiven(required[i], lines) && (forall j :: 0 <= j < i ==> IsGiven(required[j], lines))
    && v == if Count(required[i], lines) != 1 then NotExactlyOnce(required[i]) else BlankSecret(required[i])
  }

  lemma MissingLater(required: seq<string>, lines: seq<string>, i: nat, v: Verdict)
    requires required != [] && IsGiven(required[0], lines) && FirstMissing(required[1..], lines, i, v)
    ensures FirstMissing(required, lines, i + 1, v)
  {
    forall j | 0 <= j < i + 1 ensures IsGiven(required[j], lines) { if j > 0 { assert required[j] == required[1..][j - 1]; } }
    assert required[i + 1] == required[1..][i];
  }

  lemma {:induction false} RefusedNamesFirst(required: seq<string>, lines: seq<string>) returns (i: nat)
    requires !Validate(required, lines).Valid?
    ensures FirstMissing(required, lines, i, Validate(required, lines))
  {
    KeyIsGivenIff(required[0], lines);
    if IsGiven(required[0], lines) {
      var rest := RefusedNamesFirst(required[1..], lines);
      MissingLater(required, lines, rest, Validate(required, lines));
      i := rest + 1;
    } else {
      i := 0;
    }
  }

  lemma {:induction false} AllGivenIsValid(required: seq<string>, lines: seq<string>)
    requires forall k :: k in required ==> IsGiven(k, lines)
    ensures Validate(required, lines).Valid?
  {
    if required != [] {
      assert required[0] in required;
      KeyIsGivenIff(required[0], lines);
      AllGivenIsValid(required[1..], lines);
    }
  }

  lemma {:induction false} ValidIsAllGiven(required: seq<string>, lines: seq<string>, k: string)
    requires Validate(required, lines).Valid? && k in required
    ensures IsGiven(k, lines)
  {
    KeyIsGivenIff(required[0], lines);
    if k != required[0] { ValidIsAllGiven(required[1..], lines, k); }
  }

  /** A file is accepted if and only if every required secret is assigned in exactly one line, to something that is not
      blank, quoted or not; otherwise the first that is not so is named, with which of the two it is. */
  lemma AcceptedIff(required: seq<string>, lines: seq<string>)
    ensures Validate(required, lines).Valid? <==> forall k :: k in required ==> IsGiven(k, lines)
    ensures !Validate(required, lines).Valid? ==> exists i :: FirstMissing(required, lines, i, Validate(required, lines))
  {
    if Validate(required, lines).Valid? {
      forall k | k in required ensures IsGiven(k, lines) { ValidIsAllGiven(required, lines, k); }
    } else {
      var i := RefusedNamesFirst(required, lines);
      if forall k :: k in required ==> IsGiven(k, lines) { AllGivenIsValid(required, lines); }
    }
  }

  // ---------------------------------------------------------------- the rewriter leaves it alone

  lemma {:induction false} StripAppend(s: string, nl: string)
    requires IsNewline(nl)
    ensures StripRight(s + nl) == StripRight(s)
  {
    assert (s + "\n")[..|s|] == s && StripRight(s + "\n") == StripRight(s);
    if nl == "\r\n" {
      assert (s + "\r")[..|s|] == s && StripRight(s + "\r") == StripRight(s);
      assert (s + nl)[..|s| + 1] == s + "\r";
    }
  }

  lemma ValueAppend(key: string, line: string, nl: string)
    requires KeyShape(key) && IsNewline(nl) && Assigns(key, line)
    ensures Assigns(key, line + nl) && ValueOf(key, line + nl) == ValueOf(key, line)
  {
    AssignsAppend(key, line, nl);
    var s := SkipBlanks(line);
    SkipBlanksAppend(line, nl);
    AssignsHereAppend(key, s, nl);
    if !AssignsHere(key, s) {
      assert (s + nl)[6..] == s[6..] + nl;
      SkipBlanksAppend(s[6..], nl);
    }
    var at := KeyStart(key, line);
    assert KeyStart(key, line + nl) == at + nl;
    assert (at + nl)[|key|..] == at[|key|..] + nl;
    SkipBlanksAppend(at[|key|..], nl);
    var rest := SkipBlanks(at[|key|..]);
    assert (rest + nl)[1..] == rest[1..] + nl;
    StripAppend(rest[1..], nl);
  }

  lemma {:induction false} ValuesConcat(key: string, a: seq<string>, b: seq<string>)
    ensures Values(key, a + b) == Values(key, a) + Values(key, b)
    decreases |b|
  {
    if b == [] {
      assert a + b == a;
    } else {
      ValuesConcat(key, a, b[..|b| - 1]);
      assert (a + b)[..|a + b| - 1] == a + b[..|b| - 1];
    }
  }

  lemma {:induction false} NoValues(key: string, lines: seq<string>)
    requires Count(key, lines) == 0
    ensures Values(key, lines) == []
  {
    if lines != [] { NoValues(key, lines[..|lines| - 1]); }
  }

  // A required secret is never a managed key, so rewriting does not touch its lines.
  lemma SecretLineStays(c: Config, key: string, line: string)
    requires ConfigOk(c) && KeyShape(key) && key !in c.managed && Assigns(key, line)
    ensures Rewrite(c, line) == line
  {
    if Managed(c, line) {
      var k := ManagedHasKey(c, line);
      OneKey(k, key, line);
    }
    assert !Managed(c, line);
    UnmanagedStays(c, line);
  }

  lemma {:induction false} RewriteValues(c: Config, key: string, lines: seq<string>)
    requires ConfigOk(c) && KeyShape(key) && key !in c.managed
    ensures Values(key, RewriteAll(c, lines)) == Values(key, lines)
  {
    if lines != [] {
      var last := lines[|lines| - 1];
      RewriteValues(c, key, lines[..|lines| - 1]);
      RewriteAssigns(c, key, last);
      if Assigns(key, last) { SecretLineStays(c, key, last); }
      assert RewriteAll(c, lines)[..|lines| - 1] == RewriteAll(c, lines[..|lines| - 1]);
    }
  }

  lemma PadValues(c: Config, original: string, key: string, lines: seq<string>)
    requires ConfigOk(c) && KeyShape(key)
    ensures Values(key, Pad(c, original, lines)) == Values(key, lines)
  {
    if lines != [] && NeedsPad(c, original) {
      var last := lines[|lines| - 1];
      NewlineCases(original);
      AssignsAppend(key, last, Newline(original));
      if Assigns(key, last) { ValueAppend(key, last, Newline(original)); }
      assert Pad(c, original, lines)[..|lines| - 1] == lines[..|lines| - 1];
    }
  }

  lemma SecretValuesStay(c: Config, original: string, key: string)
    requires ConfigOk(c) && key in c.required
    ensures Values(key, FinalLines(c, original)) == Values(key, SplitLines(original))
  {
    var lines := SplitLines(original);
    var missing := Missing(c.managed, lines);
    assert KeyShape(key) && key !in c.managed;
    RewriteValues(c, key, lines);
    PadValues(c, original, key, RewriteAll(c, lines));
    MissingDistinct(c.managed, lines);
    AppendedCounts(c, missing, Newline(original), key);
    NoValues(key, Appended(c, missing, Newline(original)));
    ValuesConcat(key, Pad(c, original, RewriteAll(c, lines)), Appended(c, missing, Newline(original)));
  }

  lemma {:induction false} SameValuesSameVerdict(required: seq<string>, a: seq<string>, b: seq<string>)
    requires forall k :: k in required ==> Values(k, a) == Values(k, b)
    ensures Validate(required, a) == Validate(required, b)
  {
    if required != [] { SameValuesSameVerdict(required[1..], a, b); }
  }

  /** The rewritten file gets the same verdict from the secret validator as the original. */
  lemma RewriteKeepsVerdict(c: Config, original: string)
    requires ConfigOk(c) && NoLoneReturn(c, SplitLines(original))
    ensures Validate(c.required, SplitLines(Output(c, original))) == Validate(c.required, SplitLines(original))
  {
    WrittenLines(c, original);
    forall k | k in c.required ensures Values(k, FinalLines(c, original)) == Values(k, SplitLines(original)) {
      SecretValuesStay(c, original, k);
    }
    SameValuesSameVerdict(c.required, FinalLines(c, original), SplitLines(original));
  }

  // ---------------------------------------------------------------- the production settings

  const CONTRACTS_ENABLED := "CIRCLE_CONTRACTS_ENABLED"
  const WEBHOOKS_ENABLED := "CIRCLE_GATEWAY_WEBHOOKS_ENABLED"
  const SUBSCRIPTION_IDS := "CIRCLE_GATEWAY_WEBHOOK_SUBSCRIPTION_IDS"
  const API_KEY := "CIRCLE_API_KEY"
  const ENTITY_SECRET := "CIRCLE_ENTITY_SECRET"
  const WALLET_ID := "CIRCLE_DEPLOYMENT_WALLET_ID"
  const SUBSCRIPTION := "39f66f5f-600d-4efa-9d99-a725c0af80f8"

  function Production(): Config {
    Config([CONTRACTS_ENABLED, WEBHOOKS_ENABLED, SUBSCRIPTION_IDS],
           map[CONTRACTS_ENABLED := "true", WEBHOOKS_ENABLED := "true", SUBSCRIPTION_IDS := SUBSCRIPTION],
           [API_KEY, ENTITY_SECRET, WALLET_ID])
  }

  lemma ContractsKey() ensures KeyShape(CONTRACTS_ENABLED) && |CONTRACTS_ENABLED| == 24 {}
  lemma WebhooksKey() ensures KeyShape(WEBHOOKS_ENABLED) && |WEBHOOKS_ENABLED| == 31 {}
  lemma SubscriptionKey() ensures KeyShape(SUBSCRIPTION_IDS) && |SUBSCRIPTION_IDS| == 39 {}
  lemma ApiKey() ensures KeyShape(API_KEY) && |API_KEY| == 14 {}
  lemma EntityKey() ensures KeyShape(ENTITY_SECRET) && |ENTITY_SECRET| == 20 {}
  lemma WalletKey() ensures KeyShape(WALLET_ID) && |WALLET_ID| == 27 {}
  lemma PlainValues() ensures Plain("true") && Plain(SUBSCRIPTION) {}

  /** The deployed configuration meets what the theorems ask of one. */
  lemma ProductionIsOk()
    ensures ConfigOk(Production())
  {
    ContractsKey();
    WebhooksKey();
    SubscriptionKey();
    ApiKey();
    EntityKey();
    WalletKey();
    PlainValues();
  }
}
