/** Redaction of log payloads: object graphs, possibly cyclic and shared, copied into trees. */
module Redaction {

  type ObjectId = nat

  const REDACTED: string := "[REDACTED]"
  const CIRCULAR: string := "[Circular]"

  const SENSITIVE_KEYS: set<string> := {
    "authorization", "cookie", "setcookie", "supabaseanonkey", "supabaseservicerolekey", "geminiapikey", "circleapikey",
    "circleentitysecret", "entitysecretciphertext", "privatekey", "walletprivatekey", "signedurl", "signedurls",
    "reporttitle", "reportcontent", "reportimpact", "reportreproduction", "reproduction", "reproductionsteps",
    "title", "content", "impact"
  }

  const SIGNING_PARAMETERS: set<string> := {
    "token=", "signature=", "sig=", "x-amz-signature=", "x-goog-signature=", "expires="
  }

  // `Scalar` stands for null, undefined, numbers, booleans and big integers.
  datatype Value = Str(text: string) | Scalar(bits: nat) | Ref(id: ObjectId)

  datatype Property = Property(key: string, value: Value)

  datatype Node = Arr(items: seq<Value>) | Obj(entries: seq<Property>)

  type Graph = map<ObjectId, Node>

  // A tree node remembers which object it copies.
  datatype Tree =
    | TStr(text: string)
    | TScalar(bits: nat)
    | TArr(origin: ObjectId, items: seq<Tree>)
    | TObj(origin: ObjectId, entries: seq<Field>)

  datatype Field = Field(key: string, tree: Tree)

  function Lower(c: char): char {
    if 'A' <= c <= 'Z' then c - 'A' + 'a' else c
  }

  function LowerAll(s: string): string {
    if s == "" then "" else LowerAll(s[..|s| - 1]) + [Lower(s[|s| - 1])]
  }

  predicate Alphanumeric(c: char) { 'a' <= c <= 'z' || 'A' <= c <= 'Z' || '0' <= c <= '9' }

  function NormalizeKey(key: string): string {
    if key == "" then ""
    else NormalizeKey(key[..|key| - 1]) + if Alphanumeric(key[|key| - 1]) then [Lower(key[|key| - 1])] else ""
  }

  predicate Sensitive(key: string) { NormalizeKey(key) in SENSITIVE_KEYS }

  // ?name= or &name= for one of the signing parameters, in any case.
  predicate Signed(s: string) {
    exists i, name :: 0 <= i < |s| && s[i] in "?&" && name in SIGNING_PARAMETERS && name <= LowerAll(s[i + 1..])
  }

  function RedactText(s: string): string {
    if Signed(s) then REDACTED else s
  }

  // ---------------------------------------------------------------- the graph walk

  predicate Closed(g: Graph) {
    && (forall id, i :: id in g && g[id].Arr? && 0 <= i < |g[id].items| && g[id].items[i].Ref? ==> g[id].items[i].id in g)
    && (forall id, i :: id in g && g[id].Obj? && 0 <= i < |g[id].entries| && g[id].entries[i].value.Ref? ==> g[id].entries[i].value.id in g)
  }

  predicate Known(g: Graph, v: Value) { v.Ref? ==> v.id in g }

  predicate AllKnown(g: Graph, items: seq<Value>) {
    forall i :: 0 <= i < |items| ==> Known(g, items[i])
  }

  predicate EntriesKnown(g: Graph, entries: seq<Property>) {
    forall i :: 0 <= i < |entries| ==> Known(g, entries[i].value)
  }

  // The copy and the objects seen so far. Every unfolding sees one more object of the finite graph.
  function Redact(g: Graph, v: Value, seen: set<ObjectId>): (r: (Tree, set<ObjectId>))
    requires Closed(g) && Known(g, v)
    ensures seen <= r.1
    decreases g.Keys - seen, 0, 0
  {
    match v
    case Str(text) => (TStr(RedactText(text)), seen)
    case Scalar(bits) => (TScalar(bits), seen)
    case Ref(id) =>
      if id in seen then (TStr(CIRCULAR), seen)
      else
        match g[id]
        case Arr(items) => var r := RedactItems(g, items, seen + {id}); (TArr(id, r.0), r.1)
        case Obj(entries) => var r := RedactEntries(g, entries, seen + {id}); (TObj(id, r.0), r.1)
  }

  function RedactItems(g: Graph, items: seq<Value>, seen: set<ObjectId>): (r: (seq<Tree>, set<ObjectId>))
    requires Closed(g) && AllKnown(g, items)
    ensures seen <= r.1 && |r.0| == |items|
    decreases g.Keys - seen, 1, |items|
  {
    if items == [] then ([], seen)
    else
      var front := RedactItems(g, items[..|items| - 1], seen);
      var last := Redact(g, items[|items| - 1], front.1);
      (front.0 + [last.0], last.1)
  }

  function RedactEntries(g: Graph, entries: seq<Property>, seen: set<ObjectId>): (r: (seq<Field>, set<ObjectId>))
    requires Closed(g) && EntriesKnown(g, entries)
    ensures seen <= r.1 && |r.0| == |entries|
    decreases g.Keys - seen, 1, |entries|
  {
    if entries == [] then ([], seen)
    else
      var front := RedactEntries(g, entries[..|entries| - 1], seen);
      var Property(key, value) := entries[|entries| - 1];
      if Sensitive(key) then (front.0 + [Field(key, TStr(REDACTED))], front.1)
      else
        var last := Redact(g, value, front.1);
        (front.0 + [Field(key, last.0)], last.1)
  }

  // redactValue with its shared, growing set of seen objects.
  class Redactor {
    var seen: set<ObjectId>

    constructor ()
      ensures seen == {}
    {
      seen := {};
    }

    method RedactValue(g: Graph, v: Value) returns (t: Tree)
      requires Closed(g) && Known(g, v)
      modifies this
      ensures (t, seen) == Redact(g, v, old(seen))
      decreases g.Keys - seen
    {
      match v
      case Str(text) => t := TStr(RedactText(text));
      case Scalar(bits) => t := TScalar(bits);
      case Ref(id) =>
        if id in seen { return TStr(CIRCULAR); }
        ghost var before := seen;
        seen := seen + {id};
        match g[id]
        case Arr(items) =>
          var copies := [];
          for i := 0 to |items|
            invariant before + {id} <= seen
            invariant (copies, seen) == RedactItems(g, items[..i], before + {id})
          {
            assert items[..i + 1][..i] == items[..i];
            var copy := RedactValue(g, items[i]);
            copies := copies + [copy];
          }
          assert items[..|items|] == items;
          t := TArr(id, copies);
        case Obj(entries) =>
          var copies: seq<Field> := [];
          for i := 0 to |entries|
            invariant before + {id} <= seen
            invariant (copies, seen) == RedactEntries(g, entries[..i], before + {id})
          {
            assert entries[..i + 1][..i] == entries[..i];
            var copy := TStr(REDACTED);
            if !Sensitive(entries[i].key) { copy := RedactValue(g, entries[i].value); }
            copies := copies + [Field(entries[i].key, copy)];
          }
          assert entries[..|entries|] == entries;
          t := TObj(id, copies);
    }
  }

  method RedactSensitiveData(g: Graph, v: Value) returns (t: Tree)
    requires Closed(g) && Known(g, v)
    ensures t == Redact(g, v, {}).0
  {
    var redactor := new Redactor();
    t := redactor.RedactValue(g, v);
  }

  // ---------------------------------------------------------------- what leaves the redactor

  /** Nothing but the marker under a sensitive key, and no signed URL anywhere else. */
  predicate Clean(t: Tree) {
    match t
    case TStr(text) => !Signed(text)
    case TScalar(_) => true
    case TArr(_, items) => CleanItems(items)
    case TObj(_, entries) => CleanEntries(entries)
  }

  predicate CleanItems(items: seq<Tree>) {
    items == [] || (CleanItems(items[..|items| - 1]) && Clean(items[|items| - 1]))
  }

  predicate CleanEntries(entries: seq<Field>) {
    entries == [] ||
    (CleanEntries(entries[..|entries| - 1]) &&
     var last := entries[|entries| - 1];
     if Sensitive(last.key) then last.tree == TStr(REDACTED) else Clean(last.tree))
  }

  lemma MarkersAreUnsigned()
    ensures !Signed(REDACTED) && !Signed(CIRCULAR)
  {
    assert forall i :: 0 <= i < |REDACTED| ==> REDACTED[i] !in "?&";
    assert forall i :: 0 <= i < |CIRCULAR| ==> CIRCULAR[i] !in "?&";
  }

  /** Whatever the graph, the copy is clean. */
  lemma {:induction false} RedactIsClean(g: Graph, v: Value, seen: set<ObjectId>)
    requires Closed(g) && Known(g, v)
    ensures Clean(Redact(g, v, seen).0)
    decreases g.Keys - seen, 0, 0
  {
    MarkersAreUnsigned();
    if v.Ref? && v.id !in seen {
      match g[v.id]
      case Arr(items) => ItemsAreClean(g, items, seen + {v.id});
      case Obj(entries) => EntriesAreClean(g, entries, seen + {v.id});
    }
  }

  lemma {:induction false} ItemsAreClean(g: Graph, items: seq<Value>, seen: set<ObjectId>)
    requires Closed(g) && AllKnown(g, items)
    ensures CleanItems(RedactItems(g, items, seen).0)
    decreases g.Keys - seen, 1, |items|
  {
    if items != [] {
      var front := items[..|items| - 1];
      var r := RedactItems(g, items, seen).0;
      ItemsAreClean(g, front, seen);
      RedactIsClean(g, items[|items| - 1], RedactItems(g, front, seen).1);
      assert r[..|r| - 1] == RedactItems(g, front, seen).0;
    }
  }

  lemma {:induction false} EntriesAreClean(g: Graph, entries: seq<Property>, seen: set<ObjectId>)
    requires Closed(g) && EntriesKnown(g, entries)
    ensures CleanEntries(RedactEntries(g, entries, seen).0)
    decreases g.Keys - seen, 1, |entries|
  {
    if entries != [] {
      var front := entries[..|entries| - 1];
      var r := RedactEntries(g, entries, seen).0;
      EntriesAreClean(g, front, seen);
      if !Sensitive(entries[|entries| - 1].key) {
        RedactIsClean(g, entries[|entries| - 1].value, RedactEntries(g, front, seen).1);
      }
      assert r[..|r| - 1] == RedactEntries(g, front, seen).0;
    }
  }

  // ---------------------------------------------------------------- what stays

  // The copy shows the value: a text as it was unless it is signed, and an object, unless it was seen before, with
  // all its members in order and under their own keys.
  ghost predicate Shows(g: Graph, v: Value, t: Tree)
    requires Closed(g) && Known(g, v)
    decreases t, 0
  {
    match v
    case Str(text) => t == TStr(if Signed(text) then REDACTED else text)
    case Scalar(bits) => t == TScalar(bits)
    case Ref(id) =>
      t == TStr(CIRCULAR) ||
      match g[id]
      case Arr(items) => t.TArr? && t.origin == id && ShowsItems(g, items, t.items)
      case Obj(entries) => t.TObj? && t.origin == id && ShowsEntries(g, entries, t.entries)
  }

  ghost predicate ShowsItems(g: Graph, items: seq<Value>, copies: seq<Tree>)
    requires Closed(g) && AllKnown(g, items)
    decreases copies, 1
  {
    |copies| == |items| && forall i :: 0 <= i < |items| ==> Known(g, items[i]) && Shows(g, items[i], copies[i])
  }

  ghost predicate ShowsEntries(g: Graph, entries: seq<Property>, copies: seq<Field>)
    requires Closed(g) && EntriesKnown(g, entries)
    decreases copies, 1
  {
    |copies| == |entries| &&
    forall i :: 0 <= i < |entries| ==>
      && copies[i].key == entries[i].key && Known(g, entries[i].value)
      && (if Sensitive(entries[i].key) then copies[i].tree == TStr(REDACTED) else Shows(g, entries[i].value, copies[i].tree))
  }

  /** Redaction takes nothing else away: what is not sensitive, not signed and not seen before is in the copy, at its
      place. */
  lemma {:induction false} RedactShows(g: Graph, v: Value, seen: set<ObjectId>)
    requires Closed(g) && Known(g, v)
    ensures Shows(g, v, Redact(g, v, seen).0)
    decreases g.Keys - seen, 0, 0
  {
    if v.Ref? && v.id !in seen {
      match g[v.id]
      case Arr(items) => ItemsShow(g, items, seen + {v.id});
      case Obj(entries) => EntriesShow(g, entries, seen + {v.id});
    }
  }

  lemma {:induction false} ItemsShow(g: Graph, items: seq<Value>, seen: set<ObjectId>)
    requires Closed(g) && AllKnown(g, items)
    ensures ShowsItems(g, items, RedactItems(g, items, seen).0)
    decreases g.Keys - seen, 1, |items|
  {
    if items != [] {
      var front := items[..|items| - 1];
      ItemsShow(g, front, seen);
      RedactShows(g, items[|items| - 1], RedactItems(g, front, seen).1);
      assert forall i :: 0 <= i < |front| ==> front[i] == items[i] && Shows(g, front[i], RedactItems(g, front, seen).0[i]);
    }
  }

  lemma {:induction false} EntriesShow(g: Graph, entries: seq<Property>, seen: set<ObjectId>)
    requires Closed(g) && EntriesKnown(g, entries)
    ensures ShowsEntries(g, entries, RedactEntries(g, entries, seen).0)
    decreases g.Keys - seen, 1, |entries|
  {
    if entries != [] {
      var (front, last) := (entries[..|entries| - 1], entries[|entries| - 1]);
      EntriesShow(g, front, seen);
      if !Sensitive(last.key) { RedactShows(g, last.value, RedactEntries(g, front, seen).1); }
      assert forall i :: 0 <= i < |front| ==> front[i] == entries[i];
    }
  }

  function Alphanumerics(key: string): string {
    if key == "" then "" else Alphanumerics(key[..|key| - 1]) + if Alphanumeric(key[|key| - 1]) then [key[|key| - 1]] else ""
  }

  /** A key is sensitive exactly if its letters and digits alone, in lower case, are a listed one: separators and case
      do not matter. */
  lemma SensitiveIff(key: string)
    ensures Sensitive(key) <==> LowerAll(Alphanumerics(key)) in SENSITIVE_KEYS
  {
    NormalizeParts(key);
  }

  lemma {:induction false} NormalizeParts(key: string)
    ensures NormalizeKey(key) == LowerAll(Alphanumerics(key))
  {
    if key != "" {
      var front := Alphanumerics(key[..|key| - 1]);
      NormalizeParts(key[..|key| - 1]);
      assert (front + [key[|key| - 1]])[..|front|] == front;
      assert front + "" == front;
    }
  }

  // Somewhere in the text stands a question mark or ampersand and then, in any case, a signing parameter.
  ghost predicate Holds(s: string, before: string, mark: char, name: string, after: string) {
    s == before + [mark] + name + after && mark in "?&" && LowerAll(name) in SIGNING_PARAMETERS
  }

  lemma {:induction false} LowerConcat(a: string, b: string)
    ensures LowerAll(a + b) == LowerAll(a) + LowerAll(b) && |LowerAll(a)| == |a|
    decreases |a|, |b|
  {
    if b == "" {
      assert a + b == a;
      if a != "" { LowerConcat(a[..|a| - 1], ""); assert a[..|a| - 1] + "" == a[..|a| - 1]; }
    } else {
      LowerConcat(a, b[..|b| - 1]);
      assert (a + b)[..|a + b| - 1] == a + b[..|b| - 1];
    }
  }

  lemma {:induction false} LowerLength(s: string)
    ensures |LowerAll(s)| == |s|
  {
    if s != "" { LowerLength(s[..|s| - 1]); }
  }

  lemma LowerPrefix(s: string, n: nat)
    requires n <= |s|
    ensures n <= |LowerAll(s)| && LowerAll(s[..n]) == LowerAll(s)[..n]
  {
    LowerLength(s);
    LowerConcat(s[..n], s[n..]);
    assert s[..n] + s[n..] == s;
  }

  lemma NameIs(rest: string, lower: string)
    requires lower <= LowerAll(rest)
    ensures |lower| <= |rest| && LowerAll(rest[..|lower|]) == lower
  {
    LowerLength(rest);
    LowerPrefix(rest, |lower|);
  }

  lemma PartsHold(s: string, i: nat, lower: string)
    requires i < |s| && s[i] in "?&" && lower in SIGNING_PARAMETERS && lower <= LowerAll(s[i + 1..])
    ensures |lower| <= |s[i + 1..]| && Holds(s, s[..i], s[i], s[i + 1..][..|lower|], s[i + 1..][|lower|..])
  {
    NameIs(s[i + 1..], lower);
    assert s == s[..i] + [s[i]] + s[i + 1..];
  }

  lemma SignedHolds(s: string) returns (before: string, mark: char, name: string, after: string)
    requires Signed(s)
    ensures Holds(s, before, mark, name, after)
  {
    var i, lower :| 0 <= i < |s| && s[i] in "?&" && lower in SIGNING_PARAMETERS && lower <= LowerAll(s[i + 1..]);
    PartsHold(s, i, lower);
    before, mark, name, after := s[..i], s[i], s[i + 1..][..|lower|], s[i + 1..][|lower|..];
  }

  lemma HoldsSigned(s: string, before: string, mark: char, name: string, after: string)
    requires Holds(s, before, mark, name, after)
    ensures Signed(s)
  {
    var i := |before|;
    assert s[i] == mark && s[i + 1..] == name + after;
    LowerConcat(name, after);
    assert LowerAll(name) <= LowerAll(s[i + 1..]);
  }

  /** A text is replaced by the marker if it holds a signing parameter, and otherwise kept. */
  lemma TextIsReplacedIff(s: string)
    ensures RedactText(s) != s <==> exists before, mark, name, after :: Holds(s, before, mark, name, after)
    ensures RedactText(s) != s ==> RedactText(s) == REDACTED
  {
    MarkersAreUnsigned();
    if Signed(s) {
      var before, mark, name, after := SignedHolds(s);
    }
    forall before, mark, name, after | Holds(s, before, mark, name, after) ensures Signed(s) { HoldsSigned(s, before, mark, name, after); }
  }

  // ---------------------------------------------------------------- every object is copied at most once

  function Origins(t: Tree): set<ObjectId> {
    match t
    case TStr(_) => {}
    case TScalar(_) => {}
    case TArr(origin, items) => {origin} + ItemOrigins(items)
    case TObj(origin, entries) => {origin} + EntryOrigins(entries)
  }

  function ItemOrigins(items: seq<Tree>): set<ObjectId> {
    if items == [] then {} else ItemOrigins(items[..|items| - 1]) + Origins(items[|items| - 1])
  }

  function EntryOrigins(entries: seq<Field>): set<ObjectId> {
    if entries == [] then {} else EntryOrigins(entries[..|entries| - 1]) + Origins(entries[|entries| - 1].tree)
  }

  // No object appears twice.
  predicate Linear(t: Tree) {
    match t
    case TStr(_) => true
    case TScalar(_) => true
    case TArr(origin, items) => origin !in ItemOrigins(items) && LinearItems(items)
    case TObj(origin, entries) => origin !in EntryOrigins(entries) && LinearEntries(entries)
  }

  predicate LinearItems(items: seq<Tree>) {
    items == [] ||
    (var front, last := items[..|items| - 1], items[|items| - 1];
     LinearItems(front) && Linear(last) && ItemOrigins(front) !! Origins(last))
  }

  predicate LinearEntries(entries: seq<Field>) {
    entries == [] ||
    (var front, last := entries[..|entries| - 1], entries[|entries| - 1].tree;
     LinearEntries(front) && Linear(last) && EntryOrigins(front) !! Origins(last))
  }

  /** The copy holds exactly the objects newly seen, each once. */
  lemma {:induction false} RedactIsLinear(g: Graph, v: Value, seen: set<ObjectId>)
    requires Closed(g) && Known(g, v)
    ensures var r := Redact(g, v, seen); Linear(r.0) && Origins(r.0) !! seen && r.1 == seen + Origins(r.0)
    decreases g.Keys - seen, 0, 0
  {
    if v.Ref? && v.id !in seen {
      match g[v.id]
      case Arr(items) => ItemsAreLinear(g, items, seen + {v.id});
      case Obj(entries) => EntriesAreLinear(g, entries, seen + {v.id});
    }
  }

  lemma LinearSnoc(front: seq<Tree>, last: Tree)
    requires LinearItems(front) && Linear(last) && ItemOrigins(front) !! Origins(last)
    ensures LinearItems(front + [last]) && ItemOrigins(front + [last]) == ItemOrigins(front) + Origins(last)
  {
    assert (front + [last])[..|front|] == front;
  }

  lemma LinearEntrySnoc(front: seq<Field>, last: Field)
    requires LinearEntries(front) && Linear(last.tree) && EntryOrigins(front) !! Origins(last.tree)
    ensures LinearEntries(front + [last]) && EntryOrigins(front + [last]) == EntryOrigins(front) + Origins(last.tree)
  {
    assert (front + [last])[..|front|] == front;
  }

  lemma NewOrigins(seen: set<ObjectId>, a: set<ObjectId>, mid: set<ObjectId>, b: set<ObjectId>, end: set<ObjectId>)
    requires a !! seen && mid == seen + a && b !! mid && end == mid + b
    ensures a !! b && a + b !! seen && end == seen + (a + b)
  {
  }

  lemma ItemsSplit(g: Graph, items: seq<Value>, seen: set<ObjectId>)
    requires Closed(g) && AllKnown(g, items) && items != []
    ensures AllKnown(g, items[..|items| - 1]) && Known(g, items[|items| - 1])
    ensures var front := RedactItems(g, items[..|items| - 1], seen);
            var last := Redact(g, items[|items| - 1], front.1);
            RedactItems(g, items, seen) == (front.0 + [last.0], last.1)
  {
  }

  lemma {:induction false} ItemsAreLinear(g: Graph, items: seq<Value>, seen: set<ObjectId>)
    requires Closed(g) && AllKnown(g, items)
    ensures var r := RedactItems(g, items, seen); LinearItems(r.0) && ItemOrigins(r.0) !! seen && r.1 == seen + ItemOrigins(r.0)
    decreases g.Keys - seen, 1, |items|
  {
    if items != [] {
      ItemsSplit(g, items, seen);
      var (copies, mid) := RedactItems(g, items[..|items| - 1], seen);
      ItemsAreLinear(g, items[..|items| - 1], seen);
      RedactIsLinear(g, items[|items| - 1], mid);
      var (copy, end) := Redact(g, items[|items| - 1], mid);
      NewOrigins(seen, ItemOrigins(copies), mid, Origins(copy), end);
      LinearSnoc(copies, copy);
    }
  }

  lemma EntriesSplit(g: Graph, entries: seq<Property>, seen: set<ObjectId>)
    requires Closed(g) && EntriesKnown(g, entries) && entries != []
    ensures EntriesKnown(g, entries[..|entries| - 1]) && Known(g, entries[|entries| - 1].value)
    ensures var last := entries[|entries| - 1];
            var front := RedactEntries(g, entries[..|entries| - 1], seen);
            RedactEntries(g, entries, seen)
            == if Sensitive(last.key) then (front.0 + [Field(last.key, TStr(REDACTED))], front.1)
               else (front.0 + [Field(last.key, Redact(g, last.value, front.1).0)], Redact(g, last.value, front.1).1)
  {
  }

  lemma {:induction false} EntriesAreLinear(g: Graph, entries: seq<Property>, seen: set<ObjectId>)
    requires Closed(g) && EntriesKnown(g, entries)
    ensures var r := RedactEntries(g, entries, seen);
            LinearEntries(r.0) && EntryOrigins(r.0) !! seen && r.1 == seen + EntryOrigins(r.0)
    decreases g.Keys - seen, 1, |entries|
  {
    if entries != [] {
      var last := entries[|entries| - 1];
      EntriesSplit(g, entries, seen);
      var (copies, mid) := RedactEntries(g, entries[..|entries| - 1], seen);
      EntriesAreLinear(g, entries[..|entries| - 1], seen);
      if Sensitive(last.key) {
        NewOrigins(seen, EntryOrigins(copies), mid, {}, mid);
        LinearEntrySnoc(copies, Field(last.key, TStr(REDACTED)));
      } else {
        RedactIsLinear(g, last.value, mid);
        var (copy, end) := Redact(g, last.value, mid);
        NewOrigins(seen, EntryOrigins(copies), mid, Origins(copy), end);
        LinearEntrySnoc(copies, Field(last.key, copy));
      }
    }
  }

  // ---------------------------------------------------------------- redacting the copy

  // The value whose objects, laid out in the graph, are the tree.
  function Root(t: Tree): Value {
    match t
    case TStr(text) => Str(text)
    case TScalar(bits) => Scalar(bits)
    case TArr(origin, _) => Ref(origin)
    case TObj(origin, _) => Ref(origin)
  }

  predicate LaidOut(g: Graph, t: Tree) {
    match t
    case TStr(_) => true
    case TScalar(_) => true
    case TArr(origin, items) =>
      && origin in g && g[origin].Arr? && |g[origin].items| == |items|
      && (forall i :: 0 <= i < |items| ==> g[origin].items[i] == Root(items[i]))
      && LaidOutItems(g, items)
    case TObj(origin, entries) =>
      && origin in g && g[origin].Obj? && |g[origin].entries| == |entries|
      && (forall i :: 0 <= i < |entries| ==> g[origin].entries[i] == Property(entries[i].key, Root(entries[i].tree)))
      && LaidOutEntries(g, entries)
  }

  predicate LaidOutItems(g: Graph, items: seq<Tree>) {
    items == [] || (LaidOutItems(g, items[..|items| - 1]) && LaidOut(g, items[|items| - 1]))
  }

  predicate LaidOutEntries(g: Graph, entries: seq<Field>) {
    entries == [] || (LaidOutEntries(g, entries[..|entries| - 1]) && LaidOut(g, entries[|entries| - 1].tree))
  }

  /** A clean tree, laid out without sharing, is copied to itself. */
  lemma {:induction false} CleanIsFixed(g: Graph, t: Tree, seen: set<ObjectId>)
    requires Closed(g) && LaidOut(g, t) && Clean(t) && Linear(t) && Origins(t) !! seen
    ensures Known(g, Root(t)) && Redact(g, Root(t), seen) == (t, seen + Origins(t))
    decreases t, 0
  {
    assert seen + {} == seen;
    match t
    case TStr(_) =>
    case TScalar(_) =>
    case TArr(origin, items) =>
      ItemsAreFixed(g, g[origin].items, items, seen + {origin});
      assert seen + {origin} + ItemOrigins(items) == seen + Origins(t);
    case TObj(origin, entries) =>
      EntriesAreFixed(g, g[origin].entries, entries, seen + {origin});
      assert seen + {origin} + EntryOrigins(entries) == seen + Origins(t);
  }

  lemma {:induction false} ItemsAreFixed(g: Graph, values: seq<Value>, items: seq<Tree>, seen: set<ObjectId>)
    requires Closed(g) && LaidOutItems(g, items) && CleanItems(items) && LinearItems(items) && ItemOrigins(items) !! seen
    requires |values| == |items| && forall i :: 0 <= i < |items| ==> values[i] == Root(items[i])
    ensures AllKnown(g, values) && RedactItems(g, values, seen) == (items, seen + ItemOrigins(items))
    decreases items, 1
  {
    assert seen + {} == seen;
    if items != [] {
      var front, last := items[..|items| - 1], items[|items| - 1];
      ItemsAreFixed(g, values[..|values| - 1], front, seen);
      CleanIsFixed(g, last, seen + ItemOrigins(front));
      assert items == front + [last];
      assert seen + ItemOrigins(front) + Origins(last) == seen + ItemOrigins(items);
    }
  }

  lemma EntriesFixedStep(g: Graph, values: seq<Property>, front: seq<Field>, last: Field, seen: set<ObjectId>)
    requires Closed(g) && EntriesKnown(g, values) && |values| == |front| + 1 && values[|front|] == Property(last.key, Root(last.tree))
    requires RedactEntries(g, values[..|front|], seen) == (front, seen + EntryOrigins(front))
    requires if Sensitive(last.key) then last.tree == TStr(REDACTED)
             else Redact(g, Root(last.tree), seen + EntryOrigins(front)) == (last.tree, seen + EntryOrigins(front) + Origins(last.tree))
    ensures RedactEntries(g, values, seen) == (front + [last], seen + EntryOrigins(front) + Origins(last.tree))
  {
    EntriesSplit(g, values, seen);
    assert Sensitive(last.key) ==> seen + EntryOrigins(front) + Origins(last.tree) == seen + EntryOrigins(front);
  }

  lemma EntriesParts(g: Graph, entries: seq<Field>, seen: set<ObjectId>)
    requires LaidOutEntries(g, entries) && CleanEntries(entries) && LinearEntries(entries) && EntryOrigins(entries) !! seen && entries != []
    ensures var front, last := entries[..|entries| - 1], entries[|entries| - 1];
            && LaidOutEntries(g, front) && CleanEntries(front) && LinearEntries(front) && EntryOrigins(front) !! seen
            && LaidOut(g, last.tree) && Linear(last.tree) && Origins(last.tree) !! seen + EntryOrigins(front)
            && (if Sensitive(last.key) then last.tree == TStr(REDACTED) else Clean(last.tree))
            && entries == front + [last] && seen + EntryOrigins(front) + Origins(last.tree) == seen + EntryOrigins(entries)
  {
  }

  lemma {:induction false} EntriesAreFixed(g: Graph, values: seq<Property>, entries: seq<Field>, seen: set<ObjectId>)
    requires Closed(g) && LaidOutEntries(g, entries) && CleanEntries(entries) && LinearEntries(entries) && EntryOrigins(entries) !! seen
    requires |values| == |entries| && forall i :: 0 <= i < |entries| ==> values[i] == Property(entries[i].key, Root(entries[i].tree))
    ensures EntriesKnown(g, values) && RedactEntries(g, values, seen) == (entries, seen + EntryOrigins(entries))
    decreases entries, 1
  {
    if entries == [] {
      assert seen + {} == seen;
    } else {
      var front, last := entries[..|entries| - 1], entries[|entries| - 1];
      EntriesParts(g, entries, seen);
      EntriesAreFixed(g, values[..|values| - 1], front, seen);
      LastIsFixed(g, last, seen + EntryOrigins(front));
      KnownSnoc(g, values);
      EntriesFixedStep(g, values, front, last, seen);
    }
  }

  lemma KnownSnoc(g: Graph, values: seq<Property>)
    requires values != [] && EntriesKnown(g, values[..|values| - 1]) && Known(g, values[|values| - 1].value)
    ensures EntriesKnown(g, values)
  {
    forall i | 0 <= i < |values| ensures Known(g, values[i].value) {
      if i < |values| - 1 { assert values[..|values| - 1][i] == values[i]; }
    }
  }

  lemma {:induction false} LastIsFixed(g: Graph, last: Field, seen: set<ObjectId>)
    requires Closed(g) && LaidOut(g, last.tree) && Linear(last.tree) && Origins(last.tree) !! seen
    requires if Sensitive(last.key) then last.tree == TStr(REDACTED) else Clean(last.tree)
    ensures Known(g, Root(last.tree))
    ensures !Sensitive(last.key) ==> Redact(g, Root(last.tree), seen) == (last.tree, seen + Origins(last.tree))
    decreases last, 0
  {
    if !Sensitive(last.key) { CleanIsFixed(g, last.tree, seen); }
  }

  /** Redaction is idempotent: redacting the copy, however it is laid out in memory, changes nothing. */
  lemma RedactingTwiceIsOnce(g: Graph, v: Value, copied: Graph)
    requires Closed(g) && Known(g, v) && Closed(copied) && LaidOut(copied, Redact(g, v, {}).0)
    ensures var t := Redact(g, v, {}).0; Known(copied, Root(t)) && Redact(copied, Root(t), {}).0 == t
  {
    RedactIsClean(g, v, {});
    RedactIsLinear(g, v, {});
    CleanIsFixed(copied, Redact(g, v, {}).0, {});
  }
}
