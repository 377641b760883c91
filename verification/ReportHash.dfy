/** The canonical record a report's content hash is taken of. */
module ReportHash {
  import opened Options

  datatype Content = Content(scopeId: string, title: string, description: string, steps: Option<string>, gistUrl: Option<string>,
                             severity: string, acknowledged: bool, impactIds: seq<string>, customImpacts: seq<string>)

  // JavaScript's default sort order: by code unit, a prefix first.
  predicate Leq(a: string, b: string) {
    a == "" || (b != "" && (a[0] < b[0] || (a[0] == b[0] && Leq(a[1..], b[1..]))))
  }

  function Insert(x: string, sorted: seq<string>): seq<string> {
    if sorted == [] || Leq(sorted[|sorted| - 1], x) then sorted + [x]
    else Insert(x, sorted[..|sorted| - 1]) + [sorted[|sorted| - 1]]
  }

  function Sort(values: seq<string>): seq<string> {
    if values == [] then [] else Insert(values[|values| - 1], Sort(values[..|values| - 1]))
  }

  function TrimAll(trim: string -> string, values: seq<string>): (r: seq<string>)
    ensures |r| == |values| && forall i :: 0 <= i < |values| ==> r[i] == trim(values[i])
  {
    if values == [] then [] else TrimAll(trim, values[..|values| - 1]) + [trim(values[|values| - 1])]
  }

  function Canonical(trim: string -> string, c: Content): Content {
    c.(impactIds := Sort(c.impactIds), customImpacts := Sort(TrimAll(trim, c.customImpacts)))
  }

  // ---------------------------------------------------------------- the order

  lemma {:induction false} LeqTotal(a: string, b: string)
    ensures Leq(a, b) || Leq(b, a)
  {
    if a != "" && b != "" { LeqTotal(a[1..], b[1..]); }
  }

  lemma {:induction false} LeqAntisymmetric(a: string, b: string)
    requires Leq(a, b) && Leq(b, a)
    ensures a == b
  {
    if a != "" && b != "" {
      LeqAntisymmetric(a[1..], b[1..]);
      assert a == [a[0]] + a[1..] && b == [b[0]] + b[1..];
    }
  }

  lemma {:induction false} LeqTransitive(a: string, b: string, c: string)
    requires Leq(a, b) && Leq(b, c)
    ensures Leq(a, c)
  {
    if a != "" && a[0] == b[0] && b[0] == c[0] { LeqTransitive(a[1..], b[1..], c[1..]); }
  }

  // ---------------------------------------------------------------- the sort

  ghost predicate Below(s: seq<string>, bound: string) {
    forall x :: x in s ==> Leq(x, bound)
  }

  ghost predicate Sorted(s: seq<string>) {
    s == [] || (Sorted(s[..|s| - 1]) && Below(s[..|s| - 1], s[|s| - 1]))
  }

  lemma SortedSnoc(front: seq<string>, last: string)
    requires Sorted(front) && Below(front, last)
    ensures Sorted(front + [last])
  {
    assert (front + [last])[..|front|] == front;
  }

  lemma LeqRefl(a: string)
    ensures Leq(a, a)
  {
    LeqTotal(a, a);
  }

  lemma SortedBelow(s: seq<string>, x: string, bound: string)
    requires Sorted(s) && x in s && Leq(s[|s| - 1], bound)
    ensures Leq(x, bound)
  {
    LeqRefl(x);
    if x in s[..|s| - 1] { LeqTransitive(x, s[|s| - 1], bound); }
  }

  lemma {:induction false} InsertMembers(x: string, sorted: seq<string>)
    ensures multiset(Insert(x, sorted)) == multiset(sorted) + multiset{x}
  {
    if !(sorted == [] || Leq(sorted[|sorted| - 1], x)) {
      InsertMembers(x, sorted[..|sorted| - 1]);
      assert sorted == sorted[..|sorted| - 1] + [sorted[|sorted| - 1]];
    }
  }

  lemma {:induction false} InsertSorts(x: string, sorted: seq<string>)
    requires Sorted(sorted)
    ensures Sorted(Insert(x, sorted))
  {
    if sorted == [] {
      SortedSnoc(sorted, x);
    } else if Leq(sorted[|sorted| - 1], x) {
      forall y | y in sorted ensures Leq(y, x) { SortedBelow(sorted, y, x); }
      SortedSnoc(sorted, x);
    } else {
      var front, last := sorted[..|sorted| - 1], sorted[|sorted| - 1];
      InsertSorts(x, front);
      InsertMembers(x, front);
      LeqTotal(last, x);
      forall y | y in Insert(x, front) ensures Leq(y, last) {
        assert y in multiset(Insert(x, front));
        assert y == x || y in front;
      }
      SortedSnoc(Insert(x, front), last);
    }
  }

  lemma LastOf(s: seq<string>)
    requires s != []
    ensures s == s[..|s| - 1] + [s[|s| - 1]] && s[|s| - 1] in multiset(s)
    ensures multiset(s) == multiset(s[..|s| - 1]) + multiset{s[|s| - 1]}
  {
    assert s == s[..|s| - 1] + [s[|s| - 1]];
  }

  /** Sorting yields a sorted permutation. */
  lemma {:induction false} SortFacts(values: seq<string>)
    ensures Sorted(Sort(values)) && multiset(Sort(values)) == multiset(values)
  {
    if values != [] {
      SortFacts(values[..|values| - 1]);
      InsertSorts(values[|values| - 1], Sort(values[..|values| - 1]));
      InsertMembers(values[|values| - 1], Sort(values[..|values| - 1]));
      LastOf(values);
    }
  }

  /** Two sorted permutations of each other are equal. */
  lemma {:induction false} SortedIsUnique(a: seq<string>, b: seq<string>)
    requires Sorted(a) && Sorted(b) && multiset(a) == multiset(b)
    ensures a == b
  {
    assert |a| == |multiset(a)| == |multiset(b)| == |b|;
    if a != [] {
      LastOf(a);
      LastOf(b);
      var x, y := a[|a| - 1], b[|b| - 1];
      assert x in b && y in a;
      LeqRefl(x);
      LeqRefl(y);
      SortedBelow(b, x, y);
      SortedBelow(a, y, x);
      LeqAntisymmetric(x, y);
      assert multiset(a[..|a| - 1]) == multiset(a) - multiset{x} && multiset(b[..|b| - 1]) == multiset(b) - multiset{x};
      SortedIsUnique(a[..|a| - 1], b[..|b| - 1]);
    }
  }

  lemma SortDecidesMultiset(a: seq<string>, b: seq<string>)
    ensures Sort(a) == Sort(b) <==> multiset(a) == multiset(b)
  {
    SortFacts(a);
    SortFacts(b);
    if multiset(a) == multiset(b) { SortedIsUnique(Sort(a), Sort(b)); }
  }

  /** Two reports have the same canonical record exactly when their scalar fields agree and their impacts,
      and their trimmed custom impacts, are the same up to order, counted with repetition. */
  lemma CanonicalDecides(trim: string -> string, a: Content, b: Content)
    ensures Canonical(trim, a) == Canonical(trim, b) <==>
            && a.(impactIds := [], customImpacts := []) == b.(impactIds := [], customImpacts := [])
            && multiset(a.impactIds) == multiset(b.impactIds)
            && multiset(TrimAll(trim, a.customImpacts)) == multiset(TrimAll(trim, b.customImpacts))
  {
    SortDecidesMultiset(a.impactIds, b.impactIds);
    SortDecidesMultiset(TrimAll(trim, a.customImpacts), TrimAll(trim, b.customImpacts));
  }
}
