/** Duplicate ranking of the built-in provider, in exact arithmetic, and the worker's filter behind it. */
module DuplicateRanking {

  type ReportId = nat

  const MAX_RESULTS: nat := 20
  const THRESHOLD: real := 0.25
  const LIKELY: real := 0.65

  // The case-folded signal sets of a fingerprint.
  datatype Fingerprint = Fingerprint(functions: set<string>, classes: set<string>, impacts: set<string>, components: set<string>)

  datatype Candidate = Candidate(id: ReportId, fingerprint: Fingerprint)

  datatype Scored = Scored(id: ReportId, score: real)

  datatype Assessment = NoDuplicate | Possible | Likely

  datatype Match = Match(ref: ReportId, assessment: Assessment, confidence: real)

  datatype Comparison = Comparison(assessment: Assessment, confidence: real, candidates: seq<Match>)

  function Jaccard(a: set<string>, b: set<string>): real {
    if a == {} && b == {} then 1.0
    else if a == {} || b == {} then 0.0
    else
      assert a + b != {};
      |a * b| as real / |a + b| as real
  }

  function Score(x: Fingerprint, y: Fingerprint): real {
    Jaccard(x.functions, y.functions) * 0.35 + Jaccard(x.classes, y.classes) * 0.25
    + Jaccard(x.impacts, y.impacts) * 0.2 + Jaccard(x.components, y.components) * 0.2
  }

  // Candidates that score enough, in the order given.
  function Qualified(current: Fingerprint, candidates: seq<Candidate>): seq<Scored> {
    if candidates == [] then []
    else
      var last := candidates[|candidates| - 1];
      var score := Score(current, last.fingerprint);
      Qualified(current, candidates[..|candidates| - 1]) + if score >= THRESHOLD then [Scored(last.id, score)] else []
  }

  // A stable descending sort: equal scores keep their order.
  function Insert(x: Scored, sorted: seq<Scored>): seq<Scored> {
    if sorted == [] || sorted[|sorted| - 1].score >= x.score then sorted + [x]
    else Insert(x, sorted[..|sorted| - 1]) + [sorted[|sorted| - 1]]
  }

  function Sort(list: seq<Scored>): seq<Scored> {
    if list == [] then [] else Insert(list[|list| - 1], Sort(list[..|list| - 1]))
  }

  function Top(list: seq<Scored>): seq<Scored> {
    if |list| > MAX_RESULTS then list[..MAX_RESULTS] else list
  }

  function Ranking(current: Fingerprint, candidates: seq<Candidate>): seq<Scored> {
    Top(Sort(Qualified(current, candidates)))
  }

  function Clamp(x: real): real { if x < 0.0 then 0.0 else if x > 1.0 then 1.0 else x }

  function ToMatch(s: Scored): Match { Match(s.id, if s.score >= LIKELY then Likely else Possible, Clamp(s.score)) }

  function ToMatches(list: seq<Scored>): (r: seq<Match>)
    ensures |r| == |list| && forall i :: 0 <= i < |list| ==> r[i] == ToMatch(list[i])
  {
    if list == [] then [] else ToMatches(list[..|list| - 1]) + [ToMatch(list[|list| - 1])]
  }

  function Summarised(matches: seq<Match>): Comparison {
    if matches == [] then Comparison(NoDuplicate, 0.0, []) else Comparison(matches[0].assessment, matches[0].confidence, matches)
  }

  function CompareDuplicate(current: Fingerprint, candidates: seq<Candidate>): Comparison {
    Summarised(ToMatches(Ranking(current, candidates)))
  }

  // ---------------------------------------------------------------- scores

  lemma UnionBounds(a: set<string>, b: set<string>)
    requires a != {} || b != {}
    ensures 0 <= |a * b| <= |a + b| && |a + b| > 0
    ensures |a * b| == |a + b| <==> a == b
  {
    assert a + b == (a * b) + ((a - b) + (b - a));
    assert |a + b| == |a * b| + |(a - b) + (b - a)|;
    if |a * b| == |a + b| {
      assert (a - b) + (b - a) == {};
      assert a - b == {} && b - a == {};
      assert a == (a - b) + a * b && b == (b - a) + a * b;
    } else {
      assert a == b ==> a * b == a + b;
    }
    assert a + b != {};
  }

  /** Similarity is symmetric, lies between 0 and 1, and is 1 exactly for equal sets. */
  lemma JaccardFacts(a: set<string>, b: set<string>)
    ensures Jaccard(a, b) == Jaccard(b, a) && 0.0 <= Jaccard(a, b) <= 1.0
    ensures Jaccard(a, b) == 1.0 <==> a == b
  {
    assert a * b == b * a && a + b == b + a;
    if a != {} && b != {} {
      UnionBounds(a, b);
      Ratio(|a * b|, |a + b|);
    }
  }

  lemma Quotient(n: real, d: real)
    requires d > 0.0
    ensures n / d * d == n
  {
  }

  lemma UnionSplits(a: set<string>, b: set<string>)
    ensures |a + b| == |a * b| + |a - b| + |b - a|
  {
    assert a + b == a * b + ((a - b) + (b - a));
  }

  /** The share of common elements: of the elements of either set, one part is in both. */
  lemma JaccardIsShare(a: set<string>, b: set<string>)
    ensures Jaccard(a, b) * (|a * b| + |a - b| + |b - a|) as real == |a * b| as real
    ensures Jaccard(a, b) == 0.0 <==> a !! b && a + b != {}
  {
    UnionSplits(a, b);
    if a != {} && b != {} {
      UnionBounds(a, b);
      Quotient(|a * b| as real, |a + b| as real);
      assert a !! b <==> |a * b| == 0;
      assert Jaccard(a, b) == 0.0 ==> |a * b| as real == 0.0;
    } else if a + b != {} {
      assert a * b == {};
    } else {
      assert a == {} && b == {};
    }
  }

  // One more of a share below the whole.
  lemma LargerShare(p: real, q: real, n: real, d: real)
    requires d > 0.0 && p * d == n && q * (d + 1.0) == n + 1.0 && p < 1.0
    ensures p < q
  {
    assert (q - p) * (d + 1.0) == 1.0 - p;
    if q - p < 0.0 { NegativeProduct(q - p, d + 1.0); }
  }

  lemma ShareGrows(x: nat, y: nat)
    requires x < y
    ensures x as real / y as real < (x + 1) as real / (y + 1) as real
  {
    Quotient(x as real, y as real);
    Quotient((x + 1) as real, (y + 1) as real);
    Ratio(x, y);
    LargerShare(x as real / y as real, (x + 1) as real / (y + 1) as real, x as real, y as real);
  }

  lemma AddedToBoth(a: set<string>, b: set<string>, x: string)
    requires x !in a && x !in b
    ensures |(a + {x}) * (b + {x})| == |a * b| + 1 && |(a + {x}) + (b + {x})| == |a + b| + 1
  {
    assert (a + {x}) * (b + {x}) == a * b + {x};
    assert (a + {x}) + (b + {x}) == a + b + {x};
  }

  /** One more common element brings two sets closer, unless they are equal already. */
  lemma CommonElementCounts(a: set<string>, b: set<string>, x: string)
    requires x !in a && x !in b && a != b
    ensures Jaccard(a + {x}, b + {x}) > Jaccard(a, b)
  {
    AddedToBoth(a, b, x);
    UnionBounds(a, b);
    ShareGrows(|a * b|, |a + b|);
    if a == {} || b == {} { assert a * b == {}; }
    assert x in a + {x} && x in b + {x};
  }

  lemma NegativeProduct(a: real, y: real)
    requires a < 0.0 && y > 0.0
    ensures a * y < 0.0
  {
  }

  lemma Ratio(x: nat, y: nat)
    requires x <= y && y > 0
    ensures 0.0 <= x as real / y as real <= 1.0 && (x as real / y as real == 1.0 <==> x == y)
  {
    var n, d := x as real, y as real;
    var q := n / d;
    assert q * d == n && (1.0 - q) * d == d - n;
    if q < 0.0 { NegativeProduct(q, d); }
    if 1.0 - q < 0.0 { NegativeProduct(1.0 - q, d); }
    if q < 1.0 { NegativeProduct(q - 1.0, d); }
  }

  /** The weights add up to one: scores need no clamping, and are 1 exactly for equal fingerprints. */
  lemma ScoreFacts(x: Fingerprint, y: Fingerprint)
    ensures 0.0 <= Score(x, y) <= 1.0 && Clamp(Score(x, y)) == Score(x, y) && Score(x, y) == Score(y, x)
    ensures Score(x, y) == 1.0 <==> x == y
  {
    JaccardFacts(x.functions, y.functions);
    JaccardFacts(x.classes, y.classes);
    JaccardFacts(x.impacts, y.impacts);
    JaccardFacts(x.components, y.components);
  }

  predicate Opposed(a: set<string>, b: set<string>) {
    a !! b && a + b != {}
  }

  // The four weights, in hundredths.
  function Weight(functions: bool, classes: bool, impacts: bool, components: bool): nat {
    (if functions then 35 else 0) + (if classes then 25 else 0) + (if impacts then 20 else 0) + (if components then 20 else 0)
  }

  lemma AgreementWeighs(x: Fingerprint, y: Fingerprint, f: bool, c: bool, i: bool, o: bool)
    requires if f then x.functions == y.functions else Opposed(x.functions, y.functions)
    requires if c then x.classes == y.classes else Opposed(x.classes, y.classes)
    requires if i then x.impacts == y.impacts else Opposed(x.impacts, y.impacts)
    requires if o then x.components == y.components else Opposed(x.components, y.components)
    ensures Score(x, y) * 100.0 == Weight(f, c, i, o) as real
  {
    JaccardIsShare(x.functions, y.functions);
    JaccardIsShare(x.classes, y.classes);
    JaccardIsShare(x.impacts, y.impacts);
    JaccardIsShare(x.components, y.components);
    JaccardFacts(x.functions, y.functions);
    JaccardFacts(x.classes, y.classes);
    JaccardFacts(x.impacts, y.impacts);
    JaccardFacts(x.components, y.components);
  }

  /** Where each signal either agrees or has nothing in common: agreeing functions or classes alone make a candidate,
      impacts and components only together, and it is a likely duplicate if and only if at least three agree. */
  lemma AgreementDecides(x: Fingerprint, y: Fingerprint, f: bool, c: bool, i: bool, o: bool)
    requires if f then x.functions == y.functions else Opposed(x.functions, y.functions)
    requires if c then x.classes == y.classes else Opposed(x.classes, y.classes)
    requires if i then x.impacts == y.impacts else Opposed(x.impacts, y.impacts)
    requires if o then x.components == y.components else Opposed(x.components, y.components)
    ensures Score(x, y) >= THRESHOLD <==> f || c || (i && o)
    ensures forall id :: ToMatch(Scored(id, Score(x, y))).assessment == Likely <==> (f && c && (i || o)) || (i && o && (f || c))
  {
    AgreementWeighs(x, y, f, c, i, o);
  }

  // ---------------------------------------------------------------- the ranking

  ghost predicate Descending(list: seq<Scored>) {
    forall i, j :: 0 <= i < j < |list| ==> list[i].score >= list[j].score
  }

  lemma SnocMultiset(list: seq<Scored>)
    requires list != []
    ensures multiset(list) == multiset(list[..|list| - 1]) + multiset{list[|list| - 1]}
  {
    assert list == list[..|list| - 1] + [list[|list| - 1]];
  }

  lemma MembersOf(list: seq<Scored>, x: Scored, front: seq<Scored>, i: nat)
    requires multiset(list) == multiset(front) + multiset{x} && i < |list|
    ensures list[i] == x || list[i] in front
  {
    assert list[i] in multiset(list);
  }

  lemma {:induction false} InsertFacts(x: Scored, sorted: seq<Scored>)
    requires Descending(sorted)
    ensures Descending(Insert(x, sorted)) && multiset(Insert(x, sorted)) == multiset(sorted) + multiset{x}
  {
    if sorted != [] && sorted[|sorted| - 1].score < x.score {
      var front, last := sorted[..|sorted| - 1], sorted[|sorted| - 1];
      var r := Insert(x, front);
      InsertFacts(x, front);
      SnocMultiset(sorted);
      forall i | 0 <= i < |r| ensures r[i].score >= last.score { MembersOf(r, x, front, i); }
    }
  }

  lemma {:induction false} SortFacts(list: seq<Scored>)
    ensures Descending(Sort(list)) && multiset(Sort(list)) == multiset(list)
  {
    if list != [] {
      var (front, last) := (list[..|list| - 1], list[|list| - 1]);
      SortFacts(front);
      InsertFacts(last, Sort(front));
      SnocMultiset(list);
    }
  }

  lemma {:induction false} QualifiedMember(current: Fingerprint, candidates: seq<Candidate>, s: Scored)
    ensures s in Qualified(current, candidates) <==>
            s.score >= THRESHOLD && exists i :: 0 <= i < |candidates| && candidates[i].id == s.id && Score(current, candidates[i].fingerprint) == s.score
  {
    if candidates != [] {
      var n := |candidates| - 1;
      QualifiedMember(current, candidates[..n], s);
      assert forall i :: 0 <= i < n ==> candidates[..n][i] == candidates[i];
    }
  }

  ghost predicate Dominates(kept: seq<Scored>, rest: multiset<Scored>) {
    forall i, s: Scored :: 0 <= i < |kept| && s in rest ==> kept[i].score >= s.score
  }

  lemma CutDominates(kept: seq<Scored>, rest: seq<Scored>)
    requires Descending(kept + rest)
    ensures Descending(kept) && Dominates(kept, multiset(rest))
  {
    var sorted := kept + rest;
    assert forall i :: 0 <= i < |kept| ==> sorted[i] == kept[i];
    forall i, s: Scored | 0 <= i < |kept| && s in multiset(rest) ensures kept[i].score >= s.score {
      var j :| 0 <= j < |rest| && rest[j] == s;
      assert sorted[|kept| + j] == s && sorted[i] == kept[i];
    }
  }

  lemma CutParts(sorted: seq<Scored>, n: nat)
    requires n <= |sorted|
    ensures multiset(sorted[..n]) <= multiset(sorted) && multiset(sorted) - multiset(sorted[..n]) == multiset(sorted[n..])
  {
    assert sorted == sorted[..n] + sorted[n..];
  }

  lemma CutFacts(sorted: seq<Scored>)
    requires Descending(sorted) && |sorted| > MAX_RESULTS
    ensures var kept := sorted[..MAX_RESULTS];
            Descending(kept) && multiset(kept) <= multiset(sorted) && Dominates(kept, multiset(sorted) - multiset(kept))
  {
    CutParts(sorted, MAX_RESULTS);
    assert sorted == sorted[..MAX_RESULTS] + sorted[MAX_RESULTS..];
    CutDominates(sorted[..MAX_RESULTS], sorted[MAX_RESULTS..]);
  }

  /** The result is the descending top twenty: what is left out scores no more than anything kept, and
      something is left out only if twenty are kept. */
  lemma RankingIsTop(current: Fingerprint, candidates: seq<Candidate>)
    ensures var kept, all := Ranking(current, candidates), Qualified(current, candidates);
            && Descending(kept) && |kept| <= MAX_RESULTS && multiset(kept) <= multiset(all)
            && Dominates(kept, multiset(all) - multiset(kept))
            && (multiset(kept) != multiset(all) ==> |kept| == MAX_RESULTS)
  {
    var all := Qualified(current, candidates);
    SortFacts(all);
    if |Sort(all)| > MAX_RESULTS { CutFacts(Sort(all)); }
  }

  // ---------------------------------------------------------------- the worker's filter

  function Allowed(ids: set<ReportId>, matches: seq<Match>): seq<Match> {
    if matches == [] then []
    else Allowed(ids, matches[..|matches| - 1]) + if matches[|matches| - 1].ref in ids then [matches[|matches| - 1]] else []
  }

  // Only candidates the worker retrieved may reach the result; the verdict is recomputed from the first one left.
  function SafeComparison(ids: set<ReportId>, c: Comparison): Comparison {
    Summarised(Allowed(ids, c.candidates))
  }

  lemma {:induction false} AllowedMember(ids: set<ReportId>, matches: seq<Match>, m: Match)
    ensures m in Allowed(ids, matches) <==> m in matches && m.ref in ids
  {
    if matches != [] {
      AllowedMember(ids, matches[..|matches| - 1], m);
      assert matches == matches[..|matches| - 1] + [matches[|matches| - 1]];
    }
  }

  lemma {:induction false} AllAllowed(ids: set<ReportId>, matches: seq<Match>)
    requires forall i :: 0 <= i < |matches| ==> matches[i].ref in ids
    ensures Allowed(ids, matches) == matches
  {
    if matches != [] {
      AllAllowed(ids, matches[..|matches| - 1]);
      assert matches == matches[..|matches| - 1] + [matches[|matches| - 1]];
    }
  }

  function Ids(candidates: seq<Candidate>): set<ReportId> {
    set i | 0 <= i < |candidates| :: candidates[i].id
  }

  /** Whatever a provider answers, every candidate the worker stores is one it retrieved, and the verdict is
      that of the first one stored. */
  lemma StoredCandidatesWereRetrieved(candidates: seq<Candidate>, answer: Comparison)
    ensures var safe := SafeComparison(Ids(candidates), answer);
            && (forall i :: 0 <= i < |safe.candidates| ==> safe.candidates[i].ref in Ids(candidates) && safe.candidates[i] in answer.candidates)
            && (if safe.candidates == [] then safe.assessment == NoDuplicate && safe.confidence == 0.0
                else safe.assessment == safe.candidates[0].assessment && safe.confidence == safe.candidates[0].confidence)
  {
    var matches := Allowed(Ids(candidates), answer.candidates);
    forall i | 0 <= i < |matches| ensures matches[i].ref in Ids(candidates) && matches[i] in answer.candidates {
      AllowedMember(Ids(candidates), answer.candidates, matches[i]);
    }
  }

  /** The built-in provider passes the filter unchanged. */
  lemma FilterKeepsOwnAnswer(current: Fingerprint, candidates: seq<Candidate>)
    ensures SafeComparison(Ids(candidates), CompareDuplicate(current, candidates)) == CompareDuplicate(current, candidates)
  {
    var kept := Ranking(current, candidates);
    var matches := ToMatches(kept);
    RankingIsTop(current, candidates);
    forall i | 0 <= i < |matches| ensures matches[i].ref in Ids(candidates) {
      assert kept[i] in multiset(kept);
      assert kept[i] in Qualified(current, candidates);
      QualifiedMember(current, candidates, kept[i]);
    }
    AllAllowed(Ids(candidates), matches);
  }
}
