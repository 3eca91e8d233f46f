/** Scoring a calibration run: greedy tool-order matching and the aggregate score. */
module Scorer {
  import opened Subsequence

  /** Consume `actual` until the head of `expected` is met, then go on with the rest of both. */
  function Greedy(expected: seq<string>, actual: seq<string>): bool
    decreases |actual|
  {
    if expected == [] then true
    else if actual == [] then false
    else if expected[0] == actual[0] then Greedy(expected[1..], actual[1..])
    else Greedy(expected, actual[1..])
  }

  /** `_is_subsequence`: one iterator over `actual`, advanced by each membership test. */
  method IsSubsequenceOf(expected: seq<string>, actual: seq<string>) returns (b: bool)
    ensures b <==> IsSubsequence(expected, actual)
  {
    GreedyIsExact(expected, actual);
    var pos := 0;
    assert actual[0..] == actual && expected[0..] == expected;
    for k := 0 to |expected|
      invariant 0 <= pos <= |actual|
      invariant Greedy(expected[k..], actual[pos..]) == Greedy(expected, actual)
    {
      var found := false;
      ghost var rest := expected[k..];
      while pos < |actual| && !found
        invariant 0 <= pos <= |actual|
        invariant Greedy(if found then rest[1..] else rest, actual[pos..]) == Greedy(expected, actual)
        decreases |actual| - pos, !found
      {
        assert actual[pos..][0] == actual[pos] && actual[pos..][1..] == actual[pos + 1..];
        found := actual[pos] == expected[k];
        pos := pos + 1;
      }
      if !found {
        return false;
      }
      assert rest[1..] == expected[k + 1..];
    }
    b := true;
  }

  lemma {:induction false} GreedyEmbeds(expected: seq<string>, actual: seq<string>)
    requires Greedy(expected, actual)
    ensures IsSubsequence(expected, actual)
    decreases |actual|
  {
    if expected == [] {
      EmptyIsSubsequence(actual);
    } else {
      assert actual == [actual[0]] + actual[1..];
      if expected[0] == actual[0] {
        GreedyEmbeds(expected[1..], actual[1..]);
        SubsequenceTake(expected[1..], actual[1..], actual[0]);
        assert expected == [expected[0]] + expected[1..];
      } else {
        GreedyEmbeds(expected, actual[1..]);
        SubsequenceSkip(expected, actual[1..], actual[0]);
      }
    }
  }

  function Lowered(at: seq<nat>, from: nat): (r: seq<nat>)
    requires from <= |at| && forall i :: from <= i < |at| ==> at[i] > 0
    ensures |r| == |at| - from && forall i :: 0 <= i < |r| ==> r[i] == at[from + i] - 1
  {
    seq(|at| - from, i requires 0 <= i < |at| - from => at[from + i] - 1)
  }

  /** Taking the first match never costs a later one. */
  lemma {:induction false} EmbedsGreedily(expected: seq<string>, actual: seq<string>, at: seq<nat>)
    requires Embeds(expected, actual, at)
    ensures Greedy(expected, actual)
    decreases |actual|
  {
    if expected != [] {
      assert at[0] < |actual|;
      var rest := actual[1..];
      if expected[0] == actual[0] {
        assert forall i :: 1 <= i < |at| ==> at[i] > at[0];
        DropHead(expected, actual, at, 1);
        EmbedsGreedily(expected[1..], rest, Lowered(at, 1));
      } else {
        assert forall i :: 0 < i < |at| ==> at[i] > at[0];
        DropHead(expected, actual, at, 0);
        assert expected[0..] == expected;
        EmbedsGreedily(expected, rest, Lowered(at, 0));
      }
    }
  }

  lemma DropHead(expected: seq<string>, actual: seq<string>, at: seq<nat>, from: nat)
    requires Embeds(expected, actual, at) && actual != [] && from <= |expected|
    requires forall i :: from <= i < |at| ==> at[i] > 0
    ensures Embeds(expected[from..], actual[1..], Lowered(at, from))
  {
  }

  /** The greedy test answers true exactly when some strictly increasing embedding exists. */
  lemma GreedyIsExact(expected: seq<string>, actual: seq<string>)
    ensures Greedy(expected, actual) <==> IsSubsequence(expected, actual)
  {
    if Greedy(expected, actual) {
      GreedyEmbeds(expected, actual);
    }
    if IsSubsequence(expected, actual) {
      var at :| Embeds(expected, actual, at);
      EmbedsGreedily(expected, actual, at);
    }
  }

  // ----- the aggregate score -----

  datatype Result = Result(category: string, passed: bool)

  datatype Tally = Tally(passed: nat, total: nat)

  datatype Score = Score(passed: nat, total: nat, byCategory: map<string, Tally>)

  function Count(b: bool): nat {
    if b then 1 else 0
  }

  function PassedIn(results: seq<Result>): nat {
    if results == [] then 0 else PassedIn(results[..|results| - 1]) + Count(results[|results| - 1].passed)
  }

  function TallyOf(m: map<string, Tally>, c: string): Tally {
    if c in m then m[c] else Tally(0, 0)
  }

  function Tallied(m: map<string, Tally>, r: Result): map<string, Tally> {
    var t := TallyOf(m, r.category);
    m[r.category := Tally(t.passed + Count(r.passed), t.total + 1)]
  }

  function ByCategory(results: seq<Result>): map<string, Tally> {
    if results == [] then map[] else Tallied(ByCategory(results[..|results| - 1]), results[|results| - 1])
  }

  method ScoreAll(results: seq<Result>) returns (s: Score)
    ensures s == Score(PassedIn(results), |results|, ByCategory(results))
  {
    var passed := 0;
    var byCategory: map<string, Tally> := map[];
    for i := 0 to |results|
      invariant passed == PassedIn(results[..i]) && byCategory == ByCategory(results[..i])
    {
      var r := results[i];
      assert results[..i + 1][..i] == results[..i];
      if r.passed {
        passed := passed + 1;
      }
      var t := TallyOf(byCategory, r.category);
      byCategory := byCategory[r.category := Tally(t.passed + Count(r.passed), t.total + 1)];
    }
    assert results[..|results|] == results;
    s := Score(passed, |results|, byCategory);
  }

  /** The results of one category. */
  function Only(results: seq<Result>, c: string): seq<Result> {
    if results == [] then []
    else
      var front, last := results[..|results| - 1], results[|results| - 1];
      Only(front, c) + if last.category == c then [last] else []
  }

  lemma OneMore(results: seq<Result>, r: Result)
    ensures PassedIn(results + [r]) == PassedIn(results) + Count(r.passed)
  {
    assert (results + [r])[..|results|] == results;
  }

  function OwnTally(results: seq<Result>, c: string): Tally {
    Tally(PassedIn(Only(results, c)), |Only(results, c)|)
  }

  lemma OwnTallyStep(front: seq<Result>, last: Result, c: string)
    ensures OwnTally(front + [last], c)
         == if last.category == c
            then Tally(OwnTally(front, c).passed + Count(last.passed), OwnTally(front, c).total + 1)
            else OwnTally(front, c)
  {
    assert (front + [last])[..|front|] == front;
    OneMore(Only(front, c), last);
    assert Only(front, c) + [] == Only(front, c);
  }

  lemma TallyStep(m: map<string, Tally>, r: Result, c: string)
    ensures TallyOf(Tallied(m, r), c)
         == if r.category == c then Tally(TallyOf(m, c).passed + Count(r.passed), TallyOf(m, c).total + 1)
            else TallyOf(m, c)
  {
  }

  lemma {:induction false} OwnTallies(results: seq<Result>, c: string)
    ensures TallyOf(ByCategory(results), c) == OwnTally(results, c)
  {
    if results != [] {
      var front, last := results[..|results| - 1], results[|results| - 1];
      assert results == front + [last];
      OwnTallies(front, c);
      OwnTallyStep(front, last, c);
      TallyStep(ByCategory(front), last, c);
    }
  }

  lemma {:induction false} PresentIff(results: seq<Result>, c: string)
    ensures c in ByCategory(results) <==> Only(results, c) != []
  {
    if results != [] {
      PresentIff(results[..|results| - 1], c);
    }
  }

  /** The positions of the results of a category, and of those that passed. */
  ghost function Members(results: seq<Result>, c: string): set<nat> {
    set i: nat | i < |results| && results[i].category == c
  }

  ghost function PassedMembers(results: seq<Result>, c: string): set<nat> {
    set i: nat | i < |results| && results[i].category == c && results[i].passed
  }

  lemma SizeSnoc(a: set<nat>, k: nat, more: bool, b: set<nat>)
    requires k !in a && b == a + if more then {k} else {}
    ensures |b| == |a| + if more then 1 else 0
  {
  }

  lemma MembersSnoc(front: seq<Result>, last: Result, c: string)
    ensures |Members(front + [last], c)| == |Members(front, c)| + if last.category == c then 1 else 0
  {
    var all := front + [last];
    assert Members(all, c) == Members(front, c) + (if last.category == c then {|front|} else {}) by {
      assert forall i: nat :: i < |front| ==> all[i] == front[i];
    }
    SizeSnoc(Members(front, c), |front|, last.category == c, Members(all, c));
  }

  lemma PassedMembersSnoc(front: seq<Result>, last: Result, c: string)
    ensures |PassedMembers(front + [last], c)|
         == |PassedMembers(front, c)| + if last.category == c && last.passed then 1 else 0
  {
    var all := front + [last];
    var more := last.category == c && last.passed;
    assert PassedMembers(all, c) == PassedMembers(front, c) + (if more then {|front|} else {}) by {
      assert forall i: nat :: i < |front| ==> all[i] == front[i];
    }
    SizeSnoc(PassedMembers(front, c), |front|, more, PassedMembers(all, c));
  }

  ghost function AllPassedMembers(results: seq<Result>): set<nat> {
    set i: nat | i < |results| && results[i].passed
  }

  lemma {:induction false} OwnTallyCounts(results: seq<Result>, c: string)
    ensures OwnTally(results, c) == Tally(|PassedMembers(results, c)|, |Members(results, c)|)
  {
    if results == [] {
      assert Members(results, c) == {} && PassedMembers(results, c) == {};
    } else {
      var front, last := results[..|results| - 1], results[|results| - 1];
      assert results == front + [last];
      OwnTallyCounts(front, c);
      OwnTallyStep(front, last, c);
      MembersSnoc(front, last, c);
      PassedMembersSnoc(front, last, c);
    }
  }

  /** The overall score counts the passed results. */
  lemma {:induction false} PassedInCounts(results: seq<Result>)
    ensures PassedIn(results) == |AllPassedMembers(results)|
  {
    if results == [] {
      assert AllPassedMembers(results) == {};
    } else {
      var front, last := results[..|results| - 1], results[|results| - 1];
      PassedInCounts(front);
      assert AllPassedMembers(results) == AllPassedMembers(front) + if last.passed then {|front|} else {};
    }
  }

  /** Each category's pair counts exactly its own results; a category is there when it has any. */
  lemma CategoryIsCounted(results: seq<Result>, c: string)
    ensures TallyOf(ByCategory(results), c) == Tally(|PassedMembers(results, c)|, |Members(results, c)|)
    ensures c in ByCategory(results) <==> exists i :: 0 <= i < |results| && results[i].category == c
  {
    OwnTallies(results, c);
    PresentIff(results, c);
    OwnTallyCounts(results, c);
    if Only(results, c) == [] {
      assert Members(results, c) == {};
      assert forall i: nat :: i < |results| && results[i].category == c ==> i in Members(results, c);
    } else if forall i :: 0 <= i < |results| ==> results[i].category != c {
      assert Members(results, c) == {};
    }
  }

  ghost function SumTallies(m: map<string, Tally>): Tally
    decreases |m|
  {
    if m == map[] then Tally(0, 0)
    else
      var c :| c in m;
      var rest := SumTallies(m - {c});
      Tally(m[c].passed + rest.passed, m[c].total + rest.total)
  }

  lemma {:induction false} SumWithout(m: map<string, Tally>, c: string)
    requires c in m
    ensures SumTallies(m).passed == m[c].passed + SumTallies(m - {c}).passed
    ensures SumTallies(m).total == m[c].total + SumTallies(m - {c}).total
    decreases |m|
  {
    var p :| p in m && SumTallies(m).passed == m[p].passed + SumTallies(m - {p}).passed
                    && SumTallies(m).total == m[p].total + SumTallies(m - {p}).total;
    if p != c {
      SumWithout(m - {p}, c);
      SumWithout(m - {c}, p);
      assert m - {p} - {c} == m - {c} - {p};
    }
  }

  /** The categories' pairs sum to the overall pair. */
  lemma {:induction false} CategoriesSumToScore(results: seq<Result>)
    ensures SumTallies(ByCategory(results)) == Tally(PassedIn(results), |results|)
  {
    if results != [] {
      var front, last := results[..|results| - 1], results[|results| - 1];
      CategoriesSumToScore(front);
      var m, r := ByCategory(front), ByCategory(results);
      SumWithout(r, last.category);
      assert r - {last.category} == m - {last.category};
      if last.category in m {
        SumWithout(m, last.category);
      } else {
        assert m - {last.category} == m;
      }
    }
  }
}
