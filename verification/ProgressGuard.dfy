/** Loop detection on repeated tool errors: a window of three recent error signatures. */
module ProgressGuard {
  import opened Transcript

  const WINDOW := 3
  /** The (tool, normalised error) pairs of one batch, in order of first occurrence. */
  type Signature = seq<(string, string)>

  datatype GuardState = GuardState(window: seq<Signature>, count: int)

  const FRESH := GuardState([], 0)

  /** `normalize` stands for the regex clean-up of error texts. */
  function SignatureOf(results: seq<(string, string)>, normalize: string -> string): Signature {
    if results == [] then []
    else
      var front := SignatureOf(results[..|results| - 1], normalize);
      var (tool, text) := results[|results| - 1];
      if !IsError(text) || (tool, normalize(text)) in front then front
      else front + [(tool, normalize(text))]
  }

  predicate IsErrorAt(results: seq<(string, string)>, normalize: string -> string, i: int, e: (string, string)) {
    0 <= i < |results| && "Error" <= results[i].1 && e == (results[i].0, normalize(results[i].1))
  }

  ghost predicate HasError(results: seq<(string, string)>, normalize: string -> string, e: (string, string)) {
    exists i :: IsErrorAt(results, normalize, i, e)
  }

  lemma ErrorsOfMore(results: seq<(string, string)>, normalize: string -> string, e: (string, string))
    requires results != []
    ensures HasError(results, normalize, e) <==>
      HasError(results[..|results| - 1], normalize, e) || IsErrorAt(results, normalize, |results| - 1, e)
  {
    var front := results[..|results| - 1];
    if HasError(front, normalize, e) {
      var i :| IsErrorAt(front, normalize, i, e);
      assert IsErrorAt(results, normalize, i, e);
    }
    if HasError(results, normalize, e) {
      var i :| IsErrorAt(results, normalize, i, e);
      assert i < |front| ==> IsErrorAt(front, normalize, i, e);
    }
  }

  lemma {:induction false} SignatureHas(results: seq<(string, string)>, normalize: string -> string,
                                        e: (string, string))
    ensures e in SignatureOf(results, normalize) <==> HasError(results, normalize, e)
  {
    if results != [] {
      SignatureHas(results[..|results| - 1], normalize, e);
      ErrorsOfMore(results, normalize, e);
    }
  }

  predicate DistinctPairs(s: seq<(string, string)>) {
    forall j, k :: 0 <= j < k < |s| ==> s[j] != s[k]
  }

  lemma {:induction false} SignatureIsDistinct(results: seq<(string, string)>, normalize: string -> string)
    ensures DistinctPairs(SignatureOf(results, normalize))
  {
    if results != [] {
      SignatureIsDistinct(results[..|results| - 1], normalize);
    }
  }

  /** The signature of a batch holds each of its errors once, whatever else the batch returned. */
  lemma SignatureMeans(results: seq<(string, string)>, normalize: string -> string, e: (string, string))
    ensures e in SignatureOf(results, normalize) <==> exists i :: IsErrorAt(results, normalize, i, e)
    ensures DistinctPairs(SignatureOf(results, normalize))
  {
    SignatureHas(results, normalize, e);
    SignatureIsDistinct(results, normalize);
  }

  /** Earlier errors stand first. */
  lemma {:induction false} SignatureGrows(results: seq<(string, string)>, normalize: string -> string, n: nat)
    requires n <= |results|
    ensures SignatureOf(results[..n], normalize) <= SignatureOf(results, normalize)
  {
    if n == |results| {
      assert results[..n] == results;
    } else {
      var front := results[..|results| - 1];
      SignatureGrows(front, normalize, n);
      assert results[..n] == front[..n];
    }
  }

  /** `deque(maxlen=3).append`. */
  function Push(window: seq<Signature>, sig: Signature): seq<Signature> {
    var w := window + [sig];
    if |w| > WINDOW then w[|w| - WINDOW..] else w
  }

  /** One batch; the empty signature is a batch without errors. */
  function Observe(s: GuardState, sig: Signature): GuardState {
    if sig == [] then FRESH
    else if sig in s.window then s.(count := s.count + 1)
    else GuardState(Push(s.window, sig), 1)
  }

  class SimpleProgressGuard {
    const enabled: bool
    const maxSameToolError: int
    var state: GuardState

    constructor (enabled: bool, maxSameToolError: int)
      ensures this.enabled == enabled && this.maxSameToolError == maxSameToolError && state == FRESH
    {
      this.enabled := enabled;
      this.maxSameToolError := maxSameToolError;
      state := FRESH;
    }

    method DetectLoopForResults(results: seq<(string, string)>, normalize: string -> string) returns (loop: bool)
      modifies this
      ensures !enabled ==> !loop && state == old(state)
      ensures enabled ==> var sig := SignatureOf(results, normalize);
        && state == Observe(old(state), sig)
        && loop == (sig != [] && state.count >= maxSameToolError)
    {
      if !enabled {
        return false;
      }
      var signatures: Signature := [];
      var i := 0;
      while i < |results|
        invariant 0 <= i <= |results|
        invariant signatures == SignatureOf(results[..i], normalize)
      {
        var (tool, text) := results[i];
        assert results[..i + 1][..i] == results[..i];
        if IsError(text) {
          var signature := (tool, normalize(text));
          if signature !in signatures {
            signatures := signatures + [signature];
          }
        }
        i := i + 1;
      }
      assert results[..i] == results;
      if signatures == [] {
        state := FRESH;
        return false;
      }
      if signatures in state.window {
        state := state.(count := state.count + 1);
      } else {
        state := GuardState(Push(state.window, signatures), 1);
      }
      return state.count >= maxSameToolError;
    }
  }

  // ----- whole runs of batches -----

  function After(s: GuardState, sigs: seq<Signature>): GuardState {
    if sigs == [] then s else Observe(After(s, sigs[..|sigs| - 1]), sigs[|sigs| - 1])
  }

  /** Is the last batch of the history flagged as a loop? */
  predicate Flagged(sigs: seq<Signature>, threshold: int) {
    sigs != [] && sigs[|sigs| - 1] != [] && After(FRESH, sigs).count >= threshold
  }

  predicate Failing(sigs: seq<Signature>) {
    forall i :: 0 <= i < |sigs| ==> sigs[i] != []
  }

  predicate DistinctSigs(w: seq<Signature>) {
    forall i, j :: 0 <= i < j < |w| ==> w[i] != w[j]
  }

  /** In every reachable state the window holds at most three pairwise distinct failing signatures. */
  lemma {:induction false} WindowInvariant(sigs: seq<Signature>)
    ensures var s := After(FRESH, sigs);
      && |s.window| <= WINDOW && DistinctSigs(s.window) && Failing(s.window)
      && s.count >= 0 && (s.window == [] <==> s.count == 0)
  {
    if sigs != [] {
      var front, last := sigs[..|sigs| - 1], sigs[|sigs| - 1];
      WindowInvariant(front);
      if last != [] && last !in After(FRESH, front).window {
        PushKeeps(After(FRESH, front).window, last);
      }
    }
  }

  lemma PushKeeps(window: seq<Signature>, sig: Signature)
    requires |window| <= WINDOW && DistinctSigs(window) && Failing(window)
    requires sig !in window && sig != []
    ensures var w := Push(window, sig);
      1 <= |w| <= WINDOW && DistinctSigs(w) && Failing(w)
  {
    var w := window + [sig];
    assert DistinctSigs(w) && Failing(w);
  }

  // ----- what a True answer means -----

  /** The history since the last batch without errors. */
  function SinceSuccess(sigs: seq<Signature>): seq<Signature> {
    if sigs == [] || sigs[|sigs| - 1] == [] then []
    else SinceSuccess(sigs[..|sigs| - 1]) + [sigs[|sigs| - 1]]
  }

  lemma {:induction false} SinceSuccessIsSuffix(sigs: seq<Signature>)
    ensures |SinceSuccess(sigs)| <= |sigs|
    ensures SinceSuccess(sigs) == sigs[|sigs| - |SinceSuccess(sigs)|..]
    ensures Failing(SinceSuccess(sigs))
  {
    if sigs != [] && sigs[|sigs| - 1] != [] {
      var front := sigs[..|sigs| - 1];
      SinceSuccessIsSuffix(front);
      assert sigs == front + [sigs[|sigs| - 1]];
    }
  }

  /** The window only remembers signatures seen since then, and the counter counts the last batches
      that each repeated one seen before them. */
  lemma {:induction false} CountIsJustified(sigs: seq<Signature>)
    ensures var s := After(FRESH, sigs); var recent := SinceSuccess(sigs);
      && 0 <= s.count <= |recent|
      && (forall w :: w in s.window ==> w in recent)
      && forall i :: |recent| - s.count + 1 <= i < |recent| ==> recent[i] in recent[..i]
  {
    if sigs != [] && sigs[|sigs| - 1] != [] {
      var front, last := sigs[..|sigs| - 1], sigs[|sigs| - 1];
      CountIsJustified(front);
      WindowInvariant(front);
      var before, recent := SinceSuccess(front), SinceSuccess(sigs);
      var s := After(FRESH, sigs);
      assert recent == before + [last];
      forall i | |recent| - s.count + 1 <= i < |recent| ensures recent[i] in recent[..i] {
        assert recent[..i] == before[..i];
      }
    }
  }

  /** A loop answer is never unfounded: the last `threshold - 1` batches all failed, and each
      repeated a signature already seen since the last batch without errors. */
  lemma FlagIsJustified(sigs: seq<Signature>, threshold: int)
    requires Flagged(sigs, threshold) && threshold >= 1
    ensures var recent := SinceSuccess(sigs);
      && threshold <= |recent|
      && forall i :: |recent| - threshold + 1 <= i < |recent| ==> recent[i] != [] && recent[i] in recent[..i]
  {
    CountIsJustified(sigs);
    SinceSuccessIsSuffix(sigs);
    var recent := SinceSuccess(sigs);
    forall i | |recent| - threshold + 1 <= i < |recent| ensures recent[i] != [] && recent[i] in recent[..i] {
      assert recent[i] in recent;
    }
  }

  // ----- what is certain to be caught, and when -----

  /** No batch of the history was flagged so far. */
  predicate NeverFlagged(sigs: seq<Signature>, threshold: int) {
    forall n :: 0 < n <= |sigs| ==> !Flagged(sigs[..n], threshold)
  }

  lemma NeverFlaggedFront(sigs: seq<Signature>, threshold: int)
    requires sigs != [] && NeverFlagged(sigs, threshold)
    ensures NeverFlagged(sigs[..|sigs| - 1], threshold)
    ensures !Flagged(sigs, threshold)
  {
    var front := sigs[..|sigs| - 1];
    forall n | 0 < n <= |front| ensures !Flagged(front[..n], threshold) {
      assert front[..n] == sigs[..n];
    }
    assert sigs[..|sigs|] == sigs;
  }

  /** `k` full rounds of `threshold - 1`. */
  function Rounds(k: nat, threshold: int): int {
    if k == 0 then 0 else threshold - 1 + Rounds(k - 1, threshold)
  }

  lemma {:induction false} UnflaggedIsShort(sigs: seq<Signature>, pool: set<Signature>, threshold: int)
    requires Failing(sigs) && (forall i :: 0 <= i < |sigs| ==> sigs[i] in pool) && |pool| <= WINDOW
    requires NeverFlagged(sigs, threshold)
    ensures var s := After(FRESH, sigs);
      && (forall w :: w in s.window ==> w in pool)
      && (sigs != [] ==> |s.window| >= 1 && |sigs| <= Rounds(|s.window| - 1, threshold) + s.count
                         && s.count < threshold)
  {
    if sigs != [] {
      var front, last := sigs[..|sigs| - 1], sigs[|sigs| - 1];
      NeverFlaggedFront(sigs, threshold);
      assert sigs == front + [last];
      UnflaggedIsShort(front, pool, threshold);
      WindowInvariant(front);
      WindowInvariant(sigs);
      var s := After(FRESH, front);
      if last !in s.window {
        NewSignatureFits(s.window, last, pool);
      }
    }
  }

  /** A window drawn from a small pool has room for a signature it does not hold. */
  lemma NewSignatureFits(window: seq<Signature>, sig: Signature, pool: set<Signature>)
    requires DistinctSigs(window) && sig !in window && |pool| <= WINDOW
    requires sig in pool && forall w :: w in window ==> w in pool
    ensures Push(window, sig) == window + [sig] && |window| < |pool|
  {
    var bigger := window + [sig];
    assert DistinctSigs(bigger);
    DistinctFits(bigger, pool);
  }

  lemma {:induction false} DistinctFits(w: seq<Signature>, pool: set<Signature>)
    requires DistinctSigs(w) && forall x :: x in w ==> x in pool
    ensures |w| <= |pool|
  {
    if w != [] {
      var front, last := w[..|w| - 1], w[|w| - 1];
      assert last in w && w == front + [last];
      forall x | x in front ensures x in pool - {last} {
        var i :| 0 <= i < |front| && front[i] == x;
        assert w[i] == x;
      }
      DistinctFits(front, pool - {last});
    }
  }

  lemma {:induction false} RoundsAreProducts(k: nat, threshold: int)
    ensures Rounds(k, threshold) == k * (threshold - 1)
  {
    if k > 0 { RoundsAreProducts(k - 1, threshold); }
  }

  lemma {:induction false} RoundsGrow(k: nat, n: nat, threshold: int)
    requires k <= n && threshold >= 1
    ensures Rounds(k, threshold) <= Rounds(n, threshold)
  {
    if k < n { RoundsGrow(k, n - 1, threshold); }
  }

  /** Any failing run confined to at most three signatures, in whatever order they come, goes
      unflagged for at most `d * (threshold - 1)` batches, `d` the number of signatures. */
  lemma FailingRunIsCaught(sigs: seq<Signature>, pool: set<Signature>, threshold: int)
    requires Failing(sigs) && (forall i :: 0 <= i < |sigs| ==> sigs[i] in pool) && |pool| <= WINDOW && threshold >= 1
    requires |sigs| > |pool| * (threshold - 1)
    ensures !NeverFlagged(sigs, threshold)
  {
    if NeverFlagged(sigs, threshold) {
      UnflaggedIsShort(sigs, pool, threshold);
      WindowInvariant(sigs);
      var s := After(FRESH, sigs);
      DistinctFits(s.window, pool);
      RoundsAreProducts(|pool|, threshold);
      if sigs != [] {
        RoundsGrow(|s.window|, |pool|, threshold);
      }
    }
  }

  // ----- cycles -----

  /** The position of batch `n` in a cycle of length `p`. */
  function Turn(n: nat, p: nat): (t: nat)
    requires p > 0
    ensures t < p && (n < p ==> t == n)
  {
    if n == 0 then 0 else if Turn(n - 1, p) + 1 == p then 0 else Turn(n - 1, p) + 1
  }

  /** The first `n` batches of a run that repeats `cycle` for ever. */
  function Cycle(cycle: seq<Signature>, n: nat): (r: seq<Signature>)
    requires cycle != []
    ensures |r| == n && forall i :: 0 <= i < n ==> r[i] == cycle[Turn(i, |cycle|)]
  {
    seq(n, i requires 0 <= i < n => cycle[Turn(i, |cycle|)])
  }

  predicate GoodCycle(cycle: seq<Signature>) {
    cycle != [] && DistinctSigs(cycle) && Failing(cycle)
  }

  lemma CycleFront(cycle: seq<Signature>, n: nat)
    requires cycle != [] && n > 0
    ensures Cycle(cycle, n)[..n - 1] == Cycle(cycle, n - 1)
    ensures Cycle(cycle, n)[n - 1] == cycle[Turn(n - 1, |cycle|)]
  {
  }

  /** What a short cycle's state looks like after `n` batches. */
  function ShortState(cycle: seq<Signature>, n: nat): GuardState {
    if n <= |cycle| then GuardState(cycle[..n], if n == 0 then 0 else 1)
    else GuardState(cycle, n - |cycle| + 1)
  }

  lemma ShortCycleStep(cycle: seq<Signature>, n: nat)
    requires GoodCycle(cycle) && |cycle| <= WINDOW
    ensures Observe(ShortState(cycle, n), cycle[Turn(n, |cycle|)]) == ShortState(cycle, n + 1)
  {
    var p, sig := |cycle|, cycle[Turn(n, |cycle|)];
    if n < p {
      assert sig !in cycle[..n] && cycle[..n] + [sig] == cycle[..n + 1];
    } else {
      assert cycle[..p] == cycle && sig in cycle;
    }
  }

  /** A short cycle fills the window once, then every batch counts. */
  lemma {:induction false} ShortCycleState(cycle: seq<Signature>, n: nat)
    requires GoodCycle(cycle) && |cycle| <= WINDOW
    ensures After(FRESH, Cycle(cycle, n)) == ShortState(cycle, n)
  {
    if n > 0 {
      ShortCycleState(cycle, n - 1);
      CycleFront(cycle, n);
      ShortCycleStep(cycle, n - 1);
    } else {
      assert cycle[..0] == [];
    }
  }

  /** A run cycling through `p <= 3` distinct failures is flagged exactly from batch
      `p + threshold - 1` on (from the first batch when the threshold is at most one). */
  lemma ShortCycleIsFlagged(cycle: seq<Signature>, n: nat, threshold: int)
    requires GoodCycle(cycle) && |cycle| <= WINDOW
    ensures Flagged(Cycle(cycle, n), threshold)
       <==> n >= 1 && (threshold <= 1 || n >= |cycle| + threshold - 1)
  {
    ShortCycleState(cycle, n);
    if n > 0 {
      CycleFront(cycle, n);
      assert cycle[Turn(n - 1, |cycle|)] in cycle;
    }
  }

  /** Every batch differs from the three before it. */
  predicate NoNearRepeat(sigs: seq<Signature>) {
    forall i, j :: 0 <= i < j < |sigs| && j - i <= WINDOW ==> sigs[i] != sigs[j]
  }

  /** The last three batches, or all of them. */
  function LastThree(sigs: seq<Signature>): seq<Signature> {
    if |sigs| <= WINDOW then sigs else sigs[|sigs| - WINDOW..]
  }

  lemma LastThreeStep(front: seq<Signature>, last: Signature)
    requires NoNearRepeat(front + [last])
    ensures last !in LastThree(front) && NoNearRepeat(front)
    ensures Push(LastThree(front), last) == LastThree(front + [last])
  {
    var sigs := front + [last];
    assert forall i :: 0 <= i < |front| ==> sigs[i] == front[i];
    assert sigs[|front|] == last;
  }

  lemma {:induction false} NoNearRepeatState(sigs: seq<Signature>)
    requires Failing(sigs) && NoNearRepeat(sigs)
    ensures After(FRESH, sigs).window == LastThree(sigs)
    ensures After(FRESH, sigs).count <= 1
  {
    if sigs != [] {
      var front, last := sigs[..|sigs| - 1], sigs[|sigs| - 1];
      assert sigs == front + [last];
      LastThreeStep(front, last);
      NoNearRepeatState(front);
    }
  }

  lemma NearIndicesDiffer(i: nat, p: nat)
    requires p > WINDOW
    ensures Turn(i, p) != Turn(i + 1, p) && Turn(i, p) != Turn(i + 2, p) && Turn(i, p) != Turn(i + 3, p)
  {
    assert Turn(i + 2, p) == if Turn(i + 1, p) + 1 == p then 0 else Turn(i + 1, p) + 1;
    assert Turn(i + 3, p) == if Turn(i + 2, p) + 1 == p then 0 else Turn(i + 2, p) + 1;
  }

  /** A run cycling through four or more distinct failures is never flagged, however long. */
  lemma LongCycleIsMissed(cycle: seq<Signature>, n: nat, threshold: int)
    requires GoodCycle(cycle) && |cycle| > WINDOW && threshold >= 2
    ensures !Flagged(Cycle(cycle, n), threshold)
  {
    var run := Cycle(cycle, n);
    forall i | 0 <= i < n ensures run[i] != [] {
      assert cycle[Turn(i, |cycle|)] in cycle;
    }
    forall i, j | 0 <= i < j < n && j - i <= WINDOW ensures run[i] != run[j] {
      NearIndicesDiffer(i, |cycle|);
    }
    NoNearRepeatState(run);
  }
}
