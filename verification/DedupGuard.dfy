/** Loop detection on repeated successful results: a streak of equal result hashes. */
module DedupGuard {
  import opened Transcript

  /** Length of the run of equal keys at the end. */
  function Streak(keys: seq<string>): nat {
    if keys == [] then 0
    else if |keys| >= 2 && keys[|keys| - 1] == keys[|keys| - 2] then Streak(keys[..|keys| - 1]) + 1
    else 1
  }

  function LastKey(keys: seq<string>): Option<string> {
    if keys == [] then None else Some(keys[|keys| - 1])
  }

  /** The last `k` keys exist and are all the same. */
  predicate EndsInRun(keys: seq<string>, k: int) {
    k <= |keys| && forall i :: |keys| - k <= i < |keys| && 0 <= i ==> keys[i] == keys[|keys| - 1]
  }

  /** The counter is the run: it reaches `k` exactly when the last `k` results were the same. */
  lemma {:induction false} StreakMeansRun(keys: seq<string>, k: nat)
    requires k >= 1
    ensures Streak(keys) >= k <==> EndsInRun(keys, k)
  {
    if keys != [] {
      var front := keys[..|keys| - 1];
      if k >= 2 {
        StreakMeansRun(front, k - 1);
        if Streak(keys) >= k {
          RunMore(keys, k);
        } else if EndsInRun(keys, k) {
          RunLess(keys, k);
        }
      }
    }
  }

  lemma RunMore(keys: seq<string>, k: nat)
    requires k >= 2 && |keys| >= 2 && keys[|keys| - 1] == keys[|keys| - 2]
    requires EndsInRun(keys[..|keys| - 1], k - 1)
    ensures EndsInRun(keys, k)
  {
    var front := keys[..|keys| - 1];
    forall i | |keys| - k <= i < |keys| && 0 <= i ensures keys[i] == keys[|keys| - 1] {
      assert i < |front| ==> front[i] == keys[i] && front[|front| - 1] == keys[|keys| - 2];
    }
  }

  lemma RunLess(keys: seq<string>, k: nat)
    requires k >= 2 && EndsInRun(keys, k)
    ensures keys[|keys| - 1] == keys[|keys| - 2] && EndsInRun(keys[..|keys| - 1], k - 1)
  {
    var front := keys[..|keys| - 1];
    assert keys[|keys| - 2] == keys[|keys| - 1];
    forall i | |front| - (k - 1) <= i < |front| && 0 <= i ensures front[i] == front[|front| - 1] {
      assert front[i] == keys[i] && front[|front| - 1] == keys[|keys| - 2];
    }
  }

  lemma StreakSnoc(keys: seq<string>, key: string)
    ensures Streak(keys + [key]) == if LastKey(keys) == Some(key) then Streak(keys) + 1 else 1
  {
    assert (keys + [key])[..|keys|] == keys;
  }

  // ----- one batch -----

  /** The hashes of the results that are not errors. */
  function Keys(results: seq<(string, string)>, hash: string -> string): seq<string> {
    if results == [] then []
    else
      var (_, text) := results[|results| - 1];
      Keys(results[..|results| - 1], hash) + if IsError(text) then [] else [hash(text)]
  }

  /** The first `n` results of the batch, fed behind `fed`, end on a result that triggers. */
  predicate Triggers(fed: seq<string>, results: seq<(string, string)>, hash: string -> string, n: nat, max: int)
    requires n <= |results|
  {
    n > 0 && !IsError(results[n - 1].1) && Streak(fed + Keys(results[..n], hash)) >= max
  }

  /** Errors leave no key, every other result its hash, in order. */
  lemma {:induction false} KeysAddUp(a: seq<(string, string)>, b: seq<(string, string)>, hash: string -> string)
    ensures Keys(a + b, hash) == Keys(a, hash) + Keys(b, hash)
    ensures forall name, text :: Keys([(name, text)], hash) == if "Error" <= text then [] else [hash(text)]
    decreases |b|
  {
    forall name, text ensures Keys([(name, text)], hash) == if "Error" <= text then [] else [hash(text)] {
      assert [(name, text)][..0] == [];
    }
    if b == [] {
      assert a + b == a;
    } else {
      assert (a + b)[..|a + b| - 1] == a + b[..|b| - 1];
      KeysAddUp(a, b[..|b| - 1], hash);
    }
  }

  /** A result triggers exactly when it is no error and the last `max` keys, over all batches, are the same. */
  lemma TriggersIff(fed: seq<string>, results: seq<(string, string)>, hash: string -> string, n: nat, max: nat)
    requires n <= |results| && max >= 1
    ensures Triggers(fed, results, hash, n, max)
      <==> n >= 1 && !("Error" <= results[n - 1].1) && EndsInRun(fed + Keys(results[..n], hash), max)
  {
    StreakMeansRun(fed + Keys(results[..n], hash), max);
  }

  class ResultDedupGuard {
    const enabled: bool
    const maxRepeats: int
    const hash: string -> string
    var streakKey: Option<string>
    var streakCount: nat
    /** The keys fed so far. */
    ghost var fed: seq<string>

    ghost predicate Valid()
      reads this
    {
      streakKey == LastKey(fed) && streakCount == Streak(fed)
    }

    constructor (enabled: bool, maxRepeats: int, hash: string -> string)
      ensures Valid() && fed == []
      ensures this.enabled == enabled && this.maxRepeats == maxRepeats && this.hash == hash
    {
      this.enabled, this.maxRepeats, this.hash := enabled, maxRepeats, hash;
      streakKey, streakCount, fed := None, 0, [];
    }

    method Detect(result: string) returns (loop: bool)
      requires Valid()
      modifies this
      ensures Valid() && fed == old(fed) + if enabled then [hash(result)] else []
      ensures loop == (enabled && Streak(fed) >= maxRepeats)
    {
      if !enabled {
        return false;
      }
      var key := hash(result);
      StreakSnoc(fed, key);
      if streakKey == Some(key) {
        streakCount := streakCount + 1;
      } else {
        streakKey := Some(key);
        streakCount := 1;
      }
      fed := fed + [key];
      return streakCount >= maxRepeats;
    }

    /** `_detect_result_dedup`: errors are passed over, and nothing behind the first hit is fed; a
        disabled guard never hits and is fed nothing. */
    method DetectBatch(results: seq<(string, string)>) returns (hit: Option<nat>)
      requires Valid()
      modifies this
      ensures Valid()
      ensures !enabled ==> hit == None && fed == old(fed)
      ensures hit.Some? ==> hit.value < |results| && Triggers(old(fed), results, hash, hit.value + 1, maxRepeats)
      ensures enabled ==> fed == old(fed) + Keys(if hit.Some? then results[..hit.value + 1] else results, hash)
      ensures enabled ==> forall n: nat :: n <= (if hit.Some? then hit.value else |results|) ==>
        !Triggers(old(fed), results, hash, n, maxRepeats)
    {
      ghost var before := fed;
      for i := 0 to |results|
        invariant Valid() && (!enabled ==> fed == before)
        invariant enabled ==> fed == before + Keys(results[..i], hash)
        invariant enabled ==> forall n: nat :: n <= i ==> !Triggers(before, results, hash, n, maxRepeats)
      {
        assert results[..i + 1][..i] == results[..i];
        var text := results[i].1;
        if IsError(text) {
          assert Keys(results[..i + 1], hash) == Keys(results[..i], hash);
          continue;
        }
        assert before + Keys(results[..i + 1], hash) == before + Keys(results[..i], hash) + [hash(text)];
        var loop := Detect(text);
        if loop {
          return Some(i);
        }
      }
      assert results[..|results|] == results;
      hit := None;
    }
  }
}
