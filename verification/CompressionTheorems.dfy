/** What compression keeps, for every transcript and every summariser answer. */
module CompressionTheorems {
  import opened Transcript
  import opened Normalization
  import opened NormalizationTheorems
  import opened Compression

  // ----- on closed transcripts, calls and results name the same ids -----

  lemma AnswersPair(calls: seq<RawCall>, results: seq<Message>)
    requires GoodCalls(calls) && Answers(calls, results)
    ensures ResultIds(results) == set c | c in calls && CallId(c) != "" :: CallId(c)
  {
    forall c | c in calls && CallId(c) != "" ensures CallId(c) in ResultIds(results) {
      var i :| 0 <= i < |calls| && calls[i] == c;
      assert WellFormed(calls[i]) && results[i] in results;
    }
    forall id | id in ResultIds(results) ensures exists c :: c in calls && CallId(c) == id && id != "" {
      var m :| m in results && m.Tool? && m.callId == Some(id) && id != "";
      var i :| 0 <= i < |results| && results[i] == m;
      assert calls[i] in calls && CallId(calls[i]) == id;
    }
  }

  lemma GroupPairs(g: seq<Message>)
    requires g != [] && Batches(g) && GroupSize(g) == |g|
    ensures CallIds(g) == ResultIds(g)
  {
    var rest := g[1..];
    assert g == [g[0]] + rest;
    GroupTail(g);
    OneMessage(g[0]);
    OnlyTools(rest);
    IdsOfConcat([g[0]], rest);
    assert ResultIds([g[0]]) == {} && CallIds(rest) == {};
    if OpensBatch(g[0]) {
      assert g[1..|g[0].calls.calls| + 1] == rest;
      AnswersPair(g[0].calls.calls, rest);
    }
  }

  lemma {:induction false} ClosedPairs(ms: seq<Message>)
    requires Batches(ms)
    ensures CallIds(ms) == ResultIds(ms)
    decreases |ms|
  {
    if ms != [] {
      var n := GroupSize(ms);
      SplitGroup(ms);
      GroupPairs(ms[..n]);
      ClosedPairs(ms[n..]);
      IdsOfConcat(ms[..n], ms[n..]);
      assert ms[..n] + ms[n..] == ms;
    }
  }

  /** Sanitising a closed transcript changes nothing. */
  lemma SanitizeKeepsClosed(ms: seq<Message>)
    requires Batches(ms)
    ensures Sanitized(ms) == ms
  {
    ClosedPairs(ms);
  }

  // ----- sanitising the splice -----

  lemma {:induction false} NoStubsOutside(calls: seq<RawCall>, lost: set<string>)
    requires forall c :: c in calls ==> CallId(c) !in lost
    ensures StubsFor(calls, lost) == []
  {
    if calls != [] {
      assert calls[0] in calls;
      NoStubsOutside(calls[1..], lost);
    }
  }

  /** Where no call is lost and no result orphaned, sanitising copies. */
  lemma {:induction false} SanitizeCopies(ms: seq<Message>, lost: set<string>)
    requires forall c :: c in AllCalls(ms) ==> CallId(c) !in lost
    ensures SanitizeWith(ms, {}, lost) == ms
  {
    if ms != [] {
      assert ms == [ms[0]] + ms[1..];
      OneMessage(ms[0]);
      CallsOfConcat([ms[0]], ms[1..]);
      if OpensBatch(ms[0]) {
        NoStubsOutside(ms[0].calls.calls, lost);
      }
      SanitizeCopies(ms[1..], lost);
    }
  }

  /** The calls of a closed transcript whose id is missing from `known` cannot be its own. */
  lemma TailCallsAreKnown(tail: seq<Message>, known: set<string>, lost: set<string>)
    requires CallIds(tail) <= known && lost !! known && "" !in lost
    ensures forall c :: c in AllCalls(tail) ==> CallId(c) !in lost
  {
    forall c | c in AllCalls(tail) ensures CallId(c) !in lost {
      if CallId(c) != "" {
        assert CallId(c) in CallIds(tail);
      }
    }
  }

  lemma SpliceIds(u: Message, m1: Message, rest: seq<Message>)
    requires u.User? && !m1.Tool? && Batches(rest)
    ensures ResultIds([u, m1] + rest) == ResultIds(rest)
    ensures CallIds([u, m1] + rest) == CallIds([m1]) + ResultIds(rest)
  {
    OneMessage(u);
    ClosedPairs(rest);
    IdsOfConcat([u], [m1]);
    assert [u] + [m1] == [u, m1];
    IdsOfConcat([u, m1], rest);
    assert ResultIds([u]) == {} && ResultIds([m1]) == {} && CallIds([u]) == {};
  }

  /** Head user message, second message, and the closed remainder of the splice. */
  lemma SanitizeSplice(u: Message, m1: Message, rest: seq<Message>)
    requires u.User? && !m1.Tool? && Batches(rest)
    ensures Sanitized([u, m1] + rest)
         == [u, m1] + StubsBehind(m1, CallIds([m1]) - ResultIds(rest)) + rest
  {
    var lost := CallIds([m1]) - ResultIds(rest);
    SpliceIds(u, m1, rest);
    ClosedPairs(rest);
    TailCallsAreKnown(rest, ResultIds(rest), lost);
    SanitizeCopies(rest, lost);
    SanitizeHead(u, m1, rest, lost);
    var a, b := CallIds([m1]), ResultIds(rest);
    assert b - (a + b) == {} && (a + b) - b == a - b;
    if lost == {} {
      if OpensBatch(m1) { NoStubsOutside(m1.calls.calls, lost); }
      assert [u, m1] + [] + rest == [u, m1] + rest;
    }
  }

  lemma SanitizeCons(m: Message, rest: seq<Message>, lost: set<string>)
    requires !m.Tool?
    ensures SanitizeWith([m] + rest, {}, lost) == [m] + StubsBehind(m, lost) + SanitizeWith(rest, {}, lost)
  {
    assert ([m] + rest)[0] == m && ([m] + rest)[1..] == rest;
  }

  lemma SanitizeHead(u: Message, m1: Message, rest: seq<Message>, lost: set<string>)
    requires u.User? && !m1.Tool? && SanitizeWith(rest, {}, lost) == rest
    ensures SanitizeWith([u, m1] + rest, {}, lost) == [u, m1] + StubsBehind(m1, lost) + rest
  {
    SanitizeCons(m1, rest, lost);
    SanitizeCons(u, [m1] + rest, lost);
    assert [u, m1] + rest == [u] + ([m1] + rest);
    assert [u] + StubsBehind(u, lost) == [u];
    Nest(u, m1, StubsBehind(m1, lost), rest);
  }

  // ----- normalising the sanitised splice -----

  /** The result the head batch's call `c` ends up with: one stub or the other. */
  function HeadStub(c: RawCall, lost: set<string>): Message {
    if CallId(c) in lost then CompressedStub(c) else LostStub(c)
  }

  function HeadStubs(calls: seq<RawCall>, lost: set<string>): (s: seq<Message>)
    ensures |s| == |calls|
    ensures forall i :: 0 <= i < |calls| ==> s[i] == HeadStub(calls[i], lost)
  {
    seq(|calls|, i requires 0 <= i < |calls| => HeadStub(calls[i], lost))
  }

  lemma {:induction false} StubsForAnswer(calls: seq<RawCall>, lost: set<string>, i: nat)
    requires GoodCalls(calls) && i < |calls|
    ensures FirstResult(StubsFor(calls, lost), CallId(calls[i]))
         == if CallId(calls[i]) in lost then Some(CompressedStub(calls[i])) else None
  {
    var rest := calls[1..];
    assert WellFormed(calls[0]) && WellFormed(calls[i]);
    if CallId(calls[0]) in lost {
      assert StubsFor(calls, lost)[1..] == StubsFor(rest, lost);
    } else {
      assert StubsFor(calls, lost) == StubsFor(rest, lost);
    }
    if i == 0 {
      NoForeignStub(rest, lost, CallId(calls[0]));
    } else {
      assert IdOf(calls[0]) != IdOf(calls[i]) && rest[i - 1] == calls[i];
      StubsForAnswer(rest, lost, i - 1);
    }
  }

  lemma {:induction false} NoForeignStub(calls: seq<RawCall>, lost: set<string>, id: string)
    requires forall i :: 0 <= i < |calls| ==> CallId(calls[i]) != id
    ensures FirstResult(StubsFor(calls, lost), id) == None
  {
    if calls != [] {
      NoForeignStub(calls[1..], lost, id);
      if CallId(calls[0]) in lost {
        assert StubsFor(calls, lost)[1..] == StubsFor(calls[1..], lost);
      } else {
        assert StubsFor(calls, lost) == StubsFor(calls[1..], lost);
      }
    }
  }

  lemma {:induction false} StubsAreTools(calls: seq<RawCall>, lost: set<string>)
    ensures forall i :: 0 <= i < |StubsFor(calls, lost)| ==> StubsFor(calls, lost)[i].Tool?
  {
    if calls != [] {
      StubsAreTools(calls[1..], lost);
    }
  }

  lemma HeadResults(calls: seq<RawCall>, lost: set<string>)
    requires GoodCalls(calls)
    ensures Results(calls, StubsFor(calls, lost)) == HeadStubs(calls, lost)
  {
    forall i | 0 <= i < |calls|
      ensures Results(calls, StubsFor(calls, lost))[i] == HeadStubs(calls, lost)[i]
    {
      StubsForAnswer(calls, lost, i);
    }
  }

  /** The run behind a batch ends where the closed remainder begins. */
  lemma {:induction false} RunBeforeClosed(stubs: seq<Message>, rest: seq<Message>)
    requires forall i :: 0 <= i < |stubs| ==> stubs[i].Tool?
    requires Batches(rest)
    ensures ToolRun(stubs + rest) == |stubs|
  {
    if stubs == [] {
      assert stubs + rest == rest;
    } else {
      assert (stubs + rest)[1..] == stubs[1..] + rest;
      RunBeforeClosed(stubs[1..], rest);
    }
  }

  lemma RepairedGroup(m: Message, run: seq<Message>, rest: seq<Message>)
    requires RawGroup([m] + (run + rest)) == 1 + |run|
    ensures Repaired([m] + (run + rest)) == GroupMessages(m, run) + Repaired(rest)
  {
    var ms := [m] + (run + rest);
    assert ms[1..1 + |run|] == run && ms[1 + |run|..] == rest;
  }

  lemma HeadRun(m1: Message, calls: seq<RawCall>, stubs: seq<Message>, rest: seq<Message>)
    requires m1 == Assistant(m1.content, CallList(calls)) && calls != [] && GoodCalls(calls)
    requires (forall i :: 0 <= i < |stubs| ==> stubs[i].Tool?) && Batches(rest)
    ensures RawGroup([m1] + (stubs + rest)) == 1 + |stubs|
  {
    var ms := [m1] + (stubs + rest);
    GoodCallsAreKept(calls, {});
    assert ms[1..] == stubs + rest;
    RunBeforeClosed(stubs, rest);
  }

  lemma RepairHeadBatch(m1: Message, calls: seq<RawCall>, lost: set<string>, rest: seq<Message>)
    requires m1 == Assistant(m1.content, CallList(calls)) && calls != [] && GoodCalls(calls)
    requires Batches(rest)
    ensures Repaired([m1] + (StubsFor(calls, lost) + rest)) == [m1] + HeadStubs(calls, lost) + rest
  {
    var stubs := StubsFor(calls, lost);
    StubsAreTools(calls, lost);
    HeadRun(m1, calls, stubs, rest);
    RepairedGroup(m1, stubs, rest);
    RepairIsIdentity(rest);
    GoodCallsAreKept(calls, {});
    HeadResults(calls, lost);
  }

  /** Roles and leading fragment play no part in a list that starts with the user. */
  lemma NormalizeBehindUser(u: Message, rest: seq<Message>)
    requires u.User? && forall m :: m in rest ==> !m.System? && !m.Unknown?
    ensures Normalized([u] + rest).messages == [u] + Repaired(rest)
  {
    var raw := [u] + rest;
    ClosedHasChatRoles(raw);
    assert Canonical(raw) == raw;
    assert raw[1..] == rest && raw[1..1] == [];
  }

  /** The stubs the second message's calls are left with. */
  function StubbedHead(m1: Message, lost: set<string>): seq<Message> {
    if OpensBatch(m1) then HeadStubs(m1.calls.calls, lost) else []
  }

  lemma Nest<T>(u: T, m: T, s: seq<T>, r: seq<T>)
    ensures [u, m] + s + r == [u] + ([m] + (s + r))
    ensures [u, m] + s + r == [u] + ([m] + s + r)
  {
  }

  lemma SplicedBatch(u: Message, m1: Message, rest: seq<Message>, lost: set<string>)
    requires u.User? && OpensBatch(m1) && GoodCalls(m1.calls.calls) && Batches(rest)
    ensures Normalized([u, m1] + StubsFor(m1.calls.calls, lost) + rest).messages
         == [u, m1] + HeadStubs(m1.calls.calls, lost) + rest
  {
    var calls := m1.calls.calls;
    var stubs := StubsFor(calls, lost);
    var behind := [m1] + (stubs + rest);
    Nest(u, m1, stubs, rest);
    Nest(u, m1, HeadStubs(calls, lost), rest);
    assert forall m :: m in behind ==> !m.System? && !m.Unknown? by {
      ClosedRoles(rest);
      StubsAreTools(calls, lost);
    }
    RepairHeadBatch(m1, calls, lost, rest);
    NormalizeBehindUser(u, behind);
  }

  lemma SplicedPlain(u: Message, m1: Message, rest: seq<Message>)
    requires u.User? && (m1.User? || (m1.Assistant? && !OpensBatch(m1))) && Batches(rest)
    ensures Normalized([u, m1] + rest).messages == [u, m1] + rest
  {
    if m1.User? { UserIsClosed(m1.content); } else { PlainAssistantIsClosed(m1); }
    UserIsClosed(u.content);
    BatchesConcat([u], [m1]);
    assert [u] + [m1] == [u, m1];
    BatchesConcat([u, m1], rest);
    ValidIsUntouched([u, m1] + rest);
  }

  lemma SplicedEither(u: Message, m1: Message, rest: seq<Message>, lost: set<string>)
    requires u.User? && (m1.User? || m1.Assistant?)
    requires OpensBatch(m1) ==> GoodCalls(m1.calls.calls)
    requires Batches(rest)
    ensures Normalized([u, m1] + StubsBehind(m1, lost) + rest).messages
         == [u, m1] + StubbedHead(m1, lost) + rest
  {
    if OpensBatch(m1) {
      SplicedBatch(u, m1, rest, lost);
    } else {
      SplicedPlain(u, m1, rest);
      assert [u, m1] + [] + rest == [u, m1] + rest;
    }
  }

  /** Normalising the sanitised splice only adds the stubs of the second message's calls. */
  lemma SplicedResult(u: Message, m1: Message, rest: seq<Message>)
    requires u.User? && (m1.User? || m1.Assistant?)
    requires OpensBatch(m1) ==> GoodCalls(m1.calls.calls)
    requires Batches(rest)
    ensures Normalized(Sanitized([u, m1] + rest)).messages
         == [u, m1] + StubbedHead(m1, CallIds([m1]) - ResultIds(rest)) + rest
  {
    SanitizeSplice(u, m1, rest);
    SplicedEither(u, m1, rest, CallIds([m1]) - ResultIds(rest));
  }

  // ----- the main results -----

  /** Everything about the cut path: what the second message is and where the tail starts. */
  lemma CutFacts(ms: seq<Message>, cfg: Config, actual: Option<int>)
    requires Valid(ms) && Cuts(ms, cfg, actual)
    ensures var t := TailStart(ms, cfg.tailBudget, cfg.est);
      && HEAD_COUNT + 2 < t < |ms|
      && !ms[t].Tool? && Batches(ms[t..])
      && Tokens(ms[t..], cfg.est) >= cfg.tailBudget
      && ms[0].User? && (ms[1].User? || ms[1].Assistant?)
      && (OpensBatch(ms[1]) ==> GoodCalls(ms[1].calls.calls) && |ms[1].calls.calls| + 2 <= t)
  {
    var t := TailStart(ms, cfg.tailBudget, cfg.est);
    TailStartMeans(ms, cfg.tailBudget, cfg.est, t);
    var i: nat :| BudgetPoint(ms, cfg.tailBudget, cfg.est, i) && t == Aligned(ms, i);
    TokensGrow(ms, cfg.est, t, i);
    BatchesCut(ms, t);
    var rest := ms[1..];
    if OpensBatch(ms[1]) {
      GroupTail(rest);
      assert rest[t - 1] == ms[t];
    }
  }

  lemma {:induction false} TokensGrow(ms: seq<Message>, est: Message -> nat, t: nat, i: nat)
    requires t <= i <= |ms|
    ensures Tokens(ms[t..], est) >= Tokens(ms[i..], est)
    decreases i - t
  {
    if t < i {
      assert ms[t..][1..] == ms[t + 1..];
      TokensGrow(ms, est, t + 1, i);
    }
  }

  /** The result of `compress`, exactly. Off the cut path it is the normalised transcript. On it,
      it is the first two messages, one stub per call of the second, the summary if there is one,
      and everything from the aligned tail start on, verbatim. It raises only on a `tool_calls`
      value that is not a list. */
  lemma CompressShape(raw: seq<Message>, cfg: Config, actual: Option<int>, summary: Option<string>)
    ensures var ms := Normalized(raw).messages; var out := Compressed(raw, cfg, actual, summary);
      && (out.None? <==> HasNonList(ms))
      && (out.Some? && !Cuts(ms, cfg, actual) ==> out.value == ms)
      && (out.Some? && Cuts(ms, cfg, actual) ==>
            var t := TailStart(ms, cfg.tailBudget, cfg.est);
            && t < |ms|
            && var rest := SummaryPart(summary) + ms[t..];
               out.value == ms[..2] + StubbedHead(ms[1], CallIds([ms[1]]) - ResultIds(rest)) + rest)
  {
    var ms := Normalized(raw).messages;
    NormalizedIsValid(raw);
    if HasNonList(ms) {
    } else if !Cuts(ms, cfg, actual) {
      SanitizeKeepsClosed(ms);
    } else {
      CutFacts(ms, cfg, actual);
      SpliceShape(ms, TailStart(ms, cfg.tailBudget, cfg.est), summary);
    }
  }

  lemma SpliceShape(ms: seq<Message>, t: nat, summary: Option<string>)
    requires 2 <= t < |ms| && Batches(ms[t..])
    requires ms[0].User? && (ms[1].User? || ms[1].Assistant?)
    requires OpensBatch(ms[1]) ==> GoodCalls(ms[1].calls.calls)
    ensures var rest := SummaryPart(summary) + ms[t..];
      && Batches(rest)
      && Normalized(Sanitized(Spliced(ms, t, summary))).messages
           == ms[..2] + StubbedHead(ms[1], CallIds([ms[1]]) - ResultIds(rest)) + rest
  {
    var rest := SummaryPart(summary) + ms[t..];
    if SummaryPart(summary) != [] {
      UserIsClosed(SummaryPart(summary)[0].content);
    }
    BatchesConcat(SummaryPart(summary), ms[t..]);
    assert ms[..2] == [ms[0], ms[1]];
    Regroup(ms[..2], SummaryPart(summary), ms[t..]);
    SplicedResult(ms[0], ms[1], rest);
  }

  /** On the cut path every result names a declared call, so sanitising never drops one. */
  lemma SpliceHasNoOrphans(raw: seq<Message>, cfg: Config, actual: Option<int>, summary: Option<string>)
    requires Cuts(Normalized(raw).messages, cfg, actual)
    ensures var ms := Normalized(raw).messages; var t := TailStart(ms, cfg.tailBudget, cfg.est);
      && t <= |ms|
      && var spliced := Spliced(ms, t, summary);
         ResultIds(spliced) <= CallIds(spliced)
  {
    var ms := Normalized(raw).messages;
    NormalizedIsValid(raw);
    CutFacts(ms, cfg, actual);
    var t := TailStart(ms, cfg.tailBudget, cfg.est);
    var rest := SummaryPart(summary) + ms[t..];
    SpliceShape(ms, t, summary);
    assert ms[..2] == [ms[0], ms[1]];
    Regroup(ms[..2], SummaryPart(summary), ms[t..]);
    SpliceIds(ms[0], ms[1], rest);
  }

  /** Whatever the summariser answers, compression returns a transcript a provider accepts. */
  lemma CompressedIsValid(raw: seq<Message>, cfg: Config, actual: Option<int>, summary: Option<string>)
    requires Compressed(raw, cfg, actual, summary).Some?
    ensures Valid(Compressed(raw, cfg, actual, summary).value)
  {
    CompressShape(raw, cfg, actual, summary);
    var ms := Normalized(raw).messages;
    if Cuts(ms, cfg, actual) {
      NormalizedIsValid(Sanitized(Spliced(ms, TailStart(ms, cfg.tailBudget, cfg.est), summary)));
    } else {
      NormalizedIsValid(raw);
    }
  }

  /** Length of the result: compression can only lengthen a transcript when it writes a summary and
      the tail starts right behind the head batch's own results, and then by one message. */
  lemma CompressedLength(raw: seq<Message>, cfg: Config, actual: Option<int>, summary: Option<string>)
    requires Compressed(raw, cfg, actual, summary).Some?
    ensures var ms := Normalized(raw).messages; var out := Compressed(raw, cfg, actual, summary).value;
      var k := if |ms| >= 2 && OpensBatch(ms[1]) then |ms[1].calls.calls| else 0;
      && |out| <= |ms| + 1
      && (|out| > |ms| <==> Cuts(ms, cfg, actual) && SummaryPart(summary) != []
                            && TailStart(ms, cfg.tailBudget, cfg.est) == k + 2)
      && (Cuts(ms, cfg, actual) && k == 0 ==> |out| <= |ms| - 2)
  {
    CompressShape(raw, cfg, actual, summary);
    var ms := Normalized(raw).messages;
    NormalizedIsValid(raw);
    if Cuts(ms, cfg, actual) {
      CutFacts(ms, cfg, actual);
    }
  }

  /** The growing case is real: a head batch of three calls directly before the tail. */
  lemma CompressionCanGrow()
    ensures exists raw, cfg, summary ::
      var out := Compressed(raw, cfg, None, summary);
      out.Some? && |out.value| == |raw| + 1 && Valid(raw)
  {
    var calls := [SampleCall("a"), SampleCall("b"), SampleCall("c")];
    assert WellFormed(calls[0]) && WellFormed(calls[1]) && WellFormed(calls[2]);
    var results := HeadStubs(calls, {});
    GrowingTranscript(calls, results);
  }

  /** A user message, a batch of three with its results, and a closing user message. */
  function ThreeCallTranscript(calls: seq<RawCall>, results: seq<Message>): seq<Message> {
    [User("start")] + ([Assistant("", CallList(calls))] + results) + [User("go on")]
  }

  lemma ThreeCallsAreValid(calls: seq<RawCall>, results: seq<Message>)
    requires |calls| == 3 && GoodCalls(calls) && Answers(calls, results)
    ensures Valid(ThreeCallTranscript(calls, results))
    ensures !HasNonList(ThreeCallTranscript(calls, results))
  {
    var u, m, last := User("start"), Assistant("", CallList(calls)), User("go on");
    BatchIsClosed(m, results);
    UserIsClosed(u.content);
    UserIsClosed(last.content);
    BatchesConcat([u], [m] + results);
    BatchesConcat([u] + ([m] + results), [last]);
    forall x | x in ThreeCallTranscript(calls, results) ensures !(x.Assistant? && x.calls.NotAList?) {
      assert x == u || x == m || x == last || x in results;
    }
  }

  /** With one token a message, a budget of one token puts the tail start on the last message. */
  lemma LastMessageTail(ms: seq<Message>)
    requires ms != [] && ms[|ms| - 1].User?
    ensures TailStart(ms, 1, (x: Message) => 1) == |ms| - 1
  {
    var est := (x: Message) => 1;
    var n := |ms| - 1;
    assert ms[n..] == [ms[n]] && [ms[n]][1..] == [];
    assert BudgetPoint(ms, 1, est, n) && Aligned(ms, n) == n;
    TailStartMeans(ms, 1, est, n);
  }

  lemma GrowingTranscript(calls: seq<RawCall>, results: seq<Message>)
    requires |calls| == 3 && GoodCalls(calls) && Answers(calls, results)
    ensures exists raw, cfg, summary ::
      var out := Compressed(raw, cfg, None, summary);
      out.Some? && |out.value| == |raw| + 1 && Valid(raw)
  {
    var raw := ThreeCallTranscript(calls, results);
    var cfg := Config(0, 1, (x: Message) => 1);
    ThreeCallsAreValid(calls, results);
    ValidIsUntouched(raw);
    assert |raw| == 6 && raw[5] == User("go on") && raw[1] == Assistant("", CallList(calls));
    LastMessageTail(raw);
    assert Cuts(raw, cfg, None);
    CompressedLength(raw, cfg, None, Some("s"));
    assert Compressed(raw, cfg, None, Some("s")).Some?;
  }

  // ----- the result in plain terms -----

  /** The estimate or the provider's own count reaches the threshold. */
  predicate Heavy(ms: seq<Message>, cfg: Config, actual: Option<int>) {
    Tokens(ms, cfg.est) >= cfg.threshold || (actual.Some? && actual.value >= cfg.threshold)
  }

  /** `t` is the last position, not at a tool result, from which the rest reaches the tail budget, and at
      least three messages lie between it and the head. */
  ghost predicate TailAt(ms: seq<Message>, cfg: Config, t: nat) {
    && 4 < t < |ms| && !ms[t].Tool? && Tokens(ms[t..], cfg.est) >= cfg.tailBudget
    && forall j :: t < j < |ms| && !ms[j].Tool? ==> Tokens(ms[j..], cfg.est) < cfg.tailBudget
  }

  /** The tail holds a result under the id of this call. */
  predicate HasResult(tail: seq<Message>, c: RawCall) {
    exists i :: 0 <= i < |tail| && tail[i].Tool? && tail[i].callId == IdOf(c)
  }

  /** `stubs` stands for the results of the head batch: one per call, under its id and name. */
  predicate StandsFor(stubs: seq<Message>, head: Message, tail: seq<Message>) {
    var calls := if head.Assistant? && head.calls.CallList? then head.calls.calls else [];
    && |stubs| == |calls|
    && forall i :: 0 <= i < |calls| ==>
         IsStub(stubs[i], calls[i], if HasResult(tail, calls[i]) then LOST_RESULT else COMPRESSED_RESULT)
  }

  predicate IsStub(m: Message, c: RawCall, text: string) {
    m.Tool? && m.callId == IdOf(c) && m.name == CallName(c) && m.content == text
  }

  /** The summariser's whole answer behind a header, or nothing. */
  predicate Summarises(part: seq<Message>, summary: Option<string>) {
    part == if summary.None? || summary.value == "" then [] else [User("[Context Summary]\n" + summary.value)]
  }

  predicate Cut(out: seq<Message>, ms: seq<Message>, t: nat, summary: Option<string>,
                stubs: seq<Message>, part: seq<Message>)
    requires 2 <= t <= |ms|
  {
    && StandsFor(stubs, ms[1], ms[t..]) && Summarises(part, summary)
    && out == [ms[0], ms[1]] + stubs + part + ms[t..]
  }

  /** `out` is `ms` cut before `t`: two messages, stubs, the summary, and the tail verbatim. */
  ghost predicate CutAt(out: seq<Message>, ms: seq<Message>, t: nat, summary: Option<string>) {
    2 <= t <= |ms| && exists stubs, part :: Cut(out, ms, t, summary, stubs, part)
  }

  /** `out` is what compressing the valid transcript `ms` comes to. */
  ghost predicate CompressesTo(ms: seq<Message>, cfg: Config, actual: Option<int>, summary: Option<string>,
                               out: seq<Message>)
  {
    && (forall t: nat :: Heavy(ms, cfg, actual) && TailAt(ms, cfg, t) ==> CutAt(out, ms, t, summary))
    && ((forall t: nat :: !(Heavy(ms, cfg, actual) && TailAt(ms, cfg, t))) ==> out == ms)
  }

  /** There is one such result and no other. */
  lemma CompressesToOne(ms: seq<Message>, cfg: Config, actual: Option<int>, summary: Option<string>,
                        a: seq<Message>, b: seq<Message>)
    requires CompressesTo(ms, cfg, actual, summary, a) && CompressesTo(ms, cfg, actual, summary, b)
    ensures a == b
  {
    if t: nat :| Heavy(ms, cfg, actual) && TailAt(ms, cfg, t) {
      var s1, p1 :| Cut(a, ms, t, summary, s1, p1);
      var s2, p2 :| Cut(b, ms, t, summary, s2, p2);
      assert p1 == p2;
      forall i | 0 <= i < |s1| ensures s1[i] == s2[i] {
        var calls := ms[1].calls.calls;
        var text := if HasResult(ms[t..], calls[i]) then LOST_RESULT else COMPRESSED_RESULT;
        assert IsStub(s1[i], calls[i], text) && IsStub(s2[i], calls[i], text);
      }
      assert s1 == s2;
    }
  }

  /** Tokens add up message by message. */
  lemma {:induction false} TokensAdd(a: seq<Message>, b: seq<Message>, est: Message -> nat)
    ensures Tokens(a + b, est) == Tokens(a, est) + Tokens(b, est)
    ensures forall m :: Tokens([m], est) == est(m)
  {
    forall m ensures Tokens([m], est) == est(m) {
      assert [m][1..] == [];
    }
    if a == [] {
      assert a + b == b;
    } else {
      assert (a + b)[1..] == a[1..] + b;
      TokensAdd(a[1..], b, est);
    }
  }

  lemma TailAtIff(ms: seq<Message>, cfg: Config, t: nat)
    ensures TailAt(ms, cfg, t) <==> t == TailStart(ms, cfg.tailBudget, cfg.est) && t > HEAD_COUNT + 2
  {
    var s := TailStart(ms, cfg.tailBudget, cfg.est);
    TailStartMeans(ms, cfg.tailBudget, cfg.est, s);
    if i: nat :| BudgetPoint(ms, cfg.tailBudget, cfg.est, i) && s == Aligned(ms, i) {
      TokensGrow(ms, cfg.est, s, i);
      assert t < s && s > 0 ==> !ms[s].Tool?;
    }
  }

  lemma SummaryPartMeans(summary: Option<string>)
    ensures Summarises(SummaryPart(summary), summary)
  {
  }

  /** The stubs of the head batch, whatever summary stands before the tail. */
  lemma StubbedHeadMeans(m1: Message, part: seq<Message>, tail: seq<Message>)
    requires m1.User? || m1.Assistant?
    requires OpensBatch(m1) ==> GoodCalls(m1.calls.calls)
    requires forall i :: 0 <= i < |part| ==> part[i].User?
    requires !(m1.Assistant? && m1.calls.NotAList?)
    ensures StandsFor(StubbedHead(m1, CallIds([m1]) - ResultIds(part + tail)), m1, tail)
  {
    var lost := CallIds([m1]) - ResultIds(part + tail);
    OneMessage(m1);
    if OpensBatch(m1) {
      var calls := m1.calls.calls;
      forall i | 0 <= i < |calls|
        ensures IsStub(HeadStub(calls[i], lost), calls[i],
                       if HasResult(tail, calls[i]) then LOST_RESULT else COMPRESSED_RESULT)
      {
        assert WellFormed(calls[i]) && calls[i] in calls;
        ResultIdsMean(part, tail, calls[i]);
      }
    }
  }

  lemma ResultIdsMean(part: seq<Message>, tail: seq<Message>, c: RawCall)
    requires CallId(c) != "" && forall i :: 0 <= i < |part| ==> part[i].User?
    ensures CallId(c) in ResultIds(part + tail) <==> HasResult(tail, c)
  {
    var all := part + tail;
    if CallId(c) in ResultIds(all) {
      var m :| m in all && m.Tool? && m.callId == Some(CallId(c));
      var i :| 0 <= i < |all| && all[i] == m;
      assert tail[i - |part|] == m;
    }
    if HasResult(tail, c) {
      var i :| 0 <= i < |tail| && tail[i].Tool? && tail[i].callId == IdOf(c);
      assert all[|part| + i] == tail[i];
      assert tail[i] in all;
    }
  }

  /** When compression cuts, where, and what it leaves, in terms of tokens, budgets and the summariser's
      answer alone. */
  lemma CompressMeans(raw: seq<Message>, cfg: Config, actual: Option<int>, summary: Option<string>)
    ensures var ms := Normalized(raw).messages; var out := Compressed(raw, cfg, actual, summary);
      && (out.None? <==> exists m :: m in ms && m.Assistant? && m.calls.NotAList?)
      && (out.Some? ==> CompressesTo(ms, cfg, actual, summary, out.value))
  {
    var ms := Normalized(raw).messages; var out := Compressed(raw, cfg, actual, summary);
    CompressShape(raw, cfg, actual, summary);
    HeavyMeans(ms, cfg, actual);
    forall t: nat ensures TailAt(ms, cfg, t)
      <==> t == TailStart(ms, cfg.tailBudget, cfg.est) && t > HEAD_COUNT + 2
    {
      TailAtIff(ms, cfg, t);
    }
    if out.Some? && Cuts(ms, cfg, actual) {
      CutMeans(raw, cfg, actual, summary);
      assert TailAt(ms, cfg, TailStart(ms, cfg.tailBudget, cfg.est));
    }
  }

  lemma HeavyMeans(ms: seq<Message>, cfg: Config, actual: Option<int>)
    ensures Heavy(ms, cfg, actual) <==> EffectiveTokens(ms, cfg.est, actual) >= cfg.threshold
  {
  }

  lemma CutMeans(raw: seq<Message>, cfg: Config, actual: Option<int>, summary: Option<string>)
    requires Compressed(raw, cfg, actual, summary).Some? && Cuts(Normalized(raw).messages, cfg, actual)
    ensures var ms := Normalized(raw).messages;
      CutAt(Compressed(raw, cfg, actual, summary).value, ms, TailStart(ms, cfg.tailBudget, cfg.est), summary)
  {
    var ms := Normalized(raw).messages;
    NormalizedIsValid(raw);
    CompressShape(raw, cfg, actual, summary);
    CutFacts(ms, cfg, actual);
    var t := TailStart(ms, cfg.tailBudget, cfg.est);
    assert ms[1] in ms;
    CutListMeans(Compressed(raw, cfg, actual, summary).value, ms, t, summary);
  }

  lemma CutListMeans(out: seq<Message>, ms: seq<Message>, t: nat, summary: Option<string>)
    requires 2 <= t <= |ms| && (ms[1].User? || ms[1].Assistant?) && !(ms[1].Assistant? && ms[1].calls.NotAList?)
    requires OpensBatch(ms[1]) ==> GoodCalls(ms[1].calls.calls)
    requires var rest := SummaryPart(summary) + ms[t..];
      out == ms[..2] + StubbedHead(ms[1], CallIds([ms[1]]) - ResultIds(rest)) + rest
    ensures CutAt(out, ms, t, summary)
  {
    var part, tail := SummaryPart(summary), ms[t..];
    var stubs := StubbedHead(ms[1], CallIds([ms[1]]) - ResultIds(part + tail));
    StubbedHeadMeans(ms[1], part, tail);
    SummaryPartMeans(summary);
    FourParts(ms[..2], stubs, part, tail);
    assert ms[..2] == [ms[0], ms[1]];
    assert Cut(out, ms, t, summary, stubs, part);
  }

  lemma FourParts<T>(a: seq<T>, b: seq<T>, c: seq<T>, d: seq<T>)
    ensures a + b + (c + d) == a + b + c + d
  {
  }
}
