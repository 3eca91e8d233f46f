/** What normalisation guarantees, for every stored history. */
module NormalizationTheorems {
  import opened Transcript
  import opened Normalization

  // ----- soundness -----

  lemma {:induction false} FirstResultSound(run: seq<Message>, id: string)
    ensures var m := FirstResult(run, id);
      m.Some? ==> m.value in run && m.value.Tool? && m.value.callId == Some(id)
  {
    if run != [] && !(run[0].Tool? && run[0].callId == Some(id)) {
      FirstResultSound(run[1..], id);
    }
  }

  lemma ResultsAnswer(calls: seq<RawCall>, run: seq<Message>)
    requires GoodCalls(calls)
    ensures Answers(calls, Results(calls, run))
  {
    forall i | 0 <= i < |calls|
      ensures Results(calls, run)[i].Tool? && Results(calls, run)[i].callId == IdOf(calls[i])
    {
      FirstResultSound(run, CallId(calls[i]));
      assert WellFormed(calls[i]);
    }
  }

  lemma RepairedGroupIsClosed(m: Message, run: seq<Message>)
    requires !m.System? && !m.Unknown?
    ensures Batches(GroupMessages(m, run))
  {
    if OpensBatch(m) {
      var kept := KeepCalls(m.calls.calls, {});
      if kept == [] {
        PlainAssistantIsClosed(Assistant(m.content, Missing));
      } else {
        KeepCallsGood(m.calls.calls, {});
        ResultsAnswer(kept, run);
        BatchIsClosed(Assistant(m.content, CallList(kept)), Results(kept, run));
      }
    } else if m.User? {
      UserIsClosed(m.content);
    } else if m.Assistant? {
      PlainAssistantIsClosed(m);
    }
  }

  lemma {:induction false} RepairedIsClosed(ms: seq<Message>)
    requires forall m :: m in ms ==> !m.System? && !m.Unknown?
    ensures Batches(Repaired(ms))
    decreases |ms|
  {
    if ms != [] {
      var n := RawGroup(ms);
      RepairedGroupIsClosed(ms[0], ms[1..n]);
      RepairedIsClosed(ms[n..]);
      BatchesConcat(GroupMessages(ms[0], ms[1..n]), Repaired(ms[n..]));
    }
  }

  /** For any stored history the normalised one meets the provider contract. */
  lemma NormalizedIsValid(raw: seq<Message>)
    ensures Valid(Normalized(raw).messages)
  {
    var canonical := Canonical(raw);
    RepairedIsClosed(canonical);
    if canonical != [] {
      var rest := Repaired(canonical[1..]);
      assert Repaired(canonical) == [canonical[0]] + rest;
    }
  }

  // ----- identity on valid transcripts -----

  lemma {:induction false} GoodCallsAreKept(calls: seq<RawCall>, seen: set<string>)
    requires GoodCalls(calls)
    requires forall i :: 0 <= i < |calls| ==> CallId(calls[i]) !in seen
    ensures KeepCalls(calls, seen) == calls && DropCalls(calls, seen) == []
  {
    if calls != [] {
      var rest := calls[1..];
      forall i | 0 <= i < |rest| ensures CallId(rest[i]) !in seen + {CallId(calls[0])} {
        assert rest[i] == calls[i + 1] && WellFormed(calls[i + 1]);
      }
      GoodCallsAreKept(rest, seen + {CallId(calls[0])});
    }
  }

  lemma {:induction false} FirstResultAt(run: seq<Message>, id: string, i: nat)
    requires i < |run| && run[i].Tool? && run[i].callId == Some(id)
    requires forall j :: 0 <= j < i ==> run[j].Tool? && run[j].callId != Some(id)
    ensures FirstResult(run, id) == Some(run[i])
  {
    if i > 0 {
      FirstResultAt(run[1..], id, i - 1);
    }
  }

  lemma AnsweredCall(calls: seq<RawCall>, run: seq<Message>, i: nat)
    requires GoodCalls(calls) && Answers(calls, run) && i < |calls|
    ensures FirstResult(run, CallId(calls[i])) == Some(run[i])
  {
    assert WellFormed(calls[i]);
    forall j | 0 <= j < i ensures run[j].callId != Some(CallId(calls[i])) {
      assert IdOf(calls[j]) != IdOf(calls[i]);
    }
    FirstResultAt(run, CallId(calls[i]), i);
  }

  lemma AnswersAreResults(calls: seq<RawCall>, run: seq<Message>)
    requires GoodCalls(calls) && Answers(calls, run)
    ensures Results(calls, run) == run
  {
    forall i | 0 <= i < |calls| ensures Results(calls, run)[i] == run[i] {
      AnsweredCall(calls, run, i);
    }
  }

  lemma {:induction false} NoStubsWhenFound(calls: seq<RawCall>, run: seq<Message>)
    requires forall i :: 0 <= i < |calls| ==> FirstResult(run, CallId(calls[i])).Some?
    ensures StubsOf(calls, run) == []
  {
    if calls != [] {
      NoStubsWhenFound(calls[1..], run);
    }
  }

  lemma {:induction false} AnswersAreClaimed(calls: seq<RawCall>, run: seq<Message>, open: set<string>)
    requires GoodCalls(calls) && Answers(calls, run)
    requires forall i :: 0 <= i < |calls| ==> CallId(calls[i]) in open
    ensures Unclaimed(run, open) == []
  {
    if calls != [] {
      var id := CallId(calls[0]);
      assert WellFormed(calls[0]) && Awaited(run[0], open);
      var rest := calls[1..];
      forall i | 0 <= i < |rest| ensures CallId(rest[i]) in open - {id} {
        assert rest[i] == calls[i + 1] && WellFormed(calls[i + 1]);
      }
      AnswersAreClaimed(rest, run[1..], open - {id});
    }
  }

  lemma ClosedToolRun(ms: seq<Message>)
    requires ms != [] && Batches(ms) && OpensBatch(ms[0])
    ensures ToolRun(ms[1..]) == |ms[0].calls.calls|
  {
    var k := |ms[0].calls.calls|;
    var rest := ms[1..];
    ToolRunIsMaximal(rest);
    GroupTail(ms);
    assert forall i :: 0 <= i < k ==> rest[i].Tool?;
    if k < |rest| {
      assert ms[k + 1..][0] == rest[k];
    }
  }

  lemma ClosedRawGroup(ms: seq<Message>)
    requires ms != [] && Batches(ms)
    ensures RawGroup(ms) == GroupSize(ms)
  {
    if OpensBatch(ms[0]) {
      GoodCallsAreKept(ms[0].calls.calls, {});
      ClosedToolRun(ms);
    }
  }

  lemma ClosedGroupMessages(ms: seq<Message>)
    requires ms != [] && Batches(ms)
    ensures GroupMessages(ms[0], ms[1..GroupSize(ms)]) == ms[..GroupSize(ms)]
  {
    if OpensBatch(ms[0]) {
      var calls := ms[0].calls.calls;
      GoodCallsAreKept(calls, {});
      AnswersAreResults(calls, ms[1..|calls| + 1]);
      assert ms[0] == Assistant(ms[0].content, CallList(calls));
    }
  }

  lemma ClosedGroupDropsNothing(ms: seq<Message>)
    requires ms != [] && Batches(ms)
    ensures var run := ms[1..GroupSize(ms)];
      GroupOrphans(ms[0], run) == [] && GroupInvalid(ms[0]) == [] && GroupStubs(ms[0], run) == []
  {
    if OpensBatch(ms[0]) {
      var calls := ms[0].calls.calls;
      var run := ms[1..|calls| + 1];
      GoodCallsAreKept(calls, {});
      forall i | 0 <= i < |calls| ensures FirstResult(run, CallId(calls[i])).Some? {
        AnsweredCall(calls, run, i);
      }
      NoStubsWhenFound(calls, run);
      AnswersAreClaimed(calls, run, Ids(calls));
    }
  }

  lemma {:induction false} RepairIsIdentity(ms: seq<Message>)
    requires Batches(ms)
    ensures Repaired(ms) == ms
    decreases |ms|
  {
    if ms != [] {
      SplitGroup(ms);
      RepairIsIdentity(ms[GroupSize(ms)..]);
      IdentityStep(ms, GroupSize(ms));
    }
  }

  lemma IdentityStep(ms: seq<Message>, n: nat)
    requires ms != [] && Batches(ms) && n == GroupSize(ms)
    requires Repaired(ms[n..]) == ms[n..]
    ensures Repaired(ms) == ms
  {
    ClosedRawGroup(ms);
    ClosedGroupMessages(ms);
    assert ms[..n] + ms[n..] == ms;
  }

  lemma {:induction false} RepairDropsNothing(ms: seq<Message>)
    requires Batches(ms)
    ensures Orphans(ms) == [] && InvalidCalls(ms) == [] && Stubs(ms) == []
    decreases |ms|
  {
    if ms != [] {
      ClosedRawGroup(ms);
      ClosedGroupDropsNothing(ms);
      SplitGroup(ms);
      RepairDropsNothing(ms[GroupSize(ms)..]);
    }
  }

  lemma {:induction false} ClosedHasChatRoles(ms: seq<Message>)
    requires forall m :: m in ms ==> !m.System? && !m.Unknown?
    ensures ChatRoles(ms) == ms && CountSystem(ms) == 0 && CountUnknown(ms) == 0
  {
    if ms != [] {
      assert ms[0] in ms;
      ClosedHasChatRoles(ms[1..]);
    }
  }

  lemma {:induction false} ClosedRoles(ms: seq<Message>)
    requires Batches(ms)
    ensures forall m :: m in ms ==> !m.System? && !m.Unknown?
    decreases |ms|
  {
    if ms != [] {
      var n := GroupSize(ms);
      SplitGroup(ms);
      GroupTail(ms);
      ClosedRoles(ms[n..]);
      forall m | m in ms ensures !m.System? && !m.Unknown? {
        var i :| 0 <= i < |ms| && ms[i] == m;
        if i >= n { assert ms[n..][i - n] == m; }
      }
    }
  }

  /** A valid transcript comes back untouched, with all six counters at zero. */
  lemma ValidIsUntouched(ms: seq<Message>)
    requires Valid(ms)
    ensures Normalized(ms).messages == ms && !Normalized(ms).Changed()
  {
    ClosedRoles(ms);
    ClosedHasChatRoles(ms);
    assert LeadingFragment(ms) == 0;
    assert ms[0..] == ms;
    RepairIsIdentity(ms);
    RepairDropsNothing(ms);
  }

  /** The fixed points of normalisation are exactly the valid transcripts. */
  lemma FixedPointIffValid(ms: seq<Message>)
    ensures Normalized(ms).messages == ms <==> Valid(ms)
  {
    NormalizedIsValid(ms);
    if Valid(ms) {
      ValidIsUntouched(ms);
    }
  }

  lemma NormalizeIsIdempotent(raw: seq<Message>)
    ensures var once := Normalized(raw).messages;
      Normalized(once).messages == once && !Normalized(once).Changed()
  {
    NormalizedIsValid(raw);
    ValidIsUntouched(Normalized(raw).messages);
  }

  // ----- conservation -----

  function Tools(ms: seq<Message>): seq<Message> {
    if ms == [] then [] else (if ms[0].Tool? then [ms[0]] else []) + Tools(ms[1..])
  }

  /** Everything said, with the call lists blanked out. */
  function Speech(ms: seq<Message>): seq<Message> {
    if ms == [] then []
    else (if ms[0].Tool? then []
          else if ms[0].Assistant? then [Assistant(ms[0].content, Missing)]
          else [ms[0]]) + Speech(ms[1..])
  }

  function AllCalls(ms: seq<Message>): seq<RawCall> {
    if ms == [] then []
    else (if ms[0].Assistant? && ms[0].calls.CallList? then ms[0].calls.calls else []) + AllCalls(ms[1..])
  }

  lemma {:induction false} ToolsOfConcat(a: seq<Message>, b: seq<Message>)
    ensures Tools(a + b) == Tools(a) + Tools(b)
  {
    if a == [] {
      assert a + b == b;
    } else {
      assert (a + b)[0] == a[0] && (a + b)[1..] == a[1..] + b;
      ToolsOfConcat(a[1..], b);
    }
  }

  lemma {:induction false} SpeechOfConcat(a: seq<Message>, b: seq<Message>)
    ensures Speech(a + b) == Speech(a) + Speech(b)
  {
    if a == [] {
      assert a + b == b;
    } else {
      assert (a + b)[0] == a[0] && (a + b)[1..] == a[1..] + b;
      SpeechOfConcat(a[1..], b);
    }
  }

  lemma {:induction false} CallsOfConcat(a: seq<Message>, b: seq<Message>)
    ensures AllCalls(a + b) == AllCalls(a) + AllCalls(b)
  {
    if a == [] {
      assert a + b == b;
    } else {
      assert (a + b)[0] == a[0] && (a + b)[1..] == a[1..] + b;
      CallsOfConcat(a[1..], b);
    }
  }

  lemma {:induction false} OnlyTools(run: seq<Message>)
    requires forall i :: 0 <= i < |run| ==> run[i].Tool?
    ensures Tools(run) == run && Speech(run) == [] && AllCalls(run) == []
  {
    if run != [] {
      OnlyTools(run[1..]);
    }
  }

  lemma {:induction false} NothingAwaited(run: seq<Message>)
    ensures Unclaimed(run, {}) == run
  {
    if run != [] {
      NothingAwaited(run[1..]);
    }
  }

  /** Awaiting one more id takes exactly the first result for it out of the unclaimed ones. */
  lemma {:induction false} ClaimOne(run: seq<Message>, open: set<string>, id: string, x: Message)
    requires id !in open
    ensures multiset(Unclaimed(run, open))[x]
         == multiset(Unclaimed(run, open + {id}))[x] + (if FirstResult(run, id) == Some(x) then 1 else 0)
    ensures |Unclaimed(run, open)|
         == |Unclaimed(run, open + {id})| + (if FirstResult(run, id).Some? then 1 else 0)
  {
    if run != [] {
      var t, rest := run[0], run[1..];
      if t.Tool? && t.callId == Some(id) {
        assert open + {id} - {id} == open;
      } else if Awaited(t, open) {
        ClaimOne(rest, open - {t.callId.value}, id, x);
        assert open + {id} - {t.callId.value} == open - {t.callId.value} + {id};
      } else {
        ClaimOne(rest, open, id, x);
      }
    }
  }

  lemma IdsOfCons(calls: seq<RawCall>)
    requires calls != [] && GoodCalls(calls)
    ensures Ids(calls) == Ids(calls[1..]) + {CallId(calls[0])}
    ensures CallId(calls[0]) !in Ids(calls[1..])
  {
    var rest := calls[1..];
    forall id | id in Ids(calls) ensures id in Ids(rest) + {CallId(calls[0])} {
      var i :| 0 <= i < |calls| && CallId(calls[i]) == id;
      if i > 0 { assert rest[i - 1] == calls[i]; }
    }
    forall i | 0 <= i < |rest| ensures CallId(rest[i]) in Ids(calls) && CallId(rest[i]) != CallId(calls[0]) {
      assert rest[i] == calls[i + 1] && WellFormed(calls[i + 1]) && WellFormed(calls[0]);
    }
  }

  /** A batch's results plus its orphans are the run it consumed plus the stubs. */
  lemma {:induction false} ResultsConserve(calls: seq<RawCall>, run: seq<Message>, x: Message)
    requires GoodCalls(calls)
    ensures multiset(Results(calls, run))[x] + multiset(Unclaimed(run, Ids(calls)))[x]
         == multiset(run)[x] + multiset(StubsOf(calls, run))[x]
    ensures |calls| + |Unclaimed(run, Ids(calls))| == |run| + |StubsOf(calls, run)|
  {
    if calls == [] {
      NothingAwaited(run);
      assert Ids(calls) == {};
    } else {
      var rest := calls[1..];
      ResultsConserve(rest, run, x);
      IdsOfCons(calls);
      ClaimOne(run, Ids(rest), CallId(calls[0]), x);
      FirstResultCounts(calls, run, x);
    }
  }

  lemma FirstResultCounts(calls: seq<RawCall>, run: seq<Message>, x: Message)
    requires calls != []
    ensures var first := FirstResult(run, CallId(calls[0])); var r := ResultFor(calls[0], run);
      && multiset(Results(calls, run))[x]
           == multiset(Results(calls[1..], run))[x] + (if r == x then 1 else 0)
      && multiset(StubsOf(calls, run))[x]
           == multiset(StubsOf(calls[1..], run))[x] + (if first.None? && r == x then 1 else 0)
  {
    assert Results(calls, run) == [ResultFor(calls[0], run)] + Results(calls[1..], run);
  }

  lemma {:induction false} CallsConserve(raw: seq<RawCall>, seen: set<string>)
    ensures multiset(KeepCalls(raw, seen)) + multiset(DropCalls(raw, seen)) == multiset(raw)
  {
    if raw != [] {
      assert raw == [raw[0]] + raw[1..];
      if WellFormed(raw[0]) && CallId(raw[0]) !in seen {
        CallsConserve(raw[1..], seen + {CallId(raw[0])});
      } else {
        CallsConserve(raw[1..], seen);
      }
    }
  }

  lemma OneMessage(m: Message)
    ensures Tools([m]) == (if m.Tool? then [m] else [])
    ensures Speech([m]) == (if m.Tool? then [] else if m.Assistant? then [Assistant(m.content, Missing)] else [m])
    ensures AllCalls([m]) == (if m.Assistant? && m.calls.CallList? then m.calls.calls else [])
  {
    assert [m][1..] == [];
  }

  /** `m` with the run of tool messages its repair consumes. */
  predicate RawBatch(m: Message, run: seq<Message>) {
    && (forall i :: 0 <= i < |run| ==> run[i].Tool?)
    && (run != [] ==> OpensBatch(m) && KeepCalls(m.calls.calls, {}) != [])
  }

  lemma RawGroupIsBatch(ms: seq<Message>)
    requires ms != []
    ensures RawBatch(ms[0], ms[1..RawGroup(ms)])
    ensures ms == [ms[0]] + ms[1..RawGroup(ms)] + ms[RawGroup(ms)..]
  {
    ToolRunIsMaximal(ms[1..]);
  }

  /** The assistant message a batch is repaired to. */
  function RepairedHead(m: Message): Message
    requires OpensBatch(m)
  {
    var kept := KeepCalls(m.calls.calls, {});
    Assistant(m.content, if kept == [] then Missing else CallList(kept))
  }

  lemma RepairedBatchShape(m: Message, run: seq<Message>)
    requires OpensBatch(m)
    ensures var rs := Results(KeepCalls(m.calls.calls, {}), run);
      && GroupMessages(m, run) == [RepairedHead(m)] + rs
      && forall i :: 0 <= i < |rs| ==> rs[i].Tool?
  {
    KeepCallsGood(m.calls.calls, {});
    ResultsAnswer(KeepCalls(m.calls.calls, {}), run);
  }

  lemma GroupToolsConserve(m: Message, run: seq<Message>, x: Message)
    requires RawBatch(m, run)
    ensures multiset(Tools(GroupMessages(m, run)))[x] + multiset(GroupOrphans(m, run))[x]
         == multiset(Tools([m] + run))[x] + multiset(GroupStubs(m, run))[x]
    ensures |GroupMessages(m, run)| + |GroupOrphans(m, run)| == 1 + |run| + |GroupStubs(m, run)|
  {
    OneMessage(m);
    OnlyTools(run);
    ToolsOfConcat([m], run);
    if OpensBatch(m) {
      var kept := KeepCalls(m.calls.calls, {});
      KeepCallsGood(m.calls.calls, {});
      ResultsConserve(kept, run, x);
      GroupTools(m, run);
    }
  }

  lemma GroupTools(m: Message, run: seq<Message>)
    requires OpensBatch(m)
    ensures Tools(GroupMessages(m, run)) == Results(KeepCalls(m.calls.calls, {}), run)
  {
    RepairedBatchShape(m, run);
    OneMessage(RepairedHead(m));
    OnlyTools(Results(KeepCalls(m.calls.calls, {}), run));
    ToolsOfConcat([RepairedHead(m)], Results(KeepCalls(m.calls.calls, {}), run));
  }

  lemma GroupSpeechKept(m: Message, run: seq<Message>)
    requires RawBatch(m, run)
    ensures Speech(GroupMessages(m, run)) == Speech([m] + run)
  {
    OneMessage(m);
    OnlyTools(run);
    SpeechOfConcat([m], run);
    if OpensBatch(m) {
      RepairedBatchShape(m, run);
      OneMessage(RepairedHead(m));
      OnlyTools(Results(KeepCalls(m.calls.calls, {}), run));
      SpeechOfConcat([RepairedHead(m)], Results(KeepCalls(m.calls.calls, {}), run));
    }
  }

  lemma GroupCallsConserve(m: Message, run: seq<Message>)
    requires RawBatch(m, run)
    ensures multiset(AllCalls(GroupMessages(m, run))) + multiset(GroupInvalid(m)) == multiset(AllCalls([m] + run))
  {
    OneMessage(m);
    OnlyTools(run);
    CallsOfConcat([m], run);
    if OpensBatch(m) {
      CallsConserve(m.calls.calls, {});
      RepairedBatchShape(m, run);
      OneMessage(RepairedHead(m));
      OnlyTools(Results(KeepCalls(m.calls.calls, {}), run));
      CallsOfConcat([RepairedHead(m)], Results(KeepCalls(m.calls.calls, {}), run));
    }
  }

  /** No tool result is lost, duplicated or made up without being accounted for: every message
      `x` occurs as often among the output's results and the orphans as among the input's
      results and the stubs. */
  lemma {:induction false} ToolResultsConserve(ms: seq<Message>, x: Message)
    ensures multiset(Tools(Repaired(ms)))[x] + multiset(Orphans(ms))[x]
         == multiset(Tools(ms))[x] + multiset(Stubs(ms))[x]
    decreases |ms|
  {
    if ms != [] {
      var n := RawGroup(ms);
      var run, rest := ms[1..n], ms[n..];
      RawGroupIsBatch(ms);
      GroupToolsConserve(ms[0], run, x);
      ToolResultsConserve(rest, x);
      ToolsOfConcat([ms[0]] + run, rest);
      ToolsOfConcat(GroupMessages(ms[0], run), Repaired(rest));
      assert multiset(Orphans(ms))[x] == multiset(GroupOrphans(ms[0], run))[x] + multiset(Orphans(rest))[x];
      assert multiset(Stubs(ms))[x] == multiset(GroupStubs(ms[0], run))[x] + multiset(Stubs(rest))[x];
    }
  }

  lemma {:induction false} RepairedLength(ms: seq<Message>)
    ensures |Repaired(ms)| + |Orphans(ms)| == |ms| + |Stubs(ms)|
    decreases |ms|
  {
    if ms != [] {
      var n := RawGroup(ms);
      RawGroupIsBatch(ms);
      GroupToolsConserve(ms[0], ms[1..n], ms[0]);
      RepairedLength(ms[n..]);
    }
  }

  /** What users and the assistant said survives in order, word for word. */
  lemma {:induction false} SpeechIsKept(ms: seq<Message>)
    ensures Speech(Repaired(ms)) == Speech(ms)
    decreases |ms|
  {
    if ms != [] {
      var n := RawGroup(ms);
      var run, rest := ms[1..n], ms[n..];
      RawGroupIsBatch(ms);
      GroupSpeechKept(ms[0], run);
      SpeechIsKept(rest);
      SpeechOfConcat([ms[0]] + run, rest);
      SpeechOfConcat(GroupMessages(ms[0], run), Repaired(rest));
    }
  }

  lemma {:induction false} DeclaredCallsConserve(ms: seq<Message>)
    ensures multiset(AllCalls(Repaired(ms))) + multiset(InvalidCalls(ms)) == multiset(AllCalls(ms))
    decreases |ms|
  {
    if ms != [] {
      var n := RawGroup(ms);
      var run, rest := ms[1..n], ms[n..];
      RawGroupIsBatch(ms);
      GroupCallsConserve(ms[0], run);
      DeclaredCallsConserve(rest);
      CallsOfConcat([ms[0]] + run, rest);
      CallsOfConcat(GroupMessages(ms[0], run), Repaired(rest));
      assert InvalidCalls(ms) == GroupInvalid(ms[0]) + InvalidCalls(rest);
    }
  }

  lemma {:induction false} RolesCount(ms: seq<Message>)
    ensures |ChatRoles(ms)| + CountSystem(ms) + CountUnknown(ms) == |ms|
  {
    if ms != [] {
      RolesCount(ms[1..]);
    }
  }

  /** The six counters account for every message and every declared call, and no text changes. */
  lemma NormalizeAccounts(raw: seq<Message>)
    ensures var n := Normalized(raw); var c := n.counters;
      && |n.messages| == |raw| - c.system - c.unknown - c.leading - c.orphanTools + c.stubResults
      && |AllCalls(n.messages)| + c.invalidCalls == |AllCalls(Canonical(raw))|
      && Speech(n.messages) == Speech(Canonical(raw))
  {
    var canonical := Canonical(raw);
    RolesCount(raw);
    RepairedLength(canonical);
    SpeechIsKept(canonical);
    DeclaredCallsConserve(canonical);
    assert |multiset(AllCalls(Repaired(canonical)))| + |multiset(InvalidCalls(canonical))|
        == |multiset(AllCalls(canonical))|;
  }

  // ----- what `changed` does not report -----

  /** Equal except that results may trade places within their batch. */
  ghost predicate SameUpToResultOrder(a: seq<Message>, b: seq<Message>)
    decreases |a|
  {
    && |a| == |b|
    && (a != [] ==>
          var n := RawGroup(a);
          && a[0] == b[0]
          && multiset(a[1..n]) == multiset(b[1..n])
          && SameUpToResultOrder(a[n..], b[n..]))
  }

  lemma {:induction false} NothingDropped(raw: seq<RawCall>, seen: set<string>)
    requires DropCalls(raw, seen) == []
    ensures KeepCalls(raw, seen) == raw
  {
    if raw != [] {
      NothingDropped(raw[1..], seen + {CallId(raw[0])});
    }
  }

  lemma UnchangedGroup(m: Message, run: seq<Message>)
    requires RawBatch(m, run)
    requires GroupOrphans(m, run) == [] && GroupInvalid(m) == [] && GroupStubs(m, run) == []
    ensures var out := GroupMessages(m, run);
      |out| == 1 + |run| && out[0] == m && multiset(out[1..]) == multiset(run)
  {
    if OpensBatch(m) {
      var calls := m.calls.calls;
      NothingDropped(calls, {});
      KeepCallsGood(calls, {});
      var out := GroupMessages(m, run);
      assert out == [m] + Results(calls, run);
      assert out[1..] == Results(calls, run);
      forall x ensures multiset(Results(calls, run))[x] == multiset(run)[x] {
        ResultsConserve(calls, run, x);
      }
      ResultsConserve(calls, run, m);
    } else {
      assert run == [] && GroupMessages(m, run)[1..] == [];
    }
  }

  lemma {:induction false} UnchangedRepair(ms: seq<Message>)
    requires Orphans(ms) == [] && InvalidCalls(ms) == [] && Stubs(ms) == []
    ensures SameUpToResultOrder(ms, Repaired(ms))
    decreases |ms|
  {
    if ms != [] {
      var n := RawGroup(ms);
      RawGroupIsBatch(ms);
      UnchangedGroup(ms[0], ms[1..n]);
      UnchangedRepair(ms[n..]);
      RepairedLength(ms);
      var group := GroupMessages(ms[0], ms[1..n]);
      assert Repaired(ms) == group + Repaired(ms[n..]);
      assert Repaired(ms)[1..n] == group[1..] && Repaired(ms)[n..] == Repaired(ms[n..]);
    }
  }

  lemma {:induction false} AllChatRoles(ms: seq<Message>)
    requires CountSystem(ms) == 0 && CountUnknown(ms) == 0
    ensures ChatRoles(ms) == ms
  {
    if ms != [] {
      AllChatRoles(ms[1..]);
    }
  }

  /** When no counter moved, the output is the input up to the order of results in a batch ... */
  lemma UnchangedMeansReordered(raw: seq<Message>)
    requires !Normalized(raw).Changed()
    ensures SameUpToResultOrder(raw, Normalized(raw).messages)
  {
    AllChatRoles(raw);
    assert Canonical(raw) == raw;
    UnchangedRepair(raw);
  }

  function SampleCall(id: string): RawCall {
    CallDict(Some(id), Some(FunctionField(Some("read_file"), "{}")))
  }

  /** ... and that order can really differ: swapped results are put right without being counted. */
  lemma ReorderGoesUnreported()
    ensures exists raw :: !Normalized(raw).Changed() && Normalized(raw).messages != raw
  {
    var calls := [SampleCall("a"), SampleCall("b")];
    var ta, tb := Tool(Some("a"), "read_file", "A"), Tool(Some("b"), "read_file", "B");
    assert WellFormed(calls[0]) && WellFormed(calls[1]);
    SwappedPair(User("hi"), Assistant("", CallList(calls)), calls, ta, tb);
  }

  /** A batch of two whose results came back in the wrong order is invalid yet reported unchanged. */
  lemma SwappedPair(u: Message, m: Message, calls: seq<RawCall>, ta: Message, tb: Message)
    requires u.User? && m == Assistant(m.content, CallList(calls)) && |calls| == 2 && GoodCalls(calls)
    requires Answers(calls, [ta, tb])
    ensures !Normalized([u, m, tb, ta]).Changed()
    ensures Normalized([u, m, tb, ta]).messages != [u, m, tb, ta]
  {
    var batch := [m, tb, ta];
    SwappedBatch(m, calls, ta, tb);
    SwappedIsOpen(m, calls, ta, tb);
    assert [u, m, tb, ta] == [u] + batch;
    UnchangedBehindUser(u, batch);
    OpenBehindUser(u, batch);
  }

  lemma SwappedIsOpen(m: Message, calls: seq<RawCall>, ta: Message, tb: Message)
    requires m == Assistant(m.content, CallList(calls)) && |calls| == 2 && GoodCalls(calls)
    requires Answers(calls, [ta, tb])
    ensures !Batches([m, tb, ta])
  {
    var batch := [m, tb, ta];
    SwappedRun(calls, ta, tb);
    assert batch[1..3][0] == tb;
  }

  lemma OpenBehindUser(u: Message, rest: seq<Message>)
    requires u.User? && !Batches(rest)
    ensures Normalized([u] + rest).messages != [u] + rest
  {
    var raw := [u] + rest;
    assert raw[1..] == rest;
    FixedPointIffValid(raw);
  }

  lemma UnchangedBehindUser(u: Message, rest: seq<Message>)
    requires u.User? && forall m :: m in rest ==> !m.System? && !m.Unknown?
    requires Orphans(rest) == [] && InvalidCalls(rest) == [] && Stubs(rest) == []
    ensures !Normalized([u] + rest).Changed()
  {
    var raw := [u] + rest;
    ClosedHasChatRoles(raw);
    assert Canonical(raw) == raw;
    assert raw[1..] == rest && raw[1..1] == [];
  }

  lemma SwappedBatch(m: Message, calls: seq<RawCall>, ta: Message, tb: Message)
    requires m == Assistant(m.content, CallList(calls)) && |calls| == 2 && GoodCalls(calls)
    requires Answers(calls, [ta, tb])
    ensures var batch := [m, tb, ta];
      Orphans(batch) == [] && InvalidCalls(batch) == [] && Stubs(batch) == []
  {
    var batch, run := [m, tb, ta], [tb, ta];
    SwappedRun(calls, ta, tb);
    GoodCallsAreKept(calls, {});
    assert batch[1..] == run && run[1..] == [ta] && [ta][1..] == [];
    assert ToolRun(run) == 2;
    assert batch[1..3] == run && batch[3..] == [];
  }

  lemma SwappedRun(calls: seq<RawCall>, ta: Message, tb: Message)
    requires |calls| == 2 && GoodCalls(calls) && Answers(calls, [ta, tb])
    ensures ta.Tool? && tb.Tool? && tb.callId != IdOf(calls[0])
    ensures Unclaimed([tb, ta], Ids(calls)) == [] && StubsOf(calls, [tb, ta]) == []
  {
    var run, id0, id1 := [tb, ta], CallId(calls[0]), CallId(calls[1]);
    assert WellFormed(calls[0]) && WellFormed(calls[1]) && IdOf(calls[0]) != IdOf(calls[1]);
    assert [ta, tb][0] == ta && [ta, tb][1] == tb;
    assert tb.callId == Some(id1) && ta.callId == Some(id0);
    FirstResultAt(run, id0, 1);
    FirstResultAt(run, id1, 0);
    NoStubsWhenFound(calls, run);
    assert id0 in Ids(calls) && id1 in Ids(calls);
    assert Awaited(tb, Ids(calls)) && Awaited(ta, Ids(calls) - {id1});
    assert run[1..] == [ta] && [ta][1..] == [];
    assert Unclaimed([ta], Ids(calls) - {id1}) == [];
  }

  // ----- the repair in plain terms -----

  /** Some call in `raw` is named and has this id. */
  predicate Taken(raw: seq<RawCall>, id: string) {
    exists i :: 0 <= i < |raw| && WellFormed(raw[i]) && CallId(raw[i]) == id
  }

  lemma {:induction false} KeepSnocSeen(raw: seq<RawCall>, seen: set<string>, c: RawCall)
    ensures KeepCalls(raw + [c], seen) == KeepCalls(raw, seen)
      + if WellFormed(c) && CallId(c) !in seen && !Taken(raw, CallId(c)) then [c] else []
  {
    if raw == [] {
      assert raw + [c] == [c];
    } else {
      var first, rest := raw[0], raw[1..];
      assert (raw + [c])[0] == first && (raw + [c])[1..] == rest + [c];
      var now := if WellFormed(first) && CallId(first) !in seen then seen + {CallId(first)} else seen;
      KeepSnocSeen(rest, now, c);
      TakenCons(raw, CallId(c));
    }
  }

  lemma TakenCons(raw: seq<RawCall>, id: string)
    requires raw != []
    ensures Taken(raw, id) <==> (WellFormed(raw[0]) && CallId(raw[0]) == id) || Taken(raw[1..], id)
  {
    if i :| 0 <= i < |raw| && WellFormed(raw[i]) && CallId(raw[i]) == id {
      assert i > 0 ==> raw[1..][i - 1] == raw[i];
    }
  }

  /** A call is kept exactly when it is named and no named call before it has its id; the order stays. */
  lemma KeptCallsMean(raw: seq<RawCall>, c: RawCall)
    ensures KeepCalls([], {}) == []
    ensures KeepCalls(raw + [c], {}) == KeepCalls(raw, {})
      + if WellFormed(c) && !Taken(raw, CallId(c)) then [c] else []
  {
    KeepSnocSeen(raw, {}, c);
  }

  predicate Names(m: Message, id: string) {
    m.Tool? && m.callId == Some(id)
  }

  /** The first result in the run under the call's id, or a stub under its id and name when there is none. */
  predicate IsResultFor(m: Message, c: RawCall, run: seq<Message>) {
    if exists i :: 0 <= i < |run| && Names(run[i], CallId(c)) then
      exists i :: 0 <= i < |run| && Names(run[i], CallId(c)) && m == run[i]
        && forall j :: 0 <= j < i ==> !Names(run[j], CallId(c))
    else m == Tool(Some(CallId(c)), CallName(c), LOST_RESULT)
  }

  lemma {:induction false} FirstResultMeans(run: seq<Message>, c: RawCall)
    ensures IsResultFor(ResultFor(c, run), c, run)
  {
    if run != [] {
      var rest := run[1..];
      FirstResultMeans(rest, c);
      assert forall i :: 1 <= i < |run| ==> run[i] == rest[i - 1];
      if Names(run[0], CallId(c)) {
        assert ResultFor(c, run) == run[0];
      } else {
        assert ResultFor(c, run) == ResultFor(c, rest);
        if i :| 0 <= i < |rest| && Names(rest[i], CallId(c)) {
          var k :| 0 <= k < |rest| && Names(rest[k], CallId(c)) && ResultFor(c, rest) == rest[k]
            && forall j :: 0 <= j < k ==> !Names(rest[j], CallId(c));
          assert run[k + 1] == rest[k];
        }
      }
    }
  }

  /** The results `rs` answer the calls one for one. */
  predicate AreResultsFor(rs: seq<Message>, calls: seq<RawCall>, run: seq<Message>) {
    |rs| == |calls| && forall k :: 0 <= k < |rs| ==> IsResultFor(rs[k], calls[k], run)
  }

  /** What becomes of a message and the results behind it: a user's stays; an assistant's stays, with its kept calls
      each answered; results behind anything else go. */
  predicate IsRepairOf(out: seq<Message>, m: Message, run: seq<Message>) {
    if m.Assistant? && m.calls.CallList? && m.calls.calls != [] then
      var kept := KeepCalls(m.calls.calls, {});
      if kept == [] then out == [Assistant(m.content, Missing)]
      else out != [] && out[0] == Assistant(m.content, CallList(kept)) && AreResultsFor(out[1..], kept, run)
    else out == [m]
  }

  lemma {:induction false} LoneResultsGo(run: seq<Message>)
    requires forall i :: 0 <= i < |run| ==> run[i].Tool?
    ensures Repaired(run) == []
  {
    if run != [] {
      assert RawGroup(run) == 1;
      LoneResultsGo(run[1..]);
    }
  }

  /** One message with the results behind it. */
  lemma BlockMeans(m: Message, run: seq<Message>)
    requires !m.Tool? && forall i :: 0 <= i < |run| ==> run[i].Tool?
    ensures IsRepairOf(Repaired([m] + run), m, run)
  {
    LoneResultsGo(run);
    if OpensBatch(m) && KeepCalls(m.calls.calls, {}) != [] {
      BatchBlock(m, run);
      BatchBlockMeans(m, run);
    } else {
      PlainBlock(m, run);
    }
  }

  lemma BatchBlock(m: Message, run: seq<Message>)
    requires OpensBatch(m) && KeepCalls(m.calls.calls, {}) != []
    requires forall i :: 0 <= i < |run| ==> run[i].Tool?
    ensures Repaired([m] + run) == GroupMessages(m, run)
  {
    var ms := [m] + run;
    assert ms[0] == m && ms[1..] == run;
    WholeGroup(ms);
    OneGroup(ms);
  }

  lemma WholeGroup(ms: seq<Message>)
    requires ms != [] && OpensBatch(ms[0]) && KeepCalls(ms[0].calls.calls, {}) != []
    requires forall i :: 1 <= i < |ms| ==> ms[i].Tool?
    ensures RawGroup(ms) == |ms|
  {
    WholeRun(ms[1..]);
  }

  lemma OneGroup(ms: seq<Message>)
    requires ms != [] && RawGroup(ms) == |ms|
    ensures Repaired(ms) == GroupMessages(ms[0], ms[1..])
  {
    var n := RawGroup(ms);
    var rest := ms[n..];
    assert rest == [] && ms[1..n] == ms[1..];
    assert Repaired(rest) == [];
    assert Repaired(ms) == GroupMessages(ms[0], ms[1..n]) + Repaired(rest);
  }

  lemma PlainBlock(m: Message, run: seq<Message>)
    requires !m.Tool? && !(OpensBatch(m) && KeepCalls(m.calls.calls, {}) != [])
    requires Repaired(run) == []
    ensures Repaired([m] + run) == if OpensBatch(m) then [Assistant(m.content, Missing)] else [m]
  {
    var ms := [m] + run;
    assert RawGroup(ms) == 1;
    assert ms[1..] == run && ms[1..1] == [];
  }

  lemma {:induction false} WholeRun(run: seq<Message>)
    requires forall i :: 0 <= i < |run| ==> run[i].Tool?
    ensures ToolRun(run) == |run|
  {
    if run != [] {
      WholeRun(run[1..]);
    }
  }

  lemma BatchBlockMeans(m: Message, run: seq<Message>)
    requires OpensBatch(m) && KeepCalls(m.calls.calls, {}) != []
    ensures IsRepairOf(GroupMessages(m, run), m, run)
  {
    var kept := KeepCalls(m.calls.calls, {});
    var out := GroupMessages(m, run);
    assert out[1..] == Results(kept, run);
    forall k | 0 <= k < |kept| ensures IsResultFor(out[1..][k], kept[k], run) {
      FirstResultMeans(run, kept[k]);
    }
  }

  /** The repair of a transcript is the repairs of its pieces, cut anywhere but before a result. */
  lemma {:induction false} RepairSplits(a: seq<Message>, b: seq<Message>)
    requires b != [] ==> !b[0].Tool?
    ensures Repaired(a + b) == Repaired(a) + Repaired(b)
    decreases |a|
  {
    if a == [] {
      assert a + b == b;
    } else {
      var n := RawGroup(a);
      SameGroup(a, b);
      assert (a + b)[1..n] == a[1..n] && (a + b)[n..] == a[n..] + b;
      RepairSplits(a[n..], b);
    }
  }

  lemma SameGroup(a: seq<Message>, b: seq<Message>)
    requires a != [] && (b != [] ==> !b[0].Tool?)
    ensures RawGroup(a + b) == RawGroup(a)
  {
    assert (a + b)[1..] == a[1..] + b;
    SameRun(a[1..], b);
  }

  lemma {:induction false} SameRun(a: seq<Message>, b: seq<Message>)
    requires b != [] ==> !b[0].Tool?
    ensures ToolRun(a + b) == ToolRun(a)
  {
    if a == [] {
      assert a + b == b;
    } else {
      assert (a + b)[1..] == a[1..] + b;
      SameRun(a[1..], b);
    }
  }

  predicate HasChatRole(m: Message) {
    m.User? || m.Assistant? || m.Tool?
  }

  lemma {:induction false} ChatRolesAdd(a: seq<Message>, m: Message)
    ensures ChatRoles([]) == []
    ensures ChatRoles(a + [m]) == ChatRoles(a) + if HasChatRole(m) then [m] else []
  {
    if a == [] {
      assert a + [m] == [m];
    } else {
      assert (a + [m])[0] == a[0] && (a + [m])[1..] == a[1..] + [m];
      ChatRolesAdd(a[1..], m);
    }
  }

  /** What the repair sees: the chat messages from the first of the user's on. */
  lemma CanonicalMeans(raw: seq<Message>) returns (f: nat)
    ensures f <= |ChatRoles(raw)| && Canonical(raw) == ChatRoles(raw)[f..]
    ensures forall i :: 0 <= i < f ==> !ChatRoles(raw)[i].User?
    ensures f < |ChatRoles(raw)| ==> ChatRoles(raw)[f].User?
    ensures Normalized(raw).messages == Repaired(Canonical(raw))
  {
    f := LeadingFragment(ChatRoles(raw));
    FragmentHasNoUser(ChatRoles(raw));
  }

  lemma {:induction false} FragmentHasNoUser(ms: seq<Message>)
    ensures forall i :: 0 <= i < LeadingFragment(ms) ==> !ms[i].User?
  {
    if ms != [] && (ms[0].Assistant? || ms[0].Tool?) {
      FragmentHasNoUser(ms[1..]);
    }
  }

  ghost function SystemsIn(ms: seq<Message>): set<nat> {
    set i: nat | i < |ms| && ms[i].System?
  }

  ghost function UnknownsIn(ms: seq<Message>): set<nat> {
    set i: nat | i < |ms| && ms[i].Unknown?
  }

  lemma {:induction false} CountsAdd(ms: seq<Message>, m: Message)
    ensures CountSystem(ms + [m]) == CountSystem(ms) + if m.System? then 1 else 0
    ensures CountUnknown(ms + [m]) == CountUnknown(ms) + if m.Unknown? then 1 else 0
  {
    if ms == [] {
      assert ms + [m] == [m];
    } else {
      assert (ms + [m])[0] == ms[0] && (ms + [m])[1..] == ms[1..] + [m];
      CountsAdd(ms[1..], m);
    }
  }

  lemma SystemsAdd(ms: seq<Message>, m: Message)
    ensures |SystemsIn(ms + [m])| == |SystemsIn(ms)| + if m.System? then 1 else 0
  {
    var all := ms + [m];
    assert forall i: nat :: i < |ms| ==> all[i] == ms[i];
    assert SystemsIn(all) == SystemsIn(ms) + if m.System? then {|ms|} else {};
  }

  lemma UnknownsAdd(ms: seq<Message>, m: Message)
    ensures |UnknownsIn(ms + [m])| == |UnknownsIn(ms)| + if m.Unknown? then 1 else 0
  {
    var all := ms + [m];
    assert forall i: nat :: i < |ms| ==> all[i] == ms[i];
    assert UnknownsIn(all) == UnknownsIn(ms) + if m.Unknown? then {|ms|} else {};
  }

  /** The first and third counters count the system messages and those of unknown role. */
  lemma {:induction false} CountersCount(ms: seq<Message>)
    ensures CountSystem(ms) == |SystemsIn(ms)| && CountUnknown(ms) == |UnknownsIn(ms)|
  {
    if ms == [] {
      assert SystemsIn(ms) == {} && UnknownsIn(ms) == {};
    } else {
      var front, last := ms[..|ms| - 1], ms[|ms| - 1];
      assert ms == front + [last];
      CountersCount(front);
      CountsAdd(front, last);
      SystemsAdd(front, last);
      UnknownsAdd(front, last);
    }
  }
}
