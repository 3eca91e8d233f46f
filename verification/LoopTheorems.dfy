/** What the specified run keeps: both transcripts closed at every provider call, the budget, and when
    the flags those statements depend on can ever be raised. */
module LoopTheorems {
  import opened Transcript
  import opened ContextBuilding
  import opened BudgetGuard
  import opened TurnShapes
  import opened LoopWorld
  import opened LoopSpec
  import opened PlainTexts

  // ----- what one batch leaves -----

  lemma WholeBatch(calls: seq<ToolCall>, n: nat, w: World)
    requires !Crashes(calls, n, w)
    ensures RecordedResults(calls, n, w) == Outputs(calls, n, w)
  {
  }

  /** What a batch writes to the store is closed, unless a tool raised. */
  lemma BatchWrittenIsClosed(content: string, calls: seq<ToolCall>, n: nat, w: World)
    requires calls != [] && GoodCalls(AllStored(calls)) && !Crashes(calls, n, w)
    ensures Batches(BatchWritten(content, calls, n, w))
  {
    WholeBatch(calls, n, w);
    OutputsAnswer(calls, n, w);
    BatchIsClosed(Declared(calls, content), Outputs(calls, n, w));
    var batch := [Declared(calls, content)] + Outputs(calls, n, w);
    if ReturnsDirectly(calls, n, w) {
      PlainAssistantIsClosed(Assistant(Yield(n, 0, w), Missing));
      BatchesConcat(batch, [Assistant(Yield(n, 0, w), Missing)]);
    } else {
      assert batch + [] == batch;
    }
  }

  /** A batch said in memory is closed exactly when the close nudge does not fire before its last result. */
  lemma BatchSaidIsClosedIff(content: string, calls: seq<ToolCall>, n: nat, nudged: bool, w: World)
    requires calls != [] && GoodCalls(AllStored(calls)) && !Crashes(calls, n, w)
    ensures Batches(BatchSaid(content, calls, n, nudged, w)) <==> !Severs(calls, n, nudged, w)
  {
    WholeBatch(calls, n, w);
    OutputsAnswer(calls, n, w);
    if ReturnsDirectly(calls, n, w) {
      BatchIsClosed(Declared(calls, content), Outputs(calls, n, w));
    } else {
      SpokenBatchIsClosedIff(Declared(calls, content), Outputs(calls, n, w), nudged, Fires(w), w.text.closeNudge);
    }
  }

  /** It can happen: a successful fill followed by another call in the same batch. */
  lemma NudgeCanSever(fill: ToolCall, other: ToolCall, n: nat, w: World)
    requires fill.name == APPLY_FILL && GoodCalls(AllStored([fill, other]))
    requires w.tool(n, 0).Some? && !IsError(w.tool(n, 0).value) && w.fillOk(w.tool(n, 0).value)
    requires w.tool(n, 1).Some?
    ensures !Batches(BatchSaid("", [fill, other], n, false, w))
  {
    var calls := [fill, other];
    var tools := Outputs(calls, n, w);
    assert tools[0] == ToolMessage(fill, w.tool(n, 0).value) && Fires(w)(tools[0]);
    assert Survivors(n, 2, w) == 2 by { assert Survivors(n, 0, w) == 0 && Survivors(n, 1, w) == 1; }
    BatchSaidIsClosedIff("", calls, n, false, w);
  }

  lemma RejectedBatchIsClosed(content: string, calls: seq<ToolCall>, w: World)
    requires calls != [] && GoodCalls(AllStored(calls))
    ensures Batches(RejectedBatch(content, calls, w))
    ensures Batches(RejectedBatch(content, calls, w) + [User(w.text.retryTerminal)])
  {
    OutputsAnswer(calls, 0, w);
    BatchIsClosed(Declared(calls, content), Rejections(calls, w));
    FollowedByUser(RejectedBatch(content, calls, w), w.text.retryTerminal);
  }

  // ----- closed transcripts -----

  ghost predicate SnapshotOk(s: Snapshot, w: World) {
    ClosedRows(Durable(s.rows, 0, s.lost), s.from, w) && ClosedList(s.memory, s.severed, w)
  }

  ghost predicate AllOk(log: seq<Snapshot>, w: World) {
    forall i :: 0 <= i < |log| ==> SnapshotOk(log[i], w)
  }

  ghost predicate ClosedRows(d: Durable, from: nat, w: World) {
    from <= |d.rows| && (Sound(w) && !d.lost ==> Batches(d.rows[from..]))
  }

  ghost predicate ClosedList(memory: seq<Message>, severed: bool, w: World) {
    Sound(w) && !severed ==> Batches(memory)
  }

  /** Both transcripts are closed, each unless its own flag says what went wrong. */
  ghost predicate Closed(s: State, w: World) {
    ClosedRows(s.view.durable, s.trace.runStart, w) && ClosedList(s.view.memory, s.trace.severed, w)
  }

  /** An announcement that what stands behind it does not answer. */
  ghost predicate Unanswered(a: Message, behind: seq<Message>) {
    && OpensBatch(a)
    && !(|behind| >= |a.calls.calls| && forall k :: 0 <= k < |a.calls.calls| ==> behind[k].Tool?)
  }

  /** An unanswered announcement stands in the list, and, unless a row was lost, in the rows. */
  ghost predicate LeftOpen(s: State, w: World) {
    var d := s.view.durable;
    && !Batches(s.view.memory)
    && s.trace.runStart <= |d.rows| && (w.sessionBound && !d.lost ==> !Batches(d.rows[s.trace.runStart..]))
  }

  /** How a turn leaves the transcripts. */
  ghost predicate EndsWell(r: Step, w: World) {
    if r.end.Crashed? then LeftOpen(r.state, w) else Closed(r.state, w)
  }

  lemma UnansweredIsOpen(before: seq<Message>, a: Message, behind: seq<Message>)
    requires Unanswered(a, behind)
    ensures !Batches(before + ([a] + behind))
  {
    var tail := [a] + behind;
    var ms := before + tail;
    assert ms[|before|..] == tail && ms[|before|] == a;
    if Batches(ms) {
      BatchesCut(ms, |before|);
      ClosedIsAnswered(a, behind);
    }
  }

  lemma ClosedIsAnswered(a: Message, behind: seq<Message>)
    requires OpensBatch(a) && Batches([a] + behind)
    ensures !Unanswered(a, behind)
  {
    var tail := [a] + behind;
    GroupTail(tail);
    forall k | 0 <= k < |a.calls.calls| ensures behind[k].Tool? {
      assert tail[k + 1] == behind[k];
    }
  }

  /** Saying and writing an announcement that stays unanswered. */
  lemma SayLeavesOpen(s: State, t: State, a: Message, ms: seq<Message>, ds: seq<Message>, w: World)
    requires s.trace.runStart <= |s.view.durable.rows| && t.trace.runStart == s.trace.runStart
    requires t.view.memory == s.view.memory + ([a] + ms) && t.view.durable == Write(s.view.durable, [a] + ds, w)
    requires Unanswered(a, ms) && Unanswered(a, ds)
    ensures LeftOpen(t, w)
  {
    var d, from := s.view.durable, s.trace.runStart;
    UnansweredIsOpen(s.view.memory, a, ms);
    WriteGrows(d, [a] + ds, w);
    UnansweredIsOpen(d.rows[from..], a, ds);
    assert w.sessionBound && !t.view.durable.lost ==>
      t.view.durable.rows[from..] == d.rows[from..] + ([a] + ds);
  }

  /** Appends only grow the rows; without a failure they grow by exactly `ms`. */
  lemma {:induction false} WriteGrows(d: Durable, ms: seq<Message>, w: World)
    ensures var e := Write(d, ms, w);
      && d.rows <= e.rows && (d.lost ==> e.lost)
      && (!e.lost ==> e.rows == if w.sessionBound then d.rows + ms else d.rows)
  {
    if ms != [] {
      var front, last := ms[..|ms| - 1], ms[|ms| - 1];
      WriteGrows(d, front, w);
      assert ms == front + [last];
      if w.sessionBound {
        assert d.rows + front + [last] == d.rows + ms;
      }
    }
  }

  lemma WriteKeepsClosed(d: Durable, ms: seq<Message>, from: nat, w: World)
    requires ClosedRows(d, from, w) && (Sound(w) ==> Batches(ms))
    ensures ClosedRows(Write(d, ms, w), from, w)
  {
    var e := Write(d, ms, w);
    WriteGrows(d, ms, w);
    if Sound(w) && !e.lost && w.sessionBound {
      assert e.rows[from..] == d.rows[from..] + ms;
      BatchesConcat(d.rows[from..], ms);
    }
  }

  /** Saying and writing closed pieces keeps both transcripts closed. */
  lemma SayKeepsClosed(s: State, ms: seq<Message>, ds: seq<Message>, w: World)
    requires Closed(s, w) && (Sound(w) ==> Batches(ms) && Batches(ds))
    ensures Closed(s.(view := Say(s.view, ms, ds, w)), w)
  {
    WriteKeepsClosed(s.view.durable, ds, s.trace.runStart, w);
    if Sound(w) && !s.trace.severed {
      BatchesConcat(s.view.memory, ms);
    }
  }

  lemma OneUserIsClosed(text: string)
    ensures Batches([User(text)]) && Batches([])
  {
    UserIsClosed(text);
  }

  lemma AnsweredKeepsClosed(s: State, answer: string, w: World)
    requires Closed(s, w)
    ensures Closed(Answered(s, answer, w), w)
  {
    OneUserIsClosed("");
    PlainAssistantIsClosed(Assistant(answer, Missing));
    SayKeepsClosed(s, [], [Assistant(answer, Missing)], w);
  }

  lemma RetryKeepsClosed(s: State, counts: Counts, text: string, w: World)
    requires Closed(s, w)
    ensures Closed(Retry(s, counts, text, w).state, w)
  {
    OneUserIsClosed(text);
    SayKeepsClosed(s, [User(text)], [], w);
  }

  lemma AnswerKeepsClosed(s: State, content: string, w: World)
    requires Closed(s, w)
    ensures Closed(AnswerStep(s, content, w).state, w)
    ensures AnswerStep(s, content, w).state.trace == s.trace
  {
    var c := s.counts;
    var text := if content != "" then content else w.text.noResponse;
    RetryKeepsClosed(s, c.(emptyRetries := c.emptyRetries + 1), w.text.emptyRetry, w);
    RetryKeepsClosed(s, c.(xmlRepaired := true), w.text.xmlRepair, w);
    PlanningKeepsClosed(s, if w.xml(text) then w.text.xmlFallback else text, w);
  }

  lemma PlanningKeepsClosed(s: State, final: string, w: World)
    requires Closed(s, w)
    ensures Closed(PlanningStep(s, final, w).state, w)
    ensures PlanningStep(s, final, w).state.trace == s.trace
  {
    var c := s.counts;
    RetryKeepsClosed(s, c.(corrections := c.corrections + 1), w.text.correction, w);
    AnsweredKeepsClosed(s, if w.echo(final) then w.text.loopFallback else final, w);
  }

  /** An executed batch keeps both transcripts closed; the list unless the nudge severs it. */
  lemma BatchKeepsClosed(s: State, content: string, calls: seq<ToolCall>, n: nat, w: World)
    requires Closed(s, w) && calls != [] && (Sound(w) ==> GoodCalls(AllStored(calls))) && !Crashes(calls, n, w)
    ensures Closed(Marked(BatchStep(s, content, calls, n, w), Severs(calls, n, s.view.nudged, w)), w)
  {
    if Sound(w) {
      BatchWrittenIsClosed(content, calls, n, w);
      BatchSaidIsClosedIff(content, calls, n, s.view.nudged, w);
    }
    WriteKeepsClosed(s.view.durable, BatchWritten(content, calls, n, w), s.trace.runStart, w);
    if Sound(w) && !s.trace.severed && !Severs(calls, n, s.view.nudged, w) {
      BatchesConcat(s.view.memory, BatchSaid(content, calls, n, s.view.nudged, w));
    }
  }

  lemma ShortSpokenIsUnanswered(a: Message, tools: seq<Message>, nudged: bool, fires: Message -> bool, text: string)
    requires OpensBatch(a) && |tools| < |a.calls.calls|
    ensures Unanswered(a, Spoken(tools, nudged, fires, text))
  {
    var said := Spoken(tools, nudged, fires, text);
    if !nudged && exists i :: 0 <= i < |tools| && fires(tools[i]) {
      var i :| 0 <= i < |tools| && fires(tools[i]);
      var k := FirstFiring(tools, fires, i);
      NudgeSpokenAt(tools, fires, text, k);
      assert k + 1 >= |a.calls.calls| || !said[k + 1].Tool?;
    } else {
      QuietSpoken(tools, nudged, fires, text);
    }
  }

  lemma CrashedView(s: State, content: string, calls: seq<ToolCall>, n: nat, w: World)
    requires Crashes(calls, n, w)
    ensures var a, tools := Declared(calls, content), RecordedResults(calls, n, w);
      var t := BatchStep(s, content, calls, n, w);
      && t.view.memory == s.view.memory + ([a] + Spoken(tools, s.view.nudged, Fires(w), w.text.closeNudge))
      && t.view.durable == Write(s.view.durable, [a] + tools, w) && t.trace == s.trace
  {
    if ReturnsDirectly(calls, n, w) {
      LoneSurvives(n, w);
    }
    var a, tools := Declared(calls, content), RecordedResults(calls, n, w);
    assert [a] + tools + [] == [a] + tools;
  }

  /** A batch in which a tool raises stays unanswered in both transcripts. */
  lemma CrashLeavesOpen(s: State, content: string, calls: seq<ToolCall>, n: nat, w: World)
    requires calls != [] && Crashes(calls, n, w) && s.trace.runStart <= |s.view.durable.rows|
    ensures LeftOpen(BatchStep(s, content, calls, n, w), w)
  {
    var a, tools := Declared(calls, content), RecordedResults(calls, n, w);
    ShortSpokenIsUnanswered(a, tools, s.view.nudged, Fires(w), w.text.closeNudge);
    CrashedView(s, content, calls, n, w);
    SayLeavesOpen(s, BatchStep(s, content, calls, n, w), a,
                  Spoken(tools, s.view.nudged, Fires(w), w.text.closeNudge), tools, w);
  }

  lemma ExecuteKeepsClosed(s: State, content: string, calls: seq<ToolCall>, n: nat, w: World)
    requires Closed(s, w) && calls != [] && (Sound(w) ==> GoodCalls(AllStored(calls)))
    ensures var r := ExecuteStep(s, content, calls, n, w);
      && (r.end.Crashed? <==> Crashes(calls, n, w)) && !r.end.Exhausted?
      && EndsWell(r, w)
      && r.state.trace.log == s.trace.log
  {
    if Crashes(calls, n, w) {
      CrashLeavesOpen(s, content, calls, n, w);
    } else {
      BatchKeepsClosed(s, content, calls, n, w);
    }
  }

  lemma ToolKeepsClosed(s: State, content: string, calls: seq<ToolCall>, n: nat, w: World, q: Setup)
    requires Closed(s, w) && calls != [] && (Sound(w) ==> GoodCalls(AllStored(calls)))
    ensures var r := ToolStep(s, content, calls, n, w, q);
      EndsWell(r, w) && r.state.trace.log == s.trace.log
  {
    if !Refuses(s.budget, q.limits, calls, n, w) {
      var t := Reserved(s, calls);
      if Mixed(calls, w) {
        if Sound(w) {
          RejectedBatchIsClosed(content, calls, w);
        }
        var rejected := RejectedBatch(content, calls, w);
        SayKeepsClosed(t, rejected + [User(w.text.retryTerminal)], rejected, w);
      } else {
        ExecuteKeepsClosed(t, content, calls, n, w);
      }
    }
  }

  /** Compression and hints before a call: closed stays closed, and the call sees what its snapshot says. */
  lemma CompressKeepsClosed(s: State, x: MidRunInputs, w: World, q: Setup)
    requires Closed(s, w)
    ensures Closed(CompressStep(s, x, w, q), w)
  {
    MidRunKeeps(s.view.memory, s.view.durable.rows, s.total, q.envelope, q.request, w.sessionBound, x);
    var win := WindowOf(s, x, w, q);
    assert win.rewritten ==> win.rows[0..] == win.rows;
  }

  lemma HintKeepsClosed(s: State, h: Hints, w: World)
    requires Closed(s, w)
    ensures Closed(HintStep(s, h), w)
  {
    if Batches(s.view.memory) && !Tears(s.view.memory, h) {
      HintsKeep(s.view.memory, h);
    }
  }

  lemma CallKeepsClosed(s: State, n: nat, w: World, q: Setup)
    requires Closed(s, w) && AllOk(s.trace.log, w)
    ensures var t := CallStep(s, n, w, q); Closed(t, w) && AllOk(t.trace.log, w)
  {
    CompressKeepsClosed(s, w.midRun(n), w, q);
    HintKeepsClosed(CompressStep(s, w.midRun(n), w, q), w.hints(n), w);
  }

  lemma RespondKeepsClosed(s: State, reply: Reply, n: nat, w: World, q: Setup)
    requires Closed(s, w) && (Sound(w) ==> SoundReply(reply))
    ensures var r := RespondStep(s, reply, n, w, q);
      EndsWell(r, w) && r.state.trace.log == s.trace.log
  {
    match reply
    case TimedOut => AnsweredKeepsClosed(s, w.text.timedOut, w);
    case Failed =>
    case Reply(content, calls, totalTokens) =>
      var t := s.(total := if totalTokens > 0 then Some(totalTokens) else None);
      if calls == [] {
        AnswerKeepsClosed(t, content, w);
      } else {
        ToolKeepsClosed(t, content, calls, n, w, q);
      }
  }

  lemma TurnKeepsClosed(s: State, w: World, q: Setup)
    requires Closed(s, w) && AllOk(s.trace.log, w)
    ensures var r := TurnStep(s, w, q);
      EndsWell(r, w) && AllOk(r.state.trace.log, w)
  {
    var t := Consumed(s);
    var n := t.budget.iterationsUsed;
    if Exceeded(q.limits, t.budget, w.clock(n).0).None? {
      CallKeepsClosed(t, n, w, q);
      assert Sound(w) ==> SoundReply(w.reply(n));
      RespondKeepsClosed(CallStep(t, n, w, q), w.reply(n), n, w, q);
    }
  }

  /** At every provider call of a run both transcripts are closed, each unless its flag is up, and so they
      are when the loop ends, unless a tool raised; then its batch stands unanswered in both. */
  lemma {:induction false} LoopKeepsClosed(s: State, w: World, q: Setup)
    requires q.limits.enabled && Closed(s, w) && AllOk(s.trace.log, w)
    ensures var r := LoopRun(s, w, q);
      EndsWell(r, w) && AllOk(r.state.trace.log, w)
    decreases Left(s, q)
  {
    TurnKeepsClosed(s, w, q);
    TurnUsesIteration(s, w, q);
    var r := TurnStep(s, w, q);
    if r.end.Again? {
      LoopKeepsClosed(r.state, w, q);
    }
  }

  // ----- the budget -----

  /** No more executions than reservations, no more reservations than `max_tool_calls`. */
  ghost predicate WithinBudget(s: State, q: Setup) {
    && s.counts.executed <= s.budget.toolCallsUsed
    && (s.budget.toolCallsUsed == 0 || s.budget.toolCallsUsed <= q.limits.maxToolCalls)
  }

  lemma ToolWithinBudget(s: State, content: string, calls: seq<ToolCall>, n: nat, w: World, q: Setup)
    requires q.limits.enabled && WithinBudget(s, q)
    ensures WithinBudget(ToolStep(s, content, calls, n, w, q).state, q)
  {
  }

  lemma RespondWithinBudget(s: State, reply: Reply, n: nat, w: World, q: Setup)
    requires q.limits.enabled && WithinBudget(s, q)
    ensures WithinBudget(RespondStep(s, reply, n, w, q).state, q)
    ensures RespondStep(s, reply, n, w, q).state.trace.log == s.trace.log
  {
    if reply.Reply? && reply.calls != [] {
      var t := s.(total := if reply.totalTokens > 0 then Some(reply.totalTokens) else None);
      ToolWithinBudget(t, reply.content, reply.calls, n, w, q);
    }
  }

  /** Each turn makes one provider call, or none when a limit stops it at the top. */
  lemma TurnWithinBudget(s: State, w: World, q: Setup)
    requires q.limits.enabled && WithinBudget(s, q) && |s.trace.log| == s.budget.iterationsUsed
    ensures var r := TurnStep(s, w, q);
      && WithinBudget(r.state, q)
      && (|r.state.trace.log| == r.state.budget.iterationsUsed
          || (|r.state.trace.log| + 1 == r.state.budget.iterationsUsed && r.end.Exhausted?))
      && (|r.state.trace.log| == r.state.budget.iterationsUsed ==>
            r.state.budget.iterationsUsed < q.limits.maxIterations)
  {
    TurnUsesIteration(s, w, q);
    var t := Consumed(s);
    var n := t.budget.iterationsUsed;
    RespondWithinBudget(CallStep(t, n, w, q), w.reply(n), n, w, q);
  }

  /** One snapshot per provider call, one call per iteration but perhaps the last, and fewer calls than
      `max_iterations`; executions, reservations and limit in order. */
  lemma {:induction false} LoopWithinBudget(s: State, w: World, q: Setup)
    requires q.limits.enabled && WithinBudget(s, q) && |s.trace.log| == s.budget.iterationsUsed
    ensures var r := LoopRun(s, w, q); var calls := |r.state.trace.log|;
      && WithinBudget(r.state, q)
      && calls <= r.state.budget.iterationsUsed <= calls + 1
      && (r.state.budget.iterationsUsed == calls + 1 ==> r.end.Exhausted?)
      && (calls > |s.trace.log| ==> calls < q.limits.maxIterations)
    decreases Left(s, q)
  {
    TurnUsesIteration(s, w, q);
    TurnWithinBudget(s, w, q);
    var r := TurnStep(s, w, q);
    if r.end.Again? {
      LoopWithinBudget(r.state, w, q);
    }
  }

  // ----- when a row can be lost -----

  ghost predicate NeverLost(s: State) {
    !s.view.durable.lost && forall i :: 0 <= i < |s.trace.log| ==> !s.trace.log[i].lost
  }

  lemma {:induction false} WriteNeverLoses(d: Durable, ms: seq<Message>, w: World)
    requires !d.lost && forall k :: w.appendOk(k)
    ensures !Write(d, ms, w).lost
  {
    if ms != [] {
      WriteNeverLoses(d, ms[..|ms| - 1], w);
    }
  }

  lemma RespondNeverLoses(s: State, reply: Reply, n: nat, w: World, q: Setup)
    requires NeverLost(s) && forall k :: w.appendOk(k)
    ensures NeverLost(RespondStep(s, reply, n, w, q).state)
  {
    var r := RespondStep(s, reply, n, w, q).state.view.durable;
    var ms := Wrote(s, reply, n, w, q);
    WroteIsWritten(s, reply, n, w, q);
    WriteNeverLoses(s.view.durable, ms, w);
  }

  /** What the answer to one provider call writes to the store. */
  ghost function Wrote(s: State, reply: Reply, n: nat, w: World, q: Setup): seq<Message> {
    var end := RespondStep(s, reply, n, w, q).end;
    if reply.Reply? && reply.calls != [] then
      if end.Exhausted? then []
      else if Mixed(reply.calls, w) then RejectedBatch(reply.content, reply.calls, w)
      else BatchWritten(reply.content, reply.calls, n, w)
    else if end.Finished? then [Assistant(end.answer, Missing)]
    else []
  }

  lemma WroteIsWritten(s: State, reply: Reply, n: nat, w: World, q: Setup)
    ensures var r := RespondStep(s, reply, n, w, q).state;
      && r.view.durable == Write(s.view.durable, Wrote(s, reply, n, w, q), w)
      && r.trace.runStart == s.trace.runStart && r.trace.rewrites == s.trace.rewrites
      && r.trace.log == s.trace.log
  {
    if reply.Reply? && reply.calls != [] {
      var t := s.(total := if reply.totalTokens > 0 then Some(reply.totalTokens) else None);
      ToolWrites(t, reply.content, reply.calls, n, w, q);
    }
  }

  lemma ToolWrites(s: State, content: string, calls: seq<ToolCall>, n: nat, w: World, q: Setup)
    ensures var r := ToolStep(s, content, calls, n, w, q); var d := s.view.durable;
      && r.state.view.durable
           == (if r.end.Exhausted? then d
               else if Mixed(calls, w) then Write(d, RejectedBatch(content, calls, w), w)
               else Write(d, BatchWritten(content, calls, n, w), w))
      && r.state.trace.runStart == s.trace.runStart && r.state.trace.rewrites == s.trace.rewrites
      && r.state.trace.log == s.trace.log
  {
  }

  /** When no append fails, no row is ever lost, at any provider call of the run. */
  lemma {:induction false} LoopNeverLoses(s: State, w: World, q: Setup)
    requires q.limits.enabled && NeverLost(s) && forall k :: w.appendOk(k)
    ensures NeverLost(LoopRun(s, w, q).state)
    decreases Left(s, q)
  {
    TurnUsesIteration(s, w, q);
    var t := Consumed(s);
    var n := t.budget.iterationsUsed;
    RespondNeverLoses(CallStep(t, n, w, q), w.reply(n), n, w, q);
    var r := TurnStep(s, w, q);
    if r.end.Again? {
      LoopNeverLoses(r.state, w, q);
    }
  }

  // ----- where the run's rows begin -----

  /** The run's rows stand behind everything that was there before, or the store has been rewritten. */
  predicate KeptAt(from: nat, rewrites: nat, now: seq<Message>, rows: seq<Message>) {
    if rewrites == 0 then from == |rows| && rows <= now else from == 0
  }

  ghost predicate RowsKept(s: State, rows: seq<Message>) {
    && KeptAt(s.trace.runStart, s.trace.rewrites, s.view.durable.rows, rows)
    && forall i :: 0 <= i < |s.trace.log| ==> SnapshotKept(s.trace.log[i], rows)
  }

  predicate SnapshotKept(s: Snapshot, rows: seq<Message>) {
    KeptAt(s.from, s.rewrites, s.rows, rows)
  }

  lemma {:induction false} LoopKeepsRows(s: State, w: World, q: Setup, rows: seq<Message>)
    requires q.limits.enabled && RowsKept(s, rows)
    ensures RowsKept(LoopRun(s, w, q).state, rows)
    decreases Left(s, q)
  {
    TurnUsesIteration(s, w, q);
    TurnKeepsRows(s, w, q, rows);
    var r := TurnStep(s, w, q);
    if r.end.Again? {
      LoopKeepsRows(r.state, w, q, rows);
    }
  }

  lemma CallKeepsRows(s: State, n: nat, w: World, q: Setup, rows: seq<Message>)
    requires RowsKept(s, rows)
    ensures RowsKept(CallStep(s, n, w, q), rows)
  {
    MidRunKeeps(s.view.memory, s.view.durable.rows, s.total, q.envelope, q.request, w.sessionBound, w.midRun(n));
  }

  lemma TurnKeepsRows(s: State, w: World, q: Setup, rows: seq<Message>)
    requires RowsKept(s, rows)
    ensures RowsKept(TurnStep(s, w, q).state, rows)
  {
    var t := Consumed(s);
    var n := t.budget.iterationsUsed;
    var c := CallStep(t, n, w, q);
    CallKeepsRows(t, n, w, q, rows);
    WroteIsWritten(c, w.reply(n), n, w, q);
    WriteGrows(c.view.durable, Wrote(c, w.reply(n), n, w, q), w);
  }

  // ----- when a batch can be severed -----

  ghost predicate Excludes(ok: string -> bool, h: Hints) {
    forall t :: ok(t) ==> Unhinted(h, t)
  }

  predicate ReplyOk(r: Reply, ok: string -> bool) {
    r.Reply? && r.calls != [] ==> ok(r.content)
  }

  predicate ResultOk(r: Option<string>, ok: string -> bool) {
    r.Some? ==> ok(r.value)
  }

  /** No text that can reach an assistant or tool message of the list carries a hint marker: `ok` holds of
      all of them and of no marked text. */
  ghost predicate MarkerFree(w: World, ok: string -> bool) {
    && FillersOk(ok) && ok(w.text.mixedRejected)
    && (forall n :: Excludes(ok, w.hints(n)))
    && (forall n :: ReplyOk(w.reply(n), ok))
    && (forall n, k :: ResultOk(w.tool(n, k), ok))
  }

  /** A successful fill is always the last call of its batch. */
  ghost predicate FillsLast(w: World) {
    forall n :: w.reply(n).Reply? ==> !Severs(w.reply(n).calls, n, false, w)
  }

  ghost predicate NeverSevered(s: State) {
    !s.trace.severed && forall i :: 0 <= i < |s.trace.log| ==> !s.trace.log[i].severed
  }

  ghost predicate Clean(s: State, ok: string -> bool) {
    AllPlain(s.view.memory, ok) && AllPlain(s.view.durable.rows, ok)
  }

  lemma {:induction false} WriteIsPlain(d: Durable, ms: seq<Message>, w: World, ok: string -> bool)
    requires AllPlain(d.rows, ok) && AllPlain(ms, ok)
    ensures AllPlain(Write(d, ms, w).rows, ok)
  {
    if ms != [] {
      var front, last := ms[..|ms| - 1], ms[|ms| - 1];
      PlainSlice(ms, 0, |ms| - 1, ok);
      WriteIsPlain(d, front, w, ok);
      PlainConcat(Write(d, front, w).rows, [last], ok);
    }
  }

  lemma {:induction false} SpokenIsPlain(tools: seq<Message>, nudged: bool, fires: Message -> bool, text: string,
                                         ok: string -> bool)
    requires AllPlain(tools, ok)
    ensures AllPlain(Spoken(tools, nudged, fires, text), ok)
  {
    if tools != [] {
      var front, last := tools[..|tools| - 1], tools[|tools| - 1];
      PlainSlice(tools, 0, |tools| - 1, ok);
      SpokenIsPlain(front, nudged, fires, text, ok);
      PlainConcat(Spoken(front, nudged, fires, text), [last], ok);
      var tail := if fires(last) && !Spent(front, nudged, fires) then [User(text)] else [];
      PlainConcat(Spoken(front, nudged, fires, text) + [last], tail, ok);
    }
  }

  lemma OutputsArePlain(calls: seq<ToolCall>, n: nat, w: World, ok: string -> bool)
    requires !Crashes(calls, n, w) && MarkerFree(w, ok)
    ensures AllPlain(Outputs(calls, n, w), ok)
  {
    SurvivorsReturn(n, |calls|, w);
    var tools := Outputs(calls, n, w);
    forall k: nat | k < |tools| ensures Plain(tools[k], ok) {
      assert w.tool(n, k).Some? && ResultOk(w.tool(n, k), ok);
    }
  }

  lemma BatchIsPlain(s: State, content: string, calls: seq<ToolCall>, n: nat, w: World, ok: string -> bool)
    requires Clean(s, ok) && MarkerFree(w, ok) && ok(content)
    requires !Crashes(calls, n, w) && !ReturnsDirectly(calls, n, w)
    ensures Clean(BatchStep(s, content, calls, n, w), ok)
  {
    var a, tools := [Declared(calls, content)], Outputs(calls, n, w);
    WholeBatch(calls, n, w);
    OutputsArePlain(calls, n, w, ok);
    SpokenIsPlain(tools, s.view.nudged, Fires(w), w.text.closeNudge, ok);
    var spoken := Spoken(tools, s.view.nudged, Fires(w), w.text.closeNudge);
    PlainConcat(a, spoken, ok);
    PlainConcat(s.view.memory, a + spoken, ok);
    PlainConcat(a, tools, ok);
    assert a + tools + [] == a + tools;
    WriteIsPlain(s.view.durable, a + tools, w, ok);
  }

  lemma RejectIsPlain(s: State, content: string, calls: seq<ToolCall>, w: World, ok: string -> bool)
    requires Clean(s, ok) && ok(w.text.mixedRejected) && ok(content)
    ensures Clean(RejectStep(s, content, calls, w), ok)
  {
    var a, tools := [Declared(calls, content)], Rejections(calls, w);
    PlainConcat(a, tools, ok);
    PlainConcat(a + tools, [User(w.text.retryTerminal)], ok);
    PlainConcat(s.view.memory, a + tools + [User(w.text.retryTerminal)], ok);
    WriteIsPlain(s.view.durable, a + tools, w, ok);
  }

  lemma ToolStaysClean(s: State, content: string, calls: seq<ToolCall>, n: nat, w: World, q: Setup, ok: string -> bool)
    requires Clean(s, ok) && MarkerFree(w, ok) && ok(content)
    ensures var r := ToolStep(s, content, calls, n, w, q);
      && (!Severs(calls, n, s.view.nudged, w) ==> r.state.trace == s.trace)
      && (r.end.Again? ==> Clean(r.state, ok))
  {
    if !Refuses(s.budget, q.limits, calls, n, w) {
      var t := Reserved(s, calls);
      if Mixed(calls, w) {
        RejectIsPlain(t, content, calls, w, ok);
      } else if !Crashes(calls, n, w) && !ReturnsDirectly(calls, n, w) {
        BatchIsPlain(t, content, calls, n, w, ok);
      }
    }
  }

  lemma AnswerStaysClean(s: State, content: string, w: World, ok: string -> bool)
    requires Clean(s, ok)
    ensures var r := AnswerStep(s, content, w);
      r.state.trace == s.trace && (r.end.Again? ==> Clean(r.state, ok))
  {
    forall text ensures AllPlain(s.view.memory + [User(text)], ok) {
      PlainConcat(s.view.memory, [User(text)], ok);
    }
  }

  lemma RespondStaysClean(s: State, n: nat, w: World, q: Setup, ok: string -> bool)
    requires Clean(s, ok) && MarkerFree(w, ok)
    ensures var r := RespondStep(s, w.reply(n), n, w, q);
      (FillsLast(w) ==> r.state.trace == s.trace) && (r.end.Again? ==> Clean(r.state, ok))
  {
    var reply := w.reply(n);
    if reply.Reply? {
      var t := s.(total := if reply.totalTokens > 0 then Some(reply.totalTokens) else None);
      if reply.calls == [] {
        AnswerStaysClean(t, reply.content, w, ok);
      } else {
        assert ReplyOk(reply, ok);
        assert FillsLast(w) ==> !Severs(reply.calls, n, false, w);
        ToolStaysClean(t, reply.content, reply.calls, n, w, q, ok);
      }
    }
  }

  lemma CallStaysClean(s: State, n: nat, w: World, q: Setup, ok: string -> bool)
    requires Sound(w) && Closed(s, w) && Clean(s, ok) && NeverSevered(s) && MarkerFree(w, ok)
    ensures Clean(CallStep(s, n, w, q), ok) && NeverSevered(CallStep(s, n, w, q))
  {
    MidRunIsPlain(s.view.memory, s.view.durable.rows, s.total, q.envelope, q.request, w.sessionBound, w.midRun(n), ok);
    CompressKeepsClosed(s, w.midRun(n), w, q);
    var t := CompressStep(s, w.midRun(n), w, q);
    assert Excludes(ok, w.hints(n));
    PlainIsNeverTorn(t.view.memory, w.hints(n), ok);
    HintedIsPlain(t.view.memory, w.hints(n), ok);
  }

  lemma TurnStaysClean(s: State, w: World, q: Setup, ok: string -> bool)
    requires Sound(w) && Closed(s, w) && Clean(s, ok) && NeverSevered(s) && MarkerFree(w, ok) && FillsLast(w)
    ensures var r := TurnStep(s, w, q); NeverSevered(r.state) && (r.end.Again? ==> Clean(r.state, ok))
  {
    var t := Consumed(s);
    var n := t.budget.iterationsUsed;
    CallStaysClean(t, n, w, q, ok);
    RespondStaysClean(CallStep(t, n, w, q), n, w, q, ok);
  }

  /** When a successful fill is last in its batch and no real text carries a hint marker, no batch is ever
      severed, at any provider call of the run. */
  lemma {:induction false} LoopNeverSevers(s: State, w: World, q: Setup, ok: string -> bool)
    requires q.limits.enabled && Sound(w) && Closed(s, w) && AllOk(s.trace.log, w)
    requires Clean(s, ok) && NeverSevered(s) && MarkerFree(w, ok) && FillsLast(w)
    ensures NeverSevered(LoopRun(s, w, q).state)
    decreases Left(s, q)
  {
    TurnUsesIteration(s, w, q);
    TurnKeepsClosed(s, w, q);
    TurnStaysClean(s, w, q, ok);
    var r := TurnStep(s, w, q);
    if r.end.Again? {
      LoopNeverSevers(r.state, w, q, ok);
    }
  }

  // ----- the saved answer -----

  /** With a store, the last append was made, and the answer is the last row unless that very append failed. */
  predicate Saved(d: Durable, answer: string, w: World) {
    w.sessionBound ==>
      && d.appends > 0
      && (w.appendOk(d.appends - 1) ==> d.rows != [] && d.rows[|d.rows| - 1] == Assistant(answer, Missing))
  }

  lemma WriteEnds(d: Durable, ms: seq<Message>, answer: string, w: World)
    ensures Saved(Write(d, ms + [Assistant(answer, Missing)], w), answer, w)
  {
    WriteSnoc(d, ms, Assistant(answer, Missing), w);
  }

  lemma ToolReplySaves(c: State, reply: Reply, n: nat, w: World, q: Setup)
    requires reply.Reply? && reply.calls != [] && RespondStep(c, reply, n, w, q).end.Finished?
    ensures var r := RespondStep(c, reply, n, w, q); Saved(r.state.view.durable, r.end.answer, w)
  {
    WroteIsWritten(c, reply, n, w, q);
    FinishedDirectly(c, reply.content, reply.calls, reply.totalTokens, n, w, q);
    WriteEnds(c.view.durable, [Declared(reply.calls, reply.content)] + RecordedResults(reply.calls, n, w),
              Yield(n, 0, w), w);
  }

  lemma RespondSaves(c: State, reply: Reply, n: nat, w: World, q: Setup)
    requires RespondStep(c, reply, n, w, q).end.Finished?
    ensures var r := RespondStep(c, reply, n, w, q); Saved(r.state.view.durable, r.end.answer, w)
  {
    if reply.Reply? && reply.calls != [] {
      ToolReplySaves(c, reply, n, w, q);
    } else {
      var answer := RespondStep(c, reply, n, w, q).end.answer;
      WroteIsWritten(c, reply, n, w, q);
      WriteEnds(c.view.durable, [], answer, w);
      assert [] + [Assistant(answer, Missing)] == [Assistant(answer, Missing)];
    }
  }

  lemma TurnSaves(s: State, w: World, q: Setup)
    ensures var r := TurnStep(s, w, q); r.end.Finished? ==> Saved(r.state.view.durable, r.end.answer, w)
  {
    var t := Consumed(s);
    var n := t.budget.iterationsUsed;
    if TurnStep(s, w, q).end.Finished? {
      RespondSaves(CallStep(t, n, w, q), w.reply(n), n, w, q);
    }
  }

  lemma FinishedDirectly(c: State, content: string, calls: seq<ToolCall>, totalTokens: nat, n: nat, w: World, q: Setup)
    requires calls != [] && RespondStep(c, Reply(content, calls, totalTokens), n, w, q).end.Finished?
    ensures !Mixed(calls, w) && ReturnsDirectly(calls, n, w)
    ensures RespondStep(c, Reply(content, calls, totalTokens), n, w, q).end.answer == Yield(n, 0, w)
  {
  }

  lemma {:induction false} LoopSaves(s: State, w: World, q: Setup)
    requires q.limits.enabled
    ensures var r := LoopRun(s, w, q); r.end.Finished? ==> Saved(r.state.view.durable, r.end.answer, w)
    decreases Left(s, q)
  {
    TurnUsesIteration(s, w, q);
    TurnSaves(s, w, q);
    var r := TurnStep(s, w, q);
    if r.end.Again? {
      LoopSaves(r.state, w, q);
    }
  }
}
