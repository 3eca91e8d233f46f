/** The ReAct loop, imperatively: per-run state over the context, the store and the budget, each method
    equal to its step of the specified run. */
module AgentLoop {
  import opened Transcript
  import opened Compression
  import opened ContextBuilding
  import opened StoreRewrite
  import opened BudgetGuard
  import opened TurnShapes
  import opened LoopWorld
  import opened LoopSpec

  datatype BatchEnd = Recorded | Direct(answer: string) | BatchCrashed

  /** The first `k` calls of a batch are recorded and counted as used. */
  ghost predicate Through(a: View, used: seq<string>, b: View, usedNow: seq<string>,
                          calls: seq<ToolCall>, k: nat, n: nat, w: World)
  {
    && k <= |calls| && Survivors(n, k, w) == k
    && b == RecordAll(a, Outputs(calls, n, w)[..k], w)
    && usedNow == used + Names(calls)[..k]
  }

  lemma ThroughNone(a: View, used: seq<string>, calls: seq<ToolCall>, n: nat, w: World)
    ensures Through(a, used, a, used, calls, 0, n, w)
  {
    RecordNone(a, w);
    assert used + [] == used;
  }

  lemma ThroughOne(a: View, used: seq<string>, b: View, usedNow: seq<string>,
                   calls: seq<ToolCall>, k: nat, n: nat, w: World)
    requires Through(a, used, b, usedNow, calls, k, n, w) && k < |calls| && w.tool(n, k).Some?
    ensures Through(a, used, RecordOne(b, Outputs(calls, n, w)[k], w), usedNow + [calls[k].name], calls, k + 1, n, w)
  {
    RecordMore(a, Outputs(calls, n, w), k, w);
    assert Names(calls)[..k + 1] == Names(calls)[..k] + [calls[k].name];
    assert used + Names(calls)[..k] + [calls[k].name] == used + (Names(calls)[..k] + [calls[k].name]);
  }

  class LoopState {
    const context: ContextBuilder
    const store: ChatContextStore
    const budget: SimpleBudgetGuard
    const envelope: string
    const request: string
    var emptyRetries: nat
    var xmlRepaired: bool
    var corrections: nat
    var warnings: nat
    var nudged: bool
    var toolsUsed: seq<string>
    var lastTotal: Option<int>
    var appends: nat
    ghost var lost: bool
    ghost var executed: nat
    ghost var trace: Trace

    ghost function Stored(): Durable
      reads this, store
    {
      Durable(store.rows, appends, lost)
    }

    ghost function Seen(): View
      reads this, context, store
    {
      View(context.messages, Stored(), nudged)
    }

    ghost function Look(): State
      reads this, context, store, budget
    {
      State(Seen(), Counts(toolsUsed, executed, warnings, emptyRetries, xmlRepaired, corrections),
            lastTotal, trace, budget.state)
    }

    ghost function Fixed(): Setup {
      Setup(envelope, request, budget.config)
    }

    /** The run-scoped state around a freshly built context. */
    constructor (context: ContextBuilder, store: ChatContextStore, request: string, envelope: string,
                 limits: BudgetConfig, now: real)
      ensures this.context == context && this.store == store && fresh(budget)
      ensures Fixed() == Setup(envelope, request, limits)
      ensures Look() == State(View(context.messages, Durable(store.rows, 0, false), false),
                              Counts([], 0, 0, 0, false, 0), None, Trace(|store.rows|, false, 0, []), Fresh(now))
    {
      this.context, this.store, this.envelope, this.request := context, store, envelope, request;
      budget := new SimpleBudgetGuard(limits, now);
      emptyRetries, xmlRepaired, corrections, warnings, nudged := 0, false, 0, 0, false;
      toolsUsed, lastTotal, appends := [], None, 0;
      lost, executed, trace := false, 0, Trace(|store.rows|, false, 0, []);
    }

    // ----- writing -----

    /** `_persist_context_msg`: a failed append is swallowed. */
    method Persist(m: Message, w: World)
      modifies this`appends, this`lost, store
      ensures Stored() == Append(old(Stored()), m, w)
    {
      if !w.sessionBound {
        return;
      }
      if w.appendOk(appends) {
        store.Append(m);
      } else {
        lost := true;
      }
      appends := appends + 1;
    }

    /** Add one result to both transcripts. */
    method Record(m: Message, w: World)
      requires m.Tool? && m.callId.Some?
      modifies this`appends, this`lost, store, context`messages
      ensures context.messages == old(context.messages) + [m]
      ensures Stored() == Append(old(Stored()), m, w)
    {
      context.AddToolResult(m.callId.value, m.name, m.content);
      Persist(m, w);
    }

    /** `_maybe_inject_apply_fill_close_nudge`. */
    method MaybeNudge(tc: ToolCall, result: string, w: World)
      modifies this`nudged, context`messages
      ensures var m := ToolMessage(tc, result);
        nudged == (old(nudged) || Fires(w)(m))
        && context.messages == old(context.messages) + NudgePart(m, old(nudged), w)
    {
      if nudged || tc.name != APPLY_FILL {
        return;
      }
      if IsError(result) || !w.fillOk(result) {
        return;
      }
      context.AddUserMessage(w.text.closeNudge);
      nudged := true;
    }

    method RecordAndNudge(tc: ToolCall, result: string, w: World)
      modifies this`appends, this`lost, this`nudged, this`toolsUsed, store, context`messages
      ensures Seen() == RecordOne(old(Seen()), ToolMessage(tc, result), w)
      ensures toolsUsed == old(toolsUsed) + [tc.name]
    {
      Record(ToolMessage(tc, result), w);
      toolsUsed := toolsUsed + [tc.name];
      MaybeNudge(tc, result, w);
    }

    /** `_save_turn`: the final answer goes to the store only. */
    method SaveTurn(answer: string, w: World)
      modifies this`appends, this`lost, store
      ensures Seen() == Say(old(Seen()), [], [Assistant(answer, Missing)], w)
    {
      WriteOne(Stored(), Assistant(answer, Missing), w);
      assert context.messages + [] == context.messages;
      Persist(Assistant(answer, Missing), w);
    }

    method SayUser(text: string, w: World)
      modifies context`messages
      ensures Seen() == Say(old(Seen()), [User(text)], [], w)
    {
      context.AddUserMessage(text);
    }

    /** The assistant message that declares a batch, in both transcripts. */
    method Announce(calls: seq<ToolCall>, content: string, w: World)
      modifies this`appends, this`lost, store, context`messages
      ensures Seen() == Say(old(Seen()), [Declared(calls, content)], [Declared(calls, content)], w)
    {
      WriteOne(Stored(), Declared(calls, content), w);
      context.AddToolCalls(calls, content);
      Persist(Declared(calls, content), w);
    }

    // ----- executing a batch -----

    /** The gathered results, in call order. */
    method RecordResults(calls: seq<ToolCall>, results: seq<string>, n: nat, w: World)
      requires |results| == |calls|
      requires forall k :: 0 <= k < |calls| ==> w.tool(n, k) == Some(results[k])
      modifies this`appends, this`lost, this`nudged, this`toolsUsed, store, context`messages
      ensures Through(old(Seen()), old(toolsUsed), Seen(), toolsUsed, calls, |calls|, n, w)
    {
      ghost var start, used := Seen(), toolsUsed;
      ThroughNone(start, used, calls, n, w);
      for k := 0 to |calls|
        invariant Through(start, used, Seen(), toolsUsed, calls, k, n, w)
      {
        ThroughOne(start, used, Seen(), toolsUsed, calls, k, n, w);
        RecordAndNudge(calls[k], results[k], w);
      }
    }

    /** One call after another; a lone call may return its result as the answer. */
    method ExecuteSequential(calls: seq<ToolCall>, n: nat, w: World) returns (end: BatchEnd)
      requires calls != []
      modifies this`appends, this`lost, this`nudged, this`toolsUsed, this`executed, store, context`messages
      ensures end.BatchCrashed? <==> Crashes(calls, n, w)
      ensures end.Direct? <==> ReturnsDirectly(calls, n, w)
      ensures !end.Direct? ==>
        Through(old(Seen()), old(toolsUsed), Seen(), toolsUsed, calls, Survivors(n, |calls|, w), n, w)
      ensures end.Direct? ==> end.answer == Yield(n, 0, w) && toolsUsed == old(toolsUsed) + Names(calls)
      ensures end.Direct? ==> Seen() == Say(old(Seen()), Outputs(calls, n, w),
                                            Outputs(calls, n, w) + [Assistant(end.answer, Missing)], w)
      ensures executed == old(executed) + if end.BatchCrashed? then Survivors(n, |calls|, w) + 1 else |calls|
    {
      ghost var start, used, direct := Seen(), toolsUsed, ReturnsDirectly(calls, n, w);
      ThroughNone(start, used, calls, n, w);
      var k := 0;
      end := Recorded;
      while k < |calls|
        invariant 0 <= k <= |calls| && end.Recorded?
        invariant Through(start, used, Seen(), toolsUsed, calls, k, n, w)
        invariant k == 0 ==> Seen() == start && toolsUsed == used
        invariant executed == old(executed) + k
        invariant k > 0 ==> !direct
      {
        ghost var before, usedBefore := Seen(), toolsUsed;
        end := ExecuteOne(calls, k, n, w);
        if end.BatchCrashed? {
          CrashLasts(n, k, |calls|, w);
          return;
        }
        if end.Direct? {
          LoneSurvives(n, w);
          return;
        }
        ThroughOne(start, used, before, usedBefore, calls, k, n, w);
        k := k + 1;
      }
    }

    method ExecuteOne(calls: seq<ToolCall>, k: nat, n: nat, w: World) returns (end: BatchEnd)
      requires k < |calls|
      modifies this`appends, this`lost, this`nudged, this`toolsUsed, this`executed, store, context`messages
      ensures end.BatchCrashed? <==> w.tool(n, k).None?
      ensures end.BatchCrashed? ==> Seen() == old(Seen()) && toolsUsed == old(toolsUsed)
      ensures end.Direct? <==> ReturnsDirectly(calls, n, w)
      ensures end.Recorded? ==> Seen() == RecordOne(old(Seen()), Outputs(calls, n, w)[k], w)
      ensures end.Recorded? ==> toolsUsed == old(toolsUsed) + [calls[k].name]
      ensures end.Direct? ==> end.answer == Yield(n, 0, w) && toolsUsed == old(toolsUsed) + Names(calls)
      ensures end.Direct? ==> Seen() == Say(old(Seen()), Outputs(calls, n, w),
                                            Outputs(calls, n, w) + [Assistant(end.answer, Missing)], w)
      ensures executed == old(executed) + 1
    {
      executed := executed + 1;
      var outcome := w.tool(n, k);
      if outcome.None? {
        return BatchCrashed;
      }
      var result := outcome.value;
      if |calls| == 1 && w.direct(calls[k], result) && !IsError(result) {
        assert Outputs(calls, n, w) == [ToolMessage(calls[0], result)] && Names(calls) == [calls[0].name];
        ReturnDirect(calls[k], result, w);
        return Direct(result);
      }
      RecordAndNudge(calls[k], result, w);
      return Recorded;
    }

    method ReturnDirect(tc: ToolCall, result: string, w: World)
      modifies this`appends, this`lost, this`toolsUsed, store, context`messages
      ensures Seen() == Say(old(Seen()), [ToolMessage(tc, result)],
                            [ToolMessage(tc, result)] + [Assistant(result, Missing)], w)
      ensures toolsUsed == old(toolsUsed) + [tc.name]
    {
      ghost var v0 := Seen();
      var m := ToolMessage(tc, result);
      WriteOne(v0.durable, m, w);
      Record(m, w);
      assert Seen() == Say(v0, [m], [m], w);
      toolsUsed := toolsUsed + [tc.name];
      SaveTurn(result, w);
      SayMore(v0, [m], [m], [], [Assistant(result, Missing)], w);
      assert [m] + [] == [m];
    }

    method ExecuteBatch(calls: seq<ToolCall>, n: nat, w: World) returns (end: BatchEnd)
      requires calls != []
      modifies this`appends, this`lost, this`nudged, this`toolsUsed, this`executed, store, context`messages
      ensures end.BatchCrashed? <==> Crashes(calls, n, w)
      ensures end.Direct? <==> ReturnsDirectly(calls, n, w)
      ensures end.Direct? ==> end.answer == Yield(n, 0, w)
      ensures end.Direct? ==> Seen() == Say(old(Seen()), Outputs(calls, n, w),
                                            Outputs(calls, n, w) + [Assistant(end.answer, Missing)], w)
      ensures !end.Direct? ==> Seen() == RecordAll(old(Seen()), RecordedResults(calls, n, w), w)
      ensures toolsUsed == old(toolsUsed) + Names(calls)[..RecordedCount(calls, n, w)]
      ensures executed == old(executed) + StartedCount(calls, n, w)
    {
      if Parallel(calls, w) {
        executed := executed + |calls|;
        var results := Gather(calls, n, w);
        if results.None? {
          RecordNone(Seen(), w);
          assert RecordedResults(calls, n, w) == [] && Names(calls)[..0] == [];
          return BatchCrashed;
        }
        RecordResults(calls, results.value, n, w);
        return Recorded;
      }
      end := ExecuteSequential(calls, n, w);
      assert Names(calls)[..|calls|] == Names(calls);
    }

    /** Announce an admitted batch, execute it, and record it. */
    method RunBatch(content: string, calls: seq<ToolCall>, n: nat, w: World) returns (end: BatchEnd)
      requires calls != []
      modifies this`appends, this`lost, this`nudged, this`toolsUsed, this`executed, store, context`messages
      ensures end.BatchCrashed? <==> Crashes(calls, n, w)
      ensures end.Direct? <==> ReturnsDirectly(calls, n, w)
      ensures end.Direct? ==> end.answer == Yield(n, 0, w)
      ensures Seen() == BatchView(old(Seen()), content, calls, n, w)
      ensures toolsUsed == old(toolsUsed) + Names(calls)[..RecordedCount(calls, n, w)]
      ensures executed == old(executed) + StartedCount(calls, n, w)
    {
      ghost var v0 := Seen();
      Announce(calls, content, w);
      end := ExecuteBatch(calls, n, w);
      if end.Direct? {
        DirectBatchView(v0, content, calls, n, w);
      } else {
        SpokenBatchView(v0, content, calls, n, w);
      }
    }

    method Perform(content: string, calls: seq<ToolCall>, n: nat, w: World) returns (end: BatchEnd)
      requires calls != []
      modifies this`appends, this`lost, this`nudged, this`toolsUsed, this`executed, store, context`messages
      ensures end.BatchCrashed? <==> Crashes(calls, n, w)
      ensures end.Direct? <==> ReturnsDirectly(calls, n, w)
      ensures end.Direct? ==> end.answer == Yield(n, 0, w)
      ensures Look() == BatchStep(old(Look()), content, calls, n, w)
    {
      ghost var t := BatchStep(Look(), content, calls, n, w);
      end := RunBatch(content, calls, n, w);
      assert Look().view == t.view;
      assert Look().counts == t.counts;
    }

    /** A terminal call among others: every call is answered with a refusal and none is executed. */
    method RejectBatch(content: string, calls: seq<ToolCall>, w: World)
      modifies this`appends, this`lost, store, context`messages
      ensures Look() == RejectStep(old(Look()), content, calls, w)
    {
      ghost var v0, a, all := Seen(), Declared(calls, content), Rejections(calls, w);
      Announce(calls, content, w);
      assert [a] + all[..0] == [a];
      for k := 0 to |calls|
        invariant Seen() == Say(v0, [a] + all[..k], [a] + all[..k], w)
      {
        RejectedOne(v0, a, all, k, w);
        Record(ToolMessage(calls[k], w.text.mixedRejected), w);
      }
      assert all[..|calls|] == all;
      SayMore(v0, [a] + all, [a] + all, [User(w.text.retryTerminal)], [], w);
      assert [a] + all + [] == [a] + all;
      SayUser(w.text.retryTerminal, w);
    }

    // ----- one turn -----

    /** The reply carries no tool calls: retry with an instruction, or answer. */
    method Answer(content: string, w: World) returns (end: TurnEnd)
      modifies this`appends, this`lost, this`emptyRetries, this`xmlRepaired, this`corrections, store, context`messages
      ensures Step(Look(), end) == AnswerStep(old(Look()), content, w)
    {
      if w.blank(content) && emptyRetries < EMPTY_RESPONSE_MAX_RETRIES {
        emptyRetries := emptyRetries + 1;
        SayUser(w.text.emptyRetry, w);
        return Again;
      }
      end := CheckMarkup(if content != "" then content else w.text.noResponse, w);
    }

    method CheckMarkup(text: string, w: World) returns (end: TurnEnd)
      modifies this`appends, this`lost, this`xmlRepaired, this`corrections, store, context`messages
      ensures Step(Look(), end) == MarkupStep(old(Look()), text, w)
    {
      var final := text;
      if w.xml(final) {
        if !xmlRepaired {
          xmlRepaired := true;
          SayUser(w.text.xmlRepair, w);
          return Again;
        }
        final := w.text.xmlFallback;
      }
      end := CheckPlanning(final, w);
    }

    method CheckPlanning(text: string, w: World) returns (end: TurnEnd)
      modifies this`appends, this`lost, this`corrections, store, context`messages
      ensures Step(Look(), end) == PlanningStep(old(Look()), text, w)
    {
      var final := text;
      if corrections < w.maxCorrections && w.planning(final) {
        SayUser(w.text.correction, w);
        corrections := corrections + 1;
        return Again;
      }
      if w.echo(final) {
        final := w.text.loopFallback;
      }
      SaveTurn(final, w);
      return Finished(final);
    }

    /** All limits, then the whole batch or none of it. */
    method Admit(calls: seq<ToolCall>, n: nat, w: World) returns (ok: bool)
      requires calls != []
      modifies budget
      ensures ok <==> !Refuses(old(budget.state), budget.config, calls, n, w)
      ensures Look() == if ok then Reserved(old(Look()), calls) else old(Look())
    {
      var limit := budget.Check(w.clock(n).1);
      if limit.Some? {
        return false;
      }
      var admission := budget.ReserveToolCalls(|calls|);
      return admission.Admitted?;
    }

    method Execute(content: string, calls: seq<ToolCall>, n: nat, w: World) returns (end: TurnEnd)
      requires calls != []
      modifies this`appends, this`lost, this`nudged, this`toolsUsed, this`executed, this`warnings, this`trace,
        store, context`messages
      ensures Step(Look(), end) == ExecuteStep(old(Look()), content, calls, n, w)
    {
      ghost var severs := Severs(calls, n, nudged, w);
      var batch := Perform(content, calls, n, w);
      if batch.BatchCrashed? {
        return Crashed;
      }
      trace := Marked(Look(), severs).trace;
      if batch.Direct? {
        return Finished(batch.answer);
      }
      end := Judge(n, w);
    }

    /** Repeated results first, repeated errors behind; the second warning ends the loop. */
    method Judge(n: nat, w: World) returns (end: TurnEnd)
      modifies this`warnings
      ensures Step(Look(), end) == VerdictStep(old(Look()), n, w)
    {
      if w.dedup(n) {
        return Again;
      }
      if w.looping(n) {
        warnings := warnings + 1;
        if warnings >= 2 {
          return LoopDetected;
        }
      }
      return Again;
    }

    /** The reply carries tool calls: a refused batch leaves no trace. */
    method ToolTurn(content: string, calls: seq<ToolCall>, n: nat, w: World) returns (end: TurnEnd)
      requires calls != []
      modifies this`appends, this`lost, this`nudged, this`toolsUsed, this`executed, this`warnings, this`trace,
        store, context`messages, budget
      ensures Step(Look(), end) == ToolStep(old(Look()), content, calls, n, w, Fixed())
    {
      var ok := Admit(calls, n, w);
      if !ok {
        return Exhausted;
      }
      if Mixed(calls, w) {
        RejectBatch(content, calls, w);
        return Again;
      }
      end := Execute(content, calls, n, w);
    }

    /** `_maybe_compress_mid_run`: prune, then compress store-first when a session is bound. */
    method MaybeCompressMidRun(x: MidRunInputs, w: World)
      modifies this`lastTotal, this`lost, this`trace, store, context`messages
      ensures Look() == CompressStep(old(Look()), x, w, Fixed())
    {
      ghost var before := Look();
      ghost var win := WindowOf(before, x, w, Fixed());
      CompressWindow(x, w);
      lost := Windowed(before, win).view.durable.lost;
      trace := Windowed(before, win).trace;
    }

    method CompressWindow(x: MidRunInputs, w: World)
      modifies this`lastTotal, store, context`messages
      ensures var win := WindowOf(old(Look()), x, w, Fixed());
        context.messages == win.memory && store.rows == win.rows && lastTotal == win.total
    {
      if !x.enabled {
        return;
      }
      Prune(x);
      if x.cfg.None? || !ShouldCompress(context.messages, x.cfg.value, lastTotal) {
        return;
      }
      if w.sessionBound {
        var done := CompressStore(x);
        if done {
          return;
        }
      }
      CompressMemory(x.cfg.value, x.memorySummary);
    }

    method Prune(x: MidRunInputs)
      modifies context`messages
      ensures context.messages == PruneStage(old(context.messages), x)
    {
      if |context.messages| > x.pruneMin {
        var _ := context.PruneOldToolResults(PRUNE_PROTECT_TAIL, PRUNE_MIN_LENGTH);
      }
    }

    method CompressStore(x: MidRunInputs) returns (done: bool)
      modifies this`lastTotal, store, context`messages
      ensures var r := Rewrite(old(store.rows), StoreInputs(x, old(lastTotal)));
        && done == (r.status == Rewritten && r.messages.Some?)
        && store.rows == r.rows && (!done ==> store.rows == old(store.rows))
        && lastTotal == (if done then None else old(lastTotal))
        && context.messages == if done then Restored(r.messages.value, Some(envelope), Some(request))
                               else old(context.messages)
    {
      RewriteIsSafe(store.rows, StoreInputs(x, lastTotal));
      var compressed, _, status := CompressStoreTranscript(store, StoreInputs(x, lastTotal));
      done := status == Rewritten && compressed.Some?;
      if done {
        var restored := RestoreEphemeral(compressed.value, Some(envelope), Some(request));
        context.messages := restored;
        lastTotal := None;
      }
    }

    method CompressMemory(cfg: Config, summary: Option<string>)
      modifies this`lastTotal, context`messages
      ensures var win := InMemory(old(context.messages), store.rows, old(lastTotal), cfg, summary);
        context.messages == win.memory && lastTotal == win.total
    {
      var out := Compress(context.messages, cfg, lastTotal, summary);
      if out.Some? {
        context.messages := out.value;
        lastTotal := None;
      }
    }

    /** The tail hints: earlier ones stripped by their marker, fresh ones appended. */
    method InjectHints(h: Hints)
      modifies this`trace, context`messages
      ensures Look() == HintStep(old(Look()), h)
    {
      ghost var before := context.messages;
      trace := trace.(severed := trace.severed || Tears(before, h));
      if h.soft {
        context.messages := Stripped(context.messages, h.softMarked);
        if h.softText.Some? {
          context.messages := context.messages + [User(h.softText.value)];
        } else {
          assert context.messages + [] == context.messages;
        }
      }
      assert context.messages == SoftHinted(before, h);
      context.messages := Stripped(context.messages, h.webMarked);
      if h.webText.Some? {
        context.messages := context.messages + [User(h.webText.value)];
      } else {
        assert context.messages + [] == context.messages;
      }
    }

    /** What precedes a provider call, and the call itself. */
    method CallProvider(n: nat, w: World) returns (reply: Reply)
      modifies this`lastTotal, this`lost, this`trace, store, context`messages
      ensures Look() == CallStep(old(Look()), n, w, Fixed())
      ensures reply == w.reply(n)
    {
      MaybeCompressMidRun(w.midRun(n), w);
      InjectHints(w.hints(n));
      trace := Logged(Look()).trace;
      reply := w.reply(n);
    }

    /** Act on what the provider said. */
    method Respond(reply: Reply, n: nat, w: World) returns (end: TurnEnd)
      modifies this, store, context`messages, budget
      ensures Step(Look(), end) == RespondStep(old(Look()), reply, n, w, Fixed())
    {
      match reply {
        case TimedOut =>
          SaveTurn(w.text.timedOut, w);
          end := Finished(w.text.timedOut);
        case Failed =>
          end := ProviderRaised;
        case Reply(content, calls, totalTokens) =>
          lastTotal := if totalTokens > 0 then Some(totalTokens) else None;
          if calls == [] {
            end := Answer(content, w);
          } else {
            end := ToolTurn(content, calls, n, w);
          }
      }
    }

    method Turn(w: World) returns (end: TurnEnd)
      modifies this, store, context`messages, budget
      ensures Step(Look(), end) == TurnStep(old(Look()), w, Fixed())
    {
      budget.ConsumeIteration();
      var n := budget.state.iterationsUsed;
      var limit := budget.Check(w.clock(n).0);
      if limit.Some? {
        return Exhausted;
      }
      var reply := CallProvider(n, w);
      end := Respond(reply, n, w);
    }

    /** The `while True` loop: it always comes to an end. */
    method Loop(w: World) returns (end: TurnEnd)
      requires budget.config.enabled
      modifies this, store, context`messages, budget
      ensures Step(Look(), end) == LoopRun(old(Look()), w, Fixed())
    {
      ghost var whole := LoopRun(Look(), w, Fixed());
      end := Again;
      while end.Again?
        invariant if end.Again? then LoopRun(Look(), w, Fixed()) == whole else Step(Look(), end) == whole
        decreases end.Again?, Left(Look(), Fixed())
      {
        TurnUsesIteration(Look(), w, Fixed());
        end := Turn(w);
      }
    }
  }

  lemma DirectBatchView(v: View, content: string, calls: seq<ToolCall>, n: nat, w: World)
    requires ReturnsDirectly(calls, n, w)
    ensures var a, tools, answer := Declared(calls, content), Outputs(calls, n, w), Assistant(Yield(n, 0, w), Missing);
      Say(Say(v, [a], [a], w), tools, tools + [answer], w) == BatchView(v, content, calls, n, w)
  {
    var a, tools, answer := Declared(calls, content), Outputs(calls, n, w), Assistant(Yield(n, 0, w), Missing);
    LoneSurvives(n, w);
    assert RecordedResults(calls, n, w) == tools;
    SayMore(v, [a], [a], tools, tools + [answer], w);
    assert [a] + (tools + [answer]) == [a] + tools + [answer];
  }

  lemma SpokenBatchView(v: View, content: string, calls: seq<ToolCall>, n: nat, w: World)
    requires !ReturnsDirectly(calls, n, w)
    ensures var a := Declared(calls, content);
      RecordAll(Say(v, [a], [a], w), RecordedResults(calls, n, w), w) == BatchView(v, content, calls, n, w)
  {
    var a, tools := Declared(calls, content), RecordedResults(calls, n, w);
    var spoken := Spoken(tools, v.nudged, Fires(w), w.text.closeNudge);
    SayMore(v, [a], [a], spoken, tools, w);
    assert [a] + tools + [] == [a] + tools;
  }

  lemma RejectedOne(v: View, a: Message, all: seq<Message>, k: nat, w: World)
    requires k < |all|
    ensures var said := [a] + all[..k];
      Say(v, [a] + all[..k + 1], [a] + all[..k + 1], w)
        == View(v.memory + said + [all[k]], Append(Write(v.durable, said, w), all[k], w), v.nudged)
  {
    var said := [a] + all[..k];
    assert [a] + all[..k + 1] == said + [all[k]];
    WriteSnoc(v.durable, said, all[k], w);
    assert v.memory + (said + [all[k]]) == v.memory + said + [all[k]];
  }
}
