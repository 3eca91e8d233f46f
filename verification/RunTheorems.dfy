/** What holds of every run, from the stored rows to the answer, whatever the outside world does. */
module RunTheorems {
  import opened Transcript
  import opened Normalization
  import opened ContextBuilding
  import opened BudgetGuard
  import opened LoopWorld
  import opened LoopSpec
  import opened LoopTheorems
  import opened PlainTexts
  import opened AgentRun

  ghost predicate PlainTalk(ms: seq<Message>) {
    forall m :: m in ms ==> m.User? || (m.Assistant? && m.calls == Missing)
  }

  // ----- the opening -----

  lemma OpeningIsClosed(rows: seq<Message>, fewShots: seq<Message>, args: string -> Option<string>, now: real, w: World,
                        q: Setup)
    requires PlainTalk(fewShots)
    ensures Closed(Opening(rows, fewShots, args, now, w, q), w)
  {
    var memory := fewShots + RebuiltAll(Normalized(History(rows, w)).messages, args) + [User(q.envelope)];
    RestoredContext(History(rows, w), fewShots, q.envelope, args);
    var s := Opened(memory, rows, now);
    assert rows[|rows|..] == [];
    OneUserIsClosed(q.request);
    SayKeepsClosed(s, [], [User(q.request)], w);
  }

  /** What a run begins with: few-shots, the stored history put back (none without a session or when it does not
      load), and the envelope in the list; the raw request behind the rows; nothing counted and nothing logged. */
  lemma OpeningMeans(rows: seq<Message>, fewShots: seq<Message>, args: string -> Option<string>, now: real, w: World,
                     q: Setup, i: nat)
    requires Restores(rows, args, w)
    ensures var s := Opening(rows, fewShots, args, now, w, q);
      var ms := Normalized(if w.sessionBound && w.historyLoads then rows else []).messages;
      && |s.view.memory| == |fewShots| + |ms| + 1
      && s.view.memory[..|fewShots|] == fewShots && s.view.memory[|fewShots| + |ms|] == User(q.envelope)
      && (i < |ms| ==> RestoredFrom(s.view.memory[|fewShots| + i], ms[i], args))
      && s.view.durable.rows == (if w.sessionBound && w.appendOk(0) then rows + [User(q.request)] else rows)
      && s.counts == Counts([], 0, 0, 0, false, 0) && s.budget == BudgetState(now, 0, 0, None, 0.0)
      && s.trace.log == [] && !s.view.nudged && s.total == None
  {
    var ms := Normalized(History(rows, w)).messages;
    if i < |ms| {
      RestoredWordForWord(History(rows, w), fewShots, args, i);
    }
    WriteOne(Durable(rows, 0, false), User(q.request), w);
    var memory := fewShots + RebuiltAll(ms, args) + [User(q.envelope)];
    assert memory + [] == memory;
  }

  lemma OpeningKeepsRows(rows: seq<Message>, fewShots: seq<Message>, args: string -> Option<string>, now: real,
                         w: World, q: Setup)
    ensures RowsKept(Opening(rows, fewShots, args, now, w, q), rows)
  {
    WriteGrows(Durable(rows, 0, false), [User(q.request)], w);
  }

  lemma RebuiltIsPlain(ms: seq<Message>, args: string -> Option<string>, ok: string -> bool)
    requires AllPlain(ms, ok)
    ensures AllPlain(RebuiltAll(ms, args), ok)
  {
    var r := RebuiltAll(ms, args);
    forall i | 0 <= i < |r| ensures Plain(r[i], ok) {
      assert Plain(ms[i], ok);
    }
  }

  lemma OpeningIsClean(rows: seq<Message>, fewShots: seq<Message>, args: string -> Option<string>, now: real, w: World,
                       q: Setup, ok: string -> bool)
    requires AllPlain(rows, ok) && AllPlain(fewShots, ok) && FillersOk(ok)
    ensures Clean(Opening(rows, fewShots, args, now, w, q), ok)
  {
    var history := Normalized(History(rows, w)).messages;
    NormalizedIsPlain(History(rows, w), ok);
    RebuiltIsPlain(history, args, ok);
    PlainConcat(fewShots, RebuiltAll(history, args), ok);
    PlainConcat(fewShots + RebuiltAll(history, args), [User(q.envelope)], ok);
    var memory := fewShots + RebuiltAll(history, args) + [User(q.envelope)];
    assert memory + [] == memory;
    WriteIsPlain(Durable(rows, 0, false), [User(q.request)], w, ok);
  }

  // ----- the end of a run -----

  /** The budget handler makes one more provider call. */
  predicate CallsEmergency(r: Step, w: World) {
    r.end.Exhausted? && Salvages(r.state, w) && w.terminalInRegistry
  }

  /** Executing a salvage call raises. */
  predicate LeavesOpen(r: Step, w: World) {
    CallsEmergency(r, w)
    && if Obeys(w.emergencyReply, w) then w.cascadeTool(0).None? else w.cascadeTool(1).None?
  }

  /** The run stops over a batch, or a salvage call, whose execution raised. */
  predicate Abandons(r: Step, w: World) {
    r.end.Crashed? || LeavesOpen(r, w)
  }

  /** The log of a concluded run: the loop's calls, and the emergency call if there was one. */
  lemma ConcludedLog(r: Step, w: World)
    ensures Concluded(r, w).state.trace.log
         == r.state.trace.log + if CallsEmergency(r, w) then [Taken(Emergency(r.state, w))] else []
  {
    assert r.state.trace.log + [] == r.state.trace.log;
  }

  lemma CascadePartIsClosedIff(tc: ToolCall, result: Option<string>)
    requires GoodCalls(AllStored([tc]))
    ensures Batches(CascadePart(tc, result)) <==> result.Some?
  {
    if result.Some? {
      NamedAnswers([tc], [ToolMessage(tc, result.value)]);
      BatchIsClosed(Declared([tc], ""), [ToolMessage(tc, result.value)]);
    } else {
      assert CascadePart(tc, result) == [Declared([tc], "")];
    }
  }

  lemma CascadeKeepsClosed(s: State, tc: ToolCall, result: Option<string>, w: World)
    requires Closed(s, w) && result.Some? && (Sound(w) ==> GoodCalls(AllStored([tc])))
    ensures Closed(CascadeStep(s, tc, result, w), w)
  {
    if Sound(w) {
      CascadePartIsClosedIff(tc, result);
    }
    SayKeepsClosed(s, CascadePart(tc, result), CascadePart(tc, result), w);
  }

  lemma SyntheticIsGood(content: string, w: World)
    requires w.terminalTool != ""
    ensures GoodCalls(AllStored([Synthetic(content, w)]))
  {
    assert Synthetic(content, w).id[0] == 'a';
  }

  lemma FinalizeKeepsClosed(s: State, w: World)
    requires Closed(s, w) && w.terminalTool != ""
    requires if Obeys(w.emergencyReply, w) then w.cascadeTool(0).Some? else w.cascadeTool(1).Some?
    ensures Closed(FinalizeStep(s, w).state, w)
  {
    var reply := w.emergencyReply;
    if Obeys(reply, w) {
      assert Sound(w) ==> SoundReply(reply);
      assert reply.calls == [reply.calls[0]];
      CascadeKeepsClosed(s, reply.calls[0], w.cascadeTool(0), w);
    } else {
      var content := if reply.Reply? then reply.content else "";
      SyntheticIsGood(content, w);
      CascadeKeepsClosed(s, Synthetic(content, w), w.cascadeTool(1), w);
    }
  }

  lemma EmergencyKeepsClosed(s: State, w: World)
    requires Closed(s, w)
    ensures Closed(Emergency(s, w), w)
  {
    OneUserIsClosed(w.text.emergency);
    SayKeepsClosed(s, [User(w.text.emergency)], [], w);
  }

  lemma SalvageKeepsClosed(s: State, w: World)
    requires Closed(s, w) && w.terminalTool != ""
    requires w.terminalInRegistry ==>
      if Obeys(w.emergencyReply, w) then w.cascadeTool(0).Some? else w.cascadeTool(1).Some?
    ensures Closed(SalvageStep(s, w).state, w)
  {
    EmergencyKeepsClosed(s, w);
    if w.terminalInRegistry {
      FinalizeKeepsClosed(Logged(Emergency(s, w)), w);
    }
  }

  lemma ConcludedIsClosed(r: Step, w: World)
    requires !r.end.Crashed? && !r.end.Again? && Closed(r.state, w) && !LeavesOpen(r, w)
    ensures Closed(Concluded(r, w).state, w)
  {
    match r.end
    case Finished(_) =>
    case LoopDetected => AnsweredKeepsClosed(r.state, w.text.loopFallback, w);
    case Exhausted =>
      if Salvages(r.state, w) {
        SalvageKeepsClosed(r.state, w);
        var v := SalvageStep(r.state, w);
        AnsweredKeepsClosed(v.state, if v.answer.Some? then v.answer.value else w.text.overBudget, w);
      } else {
        AnsweredKeepsClosed(r.state, w.text.overBudget, w);
      }
    case _ =>
  }

  // ----- what a raising salvage call leaves -----

  function FirstSalvage(w: World): ToolCall {
    if Obeys(w.emergencyReply, w) then w.emergencyReply.calls[0]
    else Synthetic(if w.emergencyReply.Reply? then w.emergencyReply.content else "", w)
  }

  /** What the cascade says and writes behind its first, unanswered call. */
  function SecondSalvage(w: World): seq<Message> {
    if Obeys(w.emergencyReply, w) then CascadePart(Synthetic(w.emergencyReply.content, w), w.cascadeTool(1)) else []
  }

  lemma FinalizeView(s: State, w: World)
    requires if Obeys(w.emergencyReply, w) then w.cascadeTool(0).None? else w.cascadeTool(1).None?
    ensures var said := [Declared([FirstSalvage(w)], "")] + SecondSalvage(w);
      FinalizeStep(s, w).state.view == Say(s.view, said, said, w)
    ensures FinalizeStep(s, w).state.trace == s.trace
  {
    var a, rest := Declared([FirstSalvage(w)], ""), SecondSalvage(w);
    assert CascadePart(FirstSalvage(w), None) == [a];
    assert [a] + [] == [a];
    SayMore(s.view, [a], [a], rest, rest, w);
  }

  /** A raising salvage call stays unanswered in both transcripts, whatever is said and saved behind it. */
  lemma RaisingSalvageLeavesOpen(r: Step, w: World)
    requires LeavesOpen(r, w) && r.state.trace.runStart <= |r.state.view.durable.rows|
    ensures LeftOpen(Concluded(r, w).state, w)
  {
    var s := Logged(Emergency(r.state, w));
    var a, rest := Declared([FirstSalvage(w)], ""), SecondSalvage(w);
    FinalizeView(s, w);
    var v := SalvageStep(r.state, w);
    var answer := Assistant(if v.answer.Some? then v.answer.value else w.text.overBudget, Missing);
    SayMore(s.view, [a] + rest, [a] + rest, [], [answer], w);
    assert [a] + rest + [] == [a] + rest && [a] + rest + [answer] == [a] + (rest + [answer]);
    assert rest != [] ==> !rest[0].Tool?;
    assert !(rest + [answer])[0].Tool?;
    SayLeavesOpen(s, Concluded(r, w).state, a, rest, rest + [answer], w);
  }

  lemma ConcludedEnds(r: Step, w: World)
    requires EndsWell(r, w) && !r.end.Again?
    ensures if Abandons(r, w) then LeftOpen(Concluded(r, w).state, w) else Closed(Concluded(r, w).state, w)
  {
    if LeavesOpen(r, w) {
      RaisingSalvageLeavesOpen(r, w);
    } else if !r.end.Crashed? {
      ConcludedIsClosed(r, w);
    }
  }

  // ----- whole runs -----

  /** At every provider call of every run, the emergency call among them, both transcripts are closed, each
      unless its flag is up; and so they are at the end exactly when the run does not stop over a batch or a
      salvage call whose execution raised. A raising provider leaves them closed. */
  lemma RunIsClosed(rows: seq<Message>, fewShots: seq<Message>, args: string -> Option<string>, now: real, w: World,
                    q: Setup)
    requires q.limits.enabled && PlainTalk(fewShots)
    ensures var e := RunOf(rows, fewShots, args, now, w, q);
      var r := LoopRun(Opening(rows, fewShots, args, now, w, q), w, q);
      && AllOk(e.state.trace.log, w)
      && (e.answer.None? <==> r.end.Crashed? || r.end.ProviderRaised?)
      && (Abandons(r, w) ==> !Batches(e.state.view.memory))
      && (Sound(w) && !e.state.trace.severed ==> (Batches(e.state.view.memory) <==> !Abandons(r, w)))
      && (Sound(w) && w.sessionBound && !e.state.view.durable.lost ==> (OwnRowsClosed(e.state) <==> !Abandons(r, w)))
  {
    var s := Opening(rows, fewShots, args, now, w, q);
    OpeningIsClosed(rows, fewShots, args, now, w, q);
    LoopKeepsClosed(s, w, q);
    LoopEnds(s, w, q);
    var r := LoopRun(s, w, q);
    ConcludedLog(r, w);
    if CallsEmergency(r, w) {
      EmergencyKeepsClosed(r.state, w);
    }
    ConcludedEnds(r, w);
  }

  /** The rows of the run, or since the last rewrite all rows, are closed batches. */
  predicate OwnRowsClosed(s: State) {
    s.trace.runStart <= |s.view.durable.rows| && Batches(s.view.durable.rows[s.trace.runStart..])
  }

  lemma FinalizeNeverLoses(s: State, w: World)
    requires !s.view.durable.lost && forall k :: w.appendOk(k)
    ensures !FinalizeStep(s, w).state.view.durable.lost
  {
    forall v: View, ds | !v.durable.lost ensures !Write(v.durable, ds, w).lost {
      WriteNeverLoses(v.durable, ds, w);
    }
  }

  /** When no append fails, no row is lost before any provider call, nor at the end. */
  lemma RunLosesNothing(rows: seq<Message>, fewShots: seq<Message>, args: string -> Option<string>, now: real, w: World,
                        q: Setup)
    requires q.limits.enabled && forall k :: w.appendOk(k)
    ensures NeverLost(RunOf(rows, fewShots, args, now, w, q).state)
  {
    var s := Opening(rows, fewShots, args, now, w, q);
    WriteNeverLoses(Durable(rows, 0, false), [User(q.request)], w);
    LoopNeverLoses(s, w, q);
    var r := LoopRun(s, w, q);
    ConcludedLog(r, w);
    ConcludedNeverLoses(r, w);
  }

  lemma ConcludedNeverLoses(r: Step, w: World)
    requires !r.state.view.durable.lost && forall k :: w.appendOk(k)
    ensures !Concluded(r, w).state.view.durable.lost
    ensures !Emergency(r.state, w).view.durable.lost
  {
    var t := Emergency(r.state, w);
    WriteNeverLoses(r.state.view.durable, [], w);
    FinalizeNeverLoses(Logged(t), w);
    forall d: Durable, ds | !d.lost ensures !Write(d, ds, w).lost {
      WriteNeverLoses(d, ds, w);
    }
  }

  /** The rows a run has written stand behind all the rows it found, at every provider call and at the end,
      unless the store has been rewritten; then they are all the rows. */
  lemma RunKeepsRows(rows: seq<Message>, fewShots: seq<Message>, args: string -> Option<string>, now: real, w: World,
                     q: Setup)
    requires q.limits.enabled
    ensures RowsKept(RunOf(rows, fewShots, args, now, w, q).state, rows)
  {
    var s := Opening(rows, fewShots, args, now, w, q);
    OpeningKeepsRows(rows, fewShots, args, now, w, q);
    LoopKeepsRows(s, w, q, rows);
    var r := LoopRun(s, w, q);
    ConcludedLog(r, w);
    ConcludedGrows(r, w);
  }

  /** Rows appended at most, and nothing rewritten. */
  predicate Grown(a: State, b: State) {
    && a.view.durable.rows <= b.view.durable.rows
    && a.trace.runStart == b.trace.runStart && a.trace.rewrites == b.trace.rewrites
  }

  lemma GrownMore(a: State, b: State, c: State)
    requires Grown(a, b) && Grown(b, c)
    ensures Grown(a, c)
  {
  }

  lemma SayGrows(s: State, t: State, ms: seq<Message>, ds: seq<Message>, w: World)
    requires t.view == Say(s.view, ms, ds, w) && t.trace == s.trace
    ensures Grown(s, t)
  {
    WriteGrows(s.view.durable, ds, w);
  }

  lemma CascadeGrows(s: State, tc: ToolCall, result: Option<string>, w: World)
    ensures Grown(s, CascadeStep(s, tc, result, w))
  {
    SayGrows(s, CascadeStep(s, tc, result, w), CascadePart(tc, result), CascadePart(tc, result), w);
  }

  lemma FinalizeGrows(s: State, w: World)
    ensures Grown(s, FinalizeStep(s, w).state)
  {
    var synthetic := Synthetic(if w.emergencyReply.Reply? then w.emergencyReply.content else "", w);
    if Obeys(w.emergencyReply, w) {
      var t := CascadeStep(s, w.emergencyReply.calls[0], w.cascadeTool(0), w);
      CascadeGrows(s, w.emergencyReply.calls[0], w.cascadeTool(0), w);
      CascadeGrows(t, synthetic, w.cascadeTool(1), w);
      if w.cascadeTool(0).None? {
        GrownMore(s, t, FinalizeStep(s, w).state);
      }
    } else {
      CascadeGrows(s, synthetic, w.cascadeTool(1), w);
    }
  }

  lemma SalvageGrows(s: State, w: World)
    ensures Grown(s, SalvageStep(s, w).state)
  {
    var t := Emergency(s, w);
    if w.terminalInRegistry {
      FinalizeGrows(Logged(t), w);
      GrownMore(s, Logged(t), SalvageStep(s, w).state);
    }
  }

  lemma AnsweredGrows(s: State, answer: string, w: World)
    ensures Grown(s, Answered(s, answer, w))
  {
    SayGrows(s, Answered(s, answer, w), [], [Assistant(answer, Missing)], w);
  }

  lemma ConcludedGrows(r: Step, w: World)
    ensures Grown(r.state, Concluded(r, w).state)
    ensures Emergency(r.state, w).view.durable == r.state.view.durable
  {
    match r.end
    case LoopDetected => AnsweredGrows(r.state, w.text.loopFallback, w);
    case Exhausted =>
      if Salvages(r.state, w) {
        var v := SalvageStep(r.state, w);
        var text := if v.answer.Some? then v.answer.value else w.text.overBudget;
        SalvageGrows(r.state, w);
        AnsweredGrows(v.state, text, w);
        GrownMore(r.state, v.state, Answered(v.state, text, w));
      } else {
        AnsweredGrows(r.state, w.text.overBudget, w);
      }
    case _ =>
  }

  /** Counting provider calls by the log: the loop makes fewer than `max_iterations`, the budget handler at
      most one more; executions stay within reservations, reservations within the limit, and salvage
      executes at most twice. */
  lemma RunWithinBudget(rows: seq<Message>, fewShots: seq<Message>, args: string -> Option<string>, now: real, w: World,
                        q: Setup)
    requires q.limits.enabled
    ensures var e := RunOf(rows, fewShots, args, now, w, q);
      var r := LoopRun(Opening(rows, fewShots, args, now, w, q), w, q);
      var calls := |r.state.trace.log|;
      && (calls == 0 || calls < q.limits.maxIterations)
      && calls <= r.state.budget.iterationsUsed <= calls + 1
      && |e.state.trace.log| == calls + (if CallsEmergency(r, w) then 1 else 0)
      && WithinBudget(e.state, q) && e.salvaged <= 2
  {
    var s := Opening(rows, fewShots, args, now, w, q);
    LoopWithinBudget(s, w, q);
    ConcludedLog(LoopRun(s, w, q), w);
    ConcludedSpends(LoopRun(s, w, q), w);
  }

  lemma ConcludedSpends(r: Step, w: World)
    ensures var e := Concluded(r, w);
      e.state.budget == r.state.budget && e.state.counts.executed == r.state.counts.executed && e.salvaged <= 2
  {
  }

  /** Whatever ended the run, its answer is the last row of the store, unless there is no store or the very
      last append failed; earlier failures do not matter. */
  lemma RunSavesAnswer(rows: seq<Message>, fewShots: seq<Message>, args: string -> Option<string>, now: real, w: World,
                       q: Setup)
    requires q.limits.enabled
    ensures var e := RunOf(rows, fewShots, args, now, w, q);
      e.answer.Some? ==> Saved(e.state.view.durable, e.answer.value, w)
  {
    var s := Opening(rows, fewShots, args, now, w, q);
    LoopSaves(s, w, q);
    LoopEnds(s, w, q);
    ConcludedSaves(LoopRun(s, w, q), w);
  }

  lemma AnsweredSaves(s: State, answer: string, w: World)
    ensures Saved(Answered(s, answer, w).view.durable, answer, w)
  {
    WriteEnds(s.view.durable, [], answer, w);
    assert [] + [Assistant(answer, Missing)] == [Assistant(answer, Missing)];
  }

  lemma ConcludedSaves(r: Step, w: World)
    requires r.end.Finished? ==> Saved(r.state.view.durable, r.end.answer, w)
    ensures var e := Concluded(r, w); e.answer.Some? ==> Saved(e.state.view.durable, e.answer.value, w)
  {
    forall s, answer ensures Saved(Answered(s, answer, w).view.durable, answer, w) {
      AnsweredSaves(s, answer, w);
    }
  }

  /** When a successful fill is always last in its batch, and no stored, few-shot, replied or tool text
      carries a hint marker, no batch of the list is ever severed. */
  lemma RunSeversNothing(rows: seq<Message>, fewShots: seq<Message>, args: string -> Option<string>, now: real,
                         w: World, q: Setup, ok: string -> bool)
    requires q.limits.enabled && PlainTalk(fewShots) && Sound(w)
    requires MarkerFree(w, ok) && AllPlain(rows, ok) && AllPlain(fewShots, ok) && FillsLast(w)
    ensures NeverSevered(RunOf(rows, fewShots, args, now, w, q).state)
  {
    var s := Opening(rows, fewShots, args, now, w, q);
    OpeningIsClosed(rows, fewShots, args, now, w, q);
    OpeningIsClean(rows, fewShots, args, now, w, q, ok);
    LoopNeverSevers(s, w, q, ok);
    var r := LoopRun(s, w, q);
    ConcludedLog(r, w);
    ConcludedKeepsSevered(r, w);
  }

  lemma ConcludedKeepsSevered(r: Step, w: World)
    ensures Concluded(r, w).state.trace.severed == r.state.trace.severed
  {
  }

  /** The store's side of the protocol: with well-formed provider batches and no failing append, at every
      provider call the rows written by the run, or since the last rewrite all rows, are closed batches; at
      the end, exactly when no execution raised. */
  lemma RunKeepsStoreProtocol(rows: seq<Message>, fewShots: seq<Message>, args: string -> Option<string>, now: real,
                              w: World, q: Setup)
    requires q.limits.enabled && PlainTalk(fewShots) && Sound(w) && forall k :: w.appendOk(k)
    ensures var log := RunOf(rows, fewShots, args, now, w, q).state.trace.log;
      forall i :: 0 <= i < |log| ==>
        SnapshotKept(log[i], rows) && log[i].from <= |log[i].rows| && Batches(log[i].rows[log[i].from..])
    ensures var e := RunOf(rows, fewShots, args, now, w, q);
      var r := LoopRun(Opening(rows, fewShots, args, now, w, q), w, q);
      w.sessionBound ==> (OwnRowsClosed(e.state) <==> !Abandons(r, w))
  {
    RunIsClosed(rows, fewShots, args, now, w, q);
    RunLosesNothing(rows, fewShots, args, now, w, q);
    RunKeepsRows(rows, fewShots, args, now, w, q);
    var log := RunOf(rows, fewShots, args, now, w, q).state.trace.log;
    forall i | 0 <= i < |log| ensures log[i].from <= |log[i].rows| && Batches(log[i].rows[log[i].from..]) {
      assert SnapshotOk(log[i], w) && !log[i].lost;
    }
  }

  /** The list's side: with well-formed provider batches, fills last and no marker in real text, the list
      sent at every provider call is a closed transcript; at the end, exactly when no execution raised. */
  lemma RunKeepsListProtocol(rows: seq<Message>, fewShots: seq<Message>, args: string -> Option<string>, now: real,
                             w: World, q: Setup, ok: string -> bool)
    requires q.limits.enabled && PlainTalk(fewShots) && Sound(w)
    requires MarkerFree(w, ok) && AllPlain(rows, ok) && AllPlain(fewShots, ok) && FillsLast(w)
    ensures var log := RunOf(rows, fewShots, args, now, w, q).state.trace.log;
      forall i :: 0 <= i < |log| ==> Batches(log[i].memory)
    ensures var e := RunOf(rows, fewShots, args, now, w, q);
      var r := LoopRun(Opening(rows, fewShots, args, now, w, q), w, q);
      Batches(e.state.view.memory) <==> !Abandons(r, w)
  {
    RunIsClosed(rows, fewShots, args, now, w, q);
    RunSeversNothing(rows, fewShots, args, now, w, q, ok);
    var log := RunOf(rows, fewShots, args, now, w, q).state.trace.log;
    forall i | 0 <= i < |log| ensures Batches(log[i].memory) {
      assert SnapshotOk(log[i], w) && !log[i].severed;
    }
  }
}
