/** A whole run: the prologue, the loop, and what happens when the loop is stopped; what holds of all of
    it, whatever the outside world does. */
module AgentRun {
  import opened Transcript
  import opened Normalization
  import opened Compression
  import opened ContextBuilding
  import opened StoreRewrite
  import opened BudgetGuard
  import opened LoopWorld
  import opened LoopSpec
  import opened AgentLoop

  // ----- the budget handler, as functions -----

  /** A call and its result, as the cascade records them; the call alone when executing it raises. */
  function CascadePart(tc: ToolCall, result: Option<string>): seq<Message> {
    [Declared([tc], "")] + if result.Some? then [ToolMessage(tc, result.value)] else []
  }

  function CascadeStep(s: State, tc: ToolCall, result: Option<string>, w: World): State {
    var used := if result.Some? && !IsError(result.value) then [tc.name] else [];
    s.(view := Say(s.view, CascadePart(tc, result), CascadePart(tc, result), w),
       counts := s.counts.(toolsUsed := s.counts.toolsUsed + used))
  }

  /** The program's own terminal call; its arguments carry the text as the answer. */
  function Synthetic(content: string, w: World): ToolCall {
    ToolCall("auto-finalize-" + w.runId, w.terminalTool, w.answerArguments(content))
  }

  /** Does the emergency reply call the terminal tool, alone? */
  predicate Obeys(reply: Reply, w: World) {
    reply.Reply? && |reply.calls| == 1 && reply.calls[0].name == w.terminalTool
  }

  /** The text of a result that is no error. */
  function Accepted(result: Option<string>): Option<string> {
    if result.Some? && !IsError(result.value) then result else None
  }

  datatype Salvage = Salvage(state: State, answer: Option<string>, executions: nat)

  function StageC(s: State, w: World, before: nat): Salvage {
    var content := if w.emergencyReply.Reply? then w.emergencyReply.content else "";
    Salvage(CascadeStep(s, Synthetic(content, w), w.cascadeTool(1), w), Accepted(w.cascadeTool(1)), before + 1)
  }

  function Emergency(s: State, w: World): State {
    s.(view := Say(s.view, [User(w.text.emergency)], [], w))
  }

  function FinalizeStep(s: State, w: World): Salvage {
    if !Obeys(w.emergencyReply, w) then StageC(s, w, 0)
    else
      var t := CascadeStep(s, w.emergencyReply.calls[0], w.cascadeTool(0), w);
      if w.cascadeTool(0).Some? then Salvage(t, Accepted(w.cascadeTool(0)), 1) else StageC(t, w, 1)
  }

  function SalvageStep(s: State, w: World): Salvage {
    if !w.terminalInRegistry then Salvage(Emergency(s, w), None, 0)
    else FinalizeStep(Logged(Emergency(s, w)), w)
  }

  predicate Salvages(s: State, w: World) {
    w.terminalTool != "" && w.terminalTool !in s.counts.toolsUsed
  }

  // ----- the run, as a function -----

  /** How a run ended: its final state, its answer (None when it raised), and the salvage executions. */
  datatype Ending = Ending(state: State, answer: Option<string>, salvaged: nat)

  function Concluded(r: Step, w: World): Ending {
    match r.end
    case Finished(text) => Ending(r.state, Some(text), 0)
    case LoopDetected => Ending(Answered(r.state, w.text.loopFallback, w), Some(w.text.loopFallback), 0)
    case Exhausted =>
      if Salvages(r.state, w) then
        var v := SalvageStep(r.state, w);
        var text := if v.answer.Some? then v.answer.value else w.text.overBudget;
        Ending(Answered(v.state, text, w), Some(text), v.executions)
      else Ending(Answered(r.state, w.text.overBudget, w), Some(w.text.overBudget), 0)
    case _ => Ending(r.state, None, 0)
  }

  /** The history the prologue works from: none without a session, nor when loading it fails. */
  function History(rows: seq<Message>, w: World): seq<Message> {
    if w.sessionBound && w.historyLoads then rows else []
  }

  /** Can the prologue put the history back into a context? Otherwise the run raises at once. */
  predicate Restores(rows: seq<Message>, args: string -> Option<string>, w: World) {
    AllRestorable(Normalized(History(rows, w)).messages, args)
  }

  function Opened(memory: seq<Message>, rows: seq<Message>, now: real): State {
    State(View(memory, Durable(rows, 0, false), false), Counts([], 0, 0, 0, false, 0), None,
          Trace(|rows|, false, 0, []), Fresh(now))
  }

  /** The state the loop begins in: the context built, the raw request written. */
  function Opening(rows: seq<Message>, fewShots: seq<Message>, args: string -> Option<string>, now: real,
                   w: World, q: Setup): State
  {
    var memory := fewShots + RebuiltAll(Normalized(History(rows, w)).messages, args) + [User(q.envelope)];
    var s := Opened(memory, rows, now);
    s.(view := Say(s.view, [], [User(q.request)], w))
  }

  function RunOf(rows: seq<Message>, fewShots: seq<Message>, args: string -> Option<string>, now: real,
                 w: World, q: Setup): Ending
    requires q.limits.enabled
  {
    Concluded(LoopRun(Opening(rows, fewShots, args, now, w, q), w, q), w)
  }

  // ----- the methods -----

  /** `_cascade_execute`. */
  method CascadeExecute(s: LoopState, tc: ToolCall, k: nat, w: World) returns (result: Option<string>)
    modifies s`appends, s`lost, s`toolsUsed, s.store, s.context`messages
    ensures result == w.cascadeTool(k)
    ensures s.Look() == CascadeStep(old(s.Look()), tc, result, w)
  {
    ghost var v0 := s.Seen();
    s.Announce([tc], "", w);
    result := w.cascadeTool(k);
    if result.None? {
      assert CascadePart(tc, result) == [Declared([tc], "")];
      assert s.toolsUsed + [] == s.toolsUsed;
      return;
    }
    ghost var v1 := s.Seen();
    var m := ToolMessage(tc, result.value);
    s.Record(m, w);
    WriteOne(v1.durable, m, w);
    SayMore(v0, [Declared([tc], "")], [Declared([tc], "")], [m], [m], w);
    if !IsError(result.value) {
      s.toolsUsed := s.toolsUsed + [tc.name];
    } else {
      assert s.toolsUsed + [] == s.toolsUsed;
    }
  }

  /** `auto_finalize_cascade`: one emergency call, then at most two executions outside the budget; an
      action that was refused is not tried again. */
  method AutoFinalize(s: LoopState, w: World) returns (answer: Option<string>, executions: nat)
    modifies s`appends, s`lost, s`toolsUsed, s`trace, s.store, s.context`messages
    ensures Salvage(s.Look(), answer, executions) == SalvageStep(old(s.Look()), w)
  {
    s.SayUser(w.text.emergency, w);
    if !w.terminalInRegistry {
      return None, 0;
    }
    s.trace := Logged(s.Look()).trace;
    answer, executions := Finalize(s, w);
  }

  method Finalize(s: LoopState, w: World) returns (answer: Option<string>, executions: nat)
    modifies s`appends, s`lost, s`toolsUsed, s.store, s.context`messages
    ensures Salvage(s.Look(), answer, executions) == FinalizeStep(old(s.Look()), w)
  {
    var reply := w.emergencyReply;
    executions := 0;
    if Obeys(reply, w) {
      var result := CascadeExecute(s, reply.calls[0], 0, w);
      executions := 1;
      if result.Some? {
        return if IsError(result.value) then None else result, executions;
      }
    }
    answer := ProgrammaticFinalize(s, w, executions);
    executions := executions + 1;
  }

  /** Stage C: the terminal tool called by the program, with the model's text as the answer. */
  method ProgrammaticFinalize(s: LoopState, w: World, ghost before: nat) returns (answer: Option<string>)
    modifies s`appends, s`lost, s`toolsUsed, s.store, s.context`messages
    ensures Salvage(s.Look(), answer, before + 1) == StageC(old(s.Look()), w, before)
  {
    var content := if w.emergencyReply.Reply? then w.emergencyReply.content else "";
    var result := CascadeExecute(s, Synthetic(content, w), 1, w);
    answer := if result.Some? && !IsError(result.value) then result else None;
  }

  /** The end of a run: its final answer is saved whatever stopped the loop. */
  method Conclude(s: LoopState, end: TurnEnd, w: World) returns (answer: Option<string>, salvaged: nat)
    requires !end.Again?
    modifies s`appends, s`lost, s`toolsUsed, s`trace, s.store, s.context`messages
    ensures Ending(s.Look(), answer, salvaged) == Concluded(Step(old(s.Look()), end), w)
  {
    salvaged := 0;
    match end {
      case Finished(text) =>
        answer := Some(text);
      case ProviderRaised | Crashed =>
        answer := None;
      case LoopDetected =>
        s.SaveTurn(w.text.loopFallback, w);
        answer := Some(w.text.loopFallback);
      case Exhausted =>
        var text := w.text.overBudget;
        if w.terminalTool != "" && w.terminalTool !in s.toolsUsed {
          var r;
          r, salvaged := AutoFinalize(s, w);
          text := if r.Some? then r.value else text;
        }
        s.SaveTurn(text, w);
        answer := Some(text);
    }
  }

  /** The prologue: history, context and budget, and the raw request written to the store; None when
      building the context raises. */
  method Start(store: ChatContextStore, prompt: string, fewShots: seq<Message>, args: string -> Option<string>,
               now: real, w: World, q: Setup) returns (s: Option<LoopState>)
    requires forall m :: m in fewShots ==> m.User? || (m.Assistant? && m.calls == Missing)
    modifies store
    ensures s.Some? <==> Restores(old(store.rows), args, w)
    ensures s.None? ==> store.rows == old(store.rows)
    ensures s.Some? ==> fresh(s.value) && fresh(s.value.context) && fresh(s.value.budget) && s.value.store == store
    ensures s.Some? ==> s.value.Fixed() == q
    ensures s.Some? ==> s.value.Look() == Opening(old(store.rows), fewShots, args, now, w, q)
  {
    var history := if w.sessionBound && w.historyLoads then store.rows else [];
    var context := ContextBuilder.BuildFromFullHistory(prompt, q.envelope, history, fewShots, args);
    if context.None? {
      return None;
    }
    var state := new LoopState(context.value, store, q.request, q.envelope, q.limits, now);
    WriteOne(state.Stored(), User(q.request), w);
    assert context.value.messages + [] == context.value.messages;
    state.Persist(User(q.request), w);
    s := Some(state);
  }

  /** `AgentLoop.run`; the answer is None when it raises. */
  method Run(store: ChatContextStore, prompt: string, fewShots: seq<Message>, args: string -> Option<string>,
             now: real, w: World, q: Setup)
    returns (answer: Option<string>, ghost ending: Option<Ending>)
    requires q.limits.enabled
    requires forall m :: m in fewShots ==> m.User? || (m.Assistant? && m.calls == Missing)
    modifies store
    ensures ending == if Restores(old(store.rows), args, w)
                      then Some(RunOf(old(store.rows), fewShots, args, now, w, q)) else None
    ensures ending.None? ==> answer.None? && store.rows == old(store.rows)
    ensures ending.Some? ==> answer == ending.value.answer && store.rows == ending.value.state.view.durable.rows
  {
    var started := Start(store, prompt, fewShots, args, now, w, q);
    if started.None? {
      return None, None;
    }
    var s := started.value;
    var end := s.Loop(w);
    ghost var r := Step(s.Look(), end);
    LoopEnds(Opening(old(store.rows), fewShots, args, now, w, q), w, q);
    var salvaged;
    answer, salvaged := Conclude(s, end, w);
    ending := Some(Ending(s.Look(), answer, salvaged));
  }

  lemma {:induction false} LoopEnds(s: State, w: World, q: Setup)
    requires q.limits.enabled
    ensures !LoopRun(s, w, q).end.Again?
    decreases Left(s, q)
  {
    TurnUsesIteration(s, w, q);
    var r := TurnStep(s, w, q);
    if r.end.Again? {
      LoopEnds(r.state, w, q);
    }
  }
}
