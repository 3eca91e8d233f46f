/** How a turn and a run end, and with which answer: in terms of the replies, the tool results, the texts'
    recognisers, the counters and the budget, without the loop's own steps. */
module Outcomes {
  import opened Transcript
  import opened ContextBuilding
  import opened BudgetGuard
  import opened TurnShapes
  import opened LoopWorld
  import opened LoopSpec
  import opened AgentRun

  // ----- the budget's part -----

  function TurnNumber(s: State): nat {
    s.budget.iterationsUsed + 1
  }

  /** The budget with this turn's iteration counted. */
  function TurnBudget(s: State): BudgetState {
    s.budget.(iterationsUsed := TurnNumber(s))
  }

  /** The budget lets the turn call the provider. */
  predicate Calls(s: State, w: World, q: Setup) {
    !LimitReached(q.limits, TurnBudget(s), w.clock(TurnNumber(s)).0)
  }

  /** The budget lets a batch in: no limit reached, and room for all of it. */
  predicate Admits(s: State, size: nat, w: World, q: Setup) {
    && !LimitReached(q.limits, TurnBudget(s), w.clock(TurnNumber(s)).1)
    && (q.limits.enabled ==> s.budget.toolCallsUsed + size <= q.limits.maxToolCalls)
  }

  // ----- the reply's part -----

  predicate RepliesText(s: State, w: World, content: string) {
    var r := w.reply(TurnNumber(s)); r.Reply? && r.calls == [] && r.content == content
  }

  predicate RepliesBatch(s: State, w: World) {
    var r := w.reply(TurnNumber(s)); r.Reply? && r.calls != []
  }

  function Batch(s: State, w: World): seq<ToolCall>
    requires RepliesBatch(s, w)
  {
    w.reply(TurnNumber(s)).calls
  }

  /** A terminal tool among other calls. */
  predicate MixesTerminal(calls: seq<ToolCall>, w: World) {
    |calls| >= 2 && exists k :: 0 <= k < |calls| && w.terminal(calls[k].name)
  }

  /** Every call of the turn's batch returns. */
  predicate AllReturn(calls: seq<ToolCall>, n: nat, w: World) {
    forall k :: 0 <= k < |calls| ==> w.tool(n, k).Some?
  }

  /** The batch is let in, executed as a whole, and no call raises. */
  predicate Executes(s: State, w: World, q: Setup) {
    && Calls(s, w, q) && RepliesBatch(s, w) && Admits(s, |Batch(s, w)|, w, q)
    && !MixesTerminal(Batch(s, w), w) && AllReturn(Batch(s, w), TurnNumber(s), w)
  }

  /** A lone call answers the user itself. */
  predicate AnswersDirectly(s: State, w: World)
    requires RepliesBatch(s, w)
  {
    var result := w.tool(TurnNumber(s), 0);
    |Batch(s, w)| == 1 && result.Some? && w.direct(Batch(s, w)[0], result.value) && !("Error" <= result.value)
  }

  // ----- the text's part -----

  predicate AsksAgain(content: string, c: Counts, w: World) {
    w.blank(content) && c.emptyRetries < 3
  }

  predicate Corrects(text: string, c: Counts, w: World) {
    w.planning(text) && c.corrections < w.maxCorrections
  }

  /** The reply's own text is the answer. */
  predicate SpeaksForItself(content: string, c: Counts, w: World, a: string) {
    && a == content && content != "" && !AsksAgain(content, c, w)
    && !w.xml(content) && !Corrects(content, c, w) && !w.echo(content)
  }

  predicate SaysNothing(content: string, c: Counts, w: World, a: string) {
    && a == w.text.noResponse && content == "" && !AsksAgain("", c, w)
    && !w.xml(a) && !Corrects(a, c, w) && !w.echo(a)
  }

  /** The text a reply is judged by. */
  function Given(content: string, w: World): string {
    if content == "" then w.text.noResponse else content
  }

  /** Markup again, after it has been complained of once. */
  predicate InsistsOnMarkup(content: string, c: Counts, w: World) {
    !AsksAgain(content, c, w) && w.xml(Given(content, w)) && c.xmlRepaired
  }

  predicate GivesUpOnMarkup(content: string, c: Counts, w: World, a: string) {
    && a == w.text.xmlFallback && InsistsOnMarkup(content, c, w) && !Corrects(a, c, w) && !w.echo(a)
  }

  /** A guard's own text comes back. */
  predicate EchoesGuard(content: string, c: Counts, w: World, a: string) {
    && a == w.text.loopFallback && !AsksAgain(content, c, w)
    && var text := if InsistsOnMarkup(content, c, w) then w.text.xmlFallback else Given(content, w);
       (w.xml(Given(content, w)) ==> c.xmlRepaired) && !Corrects(text, c, w) && w.echo(text)
  }

  predicate TextAnswers(content: string, c: Counts, w: World, a: string) {
    || SpeaksForItself(content, c, w, a) || SaysNothing(content, c, w, a)
    || GivesUpOnMarkup(content, c, w, a) || EchoesGuard(content, c, w, a)
  }

  // ----- one turn -----

  /** The turn ends the run with this answer. */
  predicate TurnAnswers(s: State, w: World, q: Setup, a: string) {
    Calls(s, w, q)
    && match w.reply(TurnNumber(s))
       case TimedOut => a == w.text.timedOut
       case Failed => false
       case Reply(content, calls, _) =>
         if calls == [] then TextAnswers(content, s.counts, w, a)
         else Executes(s, w, q) && AnswersDirectly(s, w) && w.tool(TurnNumber(s), 0) == Some(a)
  }

  lemma {:induction false} CrashesIff(n: nat, m: nat, w: World)
    ensures Survivors(n, m, w) == m <==> forall k :: 0 <= k < m ==> w.tool(n, k).Some?
    decreases m
  {
    if m > 0 {
      CrashesIff(n, m - 1, w);
    }
  }

  lemma CallKeepsRest(s: State, n: nat, w: World, q: Setup)
    ensures var c := CallStep(s, n, w, q); c.counts == s.counts && c.budget == s.budget
  {
  }

  lemma TextIff(c: State, content: string, w: World, a: string)
    ensures AnswerStep(c, content, w).end == Finished(a) <==> TextAnswers(content, c.counts, w, a)
  {
  }

  lemma AdmitsIff(s: State, c: State, calls: seq<ToolCall>, w: World, q: Setup)
    requires c.budget == TurnBudget(s)
    ensures Refuses(c.budget, q.limits, calls, TurnNumber(s), w) <==> !Admits(s, |calls|, w, q)
  {
    ExceededMeans(q.limits, c.budget, w.clock(TurnNumber(s)).1);
  }

  /** A turn ends with an answer exactly when the budget lets it call the provider and the reply, its one
      call's result, or a time-out gives that answer. */
  lemma TurnAnswersIff(s: State, w: World, q: Setup, a: string)
    ensures TurnStep(s, w, q).end == Finished(a) <==> TurnAnswers(s, w, q, a)
  {
    var t, n := Consumed(s), TurnNumber(s);
    ExceededMeans(q.limits, t.budget, w.clock(n).0);
    var c := CallStep(t, n, w, q);
    CallKeepsRest(t, n, w, q);
    var reply := w.reply(n);
    if reply.Reply? {
      var u := c.(total := if reply.totalTokens > 0 then Some(reply.totalTokens) else None);
      if reply.calls == [] {
        TextIff(u, reply.content, w, a);
      } else {
        AdmitsIff(s, u, reply.calls, w, q);
        CrashesIff(n, |reply.calls|, w);
      }
    }
  }

  /** A warning is counted when errors repeat over an executed batch and no result does. */
  lemma WarningsMean(s: State, w: World, q: Setup)
    requires Calls(s, w, q) && RepliesBatch(s, w)
    ensures TurnStep(s, w, q).state.counts.warnings == s.counts.warnings
      + if Executes(s, w, q) && !AnswersDirectly(s, w) && !w.dedup(TurnNumber(s)) && w.looping(TurnNumber(s)) then 1
        else 0
  {
    var u := ToolTurnIs(s, w, q);
    CrashesIff(TurnNumber(s), |Batch(s, w)|, w);
  }

  /** Where the provider's reply finds the run: hints and compression done, the call logged. */
  function AtReply(s: State, w: World, q: Setup): View {
    CallStep(Consumed(s), TurnNumber(s), w, q).view
  }

  lemma ToolTurnIs(s: State, w: World, q: Setup) returns (u: State)
    requires Calls(s, w, q) && RepliesBatch(s, w)
    ensures TurnStep(s, w, q) == ToolStep(u, w.reply(TurnNumber(s)).content, Batch(s, w), TurnNumber(s), w, q)
    ensures u.view == AtReply(s, w, q) && u.counts == s.counts && u.budget == TurnBudget(s)
    ensures Refuses(u.budget, q.limits, Batch(s, w), TurnNumber(s), w) <==> !Admits(s, |Batch(s, w)|, w, q)
  {
    var n, reply := TurnNumber(s), w.reply(TurnNumber(s));
    ExceededMeans(q.limits, TurnBudget(s), w.clock(n).0);
    var c := CallStep(Consumed(s), n, w, q);
    CallKeepsRest(Consumed(s), n, w, q);
    u := c.(total := if reply.totalTokens > 0 then Some(reply.totalTokens) else None);
    AdmitsIff(s, u, Batch(s, w), w, q);
  }

  /** How a turn ends otherwise. */
  lemma TurnEndsIff(s: State, w: World, q: Setup)
    ensures var end := TurnStep(s, w, q).end; var n := TurnNumber(s);
      && (end.Exhausted? <==> !Calls(s, w, q) || (RepliesBatch(s, w) && !Admits(s, |Batch(s, w)|, w, q)))
      && (end.ProviderRaised? <==> Calls(s, w, q) && w.reply(n).Failed?)
      && (end.Crashed? <==> Calls(s, w, q) && RepliesBatch(s, w) && Admits(s, |Batch(s, w)|, w, q)
                            && !MixesTerminal(Batch(s, w), w) && !AllReturn(Batch(s, w), n, w))
      && (end.LoopDetected? <==> Executes(s, w, q) && !AnswersDirectly(s, w)
                                 && !w.dedup(n) && w.looping(n) && s.counts.warnings >= 1)
  {
    var t, n := Consumed(s), TurnNumber(s);
    ExceededMeans(q.limits, t.budget, w.clock(n).0);
    var c := CallStep(t, n, w, q);
    CallKeepsRest(t, n, w, q);
    if Calls(s, w, q) && RepliesBatch(s, w) {
      BatchEndsIff(s, w, q);
    }
  }

  lemma BatchEndsIff(s: State, w: World, q: Setup)
    requires Calls(s, w, q) && RepliesBatch(s, w)
    ensures var end := TurnStep(s, w, q).end; var calls, n := Batch(s, w), TurnNumber(s);
      && !end.ProviderRaised? && (end.Exhausted? <==> !Admits(s, |calls|, w, q))
      && (end.Crashed? <==> Admits(s, |calls|, w, q) && !MixesTerminal(calls, w) && !AllReturn(calls, n, w))
      && (end.LoopDetected? <==> Executes(s, w, q) && !AnswersDirectly(s, w)
                                 && !w.dedup(n) && w.looping(n) && s.counts.warnings >= 1)
  {
    var u := ToolTurnIs(s, w, q);
    CrashesIff(TurnNumber(s), |Batch(s, w)|, w);
  }

  // ----- what a turn says, writes and counts -----

  /** What precedes a reply: the compression step over list and rows, then the hints over the list; the list the
      provider is sent is the one that is logged. */
  lemma AtReplyMeans(s: State, w: World, q: Setup)
    ensures var n, c := TurnNumber(s), CallStep(Consumed(s), TurnNumber(s), w, q);
      var win := MidRun(s.view.memory, s.view.durable.rows, s.total, q.envelope, q.request, w.sessionBound,
                        w.midRun(n));
      && AtReply(s, w, q) == c.view
      && c.view.memory == Hinted(win.memory, w.hints(n)) && c.view.durable.rows == win.rows
      && c.view.nudged == s.view.nudged && c.view.durable.appends == s.view.durable.appends
      && c.total == win.total && |c.trace.log| == |s.trace.log| + 1
      && c.trace.log[|s.trace.log|].memory == c.view.memory && c.trace.log[|s.trace.log|].rows == c.view.durable.rows
  {
  }

  /** The count the next compression step goes by is the one this reply reports, if it reports any. */
  lemma ReportedCount(s: State, w: World, q: Setup)
    requires Calls(s, w, q) && w.reply(TurnNumber(s)).Reply?
    ensures var reported := w.reply(TurnNumber(s)).totalTokens;
      TurnStep(s, w, q).state.total == if reported > 0 then Some(reported) else None
  {
    var n := TurnNumber(s);
    ExceededMeans(q.limits, TurnBudget(s), w.clock(n).0);
    var reply := w.reply(n);
    var u := CallStep(Consumed(s), n, w, q).(total := if reply.totalTokens > 0 then Some(reply.totalTokens) else None);
    if reply.calls == [] {
      AnswerKeepsTotal(u, reply.content, w);
    } else {
      ToolKeepsTotal(u, reply.content, reply.calls, n, w, q);
    }
  }

  lemma AnswerKeepsTotal(u: State, content: string, w: World)
    ensures AnswerStep(u, content, w).state.total == u.total
  {
  }

  lemma ToolKeepsTotal(u: State, content: string, calls: seq<ToolCall>, n: nat, w: World, q: Setup)
    ensures ToolStep(u, content, calls, n, w, q).state.total == u.total
  {
  }

  /** The text that is answered with, were it answered now. */
  function Offered(content: string, c: Counts, w: World): string {
    if InsistsOnMarkup(content, c, w) then w.text.xmlFallback else Given(content, w)
  }

  function SaidTo(v: View, text: string): View {
    View(v.memory + [User(text)], v.durable, v.nudged)
  }

  /** A reply without calls is met by one of three prompts, each counted, or ends the run; the prompts go to the
      list alone, the answer to the rows alone. */
  lemma TextTurnSays(s: State, w: World, q: Setup, content: string)
    requires Calls(s, w, q) && RepliesText(s, w, content)
    ensures var r := TurnStep(s, w, q); var v, c := AtReply(s, w, q), s.counts;
      && r.state.budget == TurnBudget(s)
      && if AsksAgain(content, c, w) then
           r.end == Again && r.state.view == SaidTo(v, w.text.emptyRetry)
           && r.state.counts == c.(emptyRetries := c.emptyRetries + 1)
         else if w.xml(Given(content, w)) && !c.xmlRepaired then
           r.end == Again && r.state.view == SaidTo(v, w.text.xmlRepair) && r.state.counts == c.(xmlRepaired := true)
         else if Corrects(Offered(content, c, w), c, w) then
           r.end == Again && r.state.view == SaidTo(v, w.text.correction)
           && r.state.counts == c.(corrections := c.corrections + 1)
         else
           && r.end.Finished? && r.state.counts == c && r.state.view.memory == v.memory
           && r.state.view.durable == Write(v.durable, [Assistant(r.end.answer, Missing)], w)
  {
    ExceededMeans(q.limits, TurnBudget(s), w.clock(TurnNumber(s)).0);
    CallKeepsRest(Consumed(s), TurnNumber(s), w, q);
    assert AtReply(s, w, q).memory + [] == AtReply(s, w, q).memory;
  }

  /** How many prompts may still be given. */
  function PromptsLeft(c: Counts, w: World): int {
    3 - c.emptyRetries + (if c.xmlRepaired then 0 else 1) + w.maxCorrections - c.corrections
  }

  predicate Bounded(c: Counts, w: World) {
    c.emptyRetries <= 3 && c.corrections <= w.maxCorrections
  }

  /** Every reply without calls that does not end the run uses up one of at most `maxCorrections + 4` prompts;
      nothing else does, and nothing gives one back. */
  lemma PromptsAreBounded(s: State, w: World, q: Setup)
    requires Bounded(s.counts, w)
    ensures var r := TurnStep(s, w, q);
      && Bounded(r.state.counts, w) && 0 <= PromptsLeft(r.state.counts, w)
      && PromptsLeft(r.state.counts, w) == PromptsLeft(s.counts, w)
           - if Calls(s, w, q) && RepliesWords(s, w) && r.end.Again? then 1 else 0
  {
    if Calls(s, w, q) && RepliesWords(s, w) {
      TextTurnSays(s, w, q, w.reply(TurnNumber(s)).content);
    } else {
      OtherTurnsPromptNothing(s, w, q);
    }
  }

  predicate RepliesWords(s: State, w: World) {
    w.reply(TurnNumber(s)).Reply? && w.reply(TurnNumber(s)).calls == []
  }

  lemma OtherTurnsPromptNothing(s: State, w: World, q: Setup)
    requires !(Calls(s, w, q) && RepliesWords(s, w))
    ensures PromptsLeft(TurnStep(s, w, q).state.counts, w) == PromptsLeft(s.counts, w)
    ensures Bounded(s.counts, w) ==> Bounded(TurnStep(s, w, q).state.counts, w)
  {
    var t, n := Consumed(s), TurnNumber(s);
    ExceededMeans(q.limits, t.budget, w.clock(n).0);
    CallKeepsRest(t, n, w, q);
    if Calls(s, w, q) {
      ToolPromptsNothing(CallStep(t, n, w, q), w.reply(n), n, w, q);
    }
  }

  lemma ToolPromptsNothing(c: State, reply: Reply, n: nat, w: World, q: Setup)
    requires !(reply.Reply? && reply.calls == [])
    ensures var t := RespondStep(c, reply, n, w, q).state.counts;
      t.emptyRetries == c.counts.emptyRetries && t.xmlRepaired == c.counts.xmlRepaired
      && t.corrections == c.counts.corrections
  {
  }

  predicate AnnouncementOf(m: Message, content: string, calls: seq<ToolCall>) {
    && m.Assistant? && m.content == content && m.calls.CallList? && |m.calls.calls| == |calls|
    && forall k :: 0 <= k < |calls| ==>
         m.calls.calls[k] == CallDict(Some(calls[k].id), Some(FunctionField(Some(calls[k].name), calls[k].arguments)))
  }

  /** The announcement of a batch and the results of its first calls, each under its call's id and name. */
  predicate RecordOf(ms: seq<Message>, content: string, calls: seq<ToolCall>, results: seq<string>) {
    && |results| <= |calls| && |ms| == |results| + 1
    && AnnouncementOf(ms[0], content, calls)
    && forall k :: 0 <= k < |results| ==> ms[k + 1] == Tool(Some(calls[k].id), calls[k].name, results[k])
  }

  function SentTogether(calls: seq<ToolCall>, w: World): bool {
    |calls| >= 2 && forall k :: 0 <= k < |calls| ==> !w.terminal(calls[k].name) && w.parallelSafe(calls[k].name)
  }

  /** `results` is what is recorded of a batch: all of it; or, when a call raises, nothing of calls sent
      together, and of calls made one by one what came before. */
  predicate Recorded(results: seq<string>, calls: seq<ToolCall>, n: nat, w: World) {
    && |results| <= |calls|
    && (forall k :: 0 <= k < |results| ==> w.tool(n, k) == Some(results[k]))
    && (AllReturn(calls, n, w) ==> |results| == |calls|)
    && (!AllReturn(calls, n, w) ==>
          if SentTogether(calls, w) then results == [] else |results| < |calls| && w.tool(n, |results|).None?)
  }

  function TextsOf(tools: seq<Message>): (r: seq<string>)
    ensures |r| == |tools| && forall k :: 0 <= k < |tools| ==> r[k] == tools[k].content
  {
    seq(|tools|, k requires 0 <= k < |tools| => tools[k].content)
  }

  lemma AnnouncementMeans(content: string, calls: seq<ToolCall>)
    ensures AnnouncementOf(Declared(calls, content), content, calls)
  {
    var stored := AllStored(calls);
    forall k | 0 <= k < |calls| ensures stored[k]
      == CallDict(Some(calls[k].id), Some(FunctionField(Some(calls[k].name), calls[k].arguments)))
    {
      assert stored[k] == AsStored(calls[k]);
    }
  }

  lemma RecordedMeans(calls: seq<ToolCall>, n: nat, w: World)
    ensures Recorded(TextsOf(RecordedResults(calls, n, w)), calls, n, w)
  {
    CrashesIff(n, |calls|, w);
    SurvivorsReturn(n, |calls|, w);
    var tools := RecordedResults(calls, n, w);
    forall k: nat | k < |tools| ensures w.tool(n, k) == Some(tools[k].content) {
      assert tools[k] == Outputs(calls, n, w)[k];
    }
  }

  lemma RecordMeans(content: string, calls: seq<ToolCall>, n: nat, w: World)
    ensures var tools := RecordedResults(calls, n, w);
      RecordOf([Declared(calls, content)] + tools, content, calls, TextsOf(tools))
  {
    AnnouncementMeans(content, calls);
    var tools := RecordedResults(calls, n, w);
    var ms := [Declared(calls, content)] + tools;
    forall k: nat | k < |tools| ensures ms[k + 1] == Tool(Some(calls[k].id), calls[k].name, tools[k].content) {
      assert tools[k] == Outputs(calls, n, w)[k];
    }
  }

  /** The batch's step over the state the reply finds. */
  lemma ToolWritesRecord(u: State, content: string, calls: seq<ToolCall>, n: nat, w: World, q: Setup)
    requires !Refuses(u.budget, q.limits, calls, n, w) && !Mixed(calls, w) && calls != []
    ensures var r := ToolStep(u, content, calls, n, w, q); var tools := RecordedResults(calls, n, w);
      && r.state.view.durable == Write(u.view.durable, [Declared(calls, content)] + tools
           + (if r.end.Finished? then [Assistant(tools[0].content, Missing)] else []), w)
      && r.state.counts.toolsUsed == u.counts.toolsUsed + Names(calls)[..|tools|]
      && r.state.counts.executed == u.counts.executed + StartedCount(calls, n, w)
      && r.state.budget == u.budget.(toolCallsUsed := u.budget.toolCallsUsed + |calls|)
  {
    var tools := RecordedResults(calls, n, w);
    if ReturnsDirectly(calls, n, w) {
      LoneSurvives(n, w);
      assert tools[0] == Outputs(calls, n, w)[0];
    }
  }

  lemma StartedMeans(calls: seq<ToolCall>, n: nat, w: World)
    ensures StartedCount(calls, n, w)
         == if AllReturn(calls, n, w) || SentTogether(calls, w) then |calls| else |RecordedResults(calls, n, w)| + 1
  {
    CrashesIff(n, |calls|, w);
  }

  /** An admitted batch that is not refused as mixed: what is recorded, counted and reserved. */
  lemma BatchTurnWrites(s: State, w: World, q: Setup) returns (ds: seq<Message>, results: seq<string>)
    requires Calls(s, w, q) && RepliesBatch(s, w) && Admits(s, |Batch(s, w)|, w, q)
    requires !MixesTerminal(Batch(s, w), w)
    ensures var n, calls := TurnNumber(s), Batch(s, w); var r := TurnStep(s, w, q);
      && Recorded(results, calls, n, w) && RecordOf(ds, w.reply(n).content, calls, results)
      && (r.end.Finished? ==> results != [])
      && r.state.view.durable == Write(AtReply(s, w, q).durable,
           ds + (if r.end.Finished? then [Assistant(results[0], Missing)] else []), w)
      && r.state.counts.toolsUsed == s.counts.toolsUsed + Names(calls)[..|results|]
      && r.state.counts.executed == s.counts.executed
           + (if AllReturn(calls, n, w) || SentTogether(calls, w) then |calls| else |results| + 1)
      && r.state.budget == TurnBudget(s).(toolCallsUsed := s.budget.toolCallsUsed + |calls|)
  {
    var n, calls, reply := TurnNumber(s), Batch(s, w), w.reply(TurnNumber(s));
    var u := ToolTurnIs(s, w, q);
    ToolWritesRecord(u, reply.content, calls, n, w, q);
    RecordedMeans(calls, n, w);
    RecordMeans(reply.content, calls, n, w);
    StartedMeans(calls, n, w);
    var tools := RecordedResults(calls, n, w);
    ds, results := [Declared(calls, reply.content)] + tools, TextsOf(tools);
  }

  /** A fill plan applied without an error. */
  predicate Fills(name: string, result: string, w: World) {
    name == "apply_fill_plan" && !("Error" <= result) && w.fillOk(result)
  }

  /** What the list gains from the record `ds` of a batch: the record, with the close nudge right behind the first
      successful fill unless it was given before. */
  ghost predicate SaidOf(said: seq<Message>, ds: seq<Message>, calls: seq<ToolCall>, results: seq<string>,
                         nudged: bool, w: World)
    requires |ds| == |results| + 1 && |results| <= |calls|
  {
    && ((nudged || forall k :: 0 <= k < |results| ==> !Fills(calls[k].name, results[k], w)) ==> said == ds)
    && forall k :: !nudged && 0 <= k < |results| && Fills(calls[k].name, results[k], w)
         && (forall j :: 0 <= j < k ==> !Fills(calls[j].name, results[j], w))
         ==> said == ds[..k + 2] + [User(w.text.closeNudge)] + ds[k + 2..]
  }

  lemma FiresMeans(tc: ToolCall, result: string, w: World)
    ensures Fires(w)(Tool(Some(tc.id), tc.name, result)) <==> Fills(tc.name, result, w)
  {
    assert IsError(result) <==> "Error" <= result;
  }

  lemma FiresIsFills(tools: seq<Message>, calls: seq<ToolCall>, w: World)
    requires |tools| <= |calls|
    requires forall k :: 0 <= k < |tools| ==> tools[k] == Tool(Some(calls[k].id), calls[k].name, tools[k].content)
    ensures forall k :: 0 <= k < |tools| ==> (Fires(w)(tools[k]) <==> Fills(calls[k].name, tools[k].content, w))
  {
    forall k | 0 <= k < |tools| ensures Fires(w)(tools[k]) <==> Fills(calls[k].name, tools[k].content, w) {
      FiresMeans(calls[k], tools[k].content, w);
    }
  }

  lemma SpokenMeans(a: Message, tools: seq<Message>, calls: seq<ToolCall>, nudged: bool, w: World)
    requires |tools| <= |calls|
    requires forall k :: 0 <= k < |tools| ==> tools[k] == Tool(Some(calls[k].id), calls[k].name, tools[k].content)
    ensures SaidOf([a] + Spoken(tools, nudged, Fires(w), w.text.closeNudge), [a] + tools, calls, TextsOf(tools),
                   nudged, w)
  {
    FiresIsFills(tools, calls, w);
    var said := [a] + Spoken(tools, nudged, Fires(w), w.text.closeNudge);
    if nudged || forall k :: 0 <= k < |tools| ==> !Fires(w)(tools[k]) {
      QuietSpoken(tools, nudged, Fires(w), w.text.closeNudge);
      assert said == [a] + tools;
    }
    forall k | !nudged && 0 <= k < |tools| && Fires(w)(tools[k]) && forall j :: 0 <= j < k ==> !Fires(w)(tools[j])
      ensures [a] + Spoken(tools, false, Fires(w), w.text.closeNudge)
           == ([a] + tools)[..k + 2] + [User(w.text.closeNudge)] + ([a] + tools)[k + 2..]
    {
      SpokenBehind(a, tools, k, w);
    }
  }

  lemma SpokenBehind(a: Message, tools: seq<Message>, k: nat, w: World)
    requires k < |tools| && Fires(w)(tools[k]) && forall j :: 0 <= j < k ==> !Fires(w)(tools[j])
    ensures var ds, text := [a] + tools, w.text.closeNudge;
      [a] + Spoken(tools, false, Fires(w), text) == ds[..k + 2] + [User(text)] + ds[k + 2..]
  {
    SpokenIs(tools, Fires(w), w.text.closeNudge, k);
    PutBehind(a, tools, k, User(w.text.closeNudge));
  }

  lemma PutBehind<T>(a: T, s: seq<T>, k: nat, x: T)
    requires k < |s|
    ensures [a] + (s[..k + 1] + [x] + s[k + 1..]) == ([a] + s)[..k + 2] + [x] + ([a] + s)[k + 2..]
  {
    assert ([a] + s)[..k + 2] == [a] + s[..k + 1] && ([a] + s)[k + 2..] == s[k + 1..];
  }

  /** An executed batch: the list gains the record the rows gain, and the nudge unless it ends the run. */
  lemma BatchTurnSays(s: State, w: World, q: Setup, ds: seq<Message>, results: seq<string>)
    returns (said: seq<Message>)
    requires Calls(s, w, q) && RepliesBatch(s, w) && Admits(s, |Batch(s, w)|, w, q)
    requires !MixesTerminal(Batch(s, w), w)
    requires Recorded(results, Batch(s, w), TurnNumber(s), w)
    requires RecordOf(ds, w.reply(TurnNumber(s)).content, Batch(s, w), results)
    ensures TurnStep(s, w, q).state.view.memory == AtReply(s, w, q).memory + said
    ensures if TurnStep(s, w, q).end.Finished? then said == ds
            else SaidOf(said, ds, Batch(s, w), results, AtReply(s, w, q).nudged, w)
  {
    var n, calls, reply := TurnNumber(s), Batch(s, w), w.reply(TurnNumber(s));
    var a, tools := Declared(calls, reply.content), RecordedResults(calls, n, w);
    RecordIsThis(ds, reply.content, calls, results, n, w);
    ToolSaysRecord(s, w, q);
    var nudged := AtReply(s, w, q).nudged;
    ResultsAreTools(reply.content, calls, n, w);
    SpokenMeans(a, tools, calls, nudged, w);
    said := if TurnStep(s, w, q).end.Finished? then [a] + tools
            else [a] + Spoken(tools, nudged, Fires(w), w.text.closeNudge);
  }

  lemma ResultsAreTools(content: string, calls: seq<ToolCall>, n: nat, w: World)
    ensures var tools := RecordedResults(calls, n, w);
      forall k :: 0 <= k < |tools| ==> tools[k] == Tool(Some(calls[k].id), calls[k].name, tools[k].content)
  {
    var tools := RecordedResults(calls, n, w);
    forall k | 0 <= k < |tools| ensures tools[k] == Tool(Some(calls[k].id), calls[k].name, tools[k].content) {
      assert tools[k] == Outputs(calls, n, w)[k];
    }
  }

  lemma RecordIsThis(ds: seq<Message>, content: string, calls: seq<ToolCall>, results: seq<string>, n: nat, w: World)
    requires Recorded(results, calls, n, w) && RecordOf(ds, content, calls, results)
    ensures var tools := RecordedResults(calls, n, w);
      ds == [Declared(calls, content)] + tools && results == TextsOf(tools)
  {
    var tools := RecordedResults(calls, n, w);
    RecordedMeans(calls, n, w);
    RecordMeans(content, calls, n, w);
    RecordIsOne(ds, [Declared(calls, content)] + tools, content, calls, results, TextsOf(tools), n, w);
  }

  lemma RecordIsOne(a: seq<Message>, b: seq<Message>, content: string, calls: seq<ToolCall>, r1: seq<string>,
                    r2: seq<string>, n: nat, w: World)
    requires Recorded(r1, calls, n, w) && Recorded(r2, calls, n, w)
    requires RecordOf(a, content, calls, r1) && RecordOf(b, content, calls, r2)
    ensures r1 == r2 && a == b
  {
    assert a[0].calls.calls == b[0].calls.calls;
    forall k | 0 <= k < |a| ensures a[k] == b[k] {
      if k > 0 {
        var j := k - 1;
        assert a[j + 1] == Tool(Some(calls[j].id), calls[j].name, r1[j]);
      }
    }
  }

  lemma ToolSaysRecord(s: State, w: World, q: Setup)
    requires Calls(s, w, q) && RepliesBatch(s, w) && Admits(s, |Batch(s, w)|, w, q)
    requires !MixesTerminal(Batch(s, w), w)
    ensures var n, calls, reply := TurnNumber(s), Batch(s, w), w.reply(TurnNumber(s));
      var r, v := TurnStep(s, w, q), AtReply(s, w, q);
      var a, tools := Declared(calls, reply.content), RecordedResults(calls, n, w);
      r.state.view.memory == v.memory
        + if r.end.Finished? then [a] + tools else [a] + Spoken(tools, v.nudged, Fires(w), w.text.closeNudge)
  {
    var n, calls, reply := TurnNumber(s), Batch(s, w), w.reply(TurnNumber(s));
    var u := ToolTurnIs(s, w, q);
    CrashesIff(n, |calls|, w);
    if ReturnsDirectly(calls, n, w) {
      LoneSurvives(n, w);
      assert RecordedResults(calls, n, w) == Outputs(calls, n, w);
    }
  }

  /** The same refusal for each of `k` calls. */
  function Refusals(k: nat, w: World): (r: seq<string>)
    ensures |r| == k && forall i :: 0 <= i < k ==> r[i] == w.text.mixedRejected
  {
    seq(k, _ => w.text.mixedRejected)
  }

  lemma RejectionMeans(content: string, calls: seq<ToolCall>, w: World)
    ensures RecordOf([Declared(calls, content)] + Rejections(calls, w), content, calls,
                     Refusals(|calls|, w))
  {
    AnnouncementMeans(content, calls);
    var ds, texts := [Declared(calls, content)] + Rejections(calls, w), Refusals(|calls|, w);
    forall k: nat | k < |texts| ensures ds[k + 1] == Tool(Some(calls[k].id), calls[k].name, texts[k]) {
      assert ds[k + 1] == Rejections(calls, w)[k];
    }
  }

  /** The run goes on; `ds` is in both transcripts, with an instruction behind it in the list; nothing counts as
      executed, and the batch counts as reserved. */
  predicate GoesOnWith(r: Step, v: View, c: Counts, b: BudgetState, ds: seq<Message>, size: nat, w: World) {
    && r.end == Again && r.state.counts == c
    && r.state.view.memory == v.memory + (ds + [User(w.text.retryTerminal)])
    && r.state.view.durable == Write(v.durable, ds, w)
    && r.state.budget == b.(toolCallsUsed := b.toolCallsUsed + size)
  }

  lemma RejectedStep(u: State, content: string, calls: seq<ToolCall>, n: nat, w: World, q: Setup)
    requires !Refuses(u.budget, q.limits, calls, n, w) && Mixed(calls, w)
    ensures GoesOnWith(ToolStep(u, content, calls, n, w, q), u.view, u.counts, u.budget,
                       [Declared(calls, content)] + Rejections(calls, w), |calls|, w)
  {
  }

  /** The nudge is given at most once: the flag goes up with the first successful fill of an executed batch. */
  lemma NudgeIsGivenOnce(s: State, w: World, q: Setup, results: seq<string>)
    requires Calls(s, w, q) && RepliesBatch(s, w) && Admits(s, |Batch(s, w)|, w, q)
    requires !MixesTerminal(Batch(s, w), w) && !TurnStep(s, w, q).end.Finished?
    requires Recorded(results, Batch(s, w), TurnNumber(s), w)
    ensures TurnStep(s, w, q).state.view.nudged
      <==> AtReply(s, w, q).nudged || exists k :: 0 <= k < |results| && Fills(Batch(s, w)[k].name, results[k], w)
  {
    var n, calls, content := TurnNumber(s), Batch(s, w), w.reply(TurnNumber(s)).content;
    var u := ToolTurnIs(s, w, q);
    var tools := RecordedResults(calls, n, w);
    RecordMeans(content, calls, n, w);
    RecordedMeans(calls, n, w);
    RecordOfIs(content, calls, results, n, w);
    ResultsAreTools(content, calls, n, w);
    FiresIsFills(tools, calls, w);
    ToolNudges(u, content, calls, n, w, q);
  }

  lemma RecordOfIs(content: string, calls: seq<ToolCall>, results: seq<string>, n: nat, w: World)
    requires Recorded(results, calls, n, w)
    ensures results == TextsOf(RecordedResults(calls, n, w))
  {
    RecordedMeans(calls, n, w);
  }

  lemma ToolNudges(u: State, content: string, calls: seq<ToolCall>, n: nat, w: World, q: Setup)
    requires !Refuses(u.budget, q.limits, calls, n, w) && !Mixed(calls, w)
    requires !ToolStep(u, content, calls, n, w, q).end.Finished?
    ensures var tools := RecordedResults(calls, n, w);
      ToolStep(u, content, calls, n, w, q).state.view.nudged
      <==> u.view.nudged || exists k :: 0 <= k < |tools| && Fires(w)(tools[k])
  {
    if ReturnsDirectly(calls, n, w) {
      LoneSurvives(n, w);
    }
  }

  /** A batch that mixes a terminal call with others: every call answered with the refusal, none executed. */
  lemma MixedTurnMeans(s: State, w: World, q: Setup) returns (ds: seq<Message>)
    requires Calls(s, w, q) && RepliesBatch(s, w) && Admits(s, |Batch(s, w)|, w, q)
    requires MixesTerminal(Batch(s, w), w)
    ensures RecordOf(ds, w.reply(TurnNumber(s)).content, Batch(s, w), Refusals(|Batch(s, w)|, w))
    ensures GoesOnWith(TurnStep(s, w, q), AtReply(s, w, q), s.counts, TurnBudget(s), ds, |Batch(s, w)|, w)
  {
    var calls, content := Batch(s, w), w.reply(TurnNumber(s)).content;
    var u := ToolTurnIs(s, w, q);
    RejectionMeans(content, calls, w);
    RejectedStep(u, content, calls, TurnNumber(s), w, q);
    ds := [Declared(calls, content)] + Rejections(calls, w);
  }

  /** A reply with calls that the budget does not let in, or no call at all: the turn leaves nothing but what
      preceded the reply. */
  lemma ExhaustedTurnMeans(s: State, w: World, q: Setup)
    requires TurnStep(s, w, q).end.Exhausted?
    ensures var t := TurnStep(s, w, q).state;
      && t.counts == s.counts && t.budget == TurnBudget(s)
      && t.view == if Calls(s, w, q) then AtReply(s, w, q) else s.view
  {
    TurnEndsIff(s, w, q);
    ExceededMeans(q.limits, TurnBudget(s), w.clock(TurnNumber(s)).0);
    if Calls(s, w, q) {
      var u := ToolTurnIs(s, w, q);
    }
  }

  // ----- whole runs -----

  /** The state in which the run's last turn begins. */
  function LastTurn(s: State, w: World, q: Setup): State
    requires q.limits.enabled
    decreases Left(s, q)
  {
    var r := TurnStep(s, w, q);
    TurnUsesIteration(s, w, q);
    if r.end.Again? then LastTurn(r.state, w, q) else s
  }

  lemma {:induction false} RunIsLastTurn(s: State, w: World, q: Setup)
    requires q.limits.enabled
    ensures LoopRun(s, w, q) == TurnStep(LastTurn(s, w, q), w, q)
    decreases Left(s, q)
  {
    TurnUsesIteration(s, w, q);
    var r := TurnStep(s, w, q);
    if r.end.Again? {
      RunIsLastTurn(r.state, w, q);
    }
  }

  /** The result of the salvage: of the call the emergency reply makes, or, when there is none or it raises, of
      the program's own. */
  function SalvageResult(w: World): Option<string> {
    var r := w.emergencyReply;
    if r.Reply? && |r.calls| == 1 && r.calls[0].name == w.terminalTool && w.cascadeTool(0).Some?
    then w.cascadeTool(0) else w.cascadeTool(1)
  }

  /** The answer of a run the budget has stopped. */
  function BudgetAnswer(toolsUsed: seq<string>, w: World): string {
    var result := SalvageResult(w);
    if w.terminalTool != "" && w.terminalTool !in toolsUsed && w.terminalInRegistry
       && result.Some? && !("Error" <= result.value)
    then result.value else w.text.overBudget
  }

  /** The second warning about repeated errors, and no repeated result. */
  predicate StopsLooping(s: State, w: World, q: Setup) {
    && Executes(s, w, q) && !AnswersDirectly(s, w)
    && !w.dedup(TurnNumber(s)) && w.looping(TurnNumber(s)) && s.counts.warnings >= 1
  }

  /** The budget stops the turn, before the provider is called or before its batch is let in. */
  predicate StopsOnBudget(s: State, w: World, q: Setup) {
    !Calls(s, w, q) || (RepliesBatch(s, w) && !Admits(s, |Batch(s, w)|, w, q))
  }

  lemma ExhaustedAnswer(r: Step, w: World)
    requires r.end.Exhausted?
    ensures Concluded(r, w).answer == Some(BudgetAnswer(r.state.counts.toolsUsed, w))
  {
  }

  /** The answer of a run, by its last turn: what that turn answers, the loop fallback behind the second warning, or
      the salvaged result or the apology when the budget stopped it; none when the provider or a tool raised. */
  lemma RunAnswerIff(rows: seq<Message>, fewShots: seq<Message>, args: string -> Option<string>, now: real, w: World,
                     q: Setup, a: string)
    requires q.limits.enabled
    ensures var s := LastTurn(Opening(rows, fewShots, args, now, w, q), w, q);
      RunOf(rows, fewShots, args, now, w, q).answer == Some(a)
      <==> (|| TurnAnswers(s, w, q, a)
            || (StopsLooping(s, w, q) && a == w.text.loopFallback)
            || (StopsOnBudget(s, w, q) && a == BudgetAnswer(s.counts.toolsUsed, w)))
  {
    var o := Opening(rows, fewShots, args, now, w, q);
    var s := LastTurn(o, w, q);
    RunIsLastTurn(o, w, q);
    LoopEnds(o, w, q);
    var r := TurnStep(s, w, q);
    TurnAnswersIff(s, w, q, a);
    TurnEndsIff(s, w, q);
    match r.end
    case Finished(text) =>
      TurnAnswersIff(s, w, q, text);
    case Exhausted =>
      ExhaustedTurnMeans(s, w, q);
      ExhaustedAnswer(r, w);
    case _ =>
  }

  /** A guard's text is never handed to the user as a reply's own: an answer that echoes one is the loop fallback,
      another text of the program's, or a tool's result. */
  lemma EchoIsReplaced(rows: seq<Message>, fewShots: seq<Message>, args: string -> Option<string>, now: real, w: World,
                       q: Setup, a: string)
    requires q.limits.enabled && RunOf(rows, fewShots, args, now, w, q).answer == Some(a) && w.echo(a)
    ensures a in {w.text.loopFallback, w.text.timedOut, w.text.overBudget}
         || (exists n :: w.tool(n, 0) == Some(a)) || exists k :: w.cascadeTool(k) == Some(a)
  {
    RunAnswerIff(rows, fewShots, args, now, w, q, a);
  }

  /** When the budget admits the first call and its reply is plain text, that text is the answer. */
  lemma FirstReplyIsAnswered(rows: seq<Message>, fewShots: seq<Message>, args: string -> Option<string>, now: real,
                             w: World, q: Setup, content: string)
    requires q.limits.enabled && !LimitReached(q.limits, BudgetState(now, 1, 0, None, 0.0), w.clock(1).0)
    requires w.reply(1).Reply? && w.reply(1).calls == [] && w.reply(1).content == content && content != ""
    requires !w.blank(content) && !w.xml(content) && !w.planning(content) && !w.echo(content)
    ensures RunOf(rows, fewShots, args, now, w, q).answer == Some(content)
    ensures |RunOf(rows, fewShots, args, now, w, q).state.trace.log| == 1
  {
    var o := Opening(rows, fewShots, args, now, w, q);
    TurnAnswersIff(o, w, q, content);
    assert LastTurn(o, w, q) == o;
    RunIsLastTurn(o, w, q);
    ExceededMeans(q.limits, TurnBudget(o), w.clock(1).0);
  }

  // ----- what the salvage says and writes -----

  /** The terminal call made by the program, with the emergency reply's text, if any, as the answer. */
  predicate IsOwnCall(tc: ToolCall, w: World) {
    && tc.name == w.terminalTool && tc.id == "auto-finalize-" + w.runId
    && tc.arguments == w.answerArguments(if w.emergencyReply.Reply? then w.emergencyReply.content else "")
  }

  predicate ObeysAlone(w: World) {
    w.emergencyReply.Reply? && |w.emergencyReply.calls| == 1 && w.emergencyReply.calls[0].name == w.terminalTool
  }

  /** The calls the salvage makes with their results: the reply's own, and the program's when there is none or it
      raises. */
  predicate Made(calls: seq<(ToolCall, Option<string>)>, w: World) {
    if ObeysAlone(w) && w.cascadeTool(0).Some? then calls == [(w.emergencyReply.calls[0], w.cascadeTool(0))]
    else if ObeysAlone(w) then
      && |calls| == 2 && calls[0] == (w.emergencyReply.calls[0], None)
      && IsOwnCall(calls[1].0, w) && calls[1].1 == w.cascadeTool(1)
    else |calls| == 1 && IsOwnCall(calls[0].0, w) && calls[0].1 == w.cascadeTool(1)
  }

  /** One call and, when it returned, its result. */
  function Recording(tc: ToolCall, result: Option<string>): seq<Message> {
    [Assistant("", CallList([CallDict(Some(tc.id), Some(FunctionField(Some(tc.name), tc.arguments)))]))]
    + if result.Some? then [Tool(Some(tc.id), tc.name, result.value)] else []
  }

  function RecordingAll(calls: seq<(ToolCall, Option<string>)>): seq<Message> {
    if calls == [] then [] else Recording(calls[0].0, calls[0].1) + RecordingAll(calls[1..])
  }

  lemma RecordingIsPart(tc: ToolCall, result: Option<string>)
    ensures CascadePart(tc, result) == Recording(tc, result)
  {
    assert AllStored([tc]) == [AsStored(tc)];
  }

  lemma RecordingTwo(a: (ToolCall, Option<string>), b: (ToolCall, Option<string>))
    ensures RecordingAll([a]) == Recording(a.0, a.1)
    ensures RecordingAll([a, b]) == Recording(a.0, a.1) + Recording(b.0, b.1)
  {
    assert [a][1..] == [] && [a, b][1..] == [b] && [b][1..] == [];
    assert Recording(a.0, a.1) + [] == Recording(a.0, a.1) && Recording(b.0, b.1) + [] == Recording(b.0, b.1);
  }

  /** The salvage of a stopped run: the emergency prompt is said, each call it makes goes to both transcripts, and it
      executes one or two. */
  lemma SalvageMeans(s: State, w: World) returns (calls: seq<(ToolCall, Option<string>)>)
    requires w.terminalInRegistry
    ensures Made(calls, w)
    ensures var v := SalvageStep(s, w); var said := RecordingAll(calls);
      && v.state.view.memory == s.view.memory + [User(w.text.emergency)] + said
      && v.state.view.durable == Write(s.view.durable, said, w)
      && v.executions == |calls| && v.state.budget == s.budget
  {
    var t := Logged(Emergency(s, w));
    var own := Synthetic(if w.emergencyReply.Reply? then w.emergencyReply.content else "", w);
    if ObeysAlone(w) {
      var tc := w.emergencyReply.calls[0];
      RecordingIsPart(tc, w.cascadeTool(0));
      if w.cascadeTool(0).Some? {
        calls := [(tc, w.cascadeTool(0))];
        RecordingTwo(calls[0], calls[0]);
      } else {
        calls := [(tc, None), (own, w.cascadeTool(1))];
        RecordingIsPart(own, w.cascadeTool(1));
        RecordingTwo(calls[0], calls[1]);
        SayMore(t.view, CascadePart(tc, None), CascadePart(tc, None), CascadePart(own, w.cascadeTool(1)),
                CascadePart(own, w.cascadeTool(1)), w);
      }
    } else {
      calls := [(own, w.cascadeTool(1))];
      RecordingIsPart(own, w.cascadeTool(1));
      RecordingTwo(calls[0], calls[0]);
    }
  }
}
