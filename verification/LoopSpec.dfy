/** The ReAct loop as a function of the outside world: what each turn does to the two transcripts, the
    counters and the budget, and the run these steps add up to. */
module LoopSpec {
  import opened Transcript
  import opened ContextBuilding
  import opened BudgetGuard
  import opened TurnShapes
  import opened LoopWorld

  // ----- state -----

  /** The store's rows, the number of appends attempted, and whether one failed since the last rewrite. */
  datatype Durable = Durable(rows: seq<Message>, appends: nat, lost: bool)

  /** Both transcripts, and whether the close nudge has been given. */
  datatype View = View(memory: seq<Message>, durable: Durable, nudged: bool)

  datatype Counts = Counts(
    toolsUsed: seq<string>, executed: nat, warnings: nat, emptyRetries: nat, xmlRepaired: bool, corrections: nat)

  /** What one provider call finds: the list it is sent, the rows and where the run's own (or the last
      rewrite's) begin, the rewrites so far, whether one of those rows was lost, and whether something has
      severed a batch in the list. */
  datatype Snapshot = Snapshot(
    memory: seq<Message>, rows: seq<Message>, from: nat, rewrites: nat, lost: bool, severed: bool)

  /** Where the rows of this run (or of the last rewrite) begin, whether a batch of the list has been severed
      since it was last recomputed, the number of rewrites, and every provider call so far. */
  datatype Trace = Trace(runStart: nat, severed: bool, rewrites: nat, log: seq<Snapshot>)

  datatype State = State(view: View, counts: Counts, total: Option<int>, trace: Trace, budget: BudgetState)

  /** What is fixed over a run. */
  datatype Setup = Setup(envelope: string, request: string, limits: BudgetConfig)

  /** How a turn ends; Crashed when executing the batch raises. */
  datatype TurnEnd = Again | Finished(answer: string) | LoopDetected | Exhausted | ProviderRaised | Crashed

  datatype Step = Step(state: State, end: TurnEnd)

  // ----- writing and saying -----

  /** One append: nothing without a store, and a failure is swallowed. */
  function Append(d: Durable, m: Message, w: World): Durable {
    if !w.sessionBound then d
    else if w.appendOk(d.appends) then Durable(d.rows + [m], d.appends + 1, d.lost)
    else Durable(d.rows, d.appends + 1, true)
  }

  function Write(d: Durable, ms: seq<Message>, w: World): Durable {
    if ms == [] then d else Append(Write(d, ms[..|ms| - 1], w), ms[|ms| - 1], w)
  }

  /** `ms` said to the list and `ds` written to the rows. */
  function Say(v: View, ms: seq<Message>, ds: seq<Message>, w: World): View {
    View(v.memory + ms, Write(v.durable, ds, w), v.nudged)
  }

  function NudgePart(m: Message, spent: bool, w: World): seq<Message> {
    if Fires(w)(m) && !spent then [User(w.text.closeNudge)] else []
  }

  /** One result in both transcripts, the nudge behind it when it is due. */
  function RecordOne(v: View, m: Message, w: World): View {
    View(v.memory + [m] + NudgePart(m, v.nudged, w), Append(v.durable, m, w), v.nudged || Fires(w)(m))
  }

  function RecordAll(v: View, tools: seq<Message>, w: World): View {
    View(v.memory + Spoken(tools, v.nudged, Fires(w), w.text.closeNudge), Write(v.durable, tools, w),
         Spent(tools, v.nudged, Fires(w)))
  }

  lemma WriteSnoc(d: Durable, ms: seq<Message>, m: Message, w: World)
    ensures Write(d, ms + [m], w) == Append(Write(d, ms, w), m, w)
  {
    assert (ms + [m])[..|ms|] == ms;
  }

  lemma WriteOne(d: Durable, m: Message, w: World)
    ensures Write(d, [m], w) == Append(d, m, w)
  {
    WriteSnoc(d, [], m, w);
    assert [] + [m] == [m];
  }

  lemma {:induction false} WriteConcat(d: Durable, xs: seq<Message>, ys: seq<Message>, w: World)
    ensures Write(d, xs + ys, w) == Write(Write(d, xs, w), ys, w)
    decreases |ys|
  {
    if ys == [] {
      assert xs + ys == xs;
    } else {
      var front, last := ys[..|ys| - 1], ys[|ys| - 1];
      WriteConcat(d, xs, front, w);
      WriteSnoc(d, xs + front, last, w);
      assert xs + ys == xs + front + [last];
    }
  }

  lemma SayMore(v: View, ms: seq<Message>, ds: seq<Message>, ms2: seq<Message>, ds2: seq<Message>, w: World)
    ensures Say(Say(v, ms, ds, w), ms2, ds2, w) == Say(v, ms + ms2, ds + ds2, w)
  {
    WriteConcat(v.durable, ds, ds2, w);
    assert v.memory + ms + ms2 == v.memory + (ms + ms2);
  }

  lemma SpokenSnoc(tools: seq<Message>, k: nat, nudged: bool, fires: Message -> bool, text: string)
    requires k < |tools|
    ensures Spoken(tools[..k + 1], nudged, fires, text) == Spoken(tools[..k], nudged, fires, text) + [tools[k]]
      + if fires(tools[k]) && !Spent(tools[..k], nudged, fires) then [User(text)] else []
    ensures Spent(tools[..k + 1], nudged, fires) <==> Spent(tools[..k], nudged, fires) || fires(tools[k])
  {
    var upto := tools[..k + 1];
    assert upto[..|upto| - 1] == tools[..k] && upto[|upto| - 1] == tools[k];
    if Spent(tools[..k], nudged, fires) && !nudged {
      var i :| 0 <= i < k && fires(tools[..k][i]);
      assert upto[i] == tools[..k][i];
    }
    if Spent(upto, nudged, fires) && !nudged {
      var i :| 0 <= i <= k && fires(upto[i]);
      assert i < k ==> tools[..k][i] == upto[i];
    }
  }

  lemma RecordNone(v: View, w: World)
    ensures RecordAll(v, [], w) == v
  {
    assert v.memory + [] == v.memory;
  }

  lemma Append3<T>(a: seq<T>, s: seq<T>, m: seq<T>, x: seq<T>)
    ensures a + s + m + x == a + (s + m + x)
  {
  }

  lemma RecordMore(v: View, tools: seq<Message>, k: nat, w: World)
    requires k < |tools|
    ensures RecordOne(RecordAll(v, tools[..k], w), tools[k], w) == RecordAll(v, tools[..k + 1], w)
  {
    var fires, text := Fires(w), w.text.closeNudge;
    SpokenSnoc(tools, k, v.nudged, fires, text);
    WriteSnoc(v.durable, tools[..k], tools[k], w);
    assert tools[..k + 1] == tools[..k] + [tools[k]];
    Append3(v.memory, Spoken(tools[..k], v.nudged, fires, text), [tools[k]],
            NudgePart(tools[k], Spent(tools[..k], v.nudged, fires), w));
  }

  // ----- one batch -----

  function Names(calls: seq<ToolCall>): (r: seq<string>)
    ensures |r| == |calls| && forall k :: 0 <= k < |calls| ==> r[k] == calls[k].name
  {
    seq(|calls|, k requires 0 <= k < |calls| => calls[k].name)
  }

  /** The results of an admitted batch that are recorded. */
  function RecordedResults(calls: seq<ToolCall>, n: nat, w: World): seq<Message> {
    Outputs(calls, n, w)[..RecordedCount(calls, n, w)]
  }

  /** What an executed batch says in memory: the announcement, then its results as spoken. */
  function BatchSaid(content: string, calls: seq<ToolCall>, n: nat, nudged: bool, w: World): seq<Message> {
    [Declared(calls, content)]
    + if ReturnsDirectly(calls, n, w) then Outputs(calls, n, w)
      else Spoken(RecordedResults(calls, n, w), nudged, Fires(w), w.text.closeNudge)
  }

  /** ... and what it writes: the announcement, its results, and the answer when a lone call returns it. */
  function BatchWritten(content: string, calls: seq<ToolCall>, n: nat, w: World): seq<Message> {
    [Declared(calls, content)] + RecordedResults(calls, n, w)
    + if ReturnsDirectly(calls, n, w) then [Assistant(Yield(n, 0, w), Missing)] else []
  }

  function BatchNudged(calls: seq<ToolCall>, n: nat, nudged: bool, w: World): bool {
    if ReturnsDirectly(calls, n, w) then nudged else Spent(RecordedResults(calls, n, w), nudged, Fires(w))
  }

  function BatchView(v: View, content: string, calls: seq<ToolCall>, n: nat, w: World): View {
    Say(v, BatchSaid(content, calls, n, v.nudged, w), BatchWritten(content, calls, n, w), w)
      .(nudged := BatchNudged(calls, n, v.nudged, w))
  }

  function RejectedBatch(content: string, calls: seq<ToolCall>, w: World): seq<Message> {
    [Declared(calls, content)] + Rejections(calls, w)
  }

  /** Does recording this batch sever it in memory? */
  predicate Severs(calls: seq<ToolCall>, n: nat, nudged: bool, w: World) {
    !ReturnsDirectly(calls, n, w) && FiresEarly(Outputs(calls, n, w), nudged, Fires(w))
  }

  // ----- one turn -----

  /** Would the budget refuse this batch? */
  predicate Refuses(b: BudgetState, limits: BudgetConfig, calls: seq<ToolCall>, n: nat, w: World) {
    || Exceeded(limits, b, w.clock(n).1).Some?
    || (limits.enabled && b.toolCallsUsed + |calls| > limits.maxToolCalls)
  }

  /** The batch announced, executed and recorded. */
  function BatchStep(s: State, content: string, calls: seq<ToolCall>, n: nat, w: World): State {
    s.(view := BatchView(s.view, content, calls, n, w),
       counts := s.counts.(toolsUsed := s.counts.toolsUsed + Names(calls)[..RecordedCount(calls, n, w)],
                           executed := s.counts.executed + StartedCount(calls, n, w)))
  }

  function Marked(s: State, severs: bool): State {
    s.(trace := s.trace.(severed := s.trace.severed || severs))
  }

  /** The loop detectors' verdict on a recorded batch. */
  function VerdictStep(s: State, n: nat, w: World): Step {
    if w.dedup(n) || !w.looping(n) then Step(s, Again)
    else
      var t := s.(counts := s.counts.(warnings := s.counts.warnings + 1));
      Step(t, if t.counts.warnings >= 2 then LoopDetected else Again)
  }

  function ExecuteStep(s: State, content: string, calls: seq<ToolCall>, n: nat, w: World): Step {
    var t := BatchStep(s, content, calls, n, w);
    if Crashes(calls, n, w) then Step(t, Crashed)
    else
      var u := Marked(t, Severs(calls, n, s.view.nudged, w));
      if ReturnsDirectly(calls, n, w) then Step(u, Finished(Yield(n, 0, w))) else VerdictStep(u, n, w)
  }

  function Reserved(s: State, calls: seq<ToolCall>): State {
    s.(budget := s.budget.(toolCallsUsed := s.budget.toolCallsUsed + |calls|))
  }

  function RejectStep(s: State, content: string, calls: seq<ToolCall>, w: World): State {
    var rejected := RejectedBatch(content, calls, w);
    s.(view := Say(s.view, rejected + [User(w.text.retryTerminal)], rejected, w))
  }

  /** A reply with tool calls: refused without a trace, or reserved whole and then rejected or executed. */
  function ToolStep(s: State, content: string, calls: seq<ToolCall>, n: nat, w: World, q: Setup): Step {
    if Refuses(s.budget, q.limits, calls, n, w) then Step(s, Exhausted)
    else if Mixed(calls, w) then Step(RejectStep(Reserved(s, calls), content, calls, w), Again)
    else ExecuteStep(Reserved(s, calls), content, calls, n, w)
  }

  function Retry(s: State, counts: Counts, text: string, w: World): Step {
    Step(s.(view := Say(s.view, [User(text)], [], w), counts := counts), Again)
  }

  function Answered(s: State, answer: string, w: World): State {
    s.(view := Say(s.view, [], [Assistant(answer, Missing)], w))
  }

  /** A reply without tool calls: one of the bounded retries, or the saved answer. */
  function AnswerStep(s: State, content: string, w: World): Step {
    var c := s.counts;
    if w.blank(content) && c.emptyRetries < EMPTY_RESPONSE_MAX_RETRIES then
      Retry(s, c.(emptyRetries := c.emptyRetries + 1), w.text.emptyRetry, w)
    else MarkupStep(s, if content != "" then content else w.text.noResponse, w)
  }

  function MarkupStep(s: State, text: string, w: World): Step {
    if w.xml(text) && !s.counts.xmlRepaired then
      Retry(s, s.counts.(xmlRepaired := true), w.text.xmlRepair, w)
    else PlanningStep(s, if w.xml(text) then w.text.xmlFallback else text, w)
  }

  function PlanningStep(s: State, final: string, w: World): Step {
    var c := s.counts;
    if c.corrections < w.maxCorrections && w.planning(final) then
      Retry(s, c.(corrections := c.corrections + 1), w.text.correction, w)
    else
      var answer := if w.echo(final) then w.text.loopFallback else final;
      Step(Answered(s, answer, w), Finished(answer))
  }

  function WindowOf(s: State, x: MidRunInputs, w: World, q: Setup): Window {
    MidRun(s.view.memory, s.view.durable.rows, s.total, q.envelope, q.request, w.sessionBound, x)
  }

  function Windowed(s: State, win: Window): State {
    var d := s.view.durable;
    s.(view := View(win.memory, Durable(win.rows, d.appends, d.lost && !win.rewritten), s.view.nudged),
       total := win.total,
       trace := s.trace.(severed := s.trace.severed && !win.healed,
                         runStart := if win.rewritten then 0 else s.trace.runStart,
                         rewrites := s.trace.rewrites + if win.rewritten then 1 else 0))
  }

  function CompressStep(s: State, x: MidRunInputs, w: World, q: Setup): State {
    Windowed(s, WindowOf(s, x, w, q))
  }

  function HintStep(s: State, h: Hints): State {
    s.(view := s.view.(memory := Hinted(s.view.memory, h)),
       trace := s.trace.(severed := s.trace.severed || Tears(s.view.memory, h)))
  }

  function Taken(s: State): Snapshot {
    Snapshot(s.view.memory, s.view.durable.rows, s.trace.runStart, s.trace.rewrites, s.view.durable.lost,
             s.trace.severed)
  }

  function Logged(s: State): State {
    s.(trace := s.trace.(log := s.trace.log + [Taken(s)]))
  }

  /** What precedes a provider call, and the call itself. */
  function CallStep(s: State, n: nat, w: World, q: Setup): State {
    Logged(HintStep(CompressStep(s, w.midRun(n), w, q), w.hints(n)))
  }

  function RespondStep(s: State, reply: Reply, n: nat, w: World, q: Setup): Step {
    match reply
    case TimedOut => Step(Answered(s, w.text.timedOut, w), Finished(w.text.timedOut))
    case Failed => Step(s, ProviderRaised)
    case Reply(content, calls, totalTokens) =>
      var t := s.(total := if totalTokens > 0 then Some(totalTokens) else None);
      if calls == [] then AnswerStep(t, content, w) else ToolStep(t, content, calls, n, w, q)
  }

  function Consumed(s: State): State {
    s.(budget := s.budget.(iterationsUsed := s.budget.iterationsUsed + 1))
  }

  function TurnStep(s: State, w: World, q: Setup): Step {
    var t := Consumed(s);
    var n := t.budget.iterationsUsed;
    if Exceeded(q.limits, t.budget, w.clock(n).0).Some? then Step(t, Exhausted)
    else RespondStep(CallStep(t, n, w, q), w.reply(n), n, w, q)
  }

  // ----- the loop -----

  /** Turns left before the iteration limit. */
  function Left(s: State, q: Setup): nat {
    if s.budget.iterationsUsed < q.limits.maxIterations then q.limits.maxIterations - s.budget.iterationsUsed else 0
  }

  lemma RespondKeepsIterations(s: State, reply: Reply, n: nat, w: World, q: Setup)
    ensures RespondStep(s, reply, n, w, q).state.budget.iterationsUsed == s.budget.iterationsUsed
  {
  }

  /** Every turn uses one iteration, and only below the limit does the loop go round again. */
  lemma TurnUsesIteration(s: State, w: World, q: Setup)
    requires q.limits.enabled
    ensures var r := TurnStep(s, w, q);
      && r.state.budget.iterationsUsed == s.budget.iterationsUsed + 1
      && (s.budget.iterationsUsed + 1 >= q.limits.maxIterations ==> r == Step(Consumed(s), Exhausted))
      && (r.end.Again? ==> Left(r.state, q) < Left(s, q))
  {
    var t := Consumed(s);
    var n := t.budget.iterationsUsed;
    RespondKeepsIterations(CallStep(t, n, w, q), w.reply(n), n, w, q);
  }

  /** The `while True` loop. */
  function LoopRun(s: State, w: World, q: Setup): Step
    requires q.limits.enabled
    decreases Left(s, q)
  {
    var r := TurnStep(s, w, q);
    TurnUsesIteration(s, w, q);
    if r.end.Again? then LoopRun(r.state, w, q) else r
  }
}
