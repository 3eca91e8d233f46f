/** What a run of the ReAct loop depends on and does not decide (provider, tools, clock, summariser,
    settings), and what one turn's parts do to the in-memory list. */
module LoopWorld {
  import opened Transcript
  import opened Normalization
  import opened NormalizationTheorems
  import opened Compression
  import opened CompressionTheorems
  import opened ContextBuilding
  import opened StoreRewrite
  import opened TurnShapes

  const APPLY_FILL := "apply_fill_plan"
  const EMPTY_RESPONSE_MAX_RETRIES := 3
  const PRUNE_PROTECT_TAIL := 6
  const PRUNE_MIN_LENGTH := 200

  // ----- the outside world -----

  datatype Reply = TimedOut | Failed | Reply(content: string, calls: seq<ToolCall>, totalTokens: nat)

  /** Settings and answers for one mid-run compression; `cfg` is None without a compressor. */
  datatype MidRunInputs = MidRunInputs(
    enabled: bool, pruneMin: nat, cfg: Option<Config>,
    loadOk: bool, writeOk: bool, storeSummary: Option<string>, memorySummary: Option<string>)

  /** The tail hints before one call: which texts carry a marker, and what is appended. */
  datatype Hints = Hints(
    soft: bool, softMarked: string -> bool, softText: Option<string>,
    webMarked: string -> bool, webText: Option<string>)

  datatype Prompts = Prompts(
    emptyRetry: string, xmlRepair: string, correction: string, mixedRejected: string, retryTerminal: string,
    closeNudge: string, emergency: string, noResponse: string, xmlFallback: string, loopFallback: string,
    timedOut: string, overBudget: string)

  /** Everything a run depends on and does not decide, by turn number. */
  datatype World = World(
    sessionBound: bool,
    historyLoads: bool,
    reply: nat -> Reply,
    emergencyReply: Reply,
    tool: (nat, nat) -> Option<string>,
    cascadeTool: nat -> Option<string>,
    appendOk: nat -> bool,
    clock: nat -> (real, real),
    midRun: nat -> MidRunInputs,
    hints: nat -> Hints,
    terminal: string -> bool,
    parallelSafe: string -> bool,
    direct: (ToolCall, string) -> bool,
    blank: string -> bool, xml: string -> bool, planning: string -> bool, echo: string -> bool,
    maxCorrections: nat,
    fillOk: string -> bool,
    dedup: nat -> bool,
    looping: nat -> bool,
    terminalTool: string,
    terminalInRegistry: bool,
    runId: string,
    answerArguments: string -> string,
    text: Prompts)

  ghost predicate SoundReply(r: Reply) {
    r.Reply? ==> GoodCalls(AllStored(r.calls))
  }

  /** The provider names its calls and gives the calls of one batch distinct ids. */
  ghost predicate Sound(w: World) {
    SoundReply(w.emergencyReply) && forall n :: SoundReply(w.reply(n))
  }

  /** Does this result trigger the one-shot close nudge? */
  function Fires(w: World): Message -> bool {
    (m: Message) => m.Tool? && m.name == APPLY_FILL && !IsError(m.content) && w.fillOk(m.content)
  }

  // ----- the results of a batch -----

  function ToolMessage(tc: ToolCall, result: string): Message {
    Tool(Some(tc.id), tc.name, result)
  }

  /** What the k-th call of turn `n` yields ("" where it raises). */
  function Yield(n: nat, k: nat, w: World): string {
    match w.tool(n, k)
    case Some(s) => s
    case None => ""
  }

  function Outputs(calls: seq<ToolCall>, n: nat, w: World): (r: seq<Message>)
    ensures |r| == |calls|
    ensures forall k :: 0 <= k < |calls| ==> r[k] == ToolMessage(calls[k], Yield(n, k, w))
  {
    seq(|calls|, k requires 0 <= k < |calls| => ToolMessage(calls[k], Yield(n, k, w)))
  }

  function Rejections(calls: seq<ToolCall>, w: World): (r: seq<Message>)
    ensures |r| == |calls|
    ensures forall k :: 0 <= k < |calls| ==> r[k] == ToolMessage(calls[k], w.text.mixedRejected)
  {
    seq(|calls|, k requires 0 <= k < |calls| => ToolMessage(calls[k], w.text.mixedRejected))
  }

  predicate Mixed(calls: seq<ToolCall>, w: World) {
    |calls| > 1 && exists k :: 0 <= k < |calls| && w.terminal(calls[k].name)
  }

  predicate Parallel(calls: seq<ToolCall>, w: World) {
    |calls| > 1 && forall k :: 0 <= k < |calls| ==> !w.terminal(calls[k].name) && w.parallelSafe(calls[k].name)
  }

  /** How many of the first `m` calls of turn `n` return before one raises. */
  function Survivors(n: nat, m: nat, w: World): (k: nat)
    ensures k <= m
    ensures k < m ==> w.tool(n, k).None?
  {
    if m == 0 then 0
    else
      var k := Survivors(n, m - 1, w);
      if k == m - 1 && w.tool(n, k).Some? then m else k
  }

  predicate Crashes(calls: seq<ToolCall>, n: nat, w: World) {
    Survivors(n, |calls|, w) < |calls|
  }

  lemma {:induction false} CrashLasts(n: nat, k: nat, m: nat, w: World)
    requires k < m && Survivors(n, k, w) == k && w.tool(n, k).None?
    ensures Survivors(n, m, w) == k
  {
    if k < m - 1 {
      CrashLasts(n, k, m - 1, w);
    }
  }

  lemma {:induction false} SurvivorsReturn(n: nat, m: nat, w: World)
    ensures forall j: nat :: j < Survivors(n, m, w) ==> w.tool(n, j).Some?
  {
    if m > 0 {
      SurvivorsReturn(n, m - 1, w);
    }
  }

  lemma LoneSurvives(n: nat, w: World)
    requires w.tool(n, 0).Some?
    ensures Survivors(n, 1, w) == 1
  {
    assert Survivors(n, 0, w) == 0;
  }

  /** How many results of an admitted batch are recorded: none of a parallel batch that fails. */
  function RecordedCount(calls: seq<ToolCall>, n: nat, w: World): (k: nat)
    ensures k <= |calls|
  {
    if Parallel(calls, w) && Crashes(calls, n, w) then 0 else Survivors(n, |calls|, w)
  }

  /** How many of its calls are started. */
  function StartedCount(calls: seq<ToolCall>, n: nat, w: World): (k: nat)
    ensures k <= |calls|
  {
    if Parallel(calls, w) || !Crashes(calls, n, w) then |calls| else Survivors(n, |calls|, w) + 1
  }

  function Declared(calls: seq<ToolCall>, content: string): Message {
    Assistant(content, CallList(AllStored(calls)))
  }

  /** A lone call whose result is the answer. */
  predicate ReturnsDirectly(calls: seq<ToolCall>, n: nat, w: World) {
    && |calls| == 1
    && w.tool(n, 0).Some?
    && w.direct(calls[0], w.tool(n, 0).value) && !IsError(w.tool(n, 0).value)
  }

  /** `_execute_parallel`: every call runs; one that raises fails the gather. */
  method Gather(calls: seq<ToolCall>, n: nat, w: World) returns (results: Option<seq<string>>)
    ensures results.Some? <==> !Crashes(calls, n, w)
    ensures results.Some? ==> |results.value| == |calls|
    ensures results.Some? ==> forall k :: 0 <= k < |calls| ==> w.tool(n, k) == Some(results.value[k])
  {
    var done: seq<string> := [];
    var crashed := false;
    for k := 0 to |calls|
      invariant crashed <==> Survivors(n, k, w) < k
      invariant |done| == k
      invariant !crashed ==> forall j :: 0 <= j < k ==> w.tool(n, j) == Some(done[j])
    {
      match w.tool(n, k) {
        case Some(result) => done := done + [result];
        case None =>
          crashed := true;
          done := done + [""];
      }
    }
    results := if crashed then None else Some(done);
  }

  lemma NamedAnswers(calls: seq<ToolCall>, tools: seq<Message>)
    requires |tools| == |calls|
    requires forall k :: 0 <= k < |calls| ==> tools[k].Tool? && tools[k].callId == Some(calls[k].id)
    ensures Answers(AllStored(calls), tools)
  {
    var stored := AllStored(calls);
    forall k | 0 <= k < |stored| ensures tools[k].Tool? && tools[k].callId == IdOf(stored[k]) {
      assert stored[k] == AsStored(calls[k]);
    }
  }

  lemma OutputsAnswer(calls: seq<ToolCall>, n: nat, w: World)
    ensures Answers(AllStored(calls), Outputs(calls, n, w))
    ensures Answers(AllStored(calls), Rejections(calls, w))
  {
    NamedAnswers(calls, Outputs(calls, n, w));
    NamedAnswers(calls, Rejections(calls, w));
  }

  // ----- mid-run compression -----

  /** `_tool_batch_incomplete`: some declared id has no result anywhere. */
  predicate BatchIncomplete(ms: seq<Message>) {
    CallIds(ms) - ResultIds(ms) != {}
  }

  predicate ShouldCompress(ms: seq<Message>, cfg: Config, actual: Option<int>) {
    !BatchIncomplete(ms) && EffectiveTokens(ms, cfg.est, actual) >= cfg.threshold
  }

  /** Is every declared call with an id answered somewhere? */
  predicate AllAnswered(ms: seq<Message>) {
    forall i, j :: 0 <= i < |ms| && OpensBatch(ms[i]) && 0 <= j < |ms[i].calls.calls| ==>
      CallId(ms[i].calls.calls[j]) != "" ==> HasResult(ms, ms[i].calls.calls[j])
  }

  lemma {:induction false} FindCall(ms: seq<Message>, c: RawCall) returns (i: nat, j: nat)
    requires c in AllCalls(ms)
    ensures i < |ms| && OpensBatch(ms[i]) && j < |ms[i].calls.calls| && ms[i].calls.calls[j] == c
  {
    if ms[0].Assistant? && ms[0].calls.CallList? && c in ms[0].calls.calls {
      i := 0;
      j :| 0 <= j < |ms[0].calls.calls| && ms[0].calls.calls[j] == c;
    } else {
      i, j := FindCall(ms[1..], c);
      i := i + 1;
    }
  }

  lemma {:induction false} CallIsFound(ms: seq<Message>, i: nat, c: RawCall)
    requires i < |ms| && OpensBatch(ms[i]) && c in ms[i].calls.calls
    ensures c in AllCalls(ms)
  {
    if i > 0 {
      CallIsFound(ms[1..], i - 1, c);
    }
  }

  lemma AnsweredIff(ms: seq<Message>, c: RawCall)
    requires CallId(c) != ""
    ensures CallId(c) in ResultIds(ms) <==> HasResult(ms, c)
  {
    assert [] + ms == ms;
    ResultIdsMean([], ms, c);
  }

  /** Compression is due exactly when every call is answered and the estimate or the provider's own count
      reaches the threshold. */
  lemma ShouldCompressIff(ms: seq<Message>, cfg: Config, actual: Option<int>)
    ensures ShouldCompress(ms, cfg, actual) <==> AllAnswered(ms) && Heavy(ms, cfg, actual)
  {
    HeavyMeans(ms, cfg, actual);
    if AllAnswered(ms) {
      forall id | id in CallIds(ms) ensures id in ResultIds(ms) {
        var c :| c in AllCalls(ms) && CallId(c) == id && id != "";
        var i, j := FindCall(ms, c);
        AnsweredIff(ms, c);
      }
    }
    if !BatchIncomplete(ms) {
      forall i, j | 0 <= i < |ms| && OpensBatch(ms[i]) && 0 <= j < |ms[i].calls.calls|
        && CallId(ms[i].calls.calls[j]) != "" ensures HasResult(ms, ms[i].calls.calls[j])
      {
        var c := ms[i].calls.calls[j];
        CallIsFound(ms, i, c);
        assert CallId(c) in CallIds(ms) && CallId(c) !in CallIds(ms) - ResultIds(ms);
        AnsweredIff(ms, c);
      }
    }
  }

  /** On a closed transcript the incomplete-batch test never stands in the way. */
  lemma ClosedIsNeverIncomplete(ms: seq<Message>, cfg: Config, actual: Option<int>)
    requires Batches(ms)
    ensures ShouldCompress(ms, cfg, actual) <==> Heavy(ms, cfg, actual)
  {
    HeavyMeans(ms, cfg, actual);
    ClosedPairs(ms);
  }

  /** The list and the rows after the compression step; `healed` when the list was recomputed. */
  datatype Window = Window(memory: seq<Message>, rows: seq<Message>, total: Option<int>, healed: bool, rewritten: bool)

  function InMemory(memory: seq<Message>, rows: seq<Message>, total: Option<int>, cfg: Config,
                    summary: Option<string>): Window {
    match Compressed(memory, cfg, total, summary)
    case None => Window(memory, rows, total, false, false)
    case Some(out) => Window(out, rows, None, true, false)
  }

  function PruneStage(memory: seq<Message>, x: MidRunInputs): seq<Message> {
    if |memory| > x.pruneMin then Pruned(memory, PRUNE_PROTECT_TAIL, PRUNE_MIN_LENGTH) else memory
  }

  function StoreInputs(x: MidRunInputs, total: Option<int>): RewriteInputs {
    RewriteInputs(x.cfg, total, x.storeSummary, x.loadOk, x.writeOk)
  }

  function MidRun(memory: seq<Message>, rows: seq<Message>, total: Option<int>,
                  envelope: string, durable: string, bound: bool, x: MidRunInputs): Window
  {
    if !x.enabled then Window(memory, rows, total, false, false)
    else
      var pruned := PruneStage(memory, x);
      if x.cfg.None? || !ShouldCompress(pruned, x.cfg.value, total) then Window(pruned, rows, total, false, false)
      else if !bound then InMemory(pruned, rows, total, x.cfg.value, x.memorySummary)
      else
        var r := Rewrite(rows, StoreInputs(x, total));
        if r.status == Rewritten && r.messages.Some?
        then Window(Restored(r.messages.value, Some(envelope), Some(durable)), r.rows, None, true, true)
        else InMemory(pruned, rows, total, x.cfg.value, x.memorySummary)
  }

  lemma InMemoryKeeps(memory: seq<Message>, rows: seq<Message>, total: Option<int>, cfg: Config,
                      summary: Option<string>)
    ensures var win := InMemory(memory, rows, total, cfg, summary);
      && (win.healed ==> Valid(win.memory))
      && (!win.healed ==> win.memory == memory)
      && win.rows == rows && !win.rewritten
  {
    if Compressed(memory, cfg, total, summary).Some? {
      CompressedIsValid(memory, cfg, total, summary);
    }
  }

  lemma PruneStageKeeps(memory: seq<Message>, x: MidRunInputs)
    ensures Batches(memory) ==> Batches(PruneStage(memory, x))
  {
    PruneKeepsProtocol(memory, PRUNE_PROTECT_TAIL, PRUNE_MIN_LENGTH);
  }

  lemma RewriteBranchKeeps(rows: seq<Message>, x: RewriteInputs, envelope: string, durable: string)
    requires Rewrite(rows, x).status == Rewritten && Rewrite(rows, x).messages.Some?
    ensures var r := Rewrite(rows, x);
      && Valid(r.rows)
      && Valid(Restored(r.messages.value, Some(envelope), Some(durable)))
      && (envelope != "" ==> User(envelope) in Restored(r.messages.value, Some(envelope), Some(durable)))
  {
    RewriteIsSafe(rows, x);
    RestoreKeepsRequest(Rewrite(rows, x).rows, Some(envelope), Some(durable));
  }

  /** Whatever the summariser and the store answer: a recomputed list is valid even if it was not
      closed before, a kept one stays closed, a rewritten store is valid and its list still holds the
      active request, and every other outcome leaves the rows alone. */
  lemma MidRunKeeps(memory: seq<Message>, rows: seq<Message>, total: Option<int>,
                    envelope: string, durable: string, bound: bool, x: MidRunInputs)
    ensures var win := MidRun(memory, rows, total, envelope, durable, bound, x);
      && (Batches(memory) || win.healed ==> Batches(win.memory))
      && (win.healed ==> Valid(win.memory))
      && (win.rewritten ==> Valid(win.rows) && (envelope != "" ==> User(envelope) in win.memory))
      && (!win.rewritten ==> win.rows == rows)
  {
    var pruned := PruneStage(memory, x);
    PruneStageKeeps(memory, x);
    if x.enabled && x.cfg.Some? && ShouldCompress(pruned, x.cfg.value, total) {
      InMemoryKeeps(pruned, rows, total, x.cfg.value, x.memorySummary);
      var inputs := StoreInputs(x, total);
      if Rewrite(rows, inputs).status == Rewritten && Rewrite(rows, inputs).messages.Some? {
        RewriteBranchKeeps(rows, inputs, envelope, durable);
      }
    }
  }

  /** The list in memory compressed, or kept where compressing it raises. */
  ghost predicate CompressedInMemory(win: Window, memory: seq<Message>, rows: seq<Message>, total: Option<int>,
                                     x: MidRunInputs)
    requires x.cfg.Some?
  {
    var ms := Normalized(memory).messages;
    && win.rows == rows && !win.rewritten && (win.healed <==> !HasNonList(ms))
    && (win.healed ==> win.total == None && CompressesTo(ms, x.cfg.value, total, x.memorySummary, win.memory))
    && (!win.healed ==> win.total == total && win.memory == memory)
  }

  /** The rows compressed, and the list rebuilt from them with this run's request. */
  ghost predicate CompressedInStore(win: Window, rows: seq<Message>, total: Option<int>, envelope: string,
                                    durable: string, x: MidRunInputs)
    requires x.cfg.Some?
  {
    && win.rewritten && win.healed && win.total == None && win.rows != rows
    && CompressesTo(Normalized(rows).messages, x.cfg.value, total, x.storeSummary, win.rows)
    && PutsBack(win.memory, win.rows, Some(envelope), Some(durable))
  }

  /** Can the store be rewritten: it loads, writes, compresses without raising, and would change? */
  ghost predicate StoreGivesWay(rows: seq<Message>, total: Option<int>, x: MidRunInputs)
    requires x.cfg.Some?
  {
    x.loadOk && x.writeOk && !(|Normalized(rows).messages| >= 5 && HasNonList(Normalized(rows).messages))
    && !CompressesTo(Normalized(rows).messages, x.cfg.value, total, x.storeSummary, rows)
  }

  /** What the compression step does, by what is due, what the store answers and what the summariser says. */
  lemma MidRunMeans(memory: seq<Message>, rows: seq<Message>, total: Option<int>,
                    envelope: string, durable: string, bound: bool, x: MidRunInputs)
    ensures var win := MidRun(memory, rows, total, envelope, durable, bound, x);
      var pruned := if x.enabled && |memory| > x.pruneMin then Pruned(memory, 6, 200) else memory;
      if !x.enabled || x.cfg.None? || !AllAnswered(pruned) || !Heavy(pruned, x.cfg.value, total) then
        win == Window(pruned, rows, total, false, false)
      else if bound && StoreGivesWay(rows, total, x) then
        CompressedInStore(win, rows, total, envelope, durable, x)
      else CompressedInMemory(win, pruned, rows, total, x)
  {
    var pruned := PruneStage(memory, x);
    if x.enabled && x.cfg.Some? {
      ShouldCompressIff(pruned, x.cfg.value, total);
      InMemoryMeans(pruned, rows, total, x);
      if bound {
        StoreMeans(rows, total, envelope, durable, x);
      }
    }
  }

  /** A rewrite keeps every message from the tail start on, word for word, or all of them. */
  lemma RewriteKeepsTail(memory: seq<Message>, rows: seq<Message>, total: Option<int>,
                         envelope: string, durable: string, bound: bool, x: MidRunInputs, t: nat)
    requires MidRun(memory, rows, total, envelope, durable, bound, x).rewritten && x.cfg.Some?
    ensures var ms := Normalized(rows).messages;
      var now := MidRun(memory, rows, total, envelope, durable, bound, x).rows;
      if Heavy(ms, x.cfg.value, total) && TailAt(ms, x.cfg.value, t) then
        |now| >= |ms| - t && now[|now| - (|ms| - t)..] == ms[t..]
      else (exists k: nat :: Heavy(ms, x.cfg.value, total) && TailAt(ms, x.cfg.value, k)) || now == ms
  {
    MidRunMeans(memory, rows, total, envelope, durable, bound, x);
    var ms := Normalized(rows).messages;
    var now := MidRun(memory, rows, total, envelope, durable, bound, x).rows;
    if Heavy(ms, x.cfg.value, total) && TailAt(ms, x.cfg.value, t) {
      var stubs, part :| Cut(now, ms, t, x.storeSummary, stubs, part);
    }
  }

  lemma InMemoryMeans(memory: seq<Message>, rows: seq<Message>, total: Option<int>, x: MidRunInputs)
    requires x.cfg.Some?
    ensures CompressedInMemory(InMemory(memory, rows, total, x.cfg.value, x.memorySummary), memory, rows, total, x)
  {
    CompressMeans(memory, x.cfg.value, total, x.memorySummary);
  }

  lemma StoreMeans(rows: seq<Message>, total: Option<int>, envelope: string, durable: string, x: MidRunInputs)
    requires x.cfg.Some?
    ensures Rewrite(rows, StoreInputs(x, total)).status == Rewritten <==> StoreGivesWay(rows, total, x)
    ensures var r := Rewrite(rows, StoreInputs(x, total));
      r.status == Rewritten ==>
        r.messages.Some? && CompressedInStore(
          Window(Restored(r.messages.value, Some(envelope), Some(durable)), r.rows, None, true, true),
          rows, total, envelope, durable, x)
  {
    var inputs := StoreInputs(x, total);
    RewriteIsSafe(rows, inputs);
    if x.loadOk && Rewrite(rows, inputs).status != CompressFailed {
      var out := RewriteMeans(rows, inputs);
      if CompressesTo(Normalized(rows).messages, x.cfg.value, total, x.storeSummary, rows) {
        CompressesToOne(Normalized(rows).messages, x.cfg.value, total, x.storeSummary, rows, out);
      }
      if Rewrite(rows, inputs).status == Rewritten {
        RestoreKeepsRequest(out, Some(envelope), Some(durable));
      }
    }
  }

  // ----- hints -----

  function Tail(text: Option<string>): seq<Message> {
    if text.Some? then [User(text.value)] else []
  }

  function SoftHinted(ms: seq<Message>, h: Hints): seq<Message> {
    if h.soft then Stripped(ms, h.softMarked) + Tail(h.softText) else ms
  }

  function Hinted(ms: seq<Message>, h: Hints): seq<Message> {
    Stripped(SoftHinted(ms, h), h.webMarked) + Tail(h.webText)
  }

  /** The list sent: without earlier tool hints and earlier access hints, a fresh tool hint and a fresh access hint at
      the end, each where there is one. */
  lemma HintedMeans(ms: seq<Message>, h: Hints)
    ensures var soft := if !h.soft then ms
      else Stripped(ms, h.softMarked) + if h.softText.Some? then [User(h.softText.value)] else [];
      Hinted(ms, h) == Stripped(soft, h.webMarked) + if h.webText.Some? then [User(h.webText.value)] else []
  {
  }

  /** Stripping would keep part of a batch and drop the rest of it. */
  predicate Tears(ms: seq<Message>, h: Hints) {
    (h.soft && !Untorn(ms, h.softMarked)) || !Untorn(SoftHinted(ms, h), h.webMarked)
  }

  lemma TailKeeps(ms: seq<Message>, text: Option<string>)
    requires Batches(ms)
    ensures Batches(ms + Tail(text))
  {
    if text.Some? {
      FollowedByUser(ms, text.value);
    } else {
      assert ms + [] == ms;
    }
  }

  lemma HintsKeep(ms: seq<Message>, h: Hints)
    requires Batches(ms) && !Tears(ms, h)
    ensures Batches(Hinted(ms, h))
  {
    if h.soft {
      StripKeepsBatches(ms, h.softMarked);
      TailKeeps(Stripped(ms, h.softMarked), h.softText);
    }
    StripKeepsBatches(SoftHinted(ms, h), h.webMarked);
    TailKeeps(Stripped(SoftHinted(ms, h), h.webMarked), h.webText);
  }
}
