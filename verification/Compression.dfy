/** Compressing a transcript: keep the head and a token-budgeted tail, summarise the middle. */
module Compression {
  import opened Transcript
  import opened Normalization
  import opened NormalizationTheorems

  const COMPRESSED_RESULT := "[Tool result was lost during context compression]"
  const SUMMARY_HEADER := "[Context Summary]\n"
  const HEAD_COUNT := 2

  // ----- pairing calls and results by id, over the whole transcript -----

  /** The ids of all declared calls (the truthy ones). */
  function CallIds(ms: seq<Message>): set<string> {
    set c | c in AllCalls(ms) && CallId(c) != "" :: CallId(c)
  }

  /** The ids all tool results name. */
  function ResultIds(ms: seq<Message>): set<string> {
    set m | m in ms && m.Tool? && m.callId.Some? && m.callId.value != "" :: m.callId.value
  }

  function CompressedStub(c: RawCall): Message {
    Tool(Some(CallId(c)), CallName(c), COMPRESSED_RESULT)
  }

  /** One stub per call of the batch whose id is in `lost`. */
  function StubsFor(calls: seq<RawCall>, lost: set<string>): seq<Message> {
    if calls == [] then []
    else (if CallId(calls[0]) in lost then [CompressedStub(calls[0])] else []) + StubsFor(calls[1..], lost)
  }

  function StubsBehind(m: Message, lost: set<string>): seq<Message> {
    if OpensBatch(m) then StubsFor(m.calls.calls, lost) else []
  }

  predicate Dropped(m: Message, orphans: set<string>) {
    m.Tool? && m.callId.Some? && m.callId.value in orphans
  }

  function SanitizeWith(ms: seq<Message>, orphans: set<string>, lost: set<string>): seq<Message> {
    if ms == [] then []
    else (if Dropped(ms[0], orphans) then [] else [ms[0]] + StubsBehind(ms[0], lost))
         + SanitizeWith(ms[1..], orphans, lost)
  }

  function Sanitized(ms: seq<Message>): seq<Message> {
    var orphans, lost := ResultIds(ms) - CallIds(ms), CallIds(ms) - ResultIds(ms);
    if orphans == {} && lost == {} then ms else SanitizeWith(ms, orphans, lost)
  }

  /** Iterating a truthy `tool_calls` value that is not a list raises. */
  predicate HasNonList(ms: seq<Message>) {
    exists m :: m in ms && m.Assistant? && m.calls.NotAList?
  }

  /** `_sanitize_tool_pairs`: two set-building passes, then a rebuild when ids do not match up. */
  method SanitizeToolPairs(messages: seq<Message>) returns (result: seq<Message>)
    requires !HasNonList(messages)
    ensures result == Sanitized(messages)
  {
    var callIds, resultIds := CollectIds(messages);
    var orphans, lost := resultIds - callIds, callIds - resultIds;
    if orphans == {} && lost == {} {
      return messages;
    }
    result := [];
    var i := 0;
    assert messages[0..] == messages;
    while i < |messages|
      invariant 0 <= i <= |messages|
      invariant result + SanitizeWith(messages[i..], orphans, lost) == SanitizeWith(messages, orphans, lost)
    {
      var m := messages[i];
      assert messages[i..][0] == m && messages[i..][1..] == messages[i + 1..];
      if !Dropped(m, orphans) {
        var stubs := MakeStubs(m, lost);
        Regroup(result, [m] + stubs, SanitizeWith(messages[i + 1..], orphans, lost));
        result := result + ([m] + stubs);
      }
      i := i + 1;
    }
    assert messages[i..] == [];
  }

  method CollectIds(messages: seq<Message>) returns (callIds: set<string>, resultIds: set<string>)
    ensures callIds == CallIds(messages) && resultIds == ResultIds(messages)
  {
    callIds, resultIds := {}, {};
    var i := 0;
    assert messages[..0] == [];
    while i < |messages|
      invariant 0 <= i <= |messages|
      invariant callIds == CallIds(messages[..i]) && resultIds == ResultIds(messages[..i])
    {
      var m := messages[i];
      IdsOfSnoc(messages, i);
      if OpensBatch(m) {
        callIds := callIds + (set c | c in m.calls.calls && CallId(c) != "" :: CallId(c));
      }
      if m.Tool? && m.callId.Some? && m.callId.value != "" {
        resultIds := resultIds + {m.callId.value};
      }
      i := i + 1;
    }
    assert messages[..i] == messages;
  }

  lemma IdsOfSnoc(ms: seq<Message>, i: nat)
    requires i < |ms|
    ensures CallIds(ms[..i + 1]) == CallIds(ms[..i]) + CallIds([ms[i]])
    ensures ResultIds(ms[..i + 1]) == ResultIds(ms[..i]) + ResultIds([ms[i]])
    ensures AllCalls([ms[i]]) == if OpensBatch(ms[i]) then ms[i].calls.calls else []
  {
    assert ms[..i + 1] == ms[..i] + [ms[i]];
    IdsOfConcat(ms[..i], [ms[i]]);
    OneMessage(ms[i]);
  }

  lemma IdsOfConcat(a: seq<Message>, b: seq<Message>)
    ensures CallIds(a + b) == CallIds(a) + CallIds(b)
    ensures ResultIds(a + b) == ResultIds(a) + ResultIds(b)
  {
    CallsOfConcat(a, b);
  }

  lemma StubStep(calls: seq<RawCall>, i: nat, lost: set<string>)
    requires i < |calls|
    ensures StubsFor(calls[i..], lost)
         == (if CallId(calls[i]) in lost then [CompressedStub(calls[i])] else []) + StubsFor(calls[i + 1..], lost)
  {
    assert calls[i..][0] == calls[i] && calls[i..][1..] == calls[i + 1..];
  }

  method MakeStubs(m: Message, lost: set<string>) returns (stubs: seq<Message>)
    ensures stubs == StubsBehind(m, lost)
  {
    stubs := [];
    if !OpensBatch(m) {
      return;
    }
    var calls, i := m.calls.calls, 0;
    assert calls[0..] == calls;
    while i < |calls|
      invariant 0 <= i <= |calls|
      invariant stubs + StubsFor(calls[i..], lost) == StubsFor(calls, lost)
    {
      StubStep(calls, i, lost);
      if CallId(calls[i]) in lost {
        Regroup(stubs, [CompressedStub(calls[i])], StubsFor(calls[i + 1..], lost));
        stubs := stubs + [CompressedStub(calls[i])];
      }
      i := i + 1;
    }
  }

  // ----- where the protected tail starts -----

  function Tokens(ms: seq<Message>, est: Message -> nat): nat {
    if ms == [] then 0 else est(ms[0]) + Tokens(ms[1..], est)
  }

  /** `i` is the last index whose suffix still reaches the budget. */
  predicate BudgetPoint(ms: seq<Message>, budget: int, est: Message -> nat, i: nat) {
    && i < |ms|
    && Tokens(ms[i..], est) >= budget
    && forall j :: i < j < |ms| ==> Tokens(ms[j..], est) < budget
  }

  /** Walk back from a tool result to the message that starts its group. */
  function Aligned(ms: seq<Message>, i: nat): (b: nat)
    requires i < |ms|
    ensures b <= i
    ensures forall j :: b < j <= i ==> ms[j].Tool?
    ensures b > 0 ==> !ms[b].Tool?
  {
    if i > 0 && ms[i].Tool? then Aligned(ms, i - 1) else i
  }

  /** The tail start: the aligned budget point, or 0 when the whole transcript is under budget. */
  ghost predicate IsTailStart(ms: seq<Message>, budget: int, est: Message -> nat, t: nat) {
    || (exists i: nat :: BudgetPoint(ms, budget, est, i) && t == Aligned(ms, i))
    || (t == 0 && forall j :: 0 <= j < |ms| ==> Tokens(ms[j..], est) < budget)
  }

  method FindTailBoundary(messages: seq<Message>, budget: int, est: Message -> nat) returns (t: nat)
    ensures IsTailStart(messages, budget, est, t)
  {
    var tokens := 0;
    var i := |messages|;
    while i > 0
      invariant 0 <= i <= |messages|
      invariant tokens == Tokens(messages[i..], est)
      invariant forall j :: i <= j < |messages| ==> Tokens(messages[j..], est) < budget
    {
      i := i - 1;
      assert messages[i..][0] == messages[i] && messages[i..][1..] == messages[i + 1..];
      tokens := tokens + est(messages[i]);
      if tokens >= budget {
        t := AlignBoundary(messages, i);
        assert BudgetPoint(messages, budget, est, i);
        return;
      }
    }
    t := 0;
  }

  method AlignBoundary(messages: seq<Message>, i: nat) returns (boundary: nat)
    requires i < |messages|
    ensures boundary == Aligned(messages, i)
  {
    boundary := i;
    while boundary > 0 && messages[boundary].Tool?
      invariant boundary <= i
      invariant Aligned(messages, boundary) == Aligned(messages, i)
    {
      boundary := boundary - 1;
    }
  }

  /** The boundary is determined: two tail starts for one transcript and budget agree. */
  lemma TailStartIsUnique(ms: seq<Message>, budget: int, est: Message -> nat, s: nat, t: nat)
    requires IsTailStart(ms, budget, est, s) && IsTailStart(ms, budget, est, t)
    ensures s == t
  {
    if i: nat :| BudgetPoint(ms, budget, est, i) && s == Aligned(ms, i) {
      if j: nat :| BudgetPoint(ms, budget, est, j) && t == Aligned(ms, j) {
        assert i == j;
      }
    }
  }

  function ScanBack(ms: seq<Message>, budget: int, est: Message -> nat, i: nat): nat
    requires i <= |ms|
  {
    if i == 0 then 0
    else if Tokens(ms[i - 1..], est) >= budget then Aligned(ms, i - 1)
    else ScanBack(ms, budget, est, i - 1)
  }

  function TailStart(ms: seq<Message>, budget: int, est: Message -> nat): nat {
    ScanBack(ms, budget, est, |ms|)
  }

  lemma {:induction false} ScanBackFinds(ms: seq<Message>, budget: int, est: Message -> nat, i: nat)
    requires i <= |ms|
    requires forall j :: i <= j < |ms| ==> Tokens(ms[j..], est) < budget
    ensures IsTailStart(ms, budget, est, ScanBack(ms, budget, est, i))
  {
    if i > 0 {
      if Tokens(ms[i - 1..], est) >= budget {
        assert BudgetPoint(ms, budget, est, i - 1);
      } else {
        ScanBackFinds(ms, budget, est, i - 1);
      }
    }
  }

  /** `TailStart` is the one and only tail start. */
  lemma TailStartMeans(ms: seq<Message>, budget: int, est: Message -> nat, t: nat)
    ensures IsTailStart(ms, budget, est, t) <==> t == TailStart(ms, budget, est)
  {
    ScanBackFinds(ms, budget, est, |ms|);
    if IsTailStart(ms, budget, est, t) {
      TailStartIsUnique(ms, budget, est, t, TailStart(ms, budget, est));
    }
  }

  // ----- the pipeline -----

  /** Trigger threshold and tail budget in tokens, and the per-message estimate. */
  datatype Config = Config(threshold: int, tailBudget: int, est: Message -> nat)

  function Max(a: int, b: int): int {
    if a > b then a else b
  }

  function EffectiveTokens(ms: seq<Message>, est: Message -> nat, actual: Option<int>): int {
    Max(Tokens(ms, est), match actual case Some(n) => n case None => 0)
  }

  function SummaryPart(summary: Option<string>): seq<Message> {
    if summary.Some? && summary.value != "" then [User(SUMMARY_HEADER + summary.value)] else []
  }

  /** Is the transcript long and heavy enough, with a middle worth summarising? */
  predicate Cuts(ms: seq<Message>, cfg: Config, actual: Option<int>) {
    && |ms| >= 5
    && EffectiveTokens(ms, cfg.est, actual) >= cfg.threshold
    && TailStart(ms, cfg.tailBudget, cfg.est) > HEAD_COUNT + 2
  }

  lemma TailStartInRange(ms: seq<Message>, budget: int, est: Message -> nat, i: nat)
    requires i <= |ms|
    ensures ScanBack(ms, budget, est, i) <= |ms|
  {
  }

  function Spliced(ms: seq<Message>, t: nat, summary: Option<string>): seq<Message>
    requires HEAD_COUNT <= |ms| && t <= |ms|
  {
    ms[..HEAD_COUNT] + SummaryPart(summary) + ms[t..]
  }

  /** What `compress` returns; None when it raises. */
  function Compressed(raw: seq<Message>, cfg: Config, actual: Option<int>, summary: Option<string>)
    : Option<seq<Message>>
  {
    var ms := Normalized(raw).messages;
    if HasNonList(ms) then None
    else if !Cuts(ms, cfg, actual) then Some(Sanitized(ms))
    else
      TailStartInRange(ms, cfg.tailBudget, cfg.est, |ms|);
      var t := TailStart(ms, cfg.tailBudget, cfg.est);
      Some(Normalized(Sanitized(Spliced(ms, t, summary))).messages)
  }

  method EstimateTokens(messages: seq<Message>, est: Message -> nat) returns (total: nat)
    requires !HasNonList(messages)
    ensures total == Tokens(messages, est)
  {
    total := 0;
    var i := 0;
    assert messages[0..] == messages;
    while i < |messages|
      invariant 0 <= i <= |messages|
      invariant total + Tokens(messages[i..], est) == Tokens(messages, est)
    {
      assert messages[i..][0] == messages[i] && messages[i..][1..] == messages[i + 1..];
      total := total + est(messages[i]);
      i := i + 1;
    }
  }

  /** `compress`, with the summariser's answer given; None when it raises. */
  method Compress(raw: seq<Message>, cfg: Config, actual: Option<int>, summary: Option<string>)
    returns (r: Option<seq<Message>>)
    ensures r == Compressed(raw, cfg, actual, summary)
  {
    var n := NormalizeTranscript(raw);
    var messages := n.messages;
    if HasNonList(messages) {
      return None;
    }
    if |messages| < 5 {
      var same := SanitizeToolPairs(messages);
      return Some(same);
    }
    var estimated := EstimateTokens(messages, cfg.est);
    var effective := Max(estimated, match actual case Some(k) => k case None => 0);
    if effective < cfg.threshold {
      var same := SanitizeToolPairs(messages);
      return Some(same);
    }
    var t := FindTailBoundary(messages, cfg.tailBudget, cfg.est);
    TailStartMeans(messages, cfg.tailBudget, cfg.est, t);
    if t <= HEAD_COUNT + 2 {
      var same := SanitizeToolPairs(messages);
      return Some(same);
    }
    TailStartInRange(messages, cfg.tailBudget, cfg.est, |messages|);
    var spliced := Splice(messages, t, summary);
    r := Some(spliced);
  }

  /** Head, optional summary and tail, sanitised and normalised again. */
  method Splice(messages: seq<Message>, t: nat, summary: Option<string>) returns (r: seq<Message>)
    requires HEAD_COUNT <= |messages| && t <= |messages| && !HasNonList(messages)
    ensures r == Normalized(Sanitized(Spliced(messages, t, summary))).messages
  {
    var head, tail := messages[..HEAD_COUNT], messages[t..];
    var result := head + SummaryPart(summary) + tail;
    forall m | m in result ensures !(m.Assistant? && m.calls.NotAList?) {
      assert m in messages || m.User?;
    }
    result := SanitizeToolPairs(result);
    var again := NormalizeTranscript(result);
    r := again.messages;
  }
}
