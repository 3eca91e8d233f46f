/** Reducing a stored history to the provider transcript contract. */
module Normalization {
  import opened Transcript

  const LOST_RESULT := "[Tool result was lost before it could be persisted]"

  // ----- what the repair of tool pairs computes -----

  /** The calls that survive: well formed, first use of their id, in declared order. */
  function KeepCalls(raw: seq<RawCall>, seen: set<string>): seq<RawCall> {
    if raw == [] then []
    else if WellFormed(raw[0]) && CallId(raw[0]) !in seen then
      [raw[0]] + KeepCalls(raw[1..], seen + {CallId(raw[0])})
    else KeepCalls(raw[1..], seen)
  }

  function DropCalls(raw: seq<RawCall>, seen: set<string>): seq<RawCall> {
    if raw == [] then []
    else if WellFormed(raw[0]) && CallId(raw[0]) !in seen then
      DropCalls(raw[1..], seen + {CallId(raw[0])})
    else [raw[0]] + DropCalls(raw[1..], seen)
  }

  /** Length of the unbroken run of tool messages at the head. */
  function ToolRun(ms: seq<Message>): (n: nat)
    ensures n <= |ms|
  {
    if ms == [] || !ms[0].Tool? then 0 else 1 + ToolRun(ms[1..])
  }

  lemma {:induction false} ToolRunIsMaximal(ms: seq<Message>)
    ensures forall i :: 0 <= i < ToolRun(ms) ==> ms[i].Tool?
    ensures ToolRun(ms) < |ms| ==> !ms[ToolRun(ms)].Tool?
  {
    if ms != [] && ms[0].Tool? {
      ToolRunIsMaximal(ms[1..]);
    }
  }

  /** The first result in the run that names `id`. */
  function FirstResult(run: seq<Message>, id: string): Option<Message> {
    if run == [] then None
    else if run[0].Tool? && run[0].callId == Some(id) then Some(run[0])
    else FirstResult(run[1..], id)
  }

  function LostStub(c: RawCall): Message
  {
    Tool(Some(CallId(c)), CallName(c), LOST_RESULT)
  }

  function ResultFor(c: RawCall, run: seq<Message>): Message
  {
    match FirstResult(run, CallId(c))
    case Some(m) => m
    case None => LostStub(c)
  }

  function Results(calls: seq<RawCall>, run: seq<Message>): (rs: seq<Message>)
    ensures |rs| == |calls|
    ensures forall i :: 0 <= i < |calls| ==> rs[i] == ResultFor(calls[i], run)
  {
    if calls == [] then [] else [ResultFor(calls[0], run)] + Results(calls[1..], run)
  }

  /** The stubs among those results. */
  function StubsOf(calls: seq<RawCall>, run: seq<Message>): seq<Message>
  {
    if calls == [] then []
    else (if FirstResult(run, CallId(calls[0])).None? then [LostStub(calls[0])] else [])
         + StubsOf(calls[1..], run)
  }

  function Ids(calls: seq<RawCall>): set<string> {
    set i | 0 <= i < |calls| :: CallId(calls[i])
  }

  /** Does the result name an id still awaiting one? */
  predicate Awaited(t: Message, open: set<string>) {
    t.Tool? && t.callId.Some? && t.callId.value in open
  }

  /** The results in a run that no open call claims, scanning left to right. */
  function Unclaimed(run: seq<Message>, open: set<string>): seq<Message> {
    if run == [] then []
    else if Awaited(run[0], open) then Unclaimed(run[1..], open - {run[0].callId.value})
    else [run[0]] + Unclaimed(run[1..], open)
  }

  /** How many messages the group at the head of a raw transcript takes. */
  function RawGroup(ms: seq<Message>): (n: nat)
    requires ms != []
    ensures 1 <= n <= |ms|
  {
    if OpensBatch(ms[0]) && KeepCalls(ms[0].calls.calls, {}) != [] then 1 + ToolRun(ms[1..]) else 1
  }

  /** What the repair makes of that one group `m, run`: the messages it emits, ... */
  function GroupMessages(m: Message, run: seq<Message>): seq<Message> {
    if m.Tool? then []
    else if !OpensBatch(m) then [m]
    else
      var kept := KeepCalls(m.calls.calls, {});
      if kept == [] then [Assistant(m.content, Missing)]
      else [Assistant(m.content, CallList(kept))] + Results(kept, run)
  }

  /** ... the tool results it throws out, ... */
  function GroupOrphans(m: Message, run: seq<Message>): seq<Message> {
    if m.Tool? then [m]
    else if !OpensBatch(m) then []
    else Unclaimed(run, Ids(KeepCalls(m.calls.calls, {})))
  }

  /** ... the calls it throws out, ... */
  function GroupInvalid(m: Message): seq<RawCall> {
    if OpensBatch(m) then DropCalls(m.calls.calls, {}) else []
  }

  /** ... and the results it makes up. */
  function GroupStubs(m: Message, run: seq<Message>): seq<Message> {
    if OpensBatch(m) then StubsOf(KeepCalls(m.calls.calls, {}), run) else []
  }

  function Repaired(ms: seq<Message>): seq<Message>
    decreases |ms|
  {
    if ms == [] then []
    else GroupMessages(ms[0], ms[1..RawGroup(ms)]) + Repaired(ms[RawGroup(ms)..])
  }

  function Orphans(ms: seq<Message>): seq<Message>
    decreases |ms|
  {
    if ms == [] then []
    else GroupOrphans(ms[0], ms[1..RawGroup(ms)]) + Orphans(ms[RawGroup(ms)..])
  }

  function InvalidCalls(ms: seq<Message>): seq<RawCall>
    decreases |ms|
  {
    if ms == [] then []
    else GroupInvalid(ms[0]) + InvalidCalls(ms[RawGroup(ms)..])
  }

  function Stubs(ms: seq<Message>): seq<Message>
    decreases |ms|
  {
    if ms == [] then []
    else GroupStubs(ms[0], ms[1..RawGroup(ms)]) + Stubs(ms[RawGroup(ms)..])
  }

  lemma {:induction false} KeepCallsGood(raw: seq<RawCall>, seen: set<string>)
    ensures GoodCalls(KeepCalls(raw, seen))
    ensures Ids(KeepCalls(raw, seen)) !! seen
  {
    if raw != [] {
      if WellFormed(raw[0]) && CallId(raw[0]) !in seen {
        var rest := KeepCalls(raw[1..], seen + {CallId(raw[0])});
        KeepCallsGood(raw[1..], seen + {CallId(raw[0])});
        forall j | 0 <= j < |rest| ensures IdOf(rest[j]) != IdOf(raw[0]) {
          assert CallId(rest[j]) in Ids(rest);
        }
      } else {
        KeepCallsGood(raw[1..], seen);
      }
    }
  }

  // ----- the loops of the repair -----

  /** The name dictionary of the calls kept so far. */
  predicate Named(valid: seq<RawCall>, names: map<string, string>) {
    && names.Keys == Ids(valid)
    && forall i :: 0 <= i < |valid| ==> names[CallId(valid[i])] == CallName(valid[i])
  }

  lemma NamedMore(valid: seq<RawCall>, names: map<string, string>, call: RawCall)
    requires Named(valid, names) && CallId(call) !in names
    ensures Named(valid + [call], names[CallId(call) := CallName(call)])
  {
    var all := valid + [call];
    assert all[|valid|] == call;
    forall j | 0 <= j < |valid| ensures all[j] == valid[j] && CallId(valid[j]) in names {
    }
  }

  lemma FilterStep(raw: seq<RawCall>, i: nat, seen: set<string>)
    requires i < |raw|
    ensures KeepCalls(raw[i..], seen)
         == if !WellFormed(raw[i]) || CallId(raw[i]) in seen then KeepCalls(raw[i + 1..], seen)
            else [raw[i]] + KeepCalls(raw[i + 1..], seen + {CallId(raw[i])})
    ensures DropCalls(raw[i..], seen)
         == if !WellFormed(raw[i]) || CallId(raw[i]) in seen then [raw[i]] + DropCalls(raw[i + 1..], seen)
            else DropCalls(raw[i + 1..], seen + {CallId(raw[i])})
  {
    assert raw[i..][0] == raw[i] && raw[i..][1..] == raw[i + 1..];
  }

  /** One batch's call list: keep, or count as invalid. */
  method FilterCalls(raw: seq<RawCall>)
    returns (valid: seq<RawCall>, names: map<string, string>, dropped: nat)
    ensures valid == KeepCalls(raw, {})
    ensures Named(valid, names)
    ensures dropped == |DropCalls(raw, {})|
  {
    valid, names, dropped := [], map[], 0;
    var i := 0;
    assert raw[0..] == raw && names.Keys == {};
    while i < |raw|
      invariant 0 <= i <= |raw|
      invariant Named(valid, names)
      invariant valid + KeepCalls(raw[i..], names.Keys) == KeepCalls(raw, {})
      invariant dropped + |DropCalls(raw[i..], names.Keys)| == |DropCalls(raw, {})|
    {
      var call := raw[i];
      FilterStep(raw, i, names.Keys);
      if !WellFormed(call) || CallId(call) in names {
        dropped := dropped + 1;
      } else {
        ghost var open := names.Keys + {CallId(call)};
        NamedMore(valid, names, call);
        Regroup(valid, [call], KeepCalls(raw[i + 1..], open));
        valid := valid + [call];
        names := names[CallId(call) := CallName(call)];
        assert names.Keys == open;
      }
      i := i + 1;
    }
    assert raw[i..] == [];
  }

  /** Consume the run of results behind a batch: first result per declared id wins. */
  method CollectResults(messages: seq<Message>, start: nat, names: map<string, string>)
    returns (actual: map<string, Message>, index: nat, dropped: nat)
    requires start <= |messages|
    ensures index == start + ToolRun(messages[start..])
    ensures actual.Keys <= names.Keys
    ensures ActualOf(messages[start..index], names.Keys, actual)
    ensures dropped == |Unclaimed(messages[start..index], names.Keys)|
  {
    actual, index, dropped := map[], start, 0;
    ghost var run := messages[start..start + ToolRun(messages[start..])];
    ghost var open := names.Keys;
    assert run[0..] == run;
    while index < |messages| && messages[index].Tool?
      invariant start <= index <= start + |run|
      invariant actual.Keys <= names.Keys && open == names.Keys - actual.Keys
      invariant forall id :: id in actual ==> FirstResult(run, id) == Some(actual[id])
      invariant forall id :: id in open ==> FirstResult(run, id) == FirstResult(run[index - start..], id)
      invariant dropped + |Unclaimed(run[index - start..], open)| == |Unclaimed(run, names.Keys)|
      decreases |messages| - index
    {
      RunReaches(messages, start, index);
      var t := messages[index];
      assert run[index - start..][1..] == run[index + 1 - start..];
      assert run[index - start..][0] == t;
      if t.callId.Some? && t.callId.value in names && t.callId.value !in actual {
        actual := actual[t.callId.value := t];
        open := open - {t.callId.value};
      } else {
        dropped := dropped + 1;
      }
      index := index + 1;
    }
    RunEnds(messages, start, index);
    assert run[index - start..] == [];
  }

  ghost predicate ActualOf(run: seq<Message>, ids: set<string>, actual: map<string, Message>) {
    forall id :: id in ids ==> FirstResult(run, id) == (if id in actual then Some(actual[id]) else None)
  }

  lemma RunReaches(messages: seq<Message>, start: nat, index: nat)
    requires start <= index < |messages| && messages[index].Tool?
    requires index <= start + ToolRun(messages[start..])
    ensures index < start + ToolRun(messages[start..])
  {
    ToolRunIsMaximal(messages[start..]);
    assert messages[start..][index - start] == messages[index];
  }

  lemma RunEnds(messages: seq<Message>, start: nat, index: nat)
    requires start <= |messages| && start <= index <= start + ToolRun(messages[start..])
    requires index < |messages| ==> !messages[index].Tool?
    ensures index == start + ToolRun(messages[start..])
  {
    ToolRunIsMaximal(messages[start..]);
    assert index < |messages| ==> messages[start..][index - start] == messages[index];
  }

  method EmitOne(id: string, names: map<string, string>, actual: map<string, Message>)
    returns (result: Message, added: nat)
    requires id in names
    ensures result == if id in actual then actual[id] else Tool(Some(id), names[id], LOST_RESULT)
    ensures added == if id in actual then 0 else 1
  {
    if id in actual {
      return actual[id], 0;
    }
    return Tool(Some(id), names[id], LOST_RESULT), 1;
  }

  /** The first `i` calls have been answered, `added` of them by stubs. */
  predicate Emitted(results: seq<Message>, added: nat, calls: seq<RawCall>, run: seq<Message>, i: nat) {
    && i <= |calls|
    && results == Results(calls, run)[..i]
    && added + |StubsOf(calls[i..], run)| == |StubsOf(calls, run)|
  }

  lemma EmittedMore(results: seq<Message>, added: nat, calls: seq<RawCall>, run: seq<Message>, i: nat,
                    result: Message, more: nat)
    requires Emitted(results, added, calls, run, i) && i < |calls| && result == ResultFor(calls[i], run)
    requires |StubsOf(calls[i..], run)| == more + |StubsOf(calls[i + 1..], run)|
    ensures Emitted(results + [result], added + more, calls, run, i + 1)
  {
    assert Results(calls, run)[..i + 1] == Results(calls, run)[..i] + [Results(calls, run)[i]];
  }

  /** Every declared call gets its result or a stub, in call order. */
  method EmitResults(calls: seq<RawCall>, names: map<string, string>,
                     actual: map<string, Message>, ghost run: seq<Message>)
    returns (results: seq<Message>, added: nat)
    requires Named(calls, names)
    requires ActualOf(run, names.Keys, actual)
    ensures results == Results(calls, run)
    ensures added == |StubsOf(calls, run)|
  {
    results, added := [], 0;
    var i := 0;
    assert calls[0..] == calls;
    while i < |calls|
      invariant Emitted(results, added, calls, run, i)
    {
      EmitStep(calls, i, names, actual, run);
      var result, more := EmitOne(CallId(calls[i]), names, actual);
      EmittedMore(results, added, calls, run, i, result, more);
      results, added := results + [result], added + more;
      i := i + 1;
    }
    assert Results(calls, run)[..i] == Results(calls, run);
    assert calls[i..] == [];
  }

  lemma EmitStep(calls: seq<RawCall>, i: nat, names: map<string, string>,
                 actual: map<string, Message>, run: seq<Message>)
    requires names.Keys == Ids(calls) && i < |calls|
    requires names[CallId(calls[i])] == CallName(calls[i])
    requires ActualOf(run, names.Keys, actual)
    ensures var id := CallId(calls[i]);
      && ResultFor(calls[i], run)
           == (if id in actual then actual[id] else Tool(Some(id), names[id], LOST_RESULT))
      && |StubsOf(calls[i..], run)| == (if id in actual then 0 else 1) + |StubsOf(calls[i + 1..], run)|
  {
    assert CallId(calls[i]) in names.Keys;
    assert calls[i..][0] == calls[i] && calls[i..][1..] == calls[i + 1..];
  }

  /** One turn of the loop body: a stray result, a plain message, or a batch with its results. */
  method RepairGroup(messages: seq<Message>, start: nat)
    returns (emitted: seq<Message>, index: nat, orphans: nat, invalid: nat, stubs: nat)
    requires start < |messages|
    ensures index == start + RawGroup(messages[start..])
    ensures emitted == GroupMessages(messages[start], messages[start + 1..index])
    ensures orphans == |GroupOrphans(messages[start], messages[start + 1..index])|
    ensures invalid == |GroupInvalid(messages[start])|
    ensures stubs == |GroupStubs(messages[start], messages[start + 1..index])|
  {
    var message := messages[start];
    index := start + 1;
    if message.Tool? {
      return [], index, 1, 0, 0;
    }
    if !OpensBatch(message) {
      return [message], index, 0, 0, 0;
    }
    var validCalls, names, dropped := FilterCalls(message.calls.calls);
    invalid := dropped;
    assert messages[start..][1..] == messages[index..];
    if validCalls == [] {
      return [Assistant(message.content, Missing)], index, 0, invalid, 0;
    }
    var actual, next, unclaimed := CollectResults(messages, index, names);
    var results, added := EmitResults(validCalls, names, actual, messages[index..next]);
    emitted := [Assistant(message.content, CallList(validCalls))] + results;
    index, orphans, stubs := next, unclaimed, added;
  }

  /** One turn of the repair loop, on the specification's side. */
  lemma LoopStep(messages: seq<Message>, index: nat, next: nat)
    requires index < |messages| && next == index + RawGroup(messages[index..])
    ensures next <= |messages|
    ensures Repaired(messages[index..])
         == GroupMessages(messages[index], messages[index + 1..next]) + Repaired(messages[next..])
  {
    var ms := messages[index..];
    assert ms[1..RawGroup(ms)] == messages[index + 1..next] && ms[RawGroup(ms)..] == messages[next..];
  }

  lemma LoopStepOrphans(messages: seq<Message>, index: nat, next: nat)
    requires index < |messages| && next == index + RawGroup(messages[index..])
    ensures |Orphans(messages[index..])|
         == |GroupOrphans(messages[index], messages[index + 1..next])| + |Orphans(messages[next..])|
  {
    var ms := messages[index..];
    assert ms[1..RawGroup(ms)] == messages[index + 1..next] && ms[RawGroup(ms)..] == messages[next..];
  }

  lemma LoopStepInvalid(messages: seq<Message>, index: nat, next: nat)
    requires index < |messages| && next == index + RawGroup(messages[index..])
    ensures |InvalidCalls(messages[index..])|
         == |GroupInvalid(messages[index])| + |InvalidCalls(messages[next..])|
  {
    var ms := messages[index..];
    assert ms[RawGroup(ms)..] == messages[next..];
  }

  lemma LoopStepStubs(messages: seq<Message>, index: nat, next: nat)
    requires index < |messages| && next == index + RawGroup(messages[index..])
    ensures |Stubs(messages[index..])|
         == |GroupStubs(messages[index], messages[index + 1..next])| + |Stubs(messages[next..])|
  {
    var ms := messages[index..];
    assert ms[1..RawGroup(ms)] == messages[index + 1..next] && ms[RawGroup(ms)..] == messages[next..];
  }

  lemma Regroup<T>(a: seq<T>, b: seq<T>, c: seq<T>)
    ensures (a + b) + c == a + (b + c)
  {
  }

  /** The index-driven repair loop, against its specification. */
  method NormalizeToolPairs(messages: seq<Message>)
    returns (result: seq<Message>, orphans: nat, invalid: nat, stubs: nat)
    ensures result == Repaired(messages)
    ensures orphans == |Orphans(messages)|
    ensures invalid == |InvalidCalls(messages)|
    ensures stubs == |Stubs(messages)|
  {
    result, orphans, invalid, stubs := [], 0, 0, 0;
    var index := 0;
    assert messages[0..] == messages;
    while index < |messages|
      invariant 0 <= index <= |messages|
      invariant result + Repaired(messages[index..]) == Repaired(messages)
      invariant orphans + |Orphans(messages[index..])| == |Orphans(messages)|
      invariant invalid + |InvalidCalls(messages[index..])| == |InvalidCalls(messages)|
      invariant stubs + |Stubs(messages[index..])| == |Stubs(messages)|
    {
      var emitted, next, unclaimed, dropped, added := RepairGroup(messages, index);
      LoopStep(messages, index, next);
      LoopStepOrphans(messages, index, next);
      LoopStepInvalid(messages, index, next);
      LoopStepStubs(messages, index, next);
      Regroup(result, emitted, Repaired(messages[next..]));
      result, index := result + emitted, next;
      orphans, invalid, stubs := orphans + unclaimed, invalid + dropped, stubs + added;
    }
    assert messages[index..] == [];
  }

  // ----- the whole normalisation -----

  datatype Counters = Counters(
    system: nat, leading: nat, unknown: nat, orphanTools: nat, invalidCalls: nat, stubResults: nat)

  datatype TranscriptNormalization = TranscriptNormalization(messages: seq<Message>, counters: Counters) {
    predicate Changed() {
      || counters.system > 0 || counters.leading > 0 || counters.unknown > 0
      || counters.orphanTools > 0 || counters.invalidCalls > 0 || counters.stubResults > 0
    }
  }

  function CountSystem(ms: seq<Message>): nat {
    if ms == [] then 0 else (if ms[0].System? then 1 else 0) + CountSystem(ms[1..])
  }

  function CountUnknown(ms: seq<Message>): nat {
    if ms == [] then 0 else (if ms[0].Unknown? then 1 else 0) + CountUnknown(ms[1..])
  }

  /** User, assistant and tool messages only. */
  function ChatRoles(ms: seq<Message>): (r: seq<Message>)
    ensures forall m :: m in r ==> !m.System? && !m.Unknown?
  {
    if ms == [] then []
    else if ms[0].System? || ms[0].Unknown? then ChatRoles(ms[1..])
    else [ms[0]] + ChatRoles(ms[1..])
  }

  /** Length of the assistant/tool fragment in front of the first user message. */
  function LeadingFragment(ms: seq<Message>): (n: nat)
    ensures n <= |ms|
    ensures n < |ms| ==> !ms[n].Assistant? && !ms[n].Tool?
  {
    if ms != [] && (ms[0].Assistant? || ms[0].Tool?) then 1 + LeadingFragment(ms[1..]) else 0
  }

  /** What the pair repair sees: roles filtered, leading fragment gone. */
  function Canonical(ms: seq<Message>): (r: seq<Message>)
    ensures forall m :: m in r ==> !m.System? && !m.Unknown?
    ensures r != [] ==> r[0].User?
  {
    var chat := ChatRoles(ms);
    chat[LeadingFragment(chat)..]
  }

  function Normalized(ms: seq<Message>): TranscriptNormalization {
    var canonical := Canonical(ms);
    TranscriptNormalization(Repaired(canonical), Counters(
      CountSystem(ms), LeadingFragment(ChatRoles(ms)), CountUnknown(ms),
      |Orphans(canonical)|, |InvalidCalls(canonical)|, |Stubs(canonical)|))
  }

  /** First loop: drop stored system text and unknown roles. */
  method FilterRoles(messages: seq<Message>)
    returns (canonical: seq<Message>, system: nat, unknown: nat)
    ensures canonical == ChatRoles(messages)
    ensures system == CountSystem(messages) && unknown == CountUnknown(messages)
  {
    canonical, system, unknown := [], 0, 0;
    var i := 0;
    assert messages[0..] == messages;
    while i < |messages|
      invariant 0 <= i <= |messages|
      invariant canonical + ChatRoles(messages[i..]) == ChatRoles(messages)
      invariant system + CountSystem(messages[i..]) == CountSystem(messages)
      invariant unknown + CountUnknown(messages[i..]) == CountUnknown(messages)
    {
      ghost var rest := messages[i + 1..];
      assert messages[i..][0] == messages[i] && messages[i..][1..] == rest;
      if messages[i].System? {
        system := system + 1;
      } else if messages[i].Unknown? {
        unknown := unknown + 1;
      } else {
        assert canonical + ([messages[i]] + ChatRoles(rest)) == canonical + [messages[i]] + ChatRoles(rest);
        canonical := canonical + [messages[i]];
      }
      i := i + 1;
    }
    assert messages[i..] == [];
  }

  /** `normalize_transcript`, loop for loop. */
  method NormalizeTranscript(messages: seq<Message>) returns (n: TranscriptNormalization)
    ensures n == Normalized(messages)
  {
    var canonical, system, unknown := FilterRoles(messages);
    var leading: nat := 0;
    ghost var chat := canonical;
    while canonical != [] && (canonical[0].Assistant? || canonical[0].Tool?)
      invariant leading <= |chat| && canonical == chat[leading..]
      invariant leading + LeadingFragment(canonical) == LeadingFragment(chat)
      decreases |canonical|
    {
      canonical := canonical[1..];
      leading := leading + 1;
    }
    var result, orphans, invalid, stubs := NormalizeToolPairs(canonical);
    n := TranscriptNormalization(result,
      Counters(system, leading, unknown, orphans, invalid, stubs));
  }
}
