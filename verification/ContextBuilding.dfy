/** The in-memory context of one run: appends, restore from history, and the cheap prune pass. */
module ContextBuilding {
  import opened Transcript
  import opened Normalization
  import opened NormalizationTheorems
  import opened Compression

  const PLACEHOLDER := "[Old tool output cleared to save context space]"

  /** A parsed tool call, as a provider returns it. */
  datatype ToolCall = ToolCall(id: string, name: string, arguments: string)

  function AsStored(tc: ToolCall): RawCall {
    CallDict(Some(tc.id), Some(FunctionField(Some(tc.name), tc.arguments)))
  }

  function AllStored(tcs: seq<ToolCall>): (cs: seq<RawCall>)
    ensures |cs| == |tcs|
    ensures forall i :: 0 <= i < |tcs| ==> cs[i] == AsStored(tcs[i])
  {
    seq(|tcs|, i requires 0 <= i < |tcs| => AsStored(tcs[i]))
  }

  // ----- restoring a stored history -----

  function Arguments(c: RawCall): string {
    if c.CallDict? && c.fn.Some? then c.fn.value.arguments else "{}"
  }

  /** A stored call dict turned back into a parsed call. `args` decodes the stored arguments and encodes them
      again; None where what they decode to is no object, which raises ("" stands for it here). */
  function Parsed(c: RawCall, args: string -> Option<string>): ToolCall {
    var arguments := args(Arguments(c));
    ToolCall(CallId(c), CallName(c), if arguments.Some? then arguments.value else "")
  }

  predicate CallsDecode(cs: seq<RawCall>, args: string -> Option<string>) {
    forall j :: 0 <= j < |cs| ==> args(Arguments(cs[j])).Some?
  }

  /** Can this message be put back: is `tool_calls` no other truthy value than a list, and do the arguments
      of every call decode to an object? */
  predicate Restorable(m: Message, args: string -> Option<string>) {
    m.Assistant? ==> !m.calls.NotAList? && (m.calls.CallList? ==> CallsDecode(m.calls.calls, args))
  }

  predicate AllRestorable(ms: seq<Message>, args: string -> Option<string>) {
    forall i :: 0 <= i < |ms| ==> Restorable(ms[i], args)
  }

  function AllParsed(cs: seq<RawCall>, args: string -> Option<string>): (tcs: seq<ToolCall>)
    ensures |tcs| == |cs|
    ensures forall i :: 0 <= i < |cs| ==> tcs[i] == Parsed(cs[i], args)
  {
    seq(|cs|, i requires 0 <= i < |cs| => Parsed(cs[i], args))
  }

  function Rebuilt(m: Message, args: string -> Option<string>): Message {
    match m
    case Assistant(content, calls) =>
      if OpensBatch(m) then Assistant(content, CallList(AllStored(AllParsed(calls.calls, args))))
      else Assistant(content, Missing)
    case Tool(id, name, content) => Tool(Some(if id.Some? then id.value else ""), name, content)
    case _ => m
  }

  function RebuiltAll(ms: seq<Message>, args: string -> Option<string>): (r: seq<Message>)
    ensures |r| == |ms| && forall i :: 0 <= i < |ms| ==> r[i] == Rebuilt(ms[i], args)
  {
    seq(|ms|, i requires 0 <= i < |ms| => Rebuilt(ms[i], args))
  }

  class ContextBuilder {
    var systemPrompt: string
    var messages: seq<Message>

    constructor (prompt: string)
      ensures systemPrompt == prompt && messages == []
    {
      systemPrompt, messages := prompt, [];
    }

    method AddUserMessage(content: string)
      modifies this`messages
      ensures messages == old(messages) + [User(content)]
    {
      messages := messages + [User(content)];
    }

    method AddAssistantMessage(content: string)
      modifies this`messages
      ensures messages == old(messages) + [Assistant(content, Missing)]
    {
      messages := messages + [Assistant(content, Missing)];
    }

    method AddToolCalls(calls: seq<ToolCall>, content: string)
      modifies this`messages
      ensures messages == old(messages) + [Assistant(content, CallList(AllStored(calls)))]
    {
      messages := messages + [Assistant(content, CallList(AllStored(calls)))];
    }

    method AddToolResult(id: string, name: string, result: string)
      modifies this`messages
      ensures messages == old(messages) + [Tool(Some(id), name, result)]
    {
      messages := messages + [Tool(Some(id), name, result)];
    }

    /** Clear old, long tool results in place; the last `protectTail` ones are left alone. */
    method PruneOldToolResults(protectTail: nat, minLength: nat) returns (pruned: nat)
      modifies this`messages
      ensures messages == Pruned(old(messages), protectTail, minLength)
      ensures pruned == |PrunedSet(old(messages), protectTail, minLength)|
    {
      ghost var before := messages;
      pruned := 0;
      if |messages| <= protectTail + 2 {
        assert PrunedSet(before, protectTail, minLength) == {};
        return;
      }
      var indices := ToolIndices(messages);
      if |indices| <= protectTail {
        FewToolsKept(before, indices, protectTail, minLength);
        return;
      }
      messages, pruned := ClearOld(messages, indices, protectTail, minLength);
    }

    /** Append the few-shot turns. */
    method AddFewShots(fewShots: seq<Message>)
      requires forall m :: m in fewShots ==> m.User? || (m.Assistant? && m.calls == Missing)
      modifies this`messages
      ensures messages == old(messages) + fewShots
    {
      var i := 0;
      while i < |fewShots|
        invariant 0 <= i <= |fewShots|
        invariant messages == old(messages) + fewShots[..i]
      {
        var shot := fewShots[i];
        assert shot in fewShots && fewShots[..i + 1] == fewShots[..i] + [shot];
        if shot.User? { AddUserMessage(shot.content); } else { AddAssistantMessage(shot.content); }
        i := i + 1;
      }
      assert fewShots[..i] == fewShots;
    }

    /** `_tool_calls_from_dicts`; None where building a call raises. */
    static method ParseCalls(cs: seq<RawCall>, args: string -> Option<string>) returns (r: Option<seq<ToolCall>>)
      ensures r.Some? <==> CallsDecode(cs, args)
      ensures r.Some? ==> r.value == AllParsed(cs, args)
    {
      var out: seq<ToolCall> := [];
      for j := 0 to |cs|
        invariant CallsDecode(cs[..j], args) && out == AllParsed(cs, args)[..j]
      {
        var arguments := args(Arguments(cs[j]));
        if arguments.None? {
          return None;
        }
        out := out + [ToolCall(CallId(cs[j]), CallName(cs[j]), arguments.value)];
        assert cs[..j + 1] == cs[..j] + [cs[j]];
      }
      assert cs[..|cs|] == cs && AllParsed(cs, args)[..|cs|] == AllParsed(cs, args);
      r := Some(out);
    }

    /** Append one normalised history item, in the builder's own encoding; `ok` is false where it raises. */
    method Replay(item: Message, args: string -> Option<string>) returns (ok: bool)
      requires !item.System? && !item.Unknown?
      modifies this`messages
      ensures ok <==> Restorable(item, args)
      ensures ok ==> messages == old(messages) + [Rebuilt(item, args)]
    {
      ok := true;
      match item {
        case Assistant(content, calls) =>
          if calls.NotAList? {
            return false;
          }
          if calls.CallList? && calls.calls != [] {
            var parsed := ParseCalls(calls.calls, args);
            if parsed.None? {
              return false;
            }
            AddToolCalls(parsed.value, content);
          } else {
            AddAssistantMessage(content);
          }
        case Tool(id, name, content) =>
          AddToolResult(if id.Some? then id.value else "", name, content);
        case User(content) => AddUserMessage(content);
        case _ => assert false;
      }
    }

    method ReplayAll(items: seq<Message>, args: string -> Option<string>) returns (ok: bool)
      requires forall m :: m in items ==> !m.System? && !m.Unknown?
      modifies this`messages
      ensures ok <==> AllRestorable(items, args)
      ensures ok ==> messages == old(messages) + RebuiltAll(items, args)
    {
      ghost var rebuilt := RebuiltAll(items, args);
      var i := 0;
      while i < |items|
        invariant 0 <= i <= |items|
        invariant forall k :: 0 <= k < i ==> Restorable(items[k], args)
        invariant messages == old(messages) + rebuilt[..i]
      {
        assert rebuilt[..i + 1] == rebuilt[..i] + [Rebuilt(items[i], args)];
        ok := Replay(items[i], args);
        if !ok {
          return;
        }
        i := i + 1;
      }
      assert rebuilt[..i] == rebuilt;
      ok := true;
    }

    /** `build_from_full_history`: few-shots, the normalised history rebuilt, the current message; None
        where putting some message back raises. */
    static method BuildFromFullHistory(prompt: string, message: string, history: seq<Message>,
                                       fewShots: seq<Message>, args: string -> Option<string>)
      returns (r: Option<ContextBuilder>)
      requires forall m :: m in fewShots ==> m.User? || (m.Assistant? && m.calls == Missing)
      ensures r.Some? <==> AllRestorable(Normalized(history).messages, args)
      ensures r.Some? ==> fresh(r.value) && r.value.systemPrompt == prompt
      ensures r.Some? ==>
        r.value.messages == fewShots + RebuiltAll(Normalized(history).messages, args) + [User(message)]
    {
      var n := NormalizeTranscript(history);
      var items := n.messages;
      assert forall m :: m in items ==> !m.System? && !m.Unknown? by {
        NormalizedIsValid(history);
        ClosedRoles(items);
      }
      var builder := new ContextBuilder(prompt);
      builder.AddFewShots(fewShots);
      assert builder.messages == fewShots;
      var ok := builder.ReplayAll(items, args);
      if !ok {
        return None;
      }
      builder.AddUserMessage(message);
      r := Some(builder);
    }
  }

  // ----- the prune pass -----

  /** How many tool messages stand at or behind `i`. */
  function ToolsFrom(ms: seq<Message>, i: nat): nat
    requires i <= |ms|
    decreases |ms| - i
  {
    if i == |ms| then 0 else (if ms[i].Tool? then 1 else 0) + ToolsFrom(ms, i + 1)
  }

  function Cleared(m: Message): Message {
    if m.Tool? then Tool(m.callId, m.name, PLACEHOLDER) else m
  }

  /** An old long result: at least `protectTail` results follow it. */
  predicate Prunes(ms: seq<Message>, protectTail: nat, minLength: nat, i: nat)
    requires i < |ms|
  {
    && |ms| > protectTail + 2
    && ms[i].Tool? && ToolsFrom(ms, i + 1) >= protectTail && |ms[i].content| > minLength
  }

  function PrunedSet(ms: seq<Message>, protectTail: nat, minLength: nat): set<nat> {
    set i: nat | 0 <= i < |ms| && Prunes(ms, protectTail, minLength, i)
  }

  function Pruned(ms: seq<Message>, protectTail: nat, minLength: nat): (r: seq<Message>)
    ensures |r| == |ms|
    ensures forall i :: 0 <= i < |ms| ==>
      r[i] == if Prunes(ms, protectTail, minLength, i) then Cleared(ms[i]) else ms[i]
  {
    seq(|ms|, i requires 0 <= i < |ms| =>
      if Prunes(ms, protectTail, minLength, i) then Cleared(ms[i]) else ms[i])
  }

  ghost function PrunedBefore(ms: seq<Message>, protectTail: nat, minLength: nat, indices: seq<nat>, j: nat): set<nat>
    requires j <= |indices| && IsToolIndex(ms, indices)
  {
    set idx | idx in indices[..j] && Prunes(ms, protectTail, minLength, idx)
  }

  /** The clearing loop over the tool positions, skipping the protected ones. */
  method ClearOld(ms: seq<Message>, indices: seq<nat>, protectTail: nat, minLength: nat)
    returns (messages: seq<Message>, pruned: nat)
    requires IsToolIndex(ms, indices) && |ms| > protectTail + 2 && protectTail <= |indices|
    ensures messages == Pruned(ms, protectTail, minLength)
    ensures pruned == |PrunedSet(ms, protectTail, minLength)|
  {
    var late := indices[|indices| - protectTail..];
    var protected := set idx | idx in late;
    messages, pruned := ms, 0;
    var j := 0;
    assert PrunedBefore(ms, protectTail, minLength, indices, 0) == {};
    while j < |indices|
      invariant 0 <= j <= |indices|
      invariant messages == ClearedAt(ms, PrunedBefore(ms, protectTail, minLength, indices, j))
      invariant pruned == |PrunedBefore(ms, protectTail, minLength, indices, j)|
    {
      var idx := indices[j];
      ClearStep(ms, protectTail, minLength, indices, late, j);
      ghost var next := PrunedBefore(ms, protectTail, minLength, indices, j + 1);
      if idx !in protected && |messages[idx].content| > minLength {
        messages := messages[idx := Cleared(ms[idx])];
        pruned := pruned + 1;
      }
      assert messages == ClearedAt(ms, next) && pruned == |next|;
      j := j + 1;
    }
    AllPruned(ms, protectTail, minLength, indices);
  }

  /** All positions of tool messages, in increasing order; the k-th from the end has k behind it. */
  ghost predicate IsToolIndex(ms: seq<Message>, indices: seq<nat>) {
    && (forall j :: 0 <= j < |indices| ==>
          indices[j] < |ms| && ms[indices[j]].Tool? && ToolsFrom(ms, indices[j] + 1) == |indices| - 1 - j)
    && (forall j, k :: 0 <= j < k < |indices| ==> indices[j] < indices[k])
    && (forall i: nat :: i < |ms| && ms[i].Tool? ==> i in indices)
  }

  method ToolIndices(ms: seq<Message>) returns (indices: seq<nat>)
    ensures IsToolIndex(ms, indices)
  {
    indices := [];
    var i := 0;
    while i < |ms|
      invariant 0 <= i <= |ms|
      invariant forall j :: 0 <= j < |indices| ==>
        indices[j] < i && ms[indices[j]].Tool?
        && ToolsFrom(ms, indices[j] + 1) == |indices| - 1 - j + ToolsFrom(ms, i)
      invariant forall j, k :: 0 <= j < k < |indices| ==> indices[j] < indices[k]
      invariant forall k: nat :: k < i && ms[k].Tool? ==> k in indices
    {
      ghost var before := indices;
      if ms[i].Tool? {
        indices := indices + [i];
        assert indices[|before|] == i;
      }
      assert forall k :: k in before ==> k in indices;
      i := i + 1;
    }
  }

  /** `ms` with the results at the given positions cleared. */
  function ClearedAt(ms: seq<Message>, done: set<nat>): (r: seq<Message>)
    ensures |r| == |ms|
    ensures forall i: nat :: i < |ms| ==> r[i] == if i in done then Cleared(ms[i]) else ms[i]
  {
    seq(|ms|, i requires 0 <= i < |ms| => if i in done then Cleared(ms[i]) else ms[i])
  }

  /** Being among the protected indices is having fewer than `protectTail` results behind. */
  lemma ProtectedIsLate(ms: seq<Message>, indices: seq<nat>, cut: nat, j: nat)
    requires IsToolIndex(ms, indices) && cut <= |indices| && j < |indices|
    ensures indices[j] in indices[cut..] <==> ToolsFrom(ms, indices[j] + 1) < |indices| - cut
  {
    assert j >= cut ==> indices[cut..][j - cut] == indices[j];
    if indices[j] in indices[cut..] {
      var k :| 0 <= k < |indices| - cut && indices[cut..][k] == indices[j];
      assert indices[cut + k] == indices[j];
    }
  }

  lemma PruneStep(ms: seq<Message>, protectTail: nat, minLength: nat, indices: seq<nat>, j: nat)
    requires IsToolIndex(ms, indices) && |ms| > protectTail + 2 && protectTail <= |indices| && j < |indices|
    ensures var idx := indices[j]; var done := PrunedBefore(ms, protectTail, minLength, indices, j);
      && idx !in done
      && Prunes(ms, protectTail, minLength, idx)
         == (idx !in indices[|indices| - protectTail..] && |ms[idx].content| > minLength)
      && PrunedBefore(ms, protectTail, minLength, indices, j + 1)
           == done + (if Prunes(ms, protectTail, minLength, idx) then {idx} else {})
  {
    ProtectedIsLate(ms, indices, |indices| - protectTail, j);
    assert indices[..j + 1] == indices[..j] + [indices[j]];
    forall k | 0 <= k < j ensures indices[..j][k] != indices[j] {
    }
  }

  lemma ClearStep(ms: seq<Message>, protectTail: nat, minLength: nat, indices: seq<nat>, late: seq<nat>, j: nat)
    requires IsToolIndex(ms, indices) && |ms| > protectTail + 2 && protectTail <= |indices| && j < |indices|
    requires late == indices[|indices| - protectTail..]
    ensures var idx := indices[j];
      var done := PrunedBefore(ms, protectTail, minLength, indices, j);
      var next := PrunedBefore(ms, protectTail, minLength, indices, j + 1);
      && ClearedAt(ms, done)[idx] == ms[idx]
      && (if idx !in late && |ms[idx].content| > minLength
          then ClearedAt(ms, done)[idx := Cleared(ms[idx])] == ClearedAt(ms, next) && |next| == |done| + 1
          else next == done)
  {
    PruneStep(ms, protectTail, minLength, indices, j);
  }

  lemma AllPruned(ms: seq<Message>, protectTail: nat, minLength: nat, indices: seq<nat>)
    requires IsToolIndex(ms, indices)
    ensures var done := PrunedBefore(ms, protectTail, minLength, indices, |indices|);
      && done == PrunedSet(ms, protectTail, minLength)
      && ClearedAt(ms, done) == Pruned(ms, protectTail, minLength)
  {
    assert indices[..|indices|] == indices;
  }

  lemma FewToolsKept(ms: seq<Message>, indices: seq<nat>, protectTail: nat, minLength: nat)
    requires IsToolIndex(ms, indices) && |indices| <= protectTail
    ensures PrunedSet(ms, protectTail, minLength) == {} && Pruned(ms, protectTail, minLength) == ms
  {
    forall i: nat | i < |ms| ensures !Prunes(ms, protectTail, minLength, i) {
      if ms[i].Tool? {
        var j :| 0 <= j < |indices| && indices[j] == i;
      }
    }
  }

  // ----- what pruning and restoring keep -----

  /** Messages the pairing contract cannot tell apart: user text and result text are free. */
  predicate SameSlot(a: Message, b: Message) {
    || a == b
    || (a.User? && b.User?)
    || (a.Tool? && b.Tool? && a.callId == b.callId)
  }

  lemma {:induction false} TextIsFree(a: seq<Message>, b: seq<Message>)
    requires |a| == |b| && forall i :: 0 <= i < |a| ==> SameSlot(a[i], b[i])
    requires Batches(a)
    ensures Batches(b)
    decreases |a|
  {
    if a != [] {
      var n := GroupSize(a);
      SplitGroup(a);
      GroupTail(a);
      TextIsFree(a[n..], b[n..]);
      assert SameSlot(a[0], b[0]);
      if OpensBatch(a[0]) {
        SlotsAnswer(a[0].calls.calls, a[1..n], b[1..n]);
      }
    }
  }

  lemma SlotsAnswer(calls: seq<RawCall>, a: seq<Message>, b: seq<Message>)
    requires Answers(calls, a) && |a| == |b| && forall i :: 0 <= i < |a| ==> SameSlot(a[i], b[i])
    ensures Answers(calls, b)
  {
    forall i | 0 <= i < |calls| ensures b[i].Tool? && b[i].callId == IdOf(calls[i]) {
      assert SameSlot(a[i], b[i]);
    }
  }

  /** Pruning keeps the protocol, every message of the user and the assistant, and the last
      `protectTail` results word for word. */
  lemma PruneKeepsProtocol(ms: seq<Message>, protectTail: nat, minLength: nat)
    ensures var r := Pruned(ms, protectTail, minLength);
      && (Batches(ms) <==> Batches(r))
      && forall i: nat :: i < |ms| && (!ms[i].Tool? || ToolsFrom(ms, i + 1) < protectTail) ==> r[i] == ms[i]
  {
    var r := Pruned(ms, protectTail, minLength);
    if Batches(ms) { TextIsFree(ms, r); }
    if Batches(r) { TextIsFree(r, ms); }
  }

  lemma {:induction false} ToolsFromCounts(ms: seq<Message>, i: nat)
    requires i <= |ms|
    ensures ToolsFrom(ms, i) == |set j | i <= j < |ms| && ms[j].Tool?|
    decreases |ms| - i
  {
    var later := set j | i <= j < |ms| && ms[j].Tool?;
    if i < |ms| {
      ToolsFromCounts(ms, i + 1);
      var rest := set j | i + 1 <= j < |ms| && ms[j].Tool?;
      assert later == rest + if ms[i].Tool? then {i} else {};
    } else {
      assert later == {};
    }
  }

  /** Which messages the prune pass clears, and what it leaves of them. */
  lemma PruneMeans(ms: seq<Message>, protectTail: nat, minLength: nat, i: nat)
    requires i < |ms|
    ensures var r := Pruned(ms, protectTail, minLength);
      |r| == |ms|
      && r[i] == if ms[i].Tool? && |ms[i].content| > minLength && |ms| > protectTail + 2
                    && |set j | i < j < |ms| && ms[j].Tool?| >= protectTail
                 then Tool(ms[i].callId, ms[i].name, "[Old tool output cleared to save context space]") else ms[i]
  {
    ToolsFromCounts(ms, i + 1);
    assert (set j | i + 1 <= j < |ms| && ms[j].Tool?) == set j | i < j < |ms| && ms[j].Tool?;
  }

  lemma {:induction false} SameToolCount(a: seq<Message>, b: seq<Message>, i: nat)
    requires |a| == |b| && forall k :: 0 <= k < |a| ==> (a[k].Tool? <==> b[k].Tool?)
    requires i <= |a|
    ensures ToolsFrom(a, i) == ToolsFrom(b, i)
    decreases |a| - i
  {
    if i < |a| { SameToolCount(a, b, i + 1); }
  }

  /** A second prune pass finds nothing to do (the placeholder is shorter than the limit). */
  lemma PruneIsIdempotent(ms: seq<Message>, protectTail: nat, minLength: nat)
    requires |PLACEHOLDER| <= minLength
    ensures var r := Pruned(ms, protectTail, minLength);
      Pruned(r, protectTail, minLength) == r && PrunedSet(r, protectTail, minLength) == {}
  {
    var r := Pruned(ms, protectTail, minLength);
    forall i: nat | i < |ms| ensures !Prunes(r, protectTail, minLength, i) {
      SameToolCount(ms, r, i + 1);
    }
  }

  lemma {:induction false} RebuildKeepsBatches(ms: seq<Message>, args: string -> Option<string>)
    requires Batches(ms)
    ensures Batches(RebuiltAll(ms, args))
    decreases |ms|
  {
    var r := RebuiltAll(ms, args);
    if ms != [] {
      var n := GroupSize(ms);
      SplitGroup(ms);
      RebuildKeepsBatches(ms[n..], args);
      assert r[n..] == RebuiltAll(ms[n..], args);
      if OpensBatch(ms[0]) {
        assert r[1..n] == RebuiltAll(ms[1..n], args);
        RebuiltBatch(ms[0].calls.calls, ms[1..n], args);
      }
    }
  }

  lemma RebuiltBatch(calls: seq<RawCall>, results: seq<Message>, args: string -> Option<string>)
    requires GoodCalls(calls) && Answers(calls, results)
    ensures var again := AllStored(AllParsed(calls, args));
      GoodCalls(again) && Answers(again, RebuiltAll(results, args))
  {
    var again := AllStored(AllParsed(calls, args));
    forall i | 0 <= i < |calls| ensures WellFormed(again[i]) && IdOf(again[i]) == IdOf(calls[i]) {
      assert WellFormed(calls[i]);
    }
  }

  /** What is restored of a stored message: all its text, and every call under its id and name with its
      arguments decoded and encoded again. */
  predicate RestoredFrom(m: Message, stored: Message, args: string -> Option<string>) {
    match stored
    case User(text) => m == User(text)
    case Tool(id, name, content) => m == Tool(id, name, content)
    case Assistant(text, field) =>
      && m.Assistant? && m.content == text
      && (if OpensBatch(stored) then m.calls.CallList? && CallsFrom(m.calls.calls, field.calls, args)
          else m.calls == Missing)
    case _ => false
  }

  predicate CallsFrom(calls: seq<RawCall>, stored: seq<RawCall>, args: string -> Option<string>) {
    && |calls| == |stored|
    && forall j :: 0 <= j < |calls| ==> CallFrom(calls[j], stored[j], args)
  }

  predicate CallFrom(call: RawCall, stored: RawCall, args: string -> Option<string>) {
    && stored.CallDict? && stored.id.Some? && stored.fn.Some? && stored.fn.value.name.Some?
    && args(stored.fn.value.arguments).Some?
    && call == CallDict(stored.id, Some(FunctionField(stored.fn.value.name, args(stored.fn.value.arguments).value)))
  }

  lemma RebuiltIsRestored(ms: seq<Message>, i: nat, args: string -> Option<string>)
    requires Batches(ms) && i < |ms| && AllRestorable(ms, args)
    ensures RestoredFrom(Rebuilt(ms[i], args), ms[i], args)
  {
    ClosedRoles(ms);
    assert ms[i] in ms && Restorable(ms[i], args);
    if ms[i].Tool? {
      ToolsAreNamed(ms, i);
    } else if OpensBatch(ms[i]) {
      BatchIsGood(ms, i);
    }
  }

  lemma {:induction false} BatchIsGood(ms: seq<Message>, i: nat)
    requires Batches(ms) && i < |ms| && OpensBatch(ms[i])
    ensures GoodCalls(ms[i].calls.calls)
    decreases |ms|
  {
    if i > 0 {
      var n := GroupSize(ms);
      SplitGroup(ms);
      GroupTail(ms);
      BatchIsGood(ms[n..], i - n);
    }
  }

  /** A context restored from any stored history holds every kept message, word for word. */
  lemma RestoredWordForWord(history: seq<Message>, fewShots: seq<Message>, args: string -> Option<string>, i: nat)
    requires AllRestorable(Normalized(history).messages, args) && i < |Normalized(history).messages|
    ensures var ms := Normalized(history).messages;
      RestoredFrom((fewShots + RebuiltAll(ms, args))[|fewShots| + i], ms[i], args)
  {
    NormalizedIsValid(history);
    RebuiltIsRestored(Normalized(history).messages, i, args);
  }

  /** When re-encoding gives the stored arguments back, what is restored is the normalised history itself, but
      that an empty call list is left out. */
  lemma FaithfulArgumentsRestoreAll(history: seq<Message>, args: string -> Option<string>)
    requires !HasNonList(Normalized(history).messages) && forall text :: args(text) == Some(text)
    ensures var ms := Normalized(history).messages; var r := RebuiltAll(ms, args);
      |r| == |ms| && forall i :: 0 <= i < |ms| ==>
        r[i] == if ms[i].Assistant? && ms[i].calls == CallList([]) then Assistant(ms[i].content, Missing) else ms[i]
  {
    var ms := Normalized(history).messages;
    NormalizedIsValid(history);
    forall i | 0 <= i < |ms| ensures
      Rebuilt(ms[i], args)
        == if ms[i].Assistant? && ms[i].calls == CallList([]) then Assistant(ms[i].content, Missing) else ms[i]
    {
      assert forall k :: 0 <= k < |ms| ==> ms[k] in ms;
      RebuiltIsRestored(ms, i, args);
      if OpensBatch(ms[i]) {
        SameCalls(Rebuilt(ms[i], args).calls.calls, ms[i].calls.calls, args);
      }
    }
  }

  lemma SameCalls(calls: seq<RawCall>, stored: seq<RawCall>, args: string -> Option<string>)
    requires CallsFrom(calls, stored, args) && forall text :: args(text) == Some(text)
    ensures calls == stored
  {
    forall j | 0 <= j < |calls| ensures calls[j] == stored[j] {
      assert CallFrom(calls[j], stored[j], args);
    }
  }

  /** A context restored from any stored history meets the pairing contract, keeps every tool
      result, and ends with the current request. */
  lemma RestoredContext(history: seq<Message>, fewShots: seq<Message>, message: string, args: string -> Option<string>)
    requires forall m :: m in fewShots ==> m.User? || (m.Assistant? && m.calls == Missing)
    ensures var ms := Normalized(history).messages;
      var built := fewShots + RebuiltAll(ms, args) + [User(message)];
      && Batches(built) && built[|built| - 1] == User(message)
      && forall i :: 0 <= i < |ms| && ms[i].Tool? ==> built[|fewShots| + i] == ms[i]
  {
    var ms := Normalized(history).messages;
    NormalizedIsValid(history);
    RebuildKeepsBatches(ms, args);
    PlainTalkIsClosed(fewShots);
    UserIsClosed(message);
    BatchesConcat(fewShots, RebuiltAll(ms, args));
    BatchesConcat(fewShots + RebuiltAll(ms, args), [User(message)]);
    forall i | 0 <= i < |ms| && ms[i].Tool? ensures ms[i].callId.Some? {
      ToolsAreNamed(ms, i);
    }
  }

  lemma {:induction false} PlainTalkIsClosed(ms: seq<Message>)
    requires forall m :: m in ms ==> m.User? || (m.Assistant? && m.calls == Missing)
    ensures Batches(ms)
  {
    if ms != [] {
      assert ms[0] in ms;
      PlainTalkIsClosed(ms[1..]);
    }
  }

  lemma {:induction false} ToolsAreNamed(ms: seq<Message>, i: nat)
    requires Batches(ms) && i < |ms| && ms[i].Tool?
    ensures ms[i].callId.Some?
    decreases |ms|
  {
    var n := GroupSize(ms);
    SplitGroup(ms);
    if i < n {
      assert ms[1..n][i - 1] == ms[i] && WellFormed(ms[0].calls.calls[i - 1]);
    } else {
      ToolsAreNamed(ms[n..], i - n);
    }
  }
}
