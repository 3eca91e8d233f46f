/** The chat transcript: one datatype for stored and in-memory messages, and the
    provider contract (tool-call batches closed by adjacent results in call order). */
module Transcript {

  datatype Option<+T> = None | Some(value: T)

  /** The `function` entry of a stored call; `name` is None when it is not a string. */
  datatype FunctionField = FunctionField(name: Option<string>, arguments: string)

  /** One entry of a stored `tool_calls` list, as JSON may hand it back. */
  datatype RawCall =
    | NotADict
    | CallDict(id: Option<string>, fn: Option<FunctionField>)

  /** The `tool_calls` key: absent or falsy, a truthy value that is not a list, or a list. */
  datatype CallsField = Missing | NotAList | CallList(calls: seq<RawCall>)

  datatype Message =
    | System(content: string)
    | User(content: string)
    | Assistant(content: string, calls: CallsField)
    | Tool(callId: Option<string>, name: string, content: string)
    | Unknown(role: string, content: string)

  const TOOL_ERROR_PREFIX := "Error"

  /** Tools report failure in the text of their result. */
  predicate IsError(result: string) {
    TOOL_ERROR_PREFIX <= result
  }

  predicate WellFormed(c: RawCall) {
    && c.CallDict?
    && c.id.Some? && CallId(c) != ""
    && c.fn.Some? && c.fn.value.name.Some? && CallName(c) != ""
  }

  function IdOf(c: RawCall): Option<string> {
    if c.CallDict? then c.id else None
  }

  function CallId(c: RawCall): string {
    if c.CallDict? && c.id.Some? then c.id.value else ""
  }

  function CallName(c: RawCall): string {
    if c.CallDict? && c.fn.Some? && c.fn.value.name.Some? then c.fn.value.name.value else ""
  }

  /** A batch a provider accepts: named calls under distinct non-empty ids. */
  predicate GoodCalls(calls: seq<RawCall>) {
    && (forall i :: 0 <= i < |calls| ==> WellFormed(calls[i]))
    && (forall i, j :: 0 <= i < j < |calls| ==> IdOf(calls[i]) != IdOf(calls[j]))
  }

  predicate OpensBatch(m: Message) {
    m.Assistant? && m.calls.CallList? && m.calls.calls != []
  }

  /** `results` answers `calls` one for one, in call order. */
  predicate Answers(calls: seq<RawCall>, results: seq<Message>) {
    && |calls| == |results|
    && forall i :: 0 <= i < |calls| ==>
         results[i].Tool? && results[i].callId == IdOf(calls[i])
  }

  /** Only user, assistant and tool messages; every batch is closed at once by its
      results in call order, and no other tool result exists. */
  predicate Batches(ms: seq<Message>)
    decreases |ms|
  {
    if ms == [] then true
    else if ms[0].User? then Batches(ms[1..])
    else if !ms[0].Assistant? then false
    else if !OpensBatch(ms[0]) then Batches(ms[1..])
    else
      var calls := ms[0].calls.calls;
      && GoodCalls(calls)
      && |calls| < |ms|
      && Answers(calls, ms[1..|calls| + 1])
      && Batches(ms[|calls| + 1..])
  }

  /** What a provider accepts as history: closed batches, first message from the user. */
  predicate Valid(ms: seq<Message>) {
    Batches(ms) && (ms != [] ==> ms[0].User?)
  }

  /** Number of messages in the group that `ms[0]` opens: a batch with its results, or one message. */
  function GroupSize(ms: seq<Message>): (n: nat)
    requires ms != [] && Batches(ms)
    ensures 1 <= n <= |ms|
  {
    if OpensBatch(ms[0]) then |ms[0].calls.calls| + 1 else 1
  }

  lemma {:induction false} ConsGroup(group: seq<Message>, rest: seq<Message>)
    requires group != [] && Batches(group) && GroupSize(group) == |group| && Batches(rest)
    ensures Batches(group + rest) && GroupSize(group + rest) == |group|
  {
    var ms := group + rest;
    assert ms[0] == group[0];
    if OpensBatch(group[0]) {
      var k := |group[0].calls.calls|;
      assert ms[1..k + 1] == group[1..k + 1];
      assert ms[k + 1..] == rest;
    } else {
      assert ms[1..] == rest;
    }
  }

  /** The first group of a closed transcript is itself closed. */
  lemma {:induction false} SplitGroup(ms: seq<Message>)
    requires ms != [] && Batches(ms)
    ensures var n := GroupSize(ms);
            Batches(ms[..n]) && Batches(ms[n..]) && GroupSize(ms[..n]) == n
  {
    var n := GroupSize(ms);
    var g := ms[..n];
    if OpensBatch(ms[0]) {
      assert g[1..n] == ms[1..n];
      assert g[n..] == [];
    } else {
      assert g[1..] == [];
    }
  }

  lemma {:induction false} BatchesConcat(a: seq<Message>, b: seq<Message>)
    requires Batches(a) && Batches(b)
    ensures Batches(a + b)
    decreases |a|
  {
    if a == [] {
      assert a + b == b;
    } else {
      var n := GroupSize(a);
      SplitGroup(a);
      BatchesConcat(a[n..], b);
      ConsGroup(a[..n], a[n..] + b);
      assert a[..n] + (a[n..] + b) == a + b;
    }
  }

  /** Cutting a closed transcript anywhere but before a tool result leaves two closed halves. */
  lemma {:induction false} BatchesCut(ms: seq<Message>, t: nat)
    requires Batches(ms) && t <= |ms|
    requires t < |ms| ==> !ms[t].Tool?
    ensures Batches(ms[..t]) && Batches(ms[t..])
    decreases |ms|
  {
    if t == 0 {
      assert ms[0..] == ms;
    } else {
      var n := GroupSize(ms);
      SplitGroup(ms);
      GroupTail(ms);
      var rest := ms[n..];
      BatchesCut(rest, t - n);
      assert rest[t - n..] == ms[t..];
      ConsGroup(ms[..n], rest[..t - n]);
      assert ms[..n] + rest[..t - n] == ms[..t];
    }
  }

  lemma GroupTail(ms: seq<Message>)
    requires ms != [] && Batches(ms)
    ensures forall i :: 1 <= i < GroupSize(ms) ==> ms[i].Tool?
  {
    forall i | 1 <= i < GroupSize(ms) ensures ms[i].Tool? {
      assert ms[1..GroupSize(ms)][i - 1] == ms[i];
    }
  }

  /** A whole batch is a closed transcript. */
  lemma {:induction false} BatchIsClosed(a: Message, results: seq<Message>)
    requires OpensBatch(a) && GoodCalls(a.calls.calls) && Answers(a.calls.calls, results)
    ensures Batches([a] + results) && GroupSize([a] + results) == |results| + 1
  {
    var ms := [a] + results;
    assert ms[1..|results| + 1] == results;
    assert ms[|results| + 1..] == [];
  }

  lemma UserIsClosed(content: string)
    ensures Batches([User(content)])
  {
    assert [User(content)][1..] == [];
  }

  lemma PlainAssistantIsClosed(m: Message)
    requires m.Assistant? && !OpensBatch(m)
    ensures Batches([m])
  {
    assert [m][1..] == [];
  }
}
