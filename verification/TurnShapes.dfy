/** What one turn does to the in-memory list: a user nudge spoken among tool results, and hint
    messages stripped by content. Both can sever a batch; here is exactly when. */
module TurnShapes {
  import opened Transcript
  import opened Subsequence

  // ----- the one-shot nudge inside the result loop -----

  /** Has the nudge been spent once these results are in? */
  predicate Spent(tools: seq<Message>, nudged: bool, fires: Message -> bool) {
    nudged || exists i :: 0 <= i < |tools| && fires(tools[i])
  }

  /** The results as the in-memory list receives them, the nudge right behind the first that fires. */
  function Spoken(tools: seq<Message>, nudged: bool, fires: Message -> bool, text: string): seq<Message> {
    if tools == [] then []
    else
      var front, last := tools[..|tools| - 1], tools[|tools| - 1];
      Spoken(front, nudged, fires, text) + [last]
      + if fires(last) && !Spent(front, nudged, fires) then [User(text)] else []
  }

  /** The nudge fires on a result that is not the last of its batch. */
  predicate FiresEarly(tools: seq<Message>, nudged: bool, fires: Message -> bool) {
    !nudged && exists i :: 0 <= i < |tools| - 1 && fires(tools[i])
  }

  lemma {:induction false} QuietSpoken(tools: seq<Message>, nudged: bool, fires: Message -> bool, text: string)
    requires nudged || forall i :: 0 <= i < |tools| ==> !fires(tools[i])
    ensures Spoken(tools, nudged, fires, text) == tools
  {
    if tools != [] {
      var front := tools[..|tools| - 1];
      QuietSpoken(front, nudged, fires, text);
      assert tools == front + [tools[|tools| - 1]];
    }
  }

  lemma {:induction false} NudgeSpokenAt(tools: seq<Message>, fires: Message -> bool, text: string, k: nat)
    requires k < |tools| && fires(tools[k]) && forall i :: 0 <= i < k ==> !fires(tools[i])
    ensures |Spoken(tools, false, fires, text)| == |tools| + 1
    ensures Spoken(tools, false, fires, text)[k + 1] == User(text)
    decreases |tools|
  {
    var front := tools[..|tools| - 1];
    if k == |front| {
      QuietSpoken(front, false, fires, text);
    } else {
      NudgeSpokenAt(front, fires, text, k);
      assert front[k] == tools[k];
      assert Spent(front, false, fires);
    }
  }

  /** The nudge stands right behind the first result that fires, and nothing else is added. */
  lemma {:induction false} SpokenIs(tools: seq<Message>, fires: Message -> bool, text: string, k: nat)
    requires k < |tools| && fires(tools[k]) && forall i :: 0 <= i < k ==> !fires(tools[i])
    ensures Spoken(tools, false, fires, text) == tools[..k + 1] + [User(text)] + tools[k + 1..]
    decreases |tools|
  {
    var front, last := tools[..|tools| - 1], tools[|tools| - 1];
    if k == |front| {
      QuietSpoken(front, false, fires, text);
      assert tools[..k + 1] == front + [last];
    } else {
      SpokenIs(front, fires, text, k);
      assert front[k] == tools[k] && Spent(front, false, fires);
      assert front[..k + 1] == tools[..k + 1] && front[k + 1..] + [last] == tools[k + 1..];
    }
  }

  lemma {:induction false} FirstFiring(tools: seq<Message>, fires: Message -> bool, i: nat) returns (k: nat)
    requires i < |tools| && fires(tools[i])
    ensures k <= i && fires(tools[k]) && forall j :: 0 <= j < k ==> !fires(tools[j])
  {
    k := i;
    if j :| 0 <= j < i && fires(tools[j]) {
      k := FirstFiring(tools, fires, j);
    }
  }

  /** A batch spoken with the nudge stays closed exactly when the nudge does not fire early. */
  lemma SpokenBatchIsClosedIff(a: Message, tools: seq<Message>, nudged: bool, fires: Message -> bool, text: string)
    requires OpensBatch(a) && GoodCalls(a.calls.calls) && Answers(a.calls.calls, tools)
    ensures Batches([a] + Spoken(tools, nudged, fires, text)) <==> !FiresEarly(tools, nudged, fires)
  {
    if FiresEarly(tools, nudged, fires) {
      var i :| 0 <= i < |tools| - 1 && fires(tools[i]);
      EarlyNudgeTears(a, tools, fires, text, i);
    } else {
      LateNudgeKeeps(a, tools, nudged, fires, text);
    }
  }

  lemma EarlyNudgeTears(a: Message, tools: seq<Message>, fires: Message -> bool, text: string, i: nat)
    requires OpensBatch(a) && Answers(a.calls.calls, tools)
    requires i < |tools| - 1 && fires(tools[i])
    ensures !Batches([a] + Spoken(tools, false, fires, text))
  {
    var k := FirstFiring(tools, fires, i);
    NudgeSpokenAt(tools, fires, text, k);
    var ms := [a] + Spoken(tools, false, fires, text);
    assert ms[1..|tools| + 1][k + 1] == User(text);
  }

  lemma LateSpoken(tools: seq<Message>, nudged: bool, fires: Message -> bool, text: string)
    requires tools != [] && !FiresEarly(tools, nudged, fires)
    ensures || Spoken(tools, nudged, fires, text) == tools
            || Spoken(tools, nudged, fires, text) == tools + [User(text)]
  {
    var front := tools[..|tools| - 1];
    assert forall i :: 0 <= i < |front| ==> front[i] == tools[i];
    QuietSpoken(front, nudged, fires, text);
    assert tools == front + [tools[|tools| - 1]];
  }

  lemma LateNudgeKeeps(a: Message, tools: seq<Message>, nudged: bool, fires: Message -> bool, text: string)
    requires OpensBatch(a) && GoodCalls(a.calls.calls) && Answers(a.calls.calls, tools)
    requires !FiresEarly(tools, nudged, fires)
    ensures Batches([a] + Spoken(tools, nudged, fires, text))
  {
    BatchIsClosed(a, tools);
    LateSpoken(tools, nudged, fires, text);
    if Spoken(tools, nudged, fires, text) != tools {
      FollowedByUser([a] + tools, text);
      assert [a] + tools + [User(text)] == [a] + (tools + [User(text)]);
    }
  }

  lemma FollowedByUser(ms: seq<Message>, text: string)
    requires Batches(ms)
    ensures Batches(ms + [User(text)])
  {
    UserIsClosed(text);
    BatchesConcat(ms, [User(text)]);
  }

  // ----- hint messages, stripped by content -----

  /** Every message whose text carries the marker, removed; whoever wrote it. */
  function Stripped(ms: seq<Message>, marked: string -> bool): seq<Message> {
    if ms == [] then []
    else (if marked(ms[0].content) then [] else [ms[0]]) + Stripped(ms[1..], marked)
  }

  /** Size of the leading group: a batch with as many messages as it has calls, or one message. */
  function HeadSize(ms: seq<Message>): (n: nat)
    requires ms != []
    ensures 1 <= n <= |ms|
  {
    if OpensBatch(ms[0]) && |ms[0].calls.calls| < |ms| then |ms[0].calls.calls| + 1 else 1
  }

  predicate Uniform(g: seq<Message>, marked: string -> bool) {
    forall i :: 0 <= i < |g| ==> marked(g[i].content) == marked(g[0].content)
  }

  /** No batch loses some of its messages and keeps others. */
  predicate Untorn(ms: seq<Message>, marked: string -> bool) {
    ms == [] || (Uniform(ms[..HeadSize(ms)], marked) && Untorn(ms[HeadSize(ms)..], marked))
  }

  /** No id answered in `g` is answered again in `rest`. */
  predicate Apart(g: seq<Message>, rest: seq<Message>) {
    forall x, y :: x in g && y in rest && x.Tool? && y.Tool? ==> x.callId != y.callId
  }

  /** No batch reuses an id of an earlier one. */
  predicate FreshIds(ms: seq<Message>) {
    ms == [] || (Apart(ms[..HeadSize(ms)], ms[HeadSize(ms)..]) && FreshIds(ms[HeadSize(ms)..]))
  }

  lemma {:induction false} StripConcat(a: seq<Message>, b: seq<Message>, marked: string -> bool)
    ensures Stripped(a + b, marked) == Stripped(a, marked) + Stripped(b, marked)
  {
    if a == [] {
      assert a + b == b;
    } else {
      assert (a + b)[1..] == a[1..] + b;
      StripConcat(a[1..], b, marked);
    }
  }

  lemma {:induction false} StripAllOrNone(ms: seq<Message>, marked: string -> bool, all: bool)
    requires forall i :: 0 <= i < |ms| ==> marked(ms[i].content) == all
    ensures Stripped(ms, marked) == if all then [] else ms
  {
    if ms != [] {
      StripAllOrNone(ms[1..], marked, all);
    }
  }

  lemma {:induction false} StripCounts(ms: seq<Message>, marked: string -> bool)
    ensures |Stripped(ms, marked)| <= |ms|
    ensures |Stripped(ms, marked)| == |ms| ==> forall i :: 0 <= i < |ms| ==> !marked(ms[i].content)
    ensures Stripped(ms, marked) == [] ==> forall i :: 0 <= i < |ms| ==> marked(ms[i].content)
  {
    if ms != [] {
      StripCounts(ms[1..], marked);
    }
  }

  lemma {:induction false} StripCountsEach(ms: seq<Message>, marked: string -> bool, m: Message)
    ensures multiset(Stripped(ms, marked))[m] == if marked(m.content) then 0 else multiset(ms)[m]
  {
    if ms != [] {
      assert ms == [ms[0]] + ms[1..];
      StripCountsEach(ms[1..], marked, m);
    }
  }

  lemma {:induction false} StripIsSubsequence(ms: seq<Message>, marked: string -> bool)
    ensures IsSubsequence(Stripped(ms, marked), ms)
  {
    if ms == [] {
      assert Embeds([], ms, []);
    } else {
      assert ms == [ms[0]] + ms[1..];
      StripIsSubsequence(ms[1..], marked);
      if marked(ms[0].content) {
        SubsequenceSkip(Stripped(ms[1..], marked), ms[1..], ms[0]);
        assert Stripped(ms, marked) == Stripped(ms[1..], marked);
      } else {
        SubsequenceTake(Stripped(ms[1..], marked), ms[1..], ms[0]);
        assert Stripped(ms, marked) == [ms[0]] + Stripped(ms[1..], marked);
      }
    }
  }

  /** Stripping keeps, in order, exactly the messages whose text is not marked, each as often as it was there. */
  lemma StripMeans(ms: seq<Message>, marked: string -> bool, m: Message)
    ensures multiset(Stripped(ms, marked))[m] == if marked(m.content) then 0 else multiset(ms)[m]
    ensures IsSubsequence(Stripped(ms, marked), ms)
  {
    StripCountsEach(ms, marked, m);
    StripIsSubsequence(ms, marked);
  }

  lemma {:induction false} StripSelects(ms: seq<Message>, marked: string -> bool)
    ensures forall m :: m in Stripped(ms, marked) ==> m in ms
  {
    if ms != [] {
      StripSelects(ms[1..], marked);
    }
  }

  lemma StripHead(ms: seq<Message>, marked: string -> bool)
    requires ms != []
    ensures Stripped(ms, marked) == Stripped(ms[..HeadSize(ms)], marked) + Stripped(ms[HeadSize(ms)..], marked)
  {
    var n := HeadSize(ms);
    assert ms == ms[..n] + ms[n..];
    StripConcat(ms[..n], ms[n..], marked);
  }

  /** Stripping hints keeps a closed transcript closed when it tears no batch. */
  lemma {:induction false} StripKeepsBatches(ms: seq<Message>, marked: string -> bool)
    requires Batches(ms) && Untorn(ms, marked)
    ensures Batches(Stripped(ms, marked))
    decreases |ms|
  {
    if ms != [] {
      var n := HeadSize(ms);
      SplitGroup(ms);
      StripKeepsBatches(ms[n..], marked);
      StripHead(ms, marked);
      KeptGroup(ms[..n], marked);
      BatchesConcat(Stripped(ms[..n], marked), Stripped(ms[n..], marked));
    }
  }

  lemma KeptGroup(g: seq<Message>, marked: string -> bool)
    requires g != [] && Batches(g) && Uniform(g, marked)
    ensures Batches(Stripped(g, marked))
  {
    StripAllOrNone(g, marked, marked(g[0].content));
  }

  /** The batch message goes and a result stays: the leftovers start on a stray result. */
  lemma StrayResult(tools: seq<Message>, s: seq<Message>, marked: string -> bool)
    requires forall m :: m in tools ==> m.Tool?
    requires Stripped(tools, marked) != []
    ensures !Batches(Stripped(tools, marked) + s)
  {
    StripSelects(tools, marked);
    var kept := Stripped(tools, marked);
    assert (kept + s)[0] == kept[0] && kept[0] in kept;
  }

  /** The batch message stays and a result goes: the next message cannot answer in its place. */
  lemma MissingResult(a: Message, tools: seq<Message>, kept: seq<Message>, s: seq<Message>)
    requires OpensBatch(a) && Answers(a.calls.calls, tools)
    requires |kept| < |tools|
    requires forall y :: y in s && y.Tool? ==> y.callId != tools[|kept|].callId
    ensures !Batches([a] + (kept + s))
  {
    var ms := [a] + (kept + s);
    var calls, k := a.calls.calls, |kept|;
    assert tools[k].callId == IdOf(calls[k]);
    if |calls| < |ms| {
      var slots := ms[1..|calls| + 1];
      assert slots[k] == s[0] && s[0] in s;
    }
  }

  lemma WholeBatchTail(a: Message, tools: seq<Message>, s: seq<Message>)
    requires OpensBatch(a) && |a.calls.calls| == |tools|
    requires Batches([a] + (tools + s))
    ensures Batches(s)
  {
    var ms := [a] + (tools + s);
    assert ms[|tools| + 1..] == s;
  }

  lemma GoneBatchWasWhole(tools: seq<Message>, s: seq<Message>, marked: string -> bool)
    requires forall m :: m in tools ==> m.Tool?
    requires Batches(Stripped(tools, marked) + s)
    ensures Batches(s) && forall i :: 0 <= i < |tools| ==> marked(tools[i].content)
  {
    if Stripped(tools, marked) != [] {
      StrayResult(tools, s, marked);
    }
    StripCounts(tools, marked);
    assert [] + s == s;
  }

  lemma KeptBatchWasWhole(a: Message, tools: seq<Message>, s: seq<Message>, marked: string -> bool)
    requires OpensBatch(a) && Answers(a.calls.calls, tools) && Apart(tools, s)
    requires Batches([a] + (Stripped(tools, marked) + s))
    ensures Batches(s) && forall i :: 0 <= i < |tools| ==> !marked(tools[i].content)
  {
    var kept := Stripped(tools, marked);
    StripCounts(tools, marked);
    if |kept| < |tools| {
      assert tools[|kept|] in tools && tools[|kept|].Tool?;
      MissingResult(a, tools, kept, s);
    }
    StripAllOrNone(tools, marked, false);
    WholeBatchTail(a, tools, s);
  }

  /** What follows a batch is closed and the batch was not torn, if its leftovers are in order. */
  lemma BatchWasWhole(a: Message, tools: seq<Message>, s: seq<Message>, marked: string -> bool)
    requires OpensBatch(a) && Answers(a.calls.calls, tools) && Apart(tools, s)
    requires Batches(Stripped([a] + tools, marked) + s)
    ensures Batches(s) && Uniform([a] + tools, marked)
  {
    assert ([a] + tools)[1..] == tools;
    var kept := Stripped(tools, marked);
    if marked(a.content) {
      assert [] + kept == kept;
      GoneBatchWasWhole(tools, s, marked);
    } else {
      assert [a] + kept + s == [a] + (kept + s);
      KeptBatchWasWhole(a, tools, s, marked);
    }
  }

  lemma PlainHead(m: Message, s: seq<Message>, marked: string -> bool)
    requires !OpensBatch(m) && Batches(Stripped([m], marked) + s)
    ensures Batches(s)
  {
    assert [m][1..] == [];
    if marked(m.content) {
      assert Stripped([m], marked) == [];
      assert [] + s == s;
    } else {
      assert Stripped([m], marked) == [m];
      assert ([m] + s)[1..] == s && ([m] + s)[0] == m;
    }
  }

  lemma HeadGroupWasWhole(g: seq<Message>, s: seq<Message>, marked: string -> bool)
    requires g != [] && Batches(g) && GroupSize(g) == |g| && Apart(g, s)
    requires Batches(Stripped(g, marked) + s)
    ensures Batches(s) && Uniform(g, marked)
  {
    if OpensBatch(g[0]) {
      assert g == [g[0]] + g[1..] && g[1..|g|] == g[1..];
      BatchWasWhole(g[0], g[1..], s, marked);
    } else {
      assert g == [g[0]];
      PlainHead(g[0], s, marked);
    }
  }

  /** ... and, when no batch reuses an id, only then. */
  lemma {:induction false} StripKeepsOnlyUntorn(ms: seq<Message>, marked: string -> bool)
    requires Batches(ms) && FreshIds(ms) && Batches(Stripped(ms, marked))
    ensures Untorn(ms, marked)
    decreases |ms|
  {
    if ms != [] {
      var n := HeadSize(ms);
      SplitGroup(ms);
      StripHead(ms, marked);
      StripSelects(ms[n..], marked);
      HeadGroupWasWhole(ms[..n], Stripped(ms[n..], marked), marked);
      StripKeepsOnlyUntorn(ms[n..], marked);
    }
  }

  /** The exact condition, for transcripts whose batches use distinct ids. */
  lemma StripIsSafeIff(ms: seq<Message>, marked: string -> bool)
    requires Batches(ms) && FreshIds(ms)
    ensures Batches(Stripped(ms, marked)) <==> Untorn(ms, marked)
  {
    if Untorn(ms, marked) {
      StripKeepsBatches(ms, marked);
    } else if Batches(Stripped(ms, marked)) {
      StripKeepsOnlyUntorn(ms, marked);
    }
  }

  /** It can happen: a tool result that quotes the marker, whose call does not. */
  lemma QuotedMarkerTears(a: Message, tool: Message, marked: string -> bool)
    requires OpensBatch(a) && GoodCalls(a.calls.calls) && Answers(a.calls.calls, [tool])
    requires marked(tool.content) && !marked(a.content)
    ensures Batches([a, tool]) && !Batches(Stripped([a, tool], marked))
  {
    BatchIsClosed(a, [tool]);
    assert [a] + [tool] == [a, tool];
    var ms := [a, tool];
    assert ms[..2] == ms && ms[2..] == [];
    assert ms[1].content == tool.content && !Uniform(ms, marked);
    StripIsSafeIff(ms, marked);
  }
}
