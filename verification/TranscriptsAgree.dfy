/** The two transcripts of a run tell the same story: what the assistant and the tools said in the list is
    what the rows record, in the same order, but for the final answer, which goes to the rows alone. */
module TranscriptsAgree {
  import opened Transcript
  import opened ContextBuilding
  import opened BudgetGuard
  import opened TurnShapes
  import opened LoopWorld
  import opened LoopSpec
  import opened PlainTexts
  import opened LoopTheorems
  import opened AgentRun
  import opened RunTheorems

  /** The messages of the assistant and of the tools. */
  function Acts(ms: seq<Message>): seq<Message> {
    if ms == [] then [] else (if ms[0].Assistant? || ms[0].Tool? then [ms[0]] else []) + Acts(ms[1..])
  }

  lemma {:induction false} ActsConcat(a: seq<Message>, b: seq<Message>)
    ensures Acts(a + b) == Acts(a) + Acts(b)
  {
    if a == [] {
      assert a + b == b;
    } else {
      assert (a + b)[0] == a[0] && (a + b)[1..] == a[1..] + b;
      ActsConcat(a[1..], b);
      var first := if a[0].Assistant? || a[0].Tool? then [a[0]] else [];
      assert Acts(a) == first + Acts(a[1..]);
      assert first + (Acts(a[1..]) + Acts(b)) == first + Acts(a[1..]) + Acts(b);
    }
  }

  lemma {:induction false} AllActs(ms: seq<Message>)
    requires forall i :: 0 <= i < |ms| ==> ms[i].Assistant? || ms[i].Tool?
    ensures Acts(ms) == ms
  {
    if ms != [] {
      AllActs(ms[1..]);
    }
  }

  lemma UserIsNoAct(ms: seq<Message>, text: string)
    ensures Acts(ms + [User(text)]) == Acts(ms)
  {
    ActsConcat(ms, [User(text)]);
    assert Acts([User(text)]) == [];
  }

  // ----- hints -----

  lemma {:induction false} StripKeepsActs(ms: seq<Message>, marked: string -> bool, ok: string -> bool)
    requires AllPlain(ms, ok) && forall t :: ok(t) ==> !marked(t)
    ensures Acts(Stripped(ms, marked)) == Acts(ms)
  {
    if ms != [] {
      assert Plain(ms[0], ok);
      StripKeepsActs(ms[1..], marked, ok);
      ActsConcat(if marked(ms[0].content) then [] else [ms[0]], Stripped(ms[1..], marked));
    }
  }

  lemma TailIsNoAct(ms: seq<Message>, text: Option<string>)
    ensures Acts(ms + Tail(text)) == Acts(ms)
  {
    if text.Some? {
      UserIsNoAct(ms, text.value);
    } else {
      assert ms + [] == ms;
    }
  }

  lemma HintsKeepActs(ms: seq<Message>, h: Hints, ok: string -> bool)
    requires AllPlain(ms, ok) && Excludes(ok, h)
    ensures Acts(Hinted(ms, h)) == Acts(ms)
  {
    assert forall t :: ok(t) ==> Unhinted(h, t);
    if h.soft {
      StripKeepsActs(ms, h.softMarked, ok);
      TailIsNoAct(Stripped(ms, h.softMarked), h.softText);
    }
    SoftHintedIsPlain(ms, h, ok);
    StripKeepsActs(SoftHinted(ms, h), h.webMarked, ok);
    TailIsNoAct(Stripped(SoftHinted(ms, h), h.webMarked), h.webText);
  }

  // ----- one turn -----

  lemma {:induction false} SpokenActs(tools: seq<Message>, nudged: bool, fires: Message -> bool, text: string)
    requires forall i :: 0 <= i < |tools| ==> tools[i].Tool?
    ensures Acts(Spoken(tools, nudged, fires, text)) == tools
  {
    if tools != [] {
      var front, last := tools[..|tools| - 1], tools[|tools| - 1];
      SpokenActs(front, nudged, fires, text);
      var said := Spoken(front, nudged, fires, text) + [last];
      ActsConcat(Spoken(front, nudged, fires, text), [last]);
      assert Acts([last]) == [last] && tools == front + [last];
      if fires(last) && !Spent(front, nudged, fires) {
        UserIsNoAct(said, text);
      } else {
        assert said + [] == said;
      }
    }
  }

  /** What the end of a turn adds to the rows alone. */
  function AnswerPart(end: TurnEnd): seq<Message> {
    if end.Finished? then [Assistant(end.answer, Missing)] else []
  }

  /** The acts of the list, with what only the rows have, are those it began with and those of the rows gained. */
  predicate Agree(s: State, more: seq<Message>, began: seq<Message>, rows: seq<Message>) {
    && rows <= s.view.durable.rows
    && Acts(s.view.memory) + more == Acts(began) + Acts(s.view.durable.rows[|rows|..])
  }

  ghost predicate AlwaysAgreed(log: seq<Snapshot>, began: seq<Message>, rows: seq<Message>) {
    forall i :: 0 <= i < |log| ==> Agreed(log[i], began, rows)
  }

  predicate Agreed(s: Snapshot, began: seq<Message>, rows: seq<Message>) {
    rows <= s.rows && Acts(s.memory) == Acts(began) + Acts(s.rows[|rows|..])
  }

  /** Appends never fail, and there is a store to append to. */
  ghost predicate Stores(w: World) {
    w.sessionBound && forall k :: w.appendOk(k)
  }

  lemma Regroup<T>(a: seq<T>, m: seq<T>, more: seq<T>, c: seq<T>, d: seq<T>, e: seq<T>)
    requires a + [] == c + d && e == m + more
    ensures a + m + more == c + (d + e)
  {
    assert a == c + d;
    assert a + m + more == c + d + (m + more);
  }

  lemma SayAgrees(s: State, t: State, ms: seq<Message>, ds: seq<Message>, more: seq<Message>,
                  began: seq<Message>, rows: seq<Message>, w: World)
    requires Agree(s, [], began, rows) && Stores(w) && !s.view.durable.lost
    requires t.view.memory == s.view.memory + ms && t.view.durable == Write(s.view.durable, ds, w)
    requires Acts(ds) == Acts(ms) + more
    ensures Agree(t, more, began, rows) && !t.view.durable.lost
  {
    var d, e := s.view.durable, t.view.durable;
    WriteGrows(d, ds, w);
    WriteNeverLoses(d, ds, w);
    assert e.rows[|rows|..] == d.rows[|rows|..] + ds;
    ActsConcat(s.view.memory, ms);
    ActsConcat(d.rows[|rows|..], ds);
    Regroup(Acts(s.view.memory), Acts(ms), more, Acts(began), Acts(d.rows[|rows|..]), Acts(ds));
  }

  lemma BatchActs(content: string, calls: seq<ToolCall>, n: nat, nudged: bool, w: World)
    ensures Acts(BatchWritten(content, calls, n, w)) == Acts(BatchSaid(content, calls, n, nudged, w))
         + if ReturnsDirectly(calls, n, w) then [Assistant(Yield(n, 0, w), Missing)] else []
  {
    var a, tools := Declared(calls, content), RecordedResults(calls, n, w);
    AllActs(BatchWritten(content, calls, n, w));
    if ReturnsDirectly(calls, n, w) {
      LoneSurvives(n, w);
      AllActs(BatchSaid(content, calls, n, nudged, w));
    } else {
      var said := Spoken(tools, nudged, Fires(w), w.text.closeNudge);
      SpokenActs(tools, nudged, Fires(w), w.text.closeNudge);
      ActsConcat([a], said);
      assert Acts([a]) == [a];
    }
  }

  lemma ToolAgrees(s: State, content: string, calls: seq<ToolCall>, n: nat, w: World, q: Setup,
                   began: seq<Message>, rows: seq<Message>)
    requires Agree(s, [], began, rows) && Stores(w) && !s.view.durable.lost
    ensures var r := ToolStep(s, content, calls, n, w, q);
      Agree(r.state, AnswerPart(r.end), began, rows) && !r.state.view.durable.lost
  {
    if !Refuses(s.budget, q.limits, calls, n, w) {
      if Mixed(calls, w) {
        RejectAgrees(Reserved(s, calls), content, calls, w, began, rows);
      } else {
        ExecuteAgrees(Reserved(s, calls), content, calls, n, w, began, rows);
      }
    }
  }

  lemma RejectAgrees(s: State, content: string, calls: seq<ToolCall>, w: World,
                     began: seq<Message>, rows: seq<Message>)
    requires Agree(s, [], began, rows) && Stores(w) && !s.view.durable.lost
    ensures var t := RejectStep(s, content, calls, w); Agree(t, [], began, rows) && !t.view.durable.lost
  {
    var rejected := RejectedBatch(content, calls, w);
    UserIsNoAct(rejected, w.text.retryTerminal);
    assert Acts(rejected) + [] == Acts(rejected);
    SayAgrees(s, RejectStep(s, content, calls, w), rejected + [User(w.text.retryTerminal)], rejected, [],
              began, rows, w);
  }

  lemma ExecuteAgrees(s: State, content: string, calls: seq<ToolCall>, n: nat, w: World,
                      began: seq<Message>, rows: seq<Message>)
    requires Agree(s, [], began, rows) && Stores(w) && !s.view.durable.lost
    ensures var r := ExecuteStep(s, content, calls, n, w);
      Agree(r.state, AnswerPart(r.end), began, rows) && !r.state.view.durable.lost
  {
    var r := ExecuteStep(s, content, calls, n, w);
    BatchActs(content, calls, n, s.view.nudged, w);
    ExecuteSays(s, content, calls, n, w);
    SayAgrees(s, r.state, BatchSaid(content, calls, n, s.view.nudged, w), BatchWritten(content, calls, n, w),
              AnswerPart(r.end), began, rows, w);
  }

  lemma ExecuteSays(s: State, content: string, calls: seq<ToolCall>, n: nat, w: World)
    ensures var r := ExecuteStep(s, content, calls, n, w);
      && r.state.view.memory == s.view.memory + BatchSaid(content, calls, n, s.view.nudged, w)
      && r.state.view.durable == Write(s.view.durable, BatchWritten(content, calls, n, w), w)
      && AnswerPart(r.end) == if ReturnsDirectly(calls, n, w) then [Assistant(Yield(n, 0, w), Missing)] else []
  {
    CrashedIsNotDirect(calls, n, w);
  }

  lemma CrashedIsNotDirect(calls: seq<ToolCall>, n: nat, w: World)
    ensures !(Crashes(calls, n, w) && ReturnsDirectly(calls, n, w))
  {
    if ReturnsDirectly(calls, n, w) {
      LoneSurvives(n, w);
    }
  }

  lemma AnswerAgrees(s: State, content: string, w: World, began: seq<Message>, rows: seq<Message>)
    requires Agree(s, [], began, rows) && Stores(w) && !s.view.durable.lost
    ensures var r := AnswerStep(s, content, w);
      Agree(r.state, AnswerPart(r.end), began, rows) && !r.state.view.durable.lost
  {
    var r := AnswerStep(s, content, w);
    if r.end.Finished? {
      AnsweredAgrees(s, r.end.answer, began, rows, w);
    } else {
      var text := r.state.view.memory[|s.view.memory|].content;
      UserIsNoAct([], text);
      assert [] + [User(text)] == [User(text)];
      SayAgrees(s, r.state, [User(text)], [], [], began, rows, w);
    }
  }

  lemma AnsweredAgrees(s: State, answer: string, began: seq<Message>, rows: seq<Message>, w: World)
    requires Agree(s, [], began, rows) && Stores(w) && !s.view.durable.lost
    ensures Agree(Answered(s, answer, w), [Assistant(answer, Missing)], began, rows)
    ensures !Answered(s, answer, w).view.durable.lost
  {
    var m := Assistant(answer, Missing);
    assert Acts([m]) == [] + [m];
    SayAgrees(s, Answered(s, answer, w), [], [m], [m], began, rows, w);
  }

  lemma RespondAgrees(s: State, reply: Reply, n: nat, w: World, q: Setup, began: seq<Message>, rows: seq<Message>)
    requires Agree(s, [], began, rows) && Stores(w) && !s.view.durable.lost
    ensures var r := RespondStep(s, reply, n, w, q);
      Agree(r.state, AnswerPart(r.end), began, rows) && !r.state.view.durable.lost
  {
    match reply
    case TimedOut => AnsweredAgrees(s, w.text.timedOut, began, rows, w);
    case Failed =>
    case Reply(content, calls, totalTokens) =>
      var t := s.(total := if totalTokens > 0 then Some(totalTokens) else None);
      if calls == [] {
        AnswerAgrees(t, content, w, began, rows);
      } else {
        ToolAgrees(t, content, calls, n, w, q, began, rows);
      }
  }

  ghost predicate NeverCompresses(w: World) {
    forall n :: !w.midRun(n).enabled
  }

  lemma CallAgrees(s: State, n: nat, w: World, q: Setup, ok: string -> bool, began: seq<Message>, rows: seq<Message>)
    requires Agree(s, [], began, rows) && AlwaysAgreed(s.trace.log, began, rows) && Clean(s, ok)
    requires MarkerFree(w, ok) && NeverCompresses(w)
    ensures var t := CallStep(s, n, w, q);
      && Agree(t, [], began, rows) && AlwaysAgreed(t.trace.log, began, rows) && Clean(t, ok)
      && t.view.durable == s.view.durable
  {
    assert !w.midRun(n).enabled && Excludes(ok, w.hints(n));
    HintsKeepActs(s.view.memory, w.hints(n), ok);
    HintedIsPlain(s.view.memory, w.hints(n), ok);
    var t := CallStep(s, n, w, q);
    assert Acts(t.view.memory) + [] == Acts(t.view.memory);
  }

  lemma TurnAgrees(s: State, w: World, q: Setup, ok: string -> bool, began: seq<Message>, rows: seq<Message>)
    requires Agree(s, [], began, rows) && AlwaysAgreed(s.trace.log, began, rows) && Clean(s, ok)
    requires MarkerFree(w, ok) && NeverCompresses(w) && Stores(w) && !s.view.durable.lost
    ensures var r := TurnStep(s, w, q);
      && Agree(r.state, AnswerPart(r.end), began, rows) && AlwaysAgreed(r.state.trace.log, began, rows)
      && !r.state.view.durable.lost && (r.end.Again? ==> Clean(r.state, ok))
  {
    var t := Consumed(s);
    var n := t.budget.iterationsUsed;
    if Exceeded(q.limits, t.budget, w.clock(n).0).None? {
      var c := CallStep(t, n, w, q);
      CallAgrees(t, n, w, q, ok, began, rows);
      RespondAgrees(c, w.reply(n), n, w, q, began, rows);
      RespondStaysClean(c, n, w, q, ok);
      WroteIsWritten(c, w.reply(n), n, w, q);
    }
  }

  lemma {:induction false} LoopAgrees(s: State, w: World, q: Setup, ok: string -> bool,
                                      began: seq<Message>, rows: seq<Message>)
    requires q.limits.enabled && Agree(s, [], began, rows) && AlwaysAgreed(s.trace.log, began, rows) && Clean(s, ok)
    requires MarkerFree(w, ok) && NeverCompresses(w) && Stores(w) && !s.view.durable.lost
    ensures var r := LoopRun(s, w, q);
      && Agree(r.state, AnswerPart(r.end), began, rows) && AlwaysAgreed(r.state.trace.log, began, rows)
      && !r.state.view.durable.lost
    decreases Left(s, q)
  {
    TurnUsesIteration(s, w, q);
    TurnAgrees(s, w, q, ok, began, rows);
    var r := TurnStep(s, w, q);
    if r.end.Again? {
      LoopAgrees(r.state, w, q, ok, began, rows);
    }
  }

  // ----- the end of a run -----

  lemma CascadeAgrees(s: State, tc: ToolCall, result: Option<string>, w: World,
                      began: seq<Message>, rows: seq<Message>)
    requires Agree(s, [], began, rows) && Stores(w) && !s.view.durable.lost
    ensures var t := CascadeStep(s, tc, result, w); Agree(t, [], began, rows) && !t.view.durable.lost
  {
    var part := CascadePart(tc, result);
    assert Acts(part) + [] == Acts(part);
    SayAgrees(s, CascadeStep(s, tc, result, w), part, part, [], began, rows, w);
  }

  lemma SalvageAgrees(s: State, w: World, began: seq<Message>, rows: seq<Message>)
    requires Agree(s, [], began, rows) && Stores(w) && !s.view.durable.lost
    ensures Agree(Emergency(s, w), [], began, rows) && Emergency(s, w).view.durable == s.view.durable
    ensures var t := SalvageStep(s, w).state; Agree(t, [], began, rows) && !t.view.durable.lost
  {
    var t := Logged(Emergency(s, w));
    UserIsNoAct(s.view.memory, w.text.emergency);
    var reply := w.emergencyReply;
    var synthetic := Synthetic(if reply.Reply? then reply.content else "", w);
    if w.terminalInRegistry {
      if Obeys(reply, w) {
        CascadeAgrees(t, reply.calls[0], w.cascadeTool(0), w, began, rows);
        CascadeAgrees(CascadeStep(t, reply.calls[0], w.cascadeTool(0), w), synthetic, w.cascadeTool(1), w, began, rows);
      } else {
        CascadeAgrees(t, synthetic, w.cascadeTool(1), w, began, rows);
      }
    }
  }

  lemma ConcludedAgrees(r: Step, w: World, began: seq<Message>, rows: seq<Message>)
    requires Agree(r.state, AnswerPart(r.end), began, rows) && Stores(w) && !r.state.view.durable.lost
    ensures var e := Concluded(r, w);
      Agree(e.state, if e.answer.Some? then [Assistant(e.answer.value, Missing)] else [], began, rows)
    ensures CallsEmergency(r, w) ==> Agree(Emergency(r.state, w), [], began, rows)
  {
    match r.end
    case LoopDetected => AnsweredAgrees(r.state, w.text.loopFallback, began, rows, w);
    case Exhausted =>
      if Salvages(r.state, w) {
        SalvageAgrees(r.state, w, began, rows);
        var v := SalvageStep(r.state, w);
        AnsweredAgrees(v.state, if v.answer.Some? then v.answer.value else w.text.overBudget, began, rows, w);
      } else {
        AnsweredAgrees(r.state, w.text.overBudget, began, rows, w);
      }
    case _ =>
  }

  /** In a run without compression, without a failing append and without markers in real text: at every
      provider call the list has gained exactly the assistant and tool messages the rows have gained, in
      order; at the end too, but for the final answer, which only the rows have. */
  lemma RunTranscriptsAgree(rows: seq<Message>, fewShots: seq<Message>, args: string -> Option<string>, now: real,
                            w: World, q: Setup, ok: string -> bool)
    requires q.limits.enabled && Stores(w) && NeverCompresses(w)
    requires MarkerFree(w, ok) && AllPlain(rows, ok) && AllPlain(fewShots, ok)
    ensures var began := Opening(rows, fewShots, args, now, w, q).view.memory;
      var e := RunOf(rows, fewShots, args, now, w, q);
      && AlwaysAgreed(e.state.trace.log, began, rows)
      && Agree(e.state, if e.answer.Some? then [Assistant(e.answer.value, Missing)] else [], began, rows)
  {
    var s := Opening(rows, fewShots, args, now, w, q);
    OpeningIsClean(rows, fewShots, args, now, w, q, ok);
    OpeningAgrees(rows, fewShots, args, now, w, q);
    LoopAgrees(s, w, q, ok, s.view.memory, rows);
    var r := LoopRun(s, w, q);
    ConcludedLog(r, w);
    ConcludedAgrees(r, w, s.view.memory, rows);
    assert CallsEmergency(r, w) ==>
      Acts(Emergency(r.state, w).view.memory) + [] == Acts(Emergency(r.state, w).view.memory);
  }

  lemma OpeningAgrees(rows: seq<Message>, fewShots: seq<Message>, args: string -> Option<string>, now: real,
                      w: World, q: Setup)
    requires Stores(w)
    ensures var s := Opening(rows, fewShots, args, now, w, q);
      Agree(s, [], s.view.memory, rows) && !s.view.durable.lost
  {
    var s := Opening(rows, fewShots, args, now, w, q);
    WriteGrows(Durable(rows, 0, false), [User(q.request)], w);
    WriteNeverLoses(Durable(rows, 0, false), [User(q.request)], w);
    UserIsNoAct([], q.request);
    assert [] + [User(q.request)] == [User(q.request)];
    assert s.view.durable.rows[|rows|..] == [User(q.request)];
  }
}
