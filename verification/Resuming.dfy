/** A chat can always be resumed: whatever its runs go through, every next run can put the stored history
    back into a context. */
module Resuming {
  import opened Transcript
  import opened Normalization
  import opened Compression
  import opened ContextBuilding
  import opened StoreRewrite
  import opened LoopWorld
  import opened LoopSpec
  import opened LoopTheorems
  import opened AgentRun

  lemma RestorableConcat(a: seq<Message>, b: seq<Message>, args: string -> Option<string>)
    requires AllRestorable(a, args) && AllRestorable(b, args)
    ensures AllRestorable(a + b, args)
  {
  }

  // ----- repair and compression -----

  lemma {:induction false} KeptDecode(raw: seq<RawCall>, seen: set<string>, args: string -> Option<string>)
    requires CallsDecode(raw, args)
    ensures CallsDecode(KeepCalls(raw, seen), args)
  {
    if raw != [] {
      var now := if WellFormed(raw[0]) && CallId(raw[0]) !in seen then seen + {CallId(raw[0])} else seen;
      assert CallsDecode(raw[1..], args);
      KeptDecode(raw[1..], now, args);
    }
  }

  lemma {:induction false} RepairedRestores(ms: seq<Message>, args: string -> Option<string>)
    requires AllRestorable(ms, args)
    ensures AllRestorable(Repaired(ms), args)
    decreases |ms|
  {
    if ms != [] {
      var n := RawGroup(ms);
      GroupRestores(ms[0], ms[1..n], args);
      RepairedRestores(ms[n..], args);
      RestorableConcat(GroupMessages(ms[0], ms[1..n]), Repaired(ms[n..]), args);
    }
  }

  lemma GroupRestores(m: Message, run: seq<Message>, args: string -> Option<string>)
    requires Restorable(m, args) && AllRestorable(run, args)
    ensures AllRestorable(GroupMessages(m, run), args)
  {
    if OpensBatch(m) {
      var kept := KeepCalls(m.calls.calls, {});
      KeptDecode(m.calls.calls, {}, args);
      forall i | 0 <= i < |kept| ensures Restorable(Results(kept, run)[i], args) {
        FirstResultRestores(run, CallId(kept[i]), args);
      }
    }
  }

  lemma {:induction false} FirstResultRestores(run: seq<Message>, id: string, args: string -> Option<string>)
    requires AllRestorable(run, args)
    ensures FirstResult(run, id).Some? ==> Restorable(FirstResult(run, id).value, args)
  {
    if run != [] {
      FirstResultRestores(run[1..], id, args);
    }
  }

  lemma {:induction false} ChatRolesRestore(ms: seq<Message>, args: string -> Option<string>)
    requires AllRestorable(ms, args)
    ensures AllRestorable(ChatRoles(ms), args)
  {
    if ms != [] {
      ChatRolesRestore(ms[1..], args);
      assert Restorable(ms[0], args);
    }
  }

  lemma NormalizedRestores(ms: seq<Message>, args: string -> Option<string>)
    requires AllRestorable(ms, args)
    ensures AllRestorable(Normalized(ms).messages, args)
  {
    ChatRolesRestore(ms, args);
    RepairedRestores(Canonical(ms), args);
  }

  lemma {:induction false} StubsRestore(calls: seq<RawCall>, lost: set<string>, args: string -> Option<string>)
    ensures AllRestorable(StubsFor(calls, lost), args)
  {
    if calls != [] {
      StubsRestore(calls[1..], lost, args);
    }
  }

  lemma {:induction false} SanitizeWithRestores(ms: seq<Message>, orphans: set<string>, lost: set<string>,
                                                args: string -> Option<string>)
    requires AllRestorable(ms, args)
    ensures AllRestorable(SanitizeWith(ms, orphans, lost), args)
  {
    if ms != [] {
      SanitizeWithRestores(ms[1..], orphans, lost, args);
      if OpensBatch(ms[0]) {
        StubsRestore(ms[0].calls.calls, lost, args);
      }
      RestorableConcat([ms[0]], StubsBehind(ms[0], lost), args);
      var head := if Dropped(ms[0], orphans) then [] else [ms[0]] + StubsBehind(ms[0], lost);
      RestorableConcat(head, SanitizeWith(ms[1..], orphans, lost), args);
    }
  }

  lemma SanitizedRestores(ms: seq<Message>, args: string -> Option<string>)
    requires AllRestorable(ms, args)
    ensures AllRestorable(Sanitized(ms), args)
  {
    SanitizeWithRestores(ms, ResultIds(ms) - CallIds(ms), CallIds(ms) - ResultIds(ms), args);
  }

  lemma SplicedRestores(ms: seq<Message>, t: nat, summary: Option<string>, args: string -> Option<string>)
    requires HEAD_COUNT <= |ms| && t <= |ms| && AllRestorable(ms, args)
    ensures AllRestorable(Spliced(ms, t, summary), args)
  {
    RestorableConcat(ms[..HEAD_COUNT], SummaryPart(summary), args);
    RestorableConcat(ms[..HEAD_COUNT] + SummaryPart(summary), ms[t..], args);
  }

  lemma CompressedRestores(raw: seq<Message>, cfg: Config, actual: Option<int>, summary: Option<string>,
                           args: string -> Option<string>)
    requires AllRestorable(raw, args) && Compressed(raw, cfg, actual, summary).Some?
    ensures AllRestorable(Compressed(raw, cfg, actual, summary).value, args)
  {
    var ms := Normalized(raw).messages;
    NormalizedRestores(raw, args);
    SanitizedRestores(ms, args);
    if Cuts(ms, cfg, actual) {
      TailStartInRange(ms, cfg.tailBudget, cfg.est, |ms|);
      var t := TailStart(ms, cfg.tailBudget, cfg.est);
      var spliced := Spliced(ms, t, summary);
      SplicedRestores(ms, t, summary, args);
      SanitizedRestores(spliced, args);
      NormalizedRestores(Sanitized(spliced), args);
    }
  }

  lemma RewriteRestores(rows: seq<Message>, x: RewriteInputs, args: string -> Option<string>)
    requires AllRestorable(rows, args)
    ensures AllRestorable(Rewrite(rows, x).rows, args)
  {
    var ms := Normalized(rows).messages;
    NormalizedRestores(rows, args);
    if |ms| < 5 {
      NormalizedRestores(ms, args);
    } else if x.cfg.Some? && Compressed(ms, x.cfg.value, x.actual, x.summary).Some? {
      CompressedRestores(ms, x.cfg.value, x.actual, x.summary, args);
      NormalizedRestores(Compressed(ms, x.cfg.value, x.actual, x.summary).value, args);
    }
  }

  // ----- one run -----

  predicate ArgumentsDecode(calls: seq<ToolCall>, args: string -> Option<string>) {
    forall k :: 0 <= k < |calls| ==> args(calls[k].arguments).Some?
  }

  predicate ReplyDecodes(r: Reply, args: string -> Option<string>) {
    r.Reply? ==> ArgumentsDecode(r.calls, args)
  }

  /** The arguments the provider and the program hand out are encoded objects. */
  ghost predicate Decodable(w: World, args: string -> Option<string>) {
    && ReplyDecodes(w.emergencyReply, args)
    && (forall n :: ReplyDecodes(w.reply(n), args))
    && (forall text :: args(w.answerArguments(text)).Some?)
  }

  lemma DeclaredRestores(calls: seq<ToolCall>, content: string, args: string -> Option<string>)
    requires ArgumentsDecode(calls, args)
    ensures Restorable(Declared(calls, content), args)
  {
    var stored := AllStored(calls);
    forall j | 0 <= j < |stored| ensures args(Arguments(stored[j])).Some? {
      assert stored[j] == AsStored(calls[j]);
    }
  }

  lemma {:induction false} WriteRestores(d: Durable, ms: seq<Message>, w: World, args: string -> Option<string>)
    requires AllRestorable(d.rows, args) && AllRestorable(ms, args)
    ensures AllRestorable(Write(d, ms, w).rows, args)
  {
    if ms != [] {
      WriteRestores(d, ms[..|ms| - 1], w, args);
    }
  }

  lemma WroteRestores(s: State, n: nat, w: World, q: Setup, args: string -> Option<string>)
    requires Decodable(w, args)
    ensures AllRestorable(Wrote(s, w.reply(n), n, w, q), args)
  {
    var reply := w.reply(n);
    assert ReplyDecodes(reply, args);
    if reply.Reply? && reply.calls != [] {
      DeclaredRestores(reply.calls, reply.content, args);
    }
  }

  lemma TurnRestores(s: State, w: World, q: Setup, args: string -> Option<string>)
    requires AllRestorable(s.view.durable.rows, args) && Decodable(w, args)
    ensures AllRestorable(TurnStep(s, w, q).state.view.durable.rows, args)
  {
    var t := Consumed(s);
    var n := t.budget.iterationsUsed;
    var c := CallStep(t, n, w, q);
    RewriteRestores(s.view.durable.rows, StoreInputs(w.midRun(n), s.total), args);
    assert AllRestorable(c.view.durable.rows, args);
    WroteIsWritten(c, w.reply(n), n, w, q);
    WroteRestores(c, n, w, q, args);
    WriteRestores(c.view.durable, Wrote(c, w.reply(n), n, w, q), w, args);
  }

  lemma {:induction false} LoopRestores(s: State, w: World, q: Setup, args: string -> Option<string>)
    requires q.limits.enabled && AllRestorable(s.view.durable.rows, args) && Decodable(w, args)
    ensures AllRestorable(LoopRun(s, w, q).state.view.durable.rows, args)
    decreases Left(s, q)
  {
    TurnUsesIteration(s, w, q);
    TurnRestores(s, w, q, args);
    var r := TurnStep(s, w, q);
    if r.end.Again? {
      LoopRestores(r.state, w, q, args);
    }
  }

  lemma CascadeRestores(s: State, tc: ToolCall, result: Option<string>, w: World, args: string -> Option<string>)
    requires AllRestorable(s.view.durable.rows, args) && args(tc.arguments).Some?
    ensures AllRestorable(CascadeStep(s, tc, result, w).view.durable.rows, args)
  {
    DeclaredRestores([tc], "", args);
    WriteRestores(s.view.durable, CascadePart(tc, result), w, args);
  }

  lemma SalvageRestores(s: State, w: World, args: string -> Option<string>)
    requires AllRestorable(s.view.durable.rows, args) && Decodable(w, args)
    ensures AllRestorable(SalvageStep(s, w).state.view.durable.rows, args)
  {
    var t := Logged(Emergency(s, w));
    var reply := w.emergencyReply;
    var synthetic := Synthetic(if reply.Reply? then reply.content else "", w);
    if Obeys(reply, w) {
      CascadeRestores(t, reply.calls[0], w.cascadeTool(0), w, args);
      CascadeRestores(CascadeStep(t, reply.calls[0], w.cascadeTool(0), w), synthetic, w.cascadeTool(1), w, args);
    } else {
      CascadeRestores(t, synthetic, w.cascadeTool(1), w, args);
    }
  }

  lemma ConcludedRestores(r: Step, w: World, args: string -> Option<string>)
    requires AllRestorable(r.state.view.durable.rows, args) && Decodable(w, args)
    ensures AllRestorable(Concluded(r, w).state.view.durable.rows, args)
  {
    SalvageRestores(r.state, w, args);
    forall d: Durable, answer | AllRestorable(d.rows, args)
      ensures AllRestorable(Write(d, [Assistant(answer, Missing)], w).rows, args)
    {
      WriteRestores(d, [Assistant(answer, Missing)], w, args);
    }
  }

  /** A run that finds a store it can restore leaves one, however it ends. */
  lemma RunLeavesRestorable(rows: seq<Message>, fewShots: seq<Message>, args: string -> Option<string>, now: real,
                            w: World, q: Setup)
    requires q.limits.enabled && AllRestorable(rows, args) && Decodable(w, args)
    ensures Restores(rows, args, w)
    ensures AllRestorable(RunOf(rows, fewShots, args, now, w, q).state.view.durable.rows, args)
  {
    NormalizedRestores(History(rows, w), args);
    var s := Opening(rows, fewShots, args, now, w, q);
    WriteRestores(Durable(rows, 0, false), [User(q.request)], w, args);
    LoopRestores(s, w, q, args);
    ConcludedRestores(LoopRun(s, w, q), w, args);
  }

  // ----- a whole chat -----

  datatype Request = Request(fewShots: seq<Message>, now: real, world: World, setup: Setup)

  predicate AllEnabled(requests: seq<Request>) {
    forall k :: 0 <= k < |requests| ==> requests[k].setup.limits.enabled
  }

  /** The store behind a chat's runs, one after another; one that cannot start leaves it as it is. */
  function ChatRows(rows: seq<Message>, requests: seq<Request>, args: string -> Option<string>): seq<Message>
    requires AllEnabled(requests)
  {
    if requests == [] then rows
    else
      var before, r := ChatRows(rows, requests[..|requests| - 1], args), requests[|requests| - 1];
      if !Restores(before, args, r.world) then before
      else RunOf(before, r.fewShots, args, r.now, r.world, r.setup).state.view.durable.rows
  }

  lemma {:induction false} ChatStaysRestorable(rows: seq<Message>, requests: seq<Request>,
                                               args: string -> Option<string>)
    requires AllEnabled(requests) && AllRestorable(rows, args)
    requires forall k :: 0 <= k < |requests| ==> Decodable(requests[k].world, args)
    ensures AllRestorable(ChatRows(rows, requests, args), args)
  {
    if requests != [] {
      var front, r := requests[..|requests| - 1], requests[|requests| - 1];
      ChatStaysRestorable(rows, front, args);
      RunLeavesRestorable(ChatRows(rows, front, args), r.fewShots, args, r.now, r.world, r.setup);
    }
  }

  /** Every run of a chat that begins with an empty store can start, however the runs before it ended and
      whatever was compressed, rewritten or lost on the way. */
  lemma EveryRunStarts(requests: seq<Request>, args: string -> Option<string>, k: nat)
    requires AllEnabled(requests) && k < |requests|
    requires forall i :: 0 <= i < |requests| ==> Decodable(requests[i].world, args)
    ensures Restores(ChatRows([], requests[..k], args), args, requests[k].world)
  {
    ChatStaysRestorable([], requests[..k], args);
    NormalizedRestores(History(ChatRows([], requests[..k], args), requests[k].world), args);
  }

  /** One stored call whose arguments decode to no object, and no run of the chat starts again. */
  lemma {:induction false} WedgedStays(rows: seq<Message>, requests: seq<Request>, args: string -> Option<string>)
    requires AllEnabled(requests) && !AllRestorable(Normalized(rows).messages, args)
    requires forall k :: 0 <= k < |requests| ==> requests[k].world.sessionBound && requests[k].world.historyLoads
    ensures ChatRows(rows, requests, args) == rows
  {
    if requests != [] {
      WedgedStays(rows, requests[..|requests| - 1], args);
    }
  }
}
