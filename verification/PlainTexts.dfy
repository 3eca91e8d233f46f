/** A property of all assistant and tool texts that repair, compression, pruning and hints pass on; with
    "carries no hint marker" for the property, stripping hints never tears a batch. */
module PlainTexts {
  import opened Transcript
  import opened Normalization
  import opened Compression
  import opened ContextBuilding
  import opened StoreRewrite
  import opened TurnShapes
  import opened LoopWorld

  predicate Plain(m: Message, ok: string -> bool) {
    m.Assistant? || m.Tool? ==> ok(m.content)
  }

  predicate AllPlain(ms: seq<Message>, ok: string -> bool) {
    forall i :: 0 <= i < |ms| ==> Plain(ms[i], ok)
  }

  /** The texts the program itself puts in a result's place have the property too. */
  predicate FillersOk(ok: string -> bool) {
    ok(LOST_RESULT) && ok(COMPRESSED_RESULT) && ok(PLACEHOLDER)
  }

  lemma PlainConcat(a: seq<Message>, b: seq<Message>, ok: string -> bool)
    requires AllPlain(a, ok) && AllPlain(b, ok)
    ensures AllPlain(a + b, ok)
  {
  }

  lemma PlainSlice(ms: seq<Message>, i: nat, j: nat, ok: string -> bool)
    requires i <= j <= |ms| && AllPlain(ms, ok)
    ensures AllPlain(ms[i..j], ok)
  {
  }

  // ----- repair -----

  lemma {:induction false} FirstResultIsPlain(run: seq<Message>, id: string, ok: string -> bool)
    requires AllPlain(run, ok)
    ensures var r := FirstResult(run, id); r.Some? ==> Plain(r.value, ok)
  {
    if run != [] {
      FirstResultIsPlain(run[1..], id, ok);
    }
  }

  lemma ResultsArePlain(calls: seq<RawCall>, run: seq<Message>, ok: string -> bool)
    requires AllPlain(run, ok) && ok(LOST_RESULT)
    ensures AllPlain(Results(calls, run), ok)
  {
    var rs := Results(calls, run);
    forall i | 0 <= i < |rs| ensures Plain(rs[i], ok) {
      FirstResultIsPlain(run, CallId(calls[i]), ok);
    }
  }

  lemma GroupIsPlain(m: Message, run: seq<Message>, ok: string -> bool)
    requires Plain(m, ok) && AllPlain(run, ok) && ok(LOST_RESULT)
    ensures AllPlain(GroupMessages(m, run), ok)
  {
    if OpensBatch(m) {
      ResultsArePlain(KeepCalls(m.calls.calls, {}), run, ok);
    }
  }

  lemma {:induction false} RepairedIsPlain(ms: seq<Message>, ok: string -> bool)
    requires AllPlain(ms, ok) && ok(LOST_RESULT)
    ensures AllPlain(Repaired(ms), ok)
    decreases |ms|
  {
    if ms != [] {
      var n := RawGroup(ms);
      GroupIsPlain(ms[0], ms[1..n], ok);
      RepairedIsPlain(ms[n..], ok);
      PlainConcat(GroupMessages(ms[0], ms[1..n]), Repaired(ms[n..]), ok);
    }
  }

  lemma {:induction false} ChatRolesArePlain(ms: seq<Message>, ok: string -> bool)
    requires AllPlain(ms, ok)
    ensures AllPlain(ChatRoles(ms), ok)
  {
    if ms != [] {
      ChatRolesArePlain(ms[1..], ok);
      assert Plain(ms[0], ok);
    }
  }

  lemma NormalizedIsPlain(ms: seq<Message>, ok: string -> bool)
    requires AllPlain(ms, ok) && ok(LOST_RESULT)
    ensures AllPlain(Normalized(ms).messages, ok)
  {
    ChatRolesArePlain(ms, ok);
    RepairedIsPlain(Canonical(ms), ok);
  }

  // ----- compression -----

  lemma {:induction false} StubsArePlain(calls: seq<RawCall>, lost: set<string>, ok: string -> bool)
    requires ok(COMPRESSED_RESULT)
    ensures AllPlain(StubsFor(calls, lost), ok)
  {
    if calls != [] {
      StubsArePlain(calls[1..], lost, ok);
      PlainConcat(if CallId(calls[0]) in lost then [CompressedStub(calls[0])] else [], StubsFor(calls[1..], lost), ok);
    }
  }

  lemma {:induction false} SanitizeWithIsPlain(ms: seq<Message>, orphans: set<string>, lost: set<string>,
                                               ok: string -> bool)
    requires AllPlain(ms, ok) && ok(COMPRESSED_RESULT)
    ensures AllPlain(SanitizeWith(ms, orphans, lost), ok)
  {
    if ms != [] {
      var head := if Dropped(ms[0], orphans) then [] else [ms[0]] + StubsBehind(ms[0], lost);
      if OpensBatch(ms[0]) {
        StubsArePlain(ms[0].calls.calls, lost, ok);
      }
      PlainConcat([ms[0]], StubsBehind(ms[0], lost), ok);
      SanitizeWithIsPlain(ms[1..], orphans, lost, ok);
      PlainConcat(head, SanitizeWith(ms[1..], orphans, lost), ok);
    }
  }

  lemma SanitizedIsPlain(ms: seq<Message>, ok: string -> bool)
    requires AllPlain(ms, ok) && ok(COMPRESSED_RESULT)
    ensures AllPlain(Sanitized(ms), ok)
  {
    SanitizeWithIsPlain(ms, ResultIds(ms) - CallIds(ms), CallIds(ms) - ResultIds(ms), ok);
  }

  lemma SplicedIsPlain(ms: seq<Message>, t: nat, summary: Option<string>, ok: string -> bool)
    requires HEAD_COUNT <= |ms| && t <= |ms| && AllPlain(ms, ok)
    ensures AllPlain(Spliced(ms, t, summary), ok)
  {
    PlainConcat(ms[..HEAD_COUNT], SummaryPart(summary), ok);
    PlainConcat(ms[..HEAD_COUNT] + SummaryPart(summary), ms[t..], ok);
  }

  lemma CompressedIsPlain(raw: seq<Message>, cfg: Config, actual: Option<int>, summary: Option<string>,
                          ok: string -> bool)
    requires AllPlain(raw, ok) && FillersOk(ok) && Compressed(raw, cfg, actual, summary).Some?
    ensures AllPlain(Compressed(raw, cfg, actual, summary).value, ok)
  {
    var ms := Normalized(raw).messages;
    NormalizedIsPlain(raw, ok);
    SanitizedIsPlain(ms, ok);
    if Cuts(ms, cfg, actual) {
      TailStartInRange(ms, cfg.tailBudget, cfg.est, |ms|);
      var spliced := Spliced(ms, TailStart(ms, cfg.tailBudget, cfg.est), summary);
      SplicedIsPlain(ms, TailStart(ms, cfg.tailBudget, cfg.est), summary, ok);
      SanitizedIsPlain(spliced, ok);
      NormalizedIsPlain(Sanitized(spliced), ok);
    }
  }

  lemma RewriteIsPlain(rows: seq<Message>, x: RewriteInputs, ok: string -> bool)
    requires AllPlain(rows, ok) && FillersOk(ok)
    ensures AllPlain(Rewrite(rows, x).rows, ok)
    ensures Rewrite(rows, x).messages.Some? ==> AllPlain(Rewrite(rows, x).messages.value, ok)
  {
    NormalizedIsPlain(rows, ok);
    var ms := Normalized(rows).messages;
    if |ms| < 5 {
      NormalizedIsPlain(ms, ok);
    } else if x.cfg.Some? && Compressed(ms, x.cfg.value, x.actual, x.summary).Some? {
      CompressedIsPlain(ms, x.cfg.value, x.actual, x.summary, ok);
      NormalizedIsPlain(Compressed(ms, x.cfg.value, x.actual, x.summary).value, ok);
    }
  }

  lemma RestoredIsPlain(ms: seq<Message>, envelope: Option<string>, durable: Option<string>, ok: string -> bool)
    requires AllPlain(ms, ok)
    ensures AllPlain(Restored(ms, envelope, durable), ok)
  {
  }

  lemma PruneStageIsPlain(ms: seq<Message>, x: MidRunInputs, ok: string -> bool)
    requires AllPlain(ms, ok) && FillersOk(ok)
    ensures AllPlain(PruneStage(ms, x), ok)
  {
    var r := PruneStage(ms, x);
    forall i | 0 <= i < |r| ensures Plain(r[i], ok) {
      assert Plain(ms[i], ok);
    }
  }

  lemma InMemoryIsPlain(memory: seq<Message>, rows: seq<Message>, total: Option<int>, cfg: Config,
                        summary: Option<string>, ok: string -> bool)
    requires AllPlain(memory, ok) && FillersOk(ok)
    ensures AllPlain(InMemory(memory, rows, total, cfg, summary).memory, ok)
  {
    if Compressed(memory, cfg, total, summary).Some? {
      CompressedIsPlain(memory, cfg, total, summary, ok);
    }
  }

  lemma StoreBranchIsPlain(rows: seq<Message>, x: RewriteInputs, envelope: string, durable: string, ok: string -> bool)
    requires AllPlain(rows, ok) && FillersOk(ok)
    ensures var r := Rewrite(rows, x);
      && AllPlain(r.rows, ok)
      && (r.messages.Some? ==> AllPlain(Restored(r.messages.value, Some(envelope), Some(durable)), ok))
  {
    RewriteIsPlain(rows, x, ok);
    var r := Rewrite(rows, x);
    if r.messages.Some? {
      RestoredIsPlain(r.messages.value, Some(envelope), Some(durable), ok);
    }
  }

  /** The compression step hands the property on, to the list and to the rows. */
  lemma MidRunIsPlain(memory: seq<Message>, rows: seq<Message>, total: Option<int>, envelope: string,
                      durable: string, bound: bool, x: MidRunInputs, ok: string -> bool)
    requires AllPlain(memory, ok) && AllPlain(rows, ok) && FillersOk(ok)
    ensures var win := MidRun(memory, rows, total, envelope, durable, bound, x);
      AllPlain(win.memory, ok) && AllPlain(win.rows, ok)
  {
    PruneStageIsPlain(memory, x, ok);
    StoreBranchIsPlain(rows, StoreInputs(x, total), envelope, durable, ok);
    if x.cfg.Some? {
      InMemoryIsPlain(PruneStage(memory, x), rows, total, x.cfg.value, x.memorySummary, ok);
    }
  }

  // ----- hints -----

  /** A closed list whose assistant and tool texts carry no marker is never torn. */
  lemma {:induction false} PlainIsUntorn(ms: seq<Message>, ok: string -> bool, marked: string -> bool)
    requires Batches(ms) && AllPlain(ms, ok) && forall t :: ok(t) ==> !marked(t)
    ensures Untorn(ms, marked)
    decreases |ms|
  {
    if ms != [] {
      var n := HeadSize(ms);
      SplitGroup(ms);
      GroupTail(ms);
      var g := ms[..n];
      forall i | 0 <= i < n ensures marked(g[i].content) == marked(g[0].content) {
        assert Plain(ms[i], ok) && Plain(ms[0], ok);
      }
      PlainIsUntorn(ms[n..], ok, marked);
    }
  }

  lemma StrippedIsPlain(ms: seq<Message>, marked: string -> bool, ok: string -> bool)
    requires AllPlain(ms, ok)
    ensures AllPlain(Stripped(ms, marked), ok)
  {
    StripSelects(ms, marked);
    var r := Stripped(ms, marked);
    forall i | 0 <= i < |r| ensures Plain(r[i], ok) {
      assert r[i] in ms;
    }
  }

  lemma SoftHintedIsPlain(ms: seq<Message>, h: Hints, ok: string -> bool)
    requires AllPlain(ms, ok)
    ensures AllPlain(SoftHinted(ms, h), ok)
  {
    if h.soft {
      StrippedIsPlain(ms, h.softMarked, ok);
      PlainConcat(Stripped(ms, h.softMarked), Tail(h.softText), ok);
    }
  }

  lemma HintedIsPlain(ms: seq<Message>, h: Hints, ok: string -> bool)
    requires AllPlain(ms, ok)
    ensures AllPlain(Hinted(ms, h), ok)
  {
    SoftHintedIsPlain(ms, h, ok);
    StrippedIsPlain(SoftHinted(ms, h), h.webMarked, ok);
    PlainConcat(Stripped(SoftHinted(ms, h), h.webMarked), Tail(h.webText), ok);
  }

  predicate Unhinted(h: Hints, text: string) {
    (h.soft ==> !h.softMarked(text)) && !h.webMarked(text)
  }

  /** Neither hint pass tears a closed list without markers in its assistant and tool texts. */
  lemma PlainIsNeverTorn(ms: seq<Message>, h: Hints, ok: string -> bool)
    requires Batches(ms) && AllPlain(ms, ok) && forall t :: ok(t) ==> Unhinted(h, t)
    ensures !Tears(ms, h)
  {
    if h.soft {
      PlainIsUntorn(ms, ok, h.softMarked);
      StripKeepsBatches(ms, h.softMarked);
      TailKeeps(Stripped(ms, h.softMarked), h.softText);
    }
    SoftHintedIsPlain(ms, h, ok);
    PlainIsUntorn(SoftHinted(ms, h), ok, h.webMarked);
  }
}
