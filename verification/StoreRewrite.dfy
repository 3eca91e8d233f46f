/** Store-first compression: the durable transcript is compressed and rewritten, and the
    in-memory list is realigned with it. */
module StoreRewrite {
  import opened Transcript
  import opened Normalization
  import opened NormalizationTheorems
  import opened Compression
  import opened CompressionTheorems
  import opened ContextBuilding

  datatype Status = Rewritten | Noop | TooFew | LoadFailed | CompressFailed | WriteFailed | Unavailable

  /** One session's durable rows. */
  class ChatContextStore {
    var rows: seq<Message>

    constructor (initial: seq<Message>)
      ensures rows == initial
    {
      rows := initial;
    }

    method Append(m: Message)
      modifies this
      ensures rows == old(rows) + [m]
    {
      rows := rows + [m];
    }

    method Replace(messages: seq<Message>)
      modifies this
      ensures rows == messages
    {
      rows := messages;
    }
  }

  /** What the outside world answers during one rewrite. */
  datatype RewriteInputs = RewriteInputs(
    cfg: Option<Config>, actual: Option<int>, summary: Option<string>, loadOk: bool, writeOk: bool)

  datatype RewriteResult = RewriteResult(status: Status, messages: Option<seq<Message>>, rows: seq<Message>)

  /** The durable transcript after normalising, compressing and normalising again; None when
      compression raises. */
  function RewriteTarget(rows: seq<Message>, x: RewriteInputs, cfg: Config): Option<seq<Message>> {
    var ms := Normalized(rows).messages;
    if |ms| < 5 then Some(Normalized(ms).messages)
    else match Compressed(ms, cfg, x.actual, x.summary)
         case None => None
         case Some(out) => Some(Normalized(out).messages)
  }

  function Rewrite(rows: seq<Message>, x: RewriteInputs): RewriteResult {
    if x.cfg.None? then RewriteResult(Unavailable, None, rows)
    else if !x.loadOk then RewriteResult(LoadFailed, None, rows)
    else
      var target := RewriteTarget(rows, x, x.cfg.value);
      if target.None? then RewriteResult(CompressFailed, None, rows)
      else if target.value == rows then
        if |rows| < 5 then RewriteResult(TooFew, None, rows) else RewriteResult(Noop, target, rows)
      else if !x.writeOk then RewriteResult(WriteFailed, None, rows)
      else RewriteResult(Rewritten, target, target.value)
  }

  method CompressStoreTranscript(store: ChatContextStore, x: RewriteInputs)
    returns (messages: Option<seq<Message>>, before: nat, status: Status)
    modifies store
    ensures var r := Rewrite(old(store.rows), x);
      status == r.status && messages == r.messages && store.rows == r.rows
    ensures before == if status in {Unavailable, LoadFailed} then 0 else |old(store.rows)|
  {
    if x.cfg.None? {
      return None, 0, Unavailable;
    }
    if !x.loadOk {
      return None, 0, LoadFailed;
    }
    var original := store.rows;
    before := |original|;
    var input := NormalizeTranscript(original);
    var compressed := input.messages;
    if |compressed| >= 5 {
      var out := Compress(compressed, x.cfg.value, x.actual, x.summary);
      if out.None? {
        return None, before, CompressFailed;
      }
      compressed := out.value;
    }
    var output := NormalizeTranscript(compressed);
    compressed := output.messages;
    if compressed == original {
      if before < 5 {
        return None, before, TooFew;
      }
      return Some(compressed), before, Noop;
    }
    if !x.writeOk {
      return None, before, WriteFailed;
    }
    store.Replace(compressed);
    return Some(compressed), before, Rewritten;
  }

  /** What a store-first compression leaves behind, for every stored history. A rewrite leaves a
      valid transcript that normalisation fixes; every other outcome leaves the rows alone; "noop"
      and "too few" mean the rows were valid already; and when loading and writing work, the rows
      are valid afterwards unless compression raised, which happens exactly when a transcript of
      five or more normalised messages holds a `tool_calls` value that is not a list. */
  lemma RewriteIsSafe(rows: seq<Message>, x: RewriteInputs)
    ensures var r := Rewrite(rows, x); var ms := Normalized(rows).messages;
      && (r.status == Rewritten ==> Valid(r.rows) && Normalized(r.rows).messages == r.rows
                                    && r.messages == Some(r.rows) && r.rows != rows)
      && (r.status != Rewritten ==> r.rows == rows)
      && (r.status in {Noop, TooFew} ==> Valid(rows))
      && (r.status == CompressFailed <==> x.cfg.Some? && x.loadOk && |ms| >= 5 && HasNonList(ms))
      && (x.cfg.Some? && x.loadOk && x.writeOk && r.status != CompressFailed ==> Valid(r.rows))
  {
    var ms := Normalized(rows).messages;
    NormalizedIsValid(rows);
    NormalizeIsIdempotent(rows);
    if x.cfg.Some? && x.loadOk {
      if |ms| >= 5 {
        CompressShape(ms, x.cfg.value, x.actual, x.summary);
        var out := Compressed(ms, x.cfg.value, x.actual, x.summary);
        if out.Some? {
          NormalizedIsValid(out.value);
          NormalizeIsIdempotent(out.value);
        }
      }
    }
  }

  /** What the store is rewritten to, and when it is left alone: `out` is what compressing the normalised rows
      comes to, and the status only says how it compares with the rows, and whether writing worked. */
  lemma RewriteMeans(rows: seq<Message>, x: RewriteInputs) returns (out: seq<Message>)
    requires x.cfg.Some? && x.loadOk && Rewrite(rows, x).status != CompressFailed
    ensures CompressesTo(Normalized(rows).messages, x.cfg.value, x.actual, x.summary, out)
    ensures var r := Rewrite(rows, x);
      && (r.status == TooFew <==> out == rows && |rows| < 5)
      && (r.status == Noop <==> out == rows && |rows| >= 5)
      && (r.status == WriteFailed <==> out != rows && !x.writeOk)
      && (r.status == Rewritten <==> out != rows && x.writeOk)
      && r.rows == (if x.writeOk then out else rows)
      && r.messages == if r.status in {Noop, Rewritten} then Some(out) else None
  {
    var ms := Normalized(rows).messages;
    NormalizedIsValid(rows);
    NormalizeIsIdempotent(rows);
    out := ms;
    if |ms| < 5 {
      assert forall t: nat :: !TailAt(ms, x.cfg.value, t);
    } else {
      CompressMeans(ms, x.cfg.value, x.actual, x.summary);
      out := Compressed(ms, x.cfg.value, x.actual, x.summary).value;
      CompressedIsValid(ms, x.cfg.value, x.actual, x.summary);
      ValidIsUntouched(out);
    }
  }

  /** A valid transcript that compression does not cut is left as it is. */
  lemma UncutIsKept(rows: seq<Message>, x: RewriteInputs)
    requires x.cfg.Some? && x.loadOk && Valid(rows) && !HasNonList(rows)
    requires !Heavy(rows, x.cfg.value, x.actual) || forall t: nat :: !TailAt(rows, x.cfg.value, t)
    ensures Rewrite(rows, x).rows == rows && Rewrite(rows, x).status == if |rows| < 5 then TooFew else Noop
  {
    ValidIsUntouched(rows);
    RewriteIsSafe(rows, x);
    var out := RewriteMeans(rows, x);
  }

  // ----- putting the per-run envelope back -----

  /** The last position holding exactly this user text. */
  function LastUser(ms: seq<Message>, text: string): Option<nat> {
    if ms == [] then None
    else if ms[|ms| - 1] == User(text) then Some(|ms| - 1)
    else LastUser(ms[..|ms| - 1], text)
  }

  lemma {:induction false} LastUserMeans(ms: seq<Message>, text: string)
    ensures match LastUser(ms, text)
      case Some(k) => k < |ms| && ms[k] == User(text) && forall j :: k < j < |ms| ==> ms[j] != User(text)
      case None => User(text) !in ms
  {
    if ms != [] {
      var front := ms[..|ms| - 1];
      assert ms == front + [ms[|ms| - 1]];
      LastUserMeans(front, text);
    }
  }

  function Restored(ms: seq<Message>, envelope: Option<string>, durable: Option<string>): seq<Message> {
    if envelope.None? || envelope.value == "" || User(envelope.value) in ms then ms
    else
      var last := if durable.Some? then LastUser(ms, durable.value) else None;
      if last.Some? && last.value < |ms| then ms[last.value := User(envelope.value)]
      else ms + [User(envelope.value)]
  }

  /** `_restore_ephemeral_user_message`. */
  method RestoreEphemeral(messages: seq<Message>, envelope: Option<string>, durable: Option<string>)
    returns (restored: seq<Message>)
    ensures restored == Restored(messages, envelope, durable)
  {
    restored := messages;
    if envelope.None? || envelope.value == "" || User(envelope.value) in messages {
      return;
    }
    if durable.Some? {
      var index := |messages|;
      LastUserMeans(messages, durable.value);
      assert messages[..index] == messages;
      while index > 0
        invariant 0 <= index <= |messages|
        invariant LastUser(messages[..index], durable.value) == LastUser(messages, durable.value)
      {
        index := index - 1;
        assert messages[..index + 1][..index] == messages[..index];
        if messages[index] == User(durable.value) {
          restored := messages[index := User(envelope.value)];
          return;
        }
      }
    }
    restored := messages + [User(envelope.value)];
  }

  /** `r` is `ms` with the last copy of the durable request replaced by the envelope, or the envelope appended
      when there is no copy; nothing is done without an envelope, or when it is there already. */
  ghost predicate PutsBack(r: seq<Message>, ms: seq<Message>, envelope: Option<string>, durable: Option<string>) {
    if envelope.None? || envelope.value == "" || User(envelope.value) in ms then r == ms
    else if durable.Some? && User(durable.value) in ms then
      exists k :: 0 <= k < |ms| && ms[k] == User(durable.value)
        && (forall j :: k < j < |ms| ==> ms[j] != User(durable.value)) && r == ms[k := User(envelope.value)]
    else r == ms + [User(envelope.value)]
  }

  /** The realigned list is the durable one except for the active request: it is still valid and contains
      the envelope. */
  lemma RestoreKeepsRequest(ms: seq<Message>, envelope: Option<string>, durable: Option<string>)
    requires Valid(ms)
    ensures var r := Restored(ms, envelope, durable);
      && Valid(r)
      && (envelope.Some? && envelope.value != "" ==> User(envelope.value) in r)
      && PutsBack(r, ms, envelope, durable)
  {
    var r := Restored(ms, envelope, durable);
    if durable.Some? {
      LastUserMeans(ms, durable.value);
    }
    if r != ms {
      if |r| == |ms| {
        var k := LastUser(ms, durable.value).value;
        assert r[k] == User(envelope.value);
        TextIsFree(ms, r);
      } else {
        UserIsClosed(envelope.value);
        BatchesConcat(ms, [User(envelope.value)]);
        assert r[|ms|] == User(envelope.value);
      }
    }
  }
}
