/** The cross-agent file-state registry, against the log of what was recorded with it. */
module FileState {
  import opened Transcript

  const MAX_PATHS_PER_AGENT := 4096

  /** One entry of a task's insertion-ordered stamp dictionary. */
  datatype Stamp = Stamp(path: string, mtime: int, size: int)

  datatype Event = Read(task: string, stamp: Stamp) | Write(task: string, path: string)

  predicate Has(stamps: seq<Stamp>, path: string) {
    exists i :: 0 <= i < |stamps| && stamps[i].path == path
  }

  /** Dictionary assignment: an existing key keeps its place, a new one goes to the end. */
  function Put(stamps: seq<Stamp>, s: Stamp): seq<Stamp> {
    if stamps == [] then [s]
    else if stamps[0].path == s.path then [s] + stamps[1..]
    else [stamps[0]] + Put(stamps[1..], s)
  }

  /** At the cap the oldest entry goes first, whatever is being recorded. */
  function Recorded(stamps: seq<Stamp>, s: Stamp): seq<Stamp> {
    Put(if |stamps| >= MAX_PATHS_PER_AGENT then stamps[1..] else stamps, s)
  }

  // ----- the log read as state -----

  function Stamps(log: seq<Event>, task: string): seq<Stamp> {
    if log == [] then []
    else
      var before, e := Stamps(log[..|log| - 1], task), log[|log| - 1];
      if e.Read? && e.task == task then Recorded(before, e.stamp) else before
  }

  function Writer(log: seq<Event>, path: string): Option<string> {
    if log == [] then None
    else
      var e := log[|log| - 1];
      if e.Write? && e.path == path then Some(e.task) else Writer(log[..|log| - 1], path)
  }

  datatype Verdict = Safe | NotRead | Foreign(writer: string)

  function Check(log: seq<Event>, task: string, path: string): Verdict {
    if !Has(Stamps(log, task), path) then NotRead
    else match Writer(log, path)
         case None => Safe
         case Some(t) => if t == task then Safe else Foreign(t)
  }

  lemma StampsSnoc(log: seq<Event>, e: Event, task: string)
    ensures Stamps(log + [e], task)
         == if e.Read? && e.task == task then Recorded(Stamps(log, task), e.stamp) else Stamps(log, task)
  {
    assert (log + [e])[..|log|] == log;
  }

  lemma WriterSnoc(log: seq<Event>, e: Event, path: string)
    ensures Writer(log + [e], path) == if e.Write? && e.path == path then Some(e.task) else Writer(log, path)
  {
    assert (log + [e])[..|log|] == log;
  }

  function StampsIn(m: map<string, seq<Stamp>>, task: string): seq<Stamp> {
    if task in m then m[task] else []
  }

  function WriterIn(m: map<string, string>, path: string): Option<string> {
    if path in m then Some(m[path]) else None
  }

  /** The two dictionaries say what the log says. */
  ghost predicate Mirrors(seen: map<string, seq<Stamp>>, writers: map<string, string>, log: seq<Event>) {
    && (forall task :: StampsIn(seen, task) == Stamps(log, task))
    && (forall path :: WriterIn(writers, path) == Writer(log, path))
  }

  lemma MirrorsRead(seen: map<string, seq<Stamp>>, writers: map<string, string>, log: seq<Event>, task: string,
                    s: Stamp, now: seq<Stamp>)
    requires Mirrors(seen, writers, log) && now == Recorded(StampsIn(seen, task), s)
    ensures Mirrors(seen[task := now], writers, log + [Read(task, s)])
  {
    forall t ensures StampsIn(seen[task := now], t) == Stamps(log + [Read(task, s)], t) {
      StampsSnoc(log, Read(task, s), t);
      assert StampsIn(seen, t) == Stamps(log, t);
    }
    forall p ensures WriterIn(writers, p) == Writer(log + [Read(task, s)], p) {
      WriterSnoc(log, Read(task, s), p);
    }
  }

  lemma MirrorsWrite(seen: map<string, seq<Stamp>>, writers: map<string, string>, log: seq<Event>, task: string,
                     path: string)
    requires Mirrors(seen, writers, log)
    ensures Mirrors(seen, writers[path := task], log + [Write(task, path)])
  {
    forall t ensures StampsIn(seen, t) == Stamps(log + [Write(task, path)], t) {
      StampsSnoc(log, Write(task, path), t);
    }
    forall p ensures WriterIn(writers[path := task], p) == Writer(log + [Write(task, path)], p) {
      WriterSnoc(log, Write(task, path), p);
      assert WriterIn(writers, p) == Writer(log, p);
    }
  }

  class FileStateRegistry {
    var readStamps: map<string, seq<Stamp>>
    var lastWriter: map<string, string>
    ghost var log: seq<Event>

    ghost predicate Valid()
      reads this
    {
      Mirrors(readStamps, lastWriter, log)
    }

    constructor ()
      ensures Valid() && log == []
    {
      readStamps, lastWriter, log := map[], map[], [];
    }

    method RecordRead(task: string, s: Stamp)
      requires Valid()
      modifies this
      ensures Valid() && log == old(log) + [Read(task, s)]
    {
      var stamps := StampsIn(readStamps, task);
      if |stamps| >= MAX_PATHS_PER_AGENT {
        stamps := stamps[1..];
      }
      stamps := Put(stamps, s);
      MirrorsRead(readStamps, lastWriter, log, task, s, stamps);
      readStamps := readStamps[task := stamps];
      log := log + [Read(task, s)];
    }

    method NoteWrite(task: string, path: string)
      requires Valid()
      modifies this
      ensures Valid() && log == old(log) + [Write(task, path)]
    {
      MirrorsWrite(readStamps, lastWriter, log, task, path);
      lastWriter := lastWriter[path := task];
      log := log + [Write(task, path)];
    }

    method CheckStale(task: string, path: string) returns (v: Verdict)
      requires Valid()
      ensures v == Check(log, task, path)
    {
      assert StampsIn(readStamps, task) == Stamps(log, task) && WriterIn(lastWriter, path) == Writer(log, path);
      if !Has(StampsIn(readStamps, task), path) {
        return NotRead;
      }
      if path in lastWriter && lastWriter[path] != task {
        return Foreign(lastWriter[path]);
      }
      return Safe;
    }

    /** `writes_since`: the paths last written by someone else, in the order asked. */
    method WritesSince(task: string, paths: seq<string>) returns (out: seq<string>)
      requires Valid()
      ensures forall p :: p in out <==> p in paths && Writer(log, p).Some? && Writer(log, p) != Some(task)
    {
      out := [];
      for i := 0 to |paths|
        invariant forall p :: p in out <==> p in paths[..i] && Writer(log, p).Some? && Writer(log, p) != Some(task)
      {
        var p := paths[i];
        assert paths[..i + 1] == paths[..i] + [p];
        assert WriterIn(lastWriter, p) == Writer(log, p);
        if p in lastWriter && lastWriter[p] != task {
          out := out + [p];
        }
      }
      assert paths[..|paths|] == paths;
    }
  }

  // ----- retention -----

  predicate DistinctPaths(stamps: seq<Stamp>) {
    forall i, j :: 0 <= i < j < |stamps| ==> stamps[i].path != stamps[j].path
  }

  lemma {:induction false} PutMeans(stamps: seq<Stamp>, s: Stamp)
    requires DistinctPaths(stamps)
    ensures DistinctPaths(Put(stamps, s))
    ensures |Put(stamps, s)| == |stamps| + if Has(stamps, s.path) then 0 else 1
    ensures forall p :: Has(Put(stamps, s), p) <==> p == s.path || Has(stamps, p)
  {
    if stamps == [] {
      assert [s][0] == s;
    } else {
      var rest := stamps[1..];
      HasCons(stamps[0], rest);
      assert stamps == [stamps[0]] + rest;
      if stamps[0].path == s.path {
        HasCons(s, rest);
      } else {
        PutMeans(rest, s);
        HasCons(stamps[0], Put(rest, s));
        DistinctCons(stamps[0], Put(rest, s));
      }
    }
  }

  lemma HasCons(s: Stamp, rest: seq<Stamp>)
    ensures forall p :: Has([s] + rest, p) <==> p == s.path || Has(rest, p)
  {
    forall p ensures Has([s] + rest, p) <==> p == s.path || Has(rest, p) {
      assert ([s] + rest)[0] == s;
      if Has(rest, p) {
        var i :| 0 <= i < |rest| && rest[i].path == p;
        assert ([s] + rest)[i + 1] == rest[i];
      }
    }
  }

  lemma DistinctCons(s: Stamp, rest: seq<Stamp>)
    requires DistinctPaths(rest) && !Has(rest, s.path)
    ensures DistinctPaths([s] + rest)
  {
  }

  /** Whatever is recorded, a task never keeps more than the cap, each path once. */
  lemma {:induction false} StampsAreBounded(log: seq<Event>, task: string)
    ensures |Stamps(log, task)| <= MAX_PATHS_PER_AGENT && DistinctPaths(Stamps(log, task))
  {
    if log != [] {
      var front, e := log[..|log| - 1], log[|log| - 1];
      StampsAreBounded(front, task);
      if e.Read? && e.task == task {
        var before := Stamps(front, task);
        PutMeans(if |before| >= MAX_PATHS_PER_AGENT then before[1..] else before, e.stamp);
      }
    }
  }

  /** The read just recorded is retained, and so is every other path unless it was the oldest of a full cache. */
  lemma JustReadIsRetained(log: seq<Event>, task: string, s: Stamp, path: string)
    ensures var before := Stamps(log, task); var after := Stamps(log + [Read(task, s)], task);
      var kept := Has(before, path) && (|before| < MAX_PATHS_PER_AGENT || before[0].path != path);
      Has(after, path) == (path == s.path || kept)
  {
    var before := Stamps(log, task);
    StampsAreBounded(log, task);
    StampsSnoc(log, Read(task, s), task);
    if |before| >= MAX_PATHS_PER_AGENT {
      HasCons(before[0], before[1..]);
      assert before == [before[0]] + before[1..];
      PutMeans(before[1..], s);
    } else {
      PutMeans(before, s);
    }
  }

  // ----- what a verdict means -----

  /** The position of the agent's last read of the path. */
  function LastRead(log: seq<Event>, task: string, path: string): (r: Option<nat>)
    ensures r.Some? ==> r.value < |log|
  {
    if log == [] then None
    else
      var e := log[|log| - 1];
      if e.Read? && e.task == task && e.stamp.path == path then Some(|log| - 1)
      else LastRead(log[..|log| - 1], task, path)
  }

  /** The position of the last write of the path, by anyone. */
  function LastWrite(log: seq<Event>, path: string): (r: Option<nat>)
    ensures r.Some? ==> r.value < |log|
  {
    if log == [] then None
    else
      var e := log[|log| - 1];
      if e.Write? && e.path == path then Some(|log| - 1) else LastWrite(log[..|log| - 1], path)
  }

  lemma {:induction false} RetainedWasRead(log: seq<Event>, task: string, path: string)
    requires Has(Stamps(log, task), path)
    ensures LastRead(log, task, path).Some?
  {
    var front, e := log[..|log| - 1], log[|log| - 1];
    assert log == front + [e];
    if e.Read? && e.task == task {
      JustReadIsRetained(front, task, e.stamp, path);
    }
    if !(e.Read? && e.task == task && e.stamp.path == path) {
      RetainedWasRead(front, task, path);
    }
  }

  lemma {:induction false} LastReadMeans(log: seq<Event>, task: string, path: string)
    ensures match LastRead(log, task, path)
      case Some(r) => r < |log| && log[r].Read? && log[r].task == task && log[r].stamp.path == path
      case None => true
  {
    if log != [] {
      LastReadMeans(log[..|log| - 1], task, path);
    }
  }

  lemma {:induction false} LastWriteMeans(log: seq<Event>, path: string)
    ensures match LastWrite(log, path)
      case Some(k) => k < |log| && log[k].Write? && log[k].path == path && Writer(log, path) == Some(log[k].task)
                      && forall j :: k < j < |log| ==> !(log[j].Write? && log[j].path == path)
      case None => Writer(log, path) == None && forall j :: 0 <= j < |log| ==> !(log[j].Write? && log[j].path == path)
  {
    if log != [] {
      LastWriteMeans(log[..|log| - 1], path);
    }
  }

  /** A safe verdict is justified: the agent has read the path, and the latest write, if any, is its own. */
  lemma SafeIsJustified(log: seq<Event>, task: string, path: string)
    requires Check(log, task, path) == Safe
    ensures LastRead(log, task, path).Some?
    ensures LastWrite(log, path).Some? ==> log[LastWrite(log, path).value] == Write(task, path)
  {
    RetainedWasRead(log, task, path);
    LastWriteMeans(log, path);
  }

  /** The position of the last write of the path by another agent. */
  function LastForeignWrite(log: seq<Event>, task: string, path: string): (r: Option<nat>)
    ensures r.Some? ==> r.value < |log|
  {
    if log == [] then None
    else
      var e := log[|log| - 1];
      if e.Write? && e.path == path && e.task != task then Some(|log| - 1)
      else LastForeignWrite(log[..|log| - 1], task, path)
  }

  lemma {:induction false} LastForeignWriteMeans(log: seq<Event>, task: string, path: string)
    ensures match LastForeignWrite(log, task, path)
      case Some(f) => ForeignAt(log, f, task, path) && forall j :: f < j < |log| ==> !ForeignAt(log, j, task, path)
      case None => forall j :: 0 <= j < |log| ==> !ForeignAt(log, j, task, path)
  {
    if log != [] {
      var front := log[..|log| - 1];
      LastForeignWriteMeans(front, task, path);
      forall j | 0 <= j < |front| ensures ForeignAt(front, j, task, path) == ForeignAt(log, j, task, path) {
      }
    }
  }

  predicate ForeignAt(log: seq<Event>, j: int, task: string, path: string) {
    0 <= j < |log| && log[j].Write? && log[j].path == path && log[j].task != task
  }

  /** What the registry is documented to say: read, and not written by another agent since. */
  ghost predicate DocumentedSafe(log: seq<Event>, task: string, path: string) {
    && LastRead(log, task, path).Some?
    && forall j :: LastRead(log, task, path).value < j < |log| ==> !ForeignAt(log, j, task, path)
  }

  /** The documented verdict by positions. */
  lemma DocumentedSafeIff(log: seq<Event>, task: string, path: string)
    ensures var r, f := LastRead(log, task, path), LastForeignWrite(log, task, path);
      DocumentedSafe(log, task, path) <==> r.Some? && (f.None? || f.value < r.value)
  {
    LastForeignWriteMeans(log, task, path);
    LastReadMeans(log, task, path);
  }

  lemma OwnLastIff(log: seq<Event>, task: string, path: string)
    ensures var f, k, w := LastForeignWrite(log, task, path), LastWrite(log, path), Writer(log, path);
      (w.None? || w == Some(task)) <==> (f.None? || f != k)
  {
    var f, k := LastForeignWrite(log, task, path), LastWrite(log, path);
    LastWriteMeans(log, path);
    LastForeignWriteMeans(log, task, path);
    if k.Some? {
      assert ForeignAt(log, k.value, task, path) <==> log[k.value].task != task;
    }
  }

  /** The verdict of the code by positions: the read is retained, and the last write of all is not foreign. */
  lemma SafeIff(log: seq<Event>, task: string, path: string)
    ensures var f, k := LastForeignWrite(log, task, path), LastWrite(log, path);
      Check(log, task, path) == Safe <==> Has(Stamps(log, task), path) && (f.None? || f != k)
  {
    OwnLastIff(log, task, path);
  }

  /** A stale file goes without a warning exactly when the read is retained, another agent wrote behind
      it, and the agent has itself written behind that. */
  lemma MissedIff(log: seq<Event>, task: string, path: string)
    ensures var r, f, k := LastRead(log, task, path), LastForeignWrite(log, task, path), LastWrite(log, path);
      (Check(log, task, path) == Safe && !DocumentedSafe(log, task, path))
      <==> (Has(Stamps(log, task), path) && r.Some? && f.Some? && k.Some? && r.value < f.value < k.value)
  {
    DocumentedSafeIff(log, task, path);
    SafeIff(log, task, path);
    LastWriteMeans(log, path);
    LastForeignWriteMeans(log, task, path);
    LastReadMeans(log, task, path);
    if Has(Stamps(log, task), path) {
      RetainedWasRead(log, task, path);
    }
  }

  /** A warning is given although nothing is stale exactly when every foreign write lies before the last
      read, and either that read has been evicted or the last write of all is foreign: a re-read never
      clears a foreign writer, and an evicted read counts as none. */
  lemma FalseAlarmIff(log: seq<Event>, task: string, path: string)
    ensures var r, f, k := LastRead(log, task, path), LastForeignWrite(log, task, path), LastWrite(log, path);
      (Check(log, task, path) != Safe && DocumentedSafe(log, task, path))
      <==> (r.Some? && (f.None? || f.value < r.value) && (!Has(Stamps(log, task), path) || (f.Some? && f == k)))
  {
    DocumentedSafeIff(log, task, path);
    SafeIff(log, task, path);
  }

  // ----- below the cap -----

  /** The files the agent has read. */
  function PathsRead(log: seq<Event>, task: string): set<string> {
    if log == [] then {}
    else
      var before, e := PathsRead(log[..|log| - 1], task), log[|log| - 1];
      if e.Read? && e.task == task then before + {e.stamp.path} else before
  }

  /** Fewer files than the cap had been read when the last event came. */
  predicate BelowCap(log: seq<Event>, task: string) {
    log == [] || |PathsRead(log[..|log| - 1], task)| < MAX_PATHS_PER_AGENT
  }

  lemma {:induction false} PathsGrow(log: seq<Event>, task: string)
    requires BelowCap(log, task) && log != []
    ensures BelowCap(log[..|log| - 1], task)
  {
    var front := log[..|log| - 1];
    if front != [] {
      var before := PathsRead(front[..|front| - 1], task);
      assert before <= PathsRead(front, task);
      SubsetSize(before, PathsRead(front, task));
    }
  }

  lemma SubsetSize(a: set<string>, b: set<string>)
    requires a <= b
    ensures |a| <= |b|
  {
    assert b == a + (b - a);
  }

  /** Below the cap nothing is evicted: a read is retained exactly when there was one. */
  lemma {:induction false} RetainedBelowCap(log: seq<Event>, task: string)
    requires BelowCap(log, task)
    ensures |Stamps(log, task)| == |PathsRead(log, task)|
    ensures forall p :: Has(Stamps(log, task), p) <==> p in PathsRead(log, task)
    ensures forall p :: LastRead(log, task, p).Some? <==> p in PathsRead(log, task)
  {
    if log != [] {
      var front, e := log[..|log| - 1], log[|log| - 1];
      PathsGrow(log, task);
      RetainedBelowCap(front, task);
      StampsAreBounded(front, task);
      if e.Read? && e.task == task {
        PutMeans(Stamps(front, task), e.stamp);
      }
    }
  }

  /** There both verdicts are wrong by positions alone. */
  lemma BelowCapIff(log: seq<Event>, task: string, path: string)
    requires BelowCap(log, task)
    ensures var r, f, k := LastRead(log, task, path), LastForeignWrite(log, task, path), LastWrite(log, path);
      && (Check(log, task, path) == Safe && !DocumentedSafe(log, task, path)
          <==> r.Some? && f.Some? && k.Some? && r.value < f.value < k.value)
      && (Check(log, task, path) != Safe && DocumentedSafe(log, task, path)
          <==> r.Some? && f.Some? && f.value < r.value && f == k)
  {
    RetainedBelowCap(log, task);
    MissedIff(log, task, path);
    FalseAlarmIff(log, task, path);
  }

  // ----- eviction is reachable -----

  /** `n` reads of as many distinct files. */
  function Reads(task: string, n: nat): (log: seq<Event>)
    ensures |log| == n
  {
    if n == 0 then [] else Reads(task, n - 1) + [Read(task, Stamp(Name(n - 1), 0, 0))]
  }

  function Name(i: nat): (s: string)
    ensures |s| == i
  {
    seq(i, _ => 'f')
  }

  function Named(n: nat): (s: seq<Stamp>)
    ensures |s| == n && forall i :: 0 <= i < n ==> s[i] == Stamp(Name(i), 0, 0)
  {
    seq(n, i requires 0 <= i < n => Stamp(Name(i), 0, 0))
  }

  lemma {:induction false} PutNew(stamps: seq<Stamp>, s: Stamp)
    requires forall i :: 0 <= i < |stamps| ==> stamps[i].path != s.path
    ensures Put(stamps, s) == stamps + [s]
  {
    if stamps != [] {
      PutNew(stamps[1..], s);
      assert stamps == [stamps[0]] + stamps[1..];
    }
  }

  lemma NamesDiffer(i: nat, j: nat)
    requires i != j
    ensures Name(i) != Name(j)
  {
    assert |Name(i)| != |Name(j)|;
  }

  lemma {:induction false} ReadsAreStamped(task: string, n: nat)
    requires n <= MAX_PATHS_PER_AGENT
    ensures Stamps(Reads(task, n), task) == Named(n)
  {
    if n > 0 {
      ReadsAreStamped(task, n - 1);
      var s := Stamp(Name(n - 1), 0, 0);
      StampsSnoc(Reads(task, n - 1), Read(task, s), task);
      var before := Named(n - 1);
      forall i | 0 <= i < n - 1 ensures before[i].path != s.path {
        NamesDiffer(i, n - 1);
      }
      PutNew(before, s);
      assert before + [s] == Named(n);
    }
  }

  lemma {:induction false} FirstReadIsKept(task: string, n: nat)
    requires n >= 1
    ensures LastRead(Reads(task, n), task, Name(0)) == Some(0)
  {
    LastReadSnoc(Reads(task, n - 1), Read(task, Stamp(Name(n - 1), 0, 0)), task, Name(0));
    if n > 1 {
      FirstReadIsKept(task, n - 1);
      NamesDiffer(n - 1, 0);
    } else {
      assert Reads(task, 0) == [];
    }
  }

  lemma {:induction false} OnlyReads(task: string, n: nat, j: nat)
    requires j < n
    ensures Reads(task, n)[j].Read?
  {
    if j < n - 1 {
      OnlyReads(task, n - 1, j);
    }
  }

  /** One read over the cap: the first file was read and nobody ever wrote it, and the registry says it
      was not read. */
  lemma EvictionHappens(task: string)
    ensures var log := Reads(task, MAX_PATHS_PER_AGENT + 1);
      Check(log, task, Name(0)) == NotRead && DocumentedSafe(log, task, Name(0))
  {
    var cap := MAX_PATHS_PER_AGENT;
    var s := Stamp(Name(cap), 0, 0);
    ReadsAreStamped(task, cap);
    JustReadIsRetained(Reads(task, cap), task, s, Name(0));
    NamesDiffer(0, cap);
    FirstReadIsKept(task, cap + 1);
    var log := Reads(task, cap + 1);
    forall j | 0 <= j < cap + 1 ensures !ForeignAt(log, j, task, Name(0)) {
      OnlyReads(task, cap + 1, j);
    }
  }

  /** Both happen: read, foreign write, re-read warns; read, foreign write, own write is silent. */
  lemma BothHappen(a: string, b: string, s: Stamp)
    requires a != b
    ensures var log := [Read(a, s), Write(b, s.path), Read(a, s)];
      Check(log, a, s.path) == Foreign(b) && DocumentedSafe(log, a, s.path)
    ensures var log := [Read(a, s), Write(b, s.path), Write(a, s.path)];
      Check(log, a, s.path) == Safe && !DocumentedSafe(log, a, s.path)
  {
    var l1, l2 := [Read(a, s)], [Read(a, s), Write(b, s.path)];
    assert l1 == [] + [Read(a, s)] && l2 == l1 + [Write(b, s.path)];
    StampsSnoc([], Read(a, s), a);
    StampsSnoc(l1, Write(b, s.path), a);
    JustReadIsRetained([], a, s, s.path);
    var alarm, missed := l2 + [Read(a, s)], l2 + [Write(a, s.path)];
    assert alarm == [Read(a, s), Write(b, s.path), Read(a, s)];
    assert missed == [Read(a, s), Write(b, s.path), Write(a, s.path)];
    JustReadIsRetained(l2, a, s, s.path);
    StampsSnoc(l2, Write(a, s.path), a);
    WriterSnoc(l1, Write(b, s.path), s.path);
    WriterSnoc(l2, Read(a, s), s.path);
    WriterSnoc(l2, Write(a, s.path), s.path);
    LastReadSnoc(l2, Read(a, s), a, s.path);
    LastReadSnoc(l2, Write(a, s.path), a, s.path);
    LastReadSnoc(l1, Write(b, s.path), a, s.path);
    LastReadSnoc([], Read(a, s), a, s.path);
    assert ForeignAt(missed, 1, a, s.path);
  }

  lemma LastReadSnoc(log: seq<Event>, e: Event, task: string, path: string)
    ensures LastRead(log + [e], task, path)
         == if e.Read? && e.task == task && e.stamp.path == path then Some(|log|) else LastRead(log, task, path)
  {
    assert (log + [e])[..|log|] == log;
  }
}
