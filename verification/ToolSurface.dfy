/** Which tools the model is shown: phase detection and the phase filter over the base schema. */
module ToolSurface {
  import opened Transcript
  import opened Subsequence

  datatype Phase = Reading | Memory | Analyzing | Executing

  datatype Profile = Main | Office | Execution | NoProfile

  /** The name sets detection and filtering depend on. */
  datatype Catalogue = Catalogue(
    analyze: set<string>, writes: set<string>, memory: set<string>,
    readingAllow: set<string>, memoryAllow: set<string>, analyzingAllow: set<string>, executingAllow: set<string>)

  const ANALYZE_TOOLS := {"table_query", "excel_workbook", "excel_inspect", "pdf_reader", "chart_generate", "diff_text"}
  const MUTATING_TOOLS := {"write_file", "edit_file", "exec_script", "normalize_excel", "convert_format"}
  const WRITE_TOOLS := MUTATING_TOOLS + {"excel_workbook", "chart_generate", "normalize_excel", "convert_format"}
  const MEMORY_TOOLS := {"memory_store", "memory_recall"}
  const READING_ALLOW := {"read_file", "list_files", "search_files", "excel_inspect", "read_image", "memory_recall",
    "dispatch_subagent", "web_fetch", "web_search", "send_file"} + ANALYZE_TOOLS
  const ANALYZING_ALLOW := READING_ALLOW + {"memory_store"}
  const EXECUTING_ALLOW := ANALYZING_ALLOW + MUTATING_TOOLS + WRITE_TOOLS
  const MEMORY_ALLOW :=
    {"memory_store", "memory_recall", "read_file", "list_files", "search_files", "dispatch_subagent"}

  const DISPATCH := "dispatch_subagent"

  function BuiltIn(): Catalogue {
    Catalogue(ANALYZE_TOOLS, WRITE_TOOLS, MEMORY_TOOLS, READING_ALLOW, MEMORY_ALLOW, ANALYZING_ALLOW, EXECUTING_ALLOW)
  }

  function Allow(c: Catalogue, p: Phase): set<string> {
    match p
    case Reading => c.readingAllow
    case Memory => c.memoryAllow
    case Analyzing => c.analyzingAllow
    case Executing => c.executingAllow
  }

  function Known(c: Catalogue): set<string> {
    c.readingAllow + c.memoryAllow + c.analyzingAllow + c.executingAllow
  }

  function Rank(p: Phase): nat {
    match p
    case Reading => 0
    case Memory => 0
    case Analyzing => 1
    case Executing => 2
  }

  /** The allow-lists widen with the rank. */
  predicate Widens(c: Catalogue) {
    c.readingAllow <= c.analyzingAllow && c.memoryAllow <= c.analyzingAllow && c.analyzingAllow <= c.executingAllow
  }

  lemma BuiltInWidens()
    ensures Widens(BuiltIn())
  {
    forall name | name in MEMORY_ALLOW ensures name in ANALYZING_ALLOW {
    }
  }

  predicate Any(used: seq<string>, names: set<string>) {
    exists i :: 0 <= i < |used| && used[i] in names
  }

  predicate All(used: seq<string>, names: set<string>) {
    forall i :: 0 <= i < |used| ==> used[i] in names
  }

  /** `detect_tool_surface_phase`; `keyword` says whether the user text asks for a change. */
  function Detect(c: Catalogue, keyword: bool, used: seq<string>, prev: Option<Phase>,
                  closing: bool, mandate: bool, profile: Profile): Option<Phase>
  {
    if mandate || profile.NoProfile? || profile.Execution? || closing then None
    else if (Any(used, c.writes) || prev == Some(Executing)) && (keyword || Any(used, c.writes)) then Some(Executing)
    else if (Any(used, c.writes) || prev == Some(Executing)) && prev == Some(Executing) then Some(Executing)
    else if keyword then Some(Executing)
    else if Any(used, c.analyze) then Some(Analyzing)
    else if used != [] && All(used, c.memory) then Some(Memory)
    else if Any(used, c.memory) && !Any(used, c.analyze + c.writes) && used != [] && used[|used| - 1] in c.memory
      then Some(Memory)
    else Some(Reading)
  }

  /** Detection in plain terms: off for some profiles and modes; then a requested or made change, or having been
      executing, decides; then any analysis; then whether the last call was about memory. */
  lemma DetectMeans(c: Catalogue, keyword: bool, used: seq<string>, prev: Option<Phase>,
                    closing: bool, mandate: bool, profile: Profile)
    ensures var p := Detect(c, keyword, used, prev, closing, mandate, profile);
      var wrote := exists i :: 0 <= i < |used| && used[i] in c.writes;
      var analyzed := exists i :: 0 <= i < |used| && used[i] in c.analyze;
      && (p.None? <==> mandate || closing || profile in {NoProfile, Execution})
      && (p.Some? ==> (p == Some(Executing) <==> keyword || wrote || prev == Some(Executing)))
      && (p.Some? && p != Some(Executing) ==> (p == Some(Analyzing) <==> analyzed))
      && (p in {Some(Memory), Some(Reading)} ==>
            (p == Some(Memory) <==> used != [] && used[|used| - 1] in c.memory))
  {
    if used != [] && used[|used| - 1] in c.memory {
      assert Any(used, c.memory);
    }
    if Any(used, c.analyze + c.writes) {
      var i :| 0 <= i < |used| && used[i] in c.analyze + c.writes;
      assert used[i] in c.analyze || used[i] in c.writes;
    }
  }

  lemma OneToolDecides(tool: string, profile: Profile)
    requires profile in {Main, Office}
    ensures var c := BuiltIn(); var p := Detect(c, false, [tool], None, false, false, profile);
      p == if tool in c.writes then Some(Executing) else if tool in c.analyze then Some(Analyzing)
           else if tool in c.memory then Some(Memory) else Some(Reading)
  {
    var c, used := BuiltIn(), [tool];
    DetectMeans(c, false, used, None, false, false, profile);
    assert used[0] == tool;
  }

  /** With the shipped lists a query is an analysis, an edit a change, and recalling memory neither. */
  lemma BuiltInPhases(profile: Profile)
    requires profile in {Main, Office}
    ensures Detect(BuiltIn(), false, ["table_query"], None, false, false, profile) == Some(Analyzing)
    ensures Detect(BuiltIn(), false, ["edit_file"], None, false, false, profile) == Some(Executing)
    ensures Detect(BuiltIn(), false, ["memory_recall"], None, false, false, profile) == Some(Memory)
  {
    OneToolDecides("table_query", profile);
    OneToolDecides("edit_file", profile);
    OneToolDecides("memory_recall", profile);
  }

  // ----- the filter -----

  /** A schema entry; the name is empty when the entry carries none. */
  datatype Schema = Schema(name: string, body: string)

  predicate Keeps(c: Catalogue, p: Phase, profile: Profile, e: Schema) {
    e.name == "" || (profile.Main? && e.name == DISPATCH) || e.name !in Known(c) || e.name in Allow(c, p)
  }

  function Shown(c: Catalogue, base: seq<Schema>, phase: Option<Phase>, profile: Profile): seq<Schema> {
    if phase.None? || !(profile.Office? || profile.Main?) then base
    else Filter(base, e => Keeps(c, phase.value, profile, e))
  }

  /** `apply_phase_filter`, enabled. */
  method ApplyPhaseFilter(c: Catalogue, base: seq<Schema>, phase: Option<Phase>, profile: Profile)
    returns (out: seq<Schema>)
    ensures out == Shown(c, base, phase, profile)
  {
    if phase.None? || !(profile.Office? || profile.Main?) {
      return base;
    }
    var allow, known := Allow(c, phase.value), Known(c);
    out := [];
    ghost var keep := (e: Schema) => Keeps(c, phase.value, profile, e);
    for i := 0 to |base|
      invariant out == Filter(base[..i], keep)
    {
      var e := base[i];
      FilterSnoc(base[..i], e, keep);
      assert base[..i + 1] == base[..i] + [e];
      if e.name == "" {
        out := out + [e];
        continue;
      }
      if (profile.Main? && e.name == DISPATCH) || e.name !in known || e.name in allow {
        out := out + [e];
      }
    }
    assert base[..|base|] == base;
    FilterCongruent(base, keep, e => Keeps(c, phase.value, profile, e));
  }

  lemma {:induction false} FilterCongruent<T>(s: seq<T>, f: T -> bool, g: T -> bool)
    requires forall x :: x in s ==> f(x) == g(x)
    ensures Filter(s, f) == Filter(s, g)
  {
    if s != [] {
      FilterCongruent(s[1..], f, g);
    }
  }

  /** The filter never adds and never reorders. */
  lemma FilterOnlyHides(c: Catalogue, base: seq<Schema>, phase: Option<Phase>, profile: Profile)
    ensures IsSubsequence(Shown(c, base, phase, profile), base)
  {
    if phase.None? || !(profile.Office? || profile.Main?) {
      WholeIsSubsequence(base);
    } else {
      FilterIsSubsequence(base, (e: Schema) => Keeps(c, phase.value, profile, e));
    }
  }

  lemma WholeIsSubsequence<T>(s: seq<T>)
    ensures IsSubsequence(s, s)
  {
    FilterAll(s, (x: T) => true);
    FilterIsMonotone(s, (x: T) => true, (x: T) => true);
  }

  lemma FilterIsSubsequence<T>(s: seq<T>, keep: T -> bool)
    ensures IsSubsequence(Filter(s, keep), s)
  {
    FilterAll(s, (x: T) => true);
    FilterIsMonotone(s, keep, (x: T) => true);
  }

  lemma {:induction false} FilterCounts<T>(s: seq<T>, keep: T -> bool, x: T)
    ensures multiset(Filter(s, keep))[x] == if keep(x) then multiset(s)[x] else 0
  {
    if s != [] {
      assert s == [s[0]] + s[1..];
      FilterCounts(s[1..], keep, x);
    }
  }

  /** Is the entry shown: the filter is off, it has no name, it is the main agent's dispatch tool, no list knows it,
      or the phase's own list allows it. */
  predicate IsShown(c: Catalogue, phase: Option<Phase>, profile: Profile, e: Schema) {
    || phase.None? || profile in {NoProfile, Execution}
    || e.name == "" || (profile == Main && e.name == "dispatch_subagent")
    || (e.name !in c.readingAllow && e.name !in c.memoryAllow && e.name !in c.analyzingAllow
        && e.name !in c.executingAllow)
    || (phase == Some(Reading) && e.name in c.readingAllow) || (phase == Some(Memory) && e.name in c.memoryAllow)
    || (phase == Some(Analyzing) && e.name in c.analyzingAllow)
    || (phase == Some(Executing) && e.name in c.executingAllow)
  }

  /** Exactly these entries are shown, each as often as it is in the base. */
  lemma ShownMeans(c: Catalogue, base: seq<Schema>, phase: Option<Phase>, profile: Profile, e: Schema)
    ensures multiset(Shown(c, base, phase, profile))[e]
         == if IsShown(c, phase, profile, e) then multiset(base)[e] else 0
  {
    if phase.Some? {
      FilterCounts(base, (x: Schema) => Keeps(c, phase.value, profile, x), e);
    }
  }

  /** It never drops an extension's tool or an entry without a name. */
  lemma ExtensionsAreKept(c: Catalogue, base: seq<Schema>, phase: Option<Phase>, profile: Profile, e: Schema)
    requires e in base && (e.name == "" || e.name !in Known(c))
    ensures e in Shown(c, base, phase, profile)
  {
    if phase.Some? {
      FilterKeeps(base, (x: Schema) => Keeps(c, phase.value, profile, x));
    }
  }

  /** In the executing phase it hides nothing at all. */
  lemma ExecutingShowsAll(c: Catalogue, base: seq<Schema>, profile: Profile)
    requires Widens(c)
    ensures Shown(c, base, Some(Executing), profile) == base
  {
    FilterAll(base, (e: Schema) => Keeps(c, Executing, profile, e));
  }

  lemma {:induction false} FilterKeeps<T>(s: seq<T>, keep: T -> bool)
    ensures forall x :: x in s && keep(x) ==> x in Filter(s, keep)
  {
    if s != [] {
      FilterKeeps(s[1..], keep);
    }
  }

  /** From the analyzing phase on, a higher phase shows at least as much, in the same order. */
  lemma HigherPhasesShowMore(c: Catalogue, base: seq<Schema>, p: Phase, q: Phase, profile: Profile)
    requires Widens(c) && Rank(p) <= Rank(q) && Rank(q) >= 1
    ensures IsSubsequence(Shown(c, base, Some(p), profile), Shown(c, base, Some(q), profile))
  {
    if profile.Office? || profile.Main? {
      FilterIsMonotone(base, (e: Schema) => Keeps(c, p, profile, e), (e: Schema) => Keeps(c, q, profile, e));
    } else {
      WholeIsSubsequence(base);
    }
  }

  // ----- a run -----

  /** What stays fixed over a run: whether the request asks for a change, the profile, and whether the
      hard filter is on (only then is the phase remembered). */
  datatype Run = Run(keyword: bool, profile: Profile, hard: bool)

  function Used(batches: seq<seq<string>>): seq<string> {
    if batches == [] then [] else Used(batches[..|batches| - 1]) + batches[|batches| - 1]
  }

  /** The phase remembered when the turn after these batches begins. */
  function Remembered(c: Catalogue, r: Run, batches: seq<seq<string>>): Option<Phase>
    decreases |batches|, 0
  {
    if batches == [] || !r.hard then None
    else PhaseAfter(c, r, batches[..|batches| - 1])
  }

  /** The phase detected in the turn after these tool batches, without closing mode or mandate. */
  function PhaseAfter(c: Catalogue, r: Run, batches: seq<seq<string>>): Option<Phase>
    decreases |batches|, 1
  {
    Detect(c, r.keyword, Used(batches), Remembered(c, r, batches), false, false, r.profile)
  }

  lemma {:induction false} UsedGrows(batches: seq<seq<string>>, i: nat)
    requires i <= |batches|
    ensures Used(batches[..i]) <= Used(batches)
  {
    if i == |batches| {
      assert batches[..i] == batches;
    } else {
      var front := batches[..|batches| - 1];
      UsedGrows(front, i);
      assert front[..i] == batches[..i];
      assert Used(front) <= Used(batches);
    }
  }

  lemma AnyGrows(a: seq<string>, b: seq<string>, names: set<string>)
    requires a <= b && Any(a, names)
    ensures Any(b, names)
  {
    var i :| 0 <= i < |a| && a[i] in names;
    assert b[i] == a[i];
  }

  lemma {:induction false} RememberedHasCause(c: Catalogue, r: Run, batches: seq<seq<string>>)
    ensures Remembered(c, r, batches) == Some(Executing) ==> r.keyword || Any(Used(batches), c.writes)
  {
    if Remembered(c, r, batches) == Some(Executing) {
      var front := batches[..|batches| - 1];
      RememberedHasCause(c, r, front);
      assert PhaseAfter(c, r, front) == Some(Executing);
      UsedGrows(batches, |front|);
      if Any(Used(front), c.writes) {
        AnyGrows(Used(front), Used(batches), c.writes);
      }
    }
  }

  /** The remembered phase never decides anything: with the request fixed and the tool history only
      growing, detection from scratch gives the same phase on every turn. */
  lemma StickinessIsRedundant(c: Catalogue, r: Run, batches: seq<seq<string>>)
    ensures PhaseAfter(c, r, batches) == Detect(c, r.keyword, Used(batches), None, false, false, r.profile)
  {
    RememberedHasCause(c, r, batches);
  }

  /** Over a run the phase never falls in rank, with or without the hard filter. */
  lemma PhasesNeverFall(c: Catalogue, r: Run, batches: seq<seq<string>>, i: nat)
    requires i <= |batches|
    ensures PhaseAfter(c, r, batches[..i]).Some? <==> PhaseAfter(c, r, batches).Some?
    ensures PhaseAfter(c, r, batches).Some? ==>
      Rank(PhaseAfter(c, r, batches[..i]).value) <= Rank(PhaseAfter(c, r, batches).value)
  {
    var early, late := Used(batches[..i]), Used(batches);
    UsedGrows(batches, i);
    StickinessIsRedundant(c, r, batches[..i]);
    StickinessIsRedundant(c, r, batches);
    if Any(early, c.writes) { AnyGrows(early, late, c.writes); }
    if Any(early, c.analyze) { AnyGrows(early, late, c.analyze); }
  }

  /** Once the analyzing phase is reached the tools shown only grow, whatever is called next. */
  lemma SchemaOnlyGrows(c: Catalogue, base: seq<Schema>, r: Run, batches: seq<seq<string>>, i: nat)
    requires Widens(c) && i <= |batches|
    requires PhaseAfter(c, r, batches[..i]).Some? && Rank(PhaseAfter(c, r, batches[..i]).value) >= 1
    ensures IsSubsequence(Shown(c, base, PhaseAfter(c, r, batches[..i]), r.profile),
                          Shown(c, base, PhaseAfter(c, r, batches), r.profile))
  {
    PhasesNeverFall(c, r, batches, i);
    HigherPhasesShowMore(c, base, PhaseAfter(c, r, batches[..i]).value, PhaseAfter(c, r, batches).value, r.profile);
  }

  lemma OneEntryShown(c: Catalogue, e: Schema, p: Phase)
    ensures Shown(c, [e], Some(p), Office) == if Keeps(c, p, Office, e) then [e] else []
  {
    var keep := (x: Schema) => Keeps(c, p, Office, x);
    assert [e][1..] == [];
    assert Filter([e], keep) == (if keep(e) then [e] else []) + Filter([], keep);
    assert Shown(c, [e], Some(p), Office) == Filter([e], keep);
  }

  /** Before that it can shrink: a memory call narrows what reading showed. */
  lemma ReadingCanNarrow(c: Catalogue, r: Run, tool: string, hidden: Schema)
    requires !r.keyword && r.profile.Office? && tool in c.memory && tool !in c.analyze && tool !in c.writes
    requires hidden.name in c.readingAllow && hidden.name !in c.memoryAllow && hidden.name != ""
    ensures Shown(c, [hidden], PhaseAfter(c, r, []), r.profile) == [hidden]
    ensures Shown(c, [hidden], PhaseAfter(c, r, [[tool]]), r.profile) == []
  {
    StickinessIsRedundant(c, r, []);
    StickinessIsRedundant(c, r, [[tool]]);
    assert [[tool]][..0] == [];
    assert Used([[tool]]) == [tool];
    assert [tool][0] == tool;
    OneEntryShown(c, hidden, Reading);
    OneEntryShown(c, hidden, Memory);
    assert Detect(c, false, [], None, false, false, Office) == Some(Reading);
    assert Detect(c, false, [tool], None, false, false, Office) == Some(Memory);
    assert Keeps(c, Reading, Office, hidden) && !Keeps(c, Memory, Office, hidden);
  }
}
