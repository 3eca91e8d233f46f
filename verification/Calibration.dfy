/** Applying and rolling back calibration changes, and the hill climb over them. */
module Calibration {
  import opened Transcript

  /** A file or directory under `config/calibrated`. */
  datatype Node = File(text: string) | Dir(children: map<string, Node>)

  type Tree = map<string, Node>

  /** The calibrated directory: absent, or its contents with the `.backup` sub-directory apart. */
  datatype Disk = Absent | Present(items: Tree, backup: Option<Tree>)

  /** The configuration a disk holds; the backup is not part of it. */
  function Config(d: Disk): Option<Tree> {
    if d.Absent? then None else Some(d.items)
  }

  // ----- writes -----

  datatype Op = MkDir(path: seq<string>) | WriteText(path: seq<string>, text: string) | Reject

  /** mkdir -p; None when a path component is a file. */
  function MakeDirs(t: Tree, path: seq<string>): Option<Tree>
    decreases |path|
  {
    if path == [] then Some(t)
    else
      var child := if path[0] in t then t[path[0]] else Dir(map[]);
      if child.File? then None
      else match MakeDirs(child.children, path[1..])
           case None => None
           case Some(c) => Some(t[path[0] := Dir(c)])
  }

  /** write_text; None when the parent is missing or not a directory, or the target is one. */
  function WriteAt(t: Tree, path: seq<string>, text: string): Option<Tree>
    decreases |path|
  {
    if path == [] then None
    else if |path| == 1 then
      if path[0] in t && t[path[0]].Dir? then None else Some(t[path[0] := File(text)])
    else if path[0] !in t || t[path[0]].File? then None
    else match WriteAt(t[path[0]].children, path[1..], text)
         case None => None
         case Some(c) => Some(t[path[0] := Dir(c)])
  }

  function Do(t: Tree, op: Op): Option<Tree> {
    match op
    case MkDir(path) => MakeDirs(t, path)
    case WriteText(path, text) => WriteAt(t, path, text)
    case Reject => None
  }

  /** An I/O failure during the backup, leaving part of one, or during the `at`-th write, leaving whatever
      it leaves. */
  datatype Fault = NoFault | BackupFault(partial: Option<Tree>) | Fault(at: nat, debris: Tree)

  datatype Applied = Applied(items: Tree, ok: bool)

  /** The writes from the `i`-th on: all of them, or up to the first that raises. */
  function DoAll(t: Tree, ops: seq<Op>, i: nat, fault: Fault): Applied
    requires i <= |ops|
    decreases |ops| - i
  {
    if i == |ops| then Applied(t, true)
    else if fault.Fault? && fault.at == i then Applied(fault.debris, false)
    else match Do(t, ops[i])
         case None => Applied(t, false)
         case Some(next) => DoAll(next, ops, i + 1, fault)
  }

  // ----- what a change set writes -----

  datatype Changes = Changes(
    systemPrompt: Option<seq<(string, string)>>,
    toolOverrides: Option<string>,
    fewShots: Option<string>,
    settings: Option<string>,
    skills: Option<seq<(string, string)>>,
    subagentPrompts: Option<seq<(string, string)>>,
    departmentPrompts: Option<seq<(string, string)>>)

  predicate SafeChar(c: char) {
    'A' <= c <= 'Z' || 'a' <= c <= 'z' || '0' <= c <= '9' || c == '.' || c == '_' || c == '-'
  }

  predicate EndsWith(s: string, ext: string) {
    |ext| <= |s| && s[|s| - |ext|..] == ext
  }

  predicate HasExtension(name: string) {
    EndsWith(name, ".md") || EndsWith(name, ".yaml") || EndsWith(name, ".yml")
  }

  predicate AllSafe(s: string) {
    s != "" && forall i :: 0 <= i < |s| ==> SafeChar(s[i])
  }

  /** The filename pattern, whose `$` also matches before one newline at the very end. */
  predicate MatchesPattern(name: string) {
    AllSafe(name) || (name != "" && name[|name| - 1] == '\n' && AllSafe(name[..|name| - 1]))
  }

  /** `_safe_filename`; None where it raises. */
  function SafeFilename(name: string): Option<string> {
    if !MatchesPattern(name) || name == "." || name == ".." then None
    else if HasExtension(name) then Some(name)
    else Some(name + ".md")
  }

  function WriteSafe(dir: seq<string>, name: string, text: string): Op {
    match SafeFilename(name)
    case None => Reject
    case Some(safe) => WriteText(dir + [safe], text)
  }

  function WriteEach(dir: seq<string>, items: seq<(string, string)>, forceMd: bool, keepMd: bool): seq<Op> {
    if items == [] then []
    else
      var name := if forceMd && !(keepMd && EndsWith(items[0].0, ".md")) then items[0].0 + ".md" else items[0].0;
      [WriteSafe(dir, name, items[0].1)] + WriteEach(dir, items[1..], forceMd, keepMd)
  }

  function Folder(dir: seq<string>, items: Option<seq<(string, string)>>, forceMd: bool, keepMd: bool): seq<Op> {
    if items.None? then [] else [MkDir(dir)] + WriteEach(dir, items.value, forceMd, keepMd)
  }

  function Yaml(name: string, text: Option<string>): seq<Op> {
    if text.None? then [] else [WriteText([name], text.value)]
  }

  datatype Kind = SystemPrompt | ToolOverrides | FewShots | Settings | Skills | SubagentPrompts | DepartmentPrompts

  /** The order in which the sections are written. */
  const SECTION_ORDER: seq<Kind> :=
    [SystemPrompt, ToolOverrides, FewShots, Settings, Skills, SubagentPrompts, DepartmentPrompts]

  function Section(c: Changes, k: Kind): seq<Op> {
    match k
    case SystemPrompt => Folder(["bootstrap"], c.systemPrompt, false, false)
    case ToolOverrides => Yaml("tool_overrides.yaml", c.toolOverrides)
    case FewShots => Yaml("few_shots.yaml", c.fewShots)
    case Settings => Yaml("settings_override.yaml", c.settings)
    case Skills => Folder(["skills"], c.skills, true, false)
    case SubagentPrompts => Folder(["bootstrap", "subagents"], c.subagentPrompts, false, false)
    case DepartmentPrompts => Folder(["bootstrap", "departments"], c.departmentPrompts, true, true)
  }

  function SectionsOf(c: Changes, kinds: seq<Kind>): seq<Op> {
    if kinds == [] then [] else Section(c, kinds[0]) + SectionsOf(c, kinds[1..])
  }

  function Sections(c: Changes): seq<Op> {
    SectionsOf(c, SECTION_ORDER)
  }

  // ----- what each section writes, in plain terms -----

  /** A letter, a digit, a full stop, an underscore or a hyphen, by code point. */
  predicate IsPlainChar(c: char) {
    65 <= c as int <= 90 || 97 <= c as int <= 122 || 48 <= c as int <= 57 || c in {'.', '_', '-'}
  }

  /** One or more such characters, and perhaps one newline behind them; not a dot name. */
  predicate IsAccepted(name: string) {
    Stem(name) != "" && (forall c :: c in Stem(name) ==> IsPlainChar(c)) && name != "." && name != ".."
  }

  /** The name without one newline at its very end. */
  function Stem(name: string): string {
    if name != "" && name[|name| - 1] == '\n' then name[..|name| - 1] else name
  }

  predicate KnownEnding(name: string) {
    || (|name| >= 3 && name[|name| - 3..] == ".md")
    || (|name| >= 5 && name[|name| - 5..] == ".yaml") || (|name| >= 4 && name[|name| - 4..] == ".yml")
  }

  /** Which names are accepted, and under which name a file is written. */
  lemma SafeNameMeans(name: string)
    ensures SafeFilename(name)
         == if !IsAccepted(name) then None else if KnownEnding(name) then Some(name) else Some(name + ".md")
  {
    PatternMeans(name);
    EndingMeans(name);
    if MatchesPattern(name) {
      assert IsAccepted(name) <==> name != "." && name != "..";
    }
  }

  lemma EndingMeans(name: string)
    ensures HasExtension(name) <==> KnownEnding(name)
  {
  }

  lemma SafeCharMeans(c: char)
    ensures SafeChar(c) <==> IsPlainChar(c)
  {
  }

  lemma AllSafeMeans(s: string)
    ensures AllSafe(s) <==> s != "" && forall c :: c in s ==> IsPlainChar(c)
  {
    if AllSafe(s) {
      forall c | c in s ensures IsPlainChar(c) {
        SafeCharMeans(c);
      }
    }
    if forall c :: c in s ==> IsPlainChar(c) {
      forall i | 0 <= i < |s| ensures SafeChar(s[i]) {
        SafeCharMeans(s[i]);
        assert s[i] in s;
      }
    }
  }

  lemma PatternMeans(name: string)
    ensures MatchesPattern(name) <==> Stem(name) != "" && forall c :: c in Stem(name) ==> IsPlainChar(c)
  {
    AllSafeMeans(Stem(name));
    if name != "" && name[|name| - 1] == '\n' {
      assert !SafeChar(name[|name| - 1]);
    }
  }

  /** A directory made, then one file each, in order, under its accepted name; a name that is not accepted raises. */
  predicate WritesFolder(ops: seq<Op>, dir: seq<string>, items: seq<(string, string)>, full: string -> string) {
    && |ops| == |items| + 1 && ops[0] == MkDir(dir)
    && forall i :: 0 <= i < |items| ==> ops[i + 1] == FileOp(dir, full(items[i].0), items[i].1)
  }

  function FileOp(dir: seq<string>, name: string, text: string): Op {
    var safe := SafeFilename(name);
    if safe.Some? then WriteText(dir + [safe.value], text) else Reject
  }

  function FullName(name: string, forceMd: bool, keepMd: bool): string {
    if !forceMd || (keepMd && |name| >= 3 && name[|name| - 3..] == ".md") then name else name + ".md"
  }

  lemma FirstFileMeans(dir: seq<string>, items: seq<(string, string)>, forceMd: bool, keepMd: bool)
    requires items != []
    ensures WriteEach(dir, items, forceMd, keepMd)
         == [FileOp(dir, FullName(items[0].0, forceMd, keepMd), items[0].1)]
            + WriteEach(dir, items[1..], forceMd, keepMd)
  {
  }

  lemma {:induction false} WriteEachMeans(dir: seq<string>, items: seq<(string, string)>, forceMd: bool, keepMd: bool)
    ensures |WriteEach(dir, items, forceMd, keepMd)| == |items|
    ensures forall i :: 0 <= i < |items| ==>
      WriteEach(dir, items, forceMd, keepMd)[i] == FileOp(dir, FullName(items[i].0, forceMd, keepMd), items[i].1)
  {
    if items != [] {
      var rest := items[1..];
      WriteEachMeans(dir, rest, forceMd, keepMd);
      FirstFileMeans(dir, items, forceMd, keepMd);
      assert forall i :: 1 <= i < |items| ==> items[i] == rest[i - 1];
    }
  }

  lemma FolderMeans(dir: seq<string>, items: seq<(string, string)>, forceMd: bool, keepMd: bool,
                    full: string -> string)
    requires forall name :: full(name) == FullName(name, forceMd, keepMd)
    ensures WritesFolder(Folder(dir, Some(items), forceMd, keepMd), dir, items, full)
  {
    WriteEachMeans(dir, items, forceMd, keepMd);
  }

  predicate WritesSection(ops: seq<Op>, dir: seq<string>, items: Option<seq<(string, string)>>,
                          full: string -> string)
  {
    if items.None? then ops == [] else WritesFolder(ops, dir, items.value, full)
  }

  lemma SectionFolderMeans(dir: seq<string>, items: Option<seq<(string, string)>>, forceMd: bool, keepMd: bool,
                           full: string -> string)
    requires forall name :: full(name) == FullName(name, forceMd, keepMd)
    ensures WritesSection(Folder(dir, items, forceMd, keepMd), dir, items, full)
  {
    if items.Some? {
      FolderMeans(dir, items.value, forceMd, keepMd, full);
    }
  }

  /** How a given name becomes a filename: as it is, with the ending always added, or added unless it is there. */
  function AsGiven(name: string): string {
    name
  }

  function EndingAdded(name: string): string {
    name + ".md"
  }

  function EndingOnce(name: string): string {
    if |name| >= 3 && name[|name| - 3..] == ".md" then name else name + ".md"
  }

  /** What the sections of several files write, where, and under which names. */
  lemma FoldersMean(c: Changes)
    ensures WritesSection(Section(c, SystemPrompt), ["bootstrap"], c.systemPrompt, AsGiven)
    ensures WritesSection(Section(c, SubagentPrompts), ["bootstrap", "subagents"], c.subagentPrompts, AsGiven)
    ensures WritesSection(Section(c, Skills), ["skills"], c.skills, EndingAdded)
    ensures WritesSection(Section(c, DepartmentPrompts), ["bootstrap", "departments"], c.departmentPrompts, EndingOnce)
  {
    SectionFolderMeans(["bootstrap"], c.systemPrompt, false, false, AsGiven);
    SectionFolderMeans(["bootstrap", "subagents"], c.subagentPrompts, false, false, AsGiven);
    SectionFolderMeans(["skills"], c.skills, true, false, EndingAdded);
    SectionFolderMeans(["bootstrap", "departments"], c.departmentPrompts, true, true, EndingOnce);
  }

  /** What the sections of one file write, and the order of all seven. */
  lemma SectionsMean(c: Changes)
    ensures Section(c, ToolOverrides)
         == if c.toolOverrides.None? then [] else [WriteText(["tool_overrides.yaml"], c.toolOverrides.value)]
    ensures Section(c, FewShots) == if c.fewShots.None? then [] else [WriteText(["few_shots.yaml"], c.fewShots.value)]
    ensures Section(c, Settings)
         == if c.settings.None? then [] else [WriteText(["settings_override.yaml"], c.settings.value)]
    ensures Sections(c) == Section(c, SystemPrompt) + (Section(c, ToolOverrides) + (Section(c, FewShots)
      + (Section(c, Settings) + (Section(c, Skills) + (Section(c, SubagentPrompts) + Section(c, DepartmentPrompts))))))
  {
    var last3, last5 := [Skills, SubagentPrompts, DepartmentPrompts],
                        [FewShots, Settings, Skills, SubagentPrompts, DepartmentPrompts];
    LastThree(c);
    ConsSection(c, Settings, last3);
    ConsSection(c, FewShots, [Settings] + last3);
    assert [FewShots] + ([Settings] + last3) == last5;
    ConsSection(c, ToolOverrides, last5);
    ConsSection(c, SystemPrompt, [ToolOverrides] + last5);
    assert [SystemPrompt] + ([ToolOverrides] + last5) == SECTION_ORDER;
  }

  lemma ConsSection(c: Changes, k: Kind, rest: seq<Kind>)
    ensures SectionsOf(c, [k] + rest) == Section(c, k) + SectionsOf(c, rest)
  {
    assert ([k] + rest)[0] == k && ([k] + rest)[1..] == rest;
  }

  lemma LastThree(c: Changes)
    ensures SectionsOf(c, [Skills, SubagentPrompts, DepartmentPrompts])
         == Section(c, Skills) + (Section(c, SubagentPrompts) + Section(c, DepartmentPrompts))
  {
    ConsSection(c, DepartmentPrompts, []);
    ConsSection(c, SubagentPrompts, [DepartmentPrompts]);
    ConsSection(c, Skills, [SubagentPrompts, DepartmentPrompts]);
    assert [DepartmentPrompts] + [] == [DepartmentPrompts];
    assert [SubagentPrompts] + [DepartmentPrompts] == [SubagentPrompts, DepartmentPrompts];
    assert [Skills] + [SubagentPrompts, DepartmentPrompts] == [Skills, SubagentPrompts, DepartmentPrompts];
    assert Section(c, DepartmentPrompts) + [] == Section(c, DepartmentPrompts);
  }

  // ----- where a change set can write -----

  /** A path component that names an entry of the directory it stands in. */
  predicate Plain(part: string) {
    part != "" && part != "." && part != ".." && '/' !in part && '\\' !in part
  }

  /** The operation stays below the calibrated directory, in a fixed section, and not in its backup. */
  predicate Inside(op: Op) {
    op.Reject? || (op.path != [] && InSection(op.path[0]) && forall i :: 0 <= i < |op.path| ==> Plain(op.path[i]))
  }

  predicate InSection(part: string) {
    part in {"bootstrap", "skills", "tool_overrides.yaml", "few_shots.yaml", "settings_override.yaml"}
  }

  predicate AllInside(ops: seq<Op>) {
    forall i :: 0 <= i < |ops| ==> Inside(ops[i])
  }

  predicate PlainPath(dir: seq<string>) {
    dir != [] && InSection(dir[0]) && forall i :: 0 <= i < |dir| ==> Plain(dir[i])
  }

  /** Whatever name the analyser supplies, a written file is a plain entry of its directory. */
  lemma SafeNamesArePlain(name: string)
    requires SafeFilename(name).Some?
    ensures Plain(SafeFilename(name).value)
  {
    var r := SafeFilename(name).value;
    forall i | 0 <= i < |name| ensures name[i] != '/' && name[i] != '\\' {
      assert i < |name| - 1 ==> name[..|name| - 1][i] == name[i];
    }
    if r != name {
      assert r == name + ".md";
    }
  }

  lemma WriteSafeIsInside(dir: seq<string>, name: string, text: string)
    requires PlainPath(dir)
    ensures Inside(WriteSafe(dir, name, text))
  {
    if SafeFilename(name).Some? {
      SafeNamesArePlain(name);
    }
  }

  lemma {:induction false} WriteEachIsInside(dir: seq<string>, items: seq<(string, string)>, forceMd: bool,
                                             keepMd: bool)
    requires PlainPath(dir)
    ensures AllInside(WriteEach(dir, items, forceMd, keepMd))
  {
    if items != [] {
      WriteEachIsInside(dir, items[1..], forceMd, keepMd);
      var name := if forceMd && !(keepMd && EndsWith(items[0].0, ".md")) then items[0].0 + ".md" else items[0].0;
      WriteSafeIsInside(dir, name, items[0].1);
      AllInsideConcat([WriteSafe(dir, name, items[0].1)], WriteEach(dir, items[1..], forceMd, keepMd));
    }
  }

  lemma AllInsideConcat(a: seq<Op>, b: seq<Op>)
    requires AllInside(a) && AllInside(b)
    ensures AllInside(a + b)
  {
  }

  lemma FolderIsInside(dir: seq<string>, items: Option<seq<(string, string)>>, forceMd: bool, keepMd: bool)
    requires PlainPath(dir)
    ensures AllInside(Folder(dir, items, forceMd, keepMd))
  {
    if items.Some? {
      WriteEachIsInside(dir, items.value, forceMd, keepMd);
      AllInsideConcat([MkDir(dir)], WriteEach(dir, items.value, forceMd, keepMd));
    }
  }

  lemma YamlIsInside(name: string, text: Option<string>)
    requires PlainPath([name])
    ensures AllInside(Yaml(name, text))
  {
  }

  lemma SectionIsInside(c: Changes, k: Kind)
    ensures AllInside(Section(c, k))
  {
    match k
    case SystemPrompt => FolderIsInside(["bootstrap"], c.systemPrompt, false, false);
    case ToolOverrides => YamlIsInside("tool_overrides.yaml", c.toolOverrides);
    case FewShots => YamlIsInside("few_shots.yaml", c.fewShots);
    case Settings => YamlIsInside("settings_override.yaml", c.settings);
    case Skills => FolderIsInside(["skills"], c.skills, true, false);
    case SubagentPrompts => FolderIsInside(["bootstrap", "subagents"], c.subagentPrompts, false, false);
    case DepartmentPrompts => FolderIsInside(["bootstrap", "departments"], c.departmentPrompts, true, true);
  }

  lemma {:induction false} SectionsOfAreInside(c: Changes, kinds: seq<Kind>)
    ensures AllInside(SectionsOf(c, kinds))
  {
    if kinds != [] {
      SectionIsInside(c, kinds[0]);
      SectionsOfAreInside(c, kinds[1..]);
      AllInsideConcat(Section(c, kinds[0]), SectionsOf(c, kinds[1..]));
    }
  }

  /** No change set can write outside the fixed sections, so none can touch `.backup`. */
  lemma SectionsStayInside(c: Changes)
    ensures AllInside(Sections(c))
    ensures !InSection(".backup")
  {
    SectionsOfAreInside(c, SECTION_ORDER);
  }

  // ----- which change sets change nothing -----

  /** What stands at a path: nothing, a directory, or a file with its text. */
  datatype Spot = Nothing | Directory | Text(text: string)

  function SpotOf(n: Node): Spot {
    if n.File? then Text(n.text) else Directory
  }

  function Peek(t: Tree, path: seq<string>): Spot
    decreases |path|
  {
    if path == [] then Directory
    else if path[0] !in t then Nothing
    else if |path| == 1 then SpotOf(t[path[0]])
    else if t[path[0]].File? then Nothing
    else Peek(t[path[0]].children, path[1..])
  }

  lemma {:induction false} PeekMade(t: Tree, q: seq<string>, p: seq<string>)
    requires MakeDirs(t, q).Some?
    ensures Peek(MakeDirs(t, q).value, p) == if p <= q then Directory else Peek(t, p)
    ensures p <= q ==> !Peek(t, p).Text?
    decreases |q|
  {
    if q != [] && p != [] && p[0] == q[0] {
      var child := if q[0] in t then t[q[0]] else Dir(map[]);
      PeekMade(child.children, q[1..], p[1..]);
    }
  }

  lemma {:induction false} PeekWritten(t: Tree, q: seq<string>, text: string, p: seq<string>)
    requires WriteAt(t, q, text).Some?
    ensures Peek(WriteAt(t, q, text).value, p) == if p == q then Text(text) else Peek(t, p)
    ensures !Peek(t, q).Directory?
    decreases |q|
  {
    if |q| > 1 {
      PeekWritten(t[q[0]].children, q[1..], text, if p != [] then p[1..] else []);
    }
  }

  /** Two trees with the same at every path are the same. */
  lemma {:induction false} PeekDecides(a: Node, b: Node)
    requires a.Dir? && b.Dir? && forall p :: Peek(a.children, p) == Peek(b.children, p)
    ensures a == b
    decreases a
  {
    var t, u := a.children, b.children;
    forall k ensures (k in t <==> k in u) && (k in t ==> t[k] == u[k]) {
      assert Peek(t, [k]) == Peek(u, [k]);
      if k in t && t[k].Dir? {
        forall p ensures Peek(t[k].children, p) == Peek(u[k].children, p) {
          assert Peek(t, [k] + p) == Peek(u, [k] + p) && ([k] + p)[1..] == p;
        }
        PeekDecides(t[k], u[k]);
      }
    }
    assert t == u;
  }

  predicate Rewrites(ops: seq<Op>, i: nat, path: seq<string>) {
    exists k :: i <= k < |ops| && ops[k].WriteText? && ops[k].path == path
  }

  /** A change set that writes nothing new: its directories exist, and the last text it writes to each file
      is there already. */
  predicate NothingNew(t: Tree, c: Changes) {
    NoneNew(t, Sections(c))
  }

  predicate NoneNew(t: Tree, ops: seq<Op>) {
    forall k :: 0 <= k < |ops| ==> NotNew(t, ops, k)
  }

  predicate NotNew(t: Tree, ops: seq<Op>, k: nat)
    requires k < |ops|
  {
    match ops[k]
    case MkDir(path) => Peek(t, path) == Directory
    case WriteText(path, text) => Rewrites(ops, k + 1, path) || Peek(t, path) == Text(text)
    case Reject => false
  }

  predicate Touches(op: Op, p: seq<string>) {
    (op.MkDir? && p <= op.path) || (op.WriteText? && p == op.path)
  }

  lemma PeekDone(t: Tree, op: Op, p: seq<string>)
    requires Do(t, op).Some?
    ensures Peek(Do(t, op).value, p)
         == if !Touches(op, p) then Peek(t, p) else if op.MkDir? then Directory else Text(op.text)
    ensures Touches(op, p) ==> if op.MkDir? then !Peek(t, p).Text? else !Peek(t, p).Directory?
  {
    match op
    case MkDir(path) => PeekMade(t, path, p);
    case WriteText(path, text) => PeekWritten(t, path, text, p);
  }

  predicate NoFileOnTheWay(t: Tree, path: seq<string>) {
    forall i :: 0 <= i <= |path| ==> !Peek(t, path[..i]).Text?
  }

  predicate FileCanStand(t: Tree, path: seq<string>) {
    path != [] && Peek(t, path[..|path| - 1]) == Directory && Peek(t, path) != Directory
  }

  /** When a single operation goes through: a directory can be made unless a file is in the way; a file can be written
      when its directory is there and no directory has its name; a rejected name never. */
  lemma DoSucceedsIff(t: Tree, op: Op)
    ensures op.MkDir? ==> (Do(t, op).Some? <==> NoFileOnTheWay(t, op.path))
    ensures op.WriteText? ==> (Do(t, op).Some? <==> FileCanStand(t, op.path))
    ensures op.Reject? ==> Do(t, op).None?
  {
    match op
    case MkDir(path) => MakeSucceedsIff(t, path);
    case WriteText(path, text) => WriteSucceedsIff(t, path, text);
    case Reject =>
  }

  lemma {:induction false} MakeSucceedsIff(t: Tree, path: seq<string>)
    ensures MakeDirs(t, path).Some? <==> NoFileOnTheWay(t, path)
    decreases |path|
  {
    if path != [] {
      var child := if path[0] in t then t[path[0]] else Dir(map[]);
      if child.Dir? {
        MakeSucceedsIff(child.children, path[1..]);
        StepOnTheWay(t, path, child.children);
      } else {
        assert path[..1] == [path[0]] && Peek(t, path[..1]).Text?;
      }
    }
  }

  lemma StepOnTheWay(t: Tree, path: seq<string>, below: Tree)
    requires path != []
    requires if path[0] in t then t[path[0]] == Dir(below) else below == map[]
    ensures NoFileOnTheWay(t, path) <==> NoFileOnTheWay(below, path[1..])
  {
    var rest := path[1..];
    forall j | 0 <= j <= |rest| ensures Peek(below, rest[..j]).Text? <==> Peek(t, path[..j + 1]).Text? {
      assert path[..j + 1][1..] == rest[..j];
      if path[0] !in t {
        NothingInEmpty(rest[..j]);
      }
    }
    if NoFileOnTheWay(below, rest) {
      forall i | 0 <= i <= |path| ensures !Peek(t, path[..i]).Text? {
        assert i > 0 ==> !Peek(below, rest[..i - 1]).Text?;
      }
    }
  }

  lemma NothingInEmpty(path: seq<string>)
    ensures !Peek(map[], path).Text?
  {
  }

  lemma {:induction false} WriteSucceedsIff(t: Tree, path: seq<string>, text: string)
    ensures WriteAt(t, path, text).Some? <==> FileCanStand(t, path)
    decreases |path|
  {
    if |path| > 1 {
      assert path[..|path| - 1][0] == path[0] && path[..|path| - 1][1..] == path[1..][..|path| - 2];
      if path[0] in t && t[path[0]].Dir? {
        WriteSucceedsIff(t[path[0]].children, path[1..], text);
      }
    } else if |path| == 1 {
      assert path[..0] == [];
    }
  }

  lemma {:induction false} DoAllSnoc(t: Tree, ops: seq<Op>, op: Op, i: nat)
    requires i <= |ops|
    ensures var before, after := DoAll(t, ops, i, NoFault), DoAll(t, ops + [op], i, NoFault);
      if !before.ok then after == before
      else after == if Do(before.items, op).Some? then Applied(Do(before.items, op).value, true)
                    else Applied(before.items, false)
    decreases |ops| - i
  {
    assert i < |ops| ==> (ops + [op])[i] == ops[i];
    if i < |ops| && Do(t, ops[i]).Some? {
      DoAllSnoc(Do(t, ops[i]).value, ops, op, i + 1);
    }
  }

  /** Operations go through one behind the other, up to the first that does not. */
  lemma DoAllMeans(t: Tree, ops: seq<Op>, op: Op)
    ensures DoAll(t, [], 0, NoFault) == Applied(t, true)
    ensures var before, after := DoAll(t, ops, 0, NoFault), DoAll(t, ops + [op], 0, NoFault);
      && (after.ok <==> before.ok && Do(before.items, op).Some?)
      && after.items == if after.ok then Do(before.items, op).value else before.items
  {
    DoAllSnoc(t, ops, op, 0);
  }

  /** A failure during the `at`-th write leaves its debris; one that comes behind the last write, or none, changes
      nothing. */
  lemma FaultMeans(t: Tree, ops: seq<Op>, fault: Fault)
    ensures !(fault.Fault? && fault.at < |ops|) ==> DoAll(t, ops, 0, fault) == DoAll(t, ops, 0, NoFault)
    ensures fault.Fault? && fault.at < |ops| ==> !DoAll(t, ops, 0, fault).ok
    ensures fault.Fault? && fault.at < |ops| && DoAll(t, ops[..fault.at], 0, NoFault).ok ==>
      DoAll(t, ops, 0, fault).items == fault.debris
  {
    FaultFrom(t, ops, 0, fault);
  }

  lemma {:induction false} FaultFrom(t: Tree, ops: seq<Op>, i: nat, fault: Fault)
    requires i <= |ops| && (fault.Fault? ==> i <= fault.at)
    ensures !(fault.Fault? && fault.at < |ops|) ==> DoAll(t, ops, i, fault) == DoAll(t, ops, i, NoFault)
    ensures fault.Fault? && fault.at < |ops| ==> !DoAll(t, ops, i, fault).ok
    ensures fault.Fault? && fault.at < |ops| && DoAll(t, ops[..fault.at], i, NoFault).ok ==>
      DoAll(t, ops, i, fault).items == fault.debris
    decreases |ops| - i
  {
    if i < |ops| && !(fault.Fault? && fault.at == i) && Do(t, ops[i]).Some? {
      FaultFrom(Do(t, ops[i]).value, ops, i + 1, fault);
    }
  }

  /** What later operations leave: directories, files not written again, and whatever is not touched. */
  lemma {:induction false} Stays(t: Tree, ops: seq<Op>, i: nat, fault: Fault, p: seq<string>)
    requires i <= |ops| && DoAll(t, ops, i, fault).ok
    ensures var u := DoAll(t, ops, i, fault).items;
      && (Peek(t, p).Directory? ==> Peek(u, p).Directory?)
      && (Peek(t, p).Text? && !Rewrites(ops, i, p) ==> Peek(u, p) == Peek(t, p))
      && ((forall k :: i <= k < |ops| ==> !Touches(ops[k], p)) ==> Peek(u, p) == Peek(t, p))
    decreases |ops| - i
  {
    if i < |ops| {
      PeekDone(t, ops[i], p);
      Stays(Do(t, ops[i]).value, ops, i + 1, fault, p);
    }
  }

  /** Every operation that was done shows in the result. */
  lemma {:induction false} DoneShows(t: Tree, ops: seq<Op>, i: nat, fault: Fault, k: nat)
    requires i <= k < |ops| && DoAll(t, ops, i, fault).ok
    ensures NotNew(DoAll(t, ops, i, fault).items, ops, k)
    decreases |ops| - i
  {
    var next := Do(t, ops[i]).value;
    if i < k {
      DoneShows(next, ops, i + 1, fault, k);
    } else {
      PeekDone(t, ops[i], ops[i].path);
      Stays(next, ops, i + 1, fault, ops[i].path);
    }
  }

  lemma {:induction false} ParentsAreDirectories(t: Tree, p: seq<string>, q: seq<string>)
    requires p <= q && Peek(t, q).Directory?
    ensures Peek(t, p).Directory?
    decreases |p|
  {
    if |p| > 1 {
      ParentsAreDirectories(t[q[0]].children, p[1..], q[1..]);
    }
  }

  lemma {:induction false} LastRewrite(ops: seq<Op>, i: nat, path: seq<string>) returns (k: nat)
    requires Rewrites(ops, i, path)
    ensures i <= k < |ops| && ops[k].WriteText? && ops[k].path == path && !Rewrites(ops, k + 1, path)
    decreases |ops| - i
  {
    k :| i <= k < |ops| && ops[k].WriteText? && ops[k].path == path;
    if Rewrites(ops, k + 1, path) {
      k := LastRewrite(ops, k + 1, path);
    }
  }

  /** Two trees in which the same operations all show agree wherever these touch. */
  lemma ShownAlike(t: Tree, u: Tree, ops: seq<Op>, k: nat, p: seq<string>)
    requires NoneNew(t, ops) && NoneNew(u, ops) && k < |ops| && Touches(ops[k], p)
    ensures Peek(t, p) == Peek(u, p)
  {
    if ops[k].MkDir? {
      assert NotNew(t, ops, k) && NotNew(u, ops, k);
      ParentsAreDirectories(t, p, ops[k].path);
      ParentsAreDirectories(u, p, ops[k].path);
    } else {
      assert Rewrites(ops, 0, p);
      var last := LastRewrite(ops, 0, p);
      assert NotNew(t, ops, last) && NotNew(u, ops, last);
    }
  }

  /** Writes that all go through show in the result; they leave the tree as it was exactly when they
      showed in it before. */
  lemma DoneIsSameIff(t: Tree, ops: seq<Op>, fault: Fault)
    requires DoAll(t, ops, 0, fault).ok
    ensures var u := DoAll(t, ops, 0, fault).items;
      NoneNew(u, ops) && (u == t <==> NoneNew(t, ops))
  {
    var u := DoAll(t, ops, 0, fault).items;
    forall k | 0 <= k < |ops| ensures NotNew(u, ops, k) {
      DoneShows(t, ops, 0, fault, k);
    }
    if NoneNew(t, ops) {
      forall p ensures Peek(u, p) == Peek(t, p) {
        Stays(t, ops, 0, fault, p);
        if k :| 0 <= k < |ops| && Touches(ops[k], p) {
          ShownAlike(t, u, ops, k, p);
        }
      }
      PeekDecides(Dir(u), Dir(t));
    }
  }

  // ----- the transaction, as functions of the disk -----

  function BackedUp(d: Disk): Disk {
    if d.Absent? then d else Present(d.items, Some(d.items))
  }

  function RolledBack(d: Disk): Disk {
    if d.Absent? || d.backup.None? then d else Present(d.backup.value, None)
  }

  datatype Outcome = Outcome(disk: Disk, ok: bool)

  /** A failing backup raises before anything is written, and before the rollback is armed. */
  function Apply(d: Disk, ops: seq<Op>, fault: Fault): Outcome {
    if d.Present? && fault.BackupFault? then Outcome(Present(d.items, fault.partial), false)
    else Write(d, ops, fault)
  }

  function Write(d: Disk, ops: seq<Op>, fault: Fault): Outcome {
    var b := BackedUp(d);
    var made := if b.Absent? then Present(map[], None) else b;
    var w := DoAll(made.items, ops, 0, fault);
    var written := Present(w.items, made.backup);
    if w.ok then Outcome(written, true) else Outcome(RolledBack(written), false)
  }

  class ConfigEditor {
    var disk: Disk

    constructor (initial: Disk)
      ensures disk == initial
    {
      disk := initial;
    }

    /** Copy every entry into a fresh `.backup`, in whatever order the directory lists them; `ok` is
        false when the copy raises and leaves part of a backup. */
    method BackupCurrent(fault: Fault) returns (ok: bool)
      modifies this
      ensures ok <==> !(old(disk).Present? && fault.BackupFault?)
      ensures ok ==> disk == BackedUp(old(disk))
      ensures !ok ==> disk == Present(old(disk).items, fault.partial)
    {
      ok := true;
      if disk.Present? && disk.backup.Some? {
        disk := Present(disk.items, None);
      }
      if disk.Absent? {
        return;
      }
      if fault.BackupFault? {
        disk := Present(disk.items, fault.partial);
        return false;
      }
      var items := disk.items;
      var copied: Tree := map[];
      var names := items.Keys;
      while names != {}
        invariant names <= items.Keys && disk.Present? && disk.items == items
        invariant copied == map k | k in items && k !in names :: items[k]
        decreases |names|
      {
        var name :| name in names;
        copied := copied[name := items[name]];
        names := names - {name};
        disk := Present(items, Some(copied));
      }
      assert copied == items;
      disk := Present(items, Some(copied));
    }

    /** Delete every entry, copy the backup's entries back, drop the backup. */
    method Rollback()
      modifies this
      ensures disk == RolledBack(old(disk))
    {
      if disk.Absent? || disk.backup.None? {
        return;
      }
      var saved := disk.backup.value;
      var names := disk.items.Keys;
      while names != {}
        invariant disk.Present? && disk.items.Keys == names && disk.backup == Some(saved)
        decreases |names|
      {
        var name :| name in names;
        disk := Present(disk.items - {name}, disk.backup);
        names := names - {name};
      }
      names := saved.Keys;
      while names != {}
        invariant names <= saved.Keys && disk.Present? && disk.backup == Some(saved)
        invariant disk.items == map k | k in saved && k !in names :: saved[k]
        decreases |names|
      {
        var name :| name in names;
        disk := Present(disk.items[name := saved[name]], disk.backup);
        names := names - {name};
      }
      assert disk.items == saved;
      disk := Present(disk.items, None);
    }

    method ApplySections(ops: seq<Op>, fault: Fault) returns (ok: bool)
      requires disk.Present?
      modifies this
      ensures var w := DoAll(old(disk).items, ops, 0, fault);
        disk == Present(w.items, old(disk).backup) && ok == w.ok
    {
      ghost var backup := disk.backup;
      var i := 0;
      while i < |ops|
        invariant 0 <= i <= |ops| && disk.Present? && disk.backup == backup
        invariant DoAll(disk.items, ops, i, fault) == DoAll(old(disk).items, ops, 0, fault)
      {
        if fault.Fault? && fault.at == i {
          disk := Present(fault.debris, disk.backup);
          return false;
        }
        var next := Do(disk.items, ops[i]);
        if next.None? {
          return false;
        }
        disk := Present(next.value, disk.backup);
        i := i + 1;
      }
      return true;
    }

    /** `apply`: back up, write, and on any failure roll back and re-raise (ok is false). */
    method ApplyOps(ops: seq<Op>, fault: Fault) returns (ok: bool)
      modifies this
      ensures var o := Apply(old(disk), ops, fault); disk == o.disk && ok == o.ok
    {
      ok := BackupCurrent(fault);
      if !ok {
        return;
      }
      if disk.Absent? {
        disk := Present(map[], None);
      }
      ok := ApplySections(ops, fault);
      if !ok {
        Rollback();
      }
    }

    method ApplyChanges(changes: Changes, fault: Fault) returns (ok: bool)
      modifies this
      ensures var o := Apply(old(disk), Sections(changes), fault); disk == o.disk && ok == o.ok
    {
      ok := ApplyOps(Sections(changes), fault);
    }
  }

  /** Apply then roll back is the identity on the configuration exactly when the directory existed;
      so is an apply that fails, in the backup or after whatever prefix of writes and whatever debris. */
  lemma RollbackRestoresIff(d: Disk, ops: seq<Op>, fault: Fault)
    ensures var o := Apply(d, ops, fault);
      && (o.ok ==> (Config(RolledBack(o.disk)) == Config(d) <==> d.Present?))
      && (!o.ok ==> (Config(o.disk) == Config(d) <==> d.Present?))
      && (!o.ok && d.Present? && !fault.BackupFault? ==> o.disk.backup.None?)
  {
  }

  /** The whole transaction over the imperative editor: for any changes and any failure, applying and
      then rolling back (which a failed write has done itself) gives the configuration back if and only
      if there was one. */
  method ApplyThenRollback(editor: ConfigEditor, changes: Changes, fault: Fault)
    modifies editor
    ensures Config(editor.disk) == old(Config(editor.disk)) <==> old(editor.disk).Present?
    ensures editor.disk.Present?
    ensures old(editor.disk).Present? && !fault.BackupFault? ==> editor.disk.backup.None?
  {
    var ok := editor.ApplyChanges(changes, fault);
    if ok {
      editor.Rollback();
    }
    RollbackRestoresIff(old(editor.disk), Sections(changes), fault);
  }

  // ----- the hill climb -----

  /** One iteration's outside answers: the analyser's proposal (None when the analysis fails), a possible
      failure while applying it, and the results a configuration earns (None when rebuilding the stack or
      running the scenarios raises). */
  datatype World = World(
    propose: nat -> Option<Changes>,
    fault: nat -> Fault,
    evaluate: (nat, Disk) -> Option<seq<bool>>)

  function Passed(results: seq<bool>): nat {
    if results == [] then 0 else (if results[0] then 1 else 0) + Passed(results[1..])
  }

  /** The positions of the scenarios that passed. */
  ghost function Trues(results: seq<bool>): set<nat> {
    set i: nat | i < |results| && results[i]
  }

  lemma TruesSnoc(front: seq<bool>, last: bool)
    ensures |Trues(front + [last])| == |Trues(front)| + if last then 1 else 0
  {
    var all := front + [last];
    assert forall i: nat :: i < |front| ==> all[i] == front[i];
    assert Trues(all) == Trues(front) + if last then {|front|} else {};
  }

  lemma {:induction false} PassedSnoc(front: seq<bool>, last: bool)
    ensures Passed(front + [last]) == Passed(front) + if last then 1 else 0
  {
    if front == [] {
      assert front + [last] == [last];
    } else {
      assert (front + [last])[0] == front[0] && (front + [last])[1..] == front[1..] + [last];
      PassedSnoc(front[1..], last);
    }
  }

  /** The score counts the passed scenarios. */
  lemma {:induction false} PassedCounts(results: seq<bool>)
    ensures Passed(results) == |Trues(results)|
  {
    if results == [] {
      assert Trues(results) == {};
    } else {
      var front, last := results[..|results| - 1], results[|results| - 1];
      assert results == front + [last];
      PassedCounts(front);
      PassedSnoc(front, last);
      TruesSnoc(front, last);
    }
  }

  /** Everything has passed exactly when as many passed as there are. */
  lemma {:induction false} AllPassedIff(results: seq<bool>)
    ensures |Trues(results)| <= |results|
    ensures AllPassed(results) <==> |Trues(results)| == |results|
  {
    if results == [] {
      assert Trues(results) == {};
    } else {
      var front, last := results[..|results| - 1], results[|results| - 1];
      assert results == front + [last];
      AllPassedIff(front);
      TruesSnoc(front, last);
    }
  }

  function Sum(deltas: seq<nat>): nat {
    if deltas == [] then 0 else deltas[0] + Sum(deltas[1..])
  }

  lemma {:induction false} SumSnoc(deltas: seq<nat>, d: nat)
    ensures Sum(deltas + [d]) == Sum(deltas) + d
  {
    if deltas == [] {
      assert deltas + [d] == [d];
    } else {
      assert (deltas + [d])[0] == deltas[0] && (deltas + [d])[1..] == deltas[1..] + [d];
      SumSnoc(deltas[1..], d);
    }
  }

  /** What has ended the climb early, if anything; an evaluation, in which iteration. */
  datatype Halt = Going | BaselineRaised | ApplyRaised | EvaluationRaised(at: nat)

  /** A point of the climb; `applied` counts the proposals written. */
  datatype Climb = Climb(disk: Disk, best: seq<bool>, improvements: seq<nat>, applied: nat, halt: Halt)

  predicate AllPassed(results: seq<bool>) {
    forall i :: 0 <= i < |results| ==> results[i]
  }

  /** One iteration, from the analyser's answer on. */
  function Attempt(c: Climb, at: nat, w: World): Climb {
    match w.propose(at)
    case None => c
    case Some(changes) => Settle(c, at, Apply(c.disk, Sections(changes), w.fault(at)), w)
  }

  /** Keep or discard what an apply left behind. */
  function Settle(c: Climb, at: nat, o: Outcome, w: World): Climb {
    if !o.ok then c.(disk := o.disk, halt := ApplyRaised)
    else
      match w.evaluate(at, o.disk)
      case None => c.(disk := o.disk, applied := c.applied + 1, halt := EvaluationRaised(at))
      case Some(results) =>
        if Passed(results) > Passed(c.best)
        then Climb(o.disk, results, c.improvements + [Passed(results) - Passed(c.best)], c.applied + 1, Going)
        else c.(disk := RolledBack(o.disk), applied := c.applied + 1)
  }

  function Climbed(c: Climb, at: nat, max: nat, w: World): Climb
    decreases max + 1 - at
  {
    if at > max || !c.halt.Going? || AllPassed(c.best) then c else Climbed(Attempt(c, at, w), at + 1, max, w)
  }

  function Baseline(start: Disk, w: World): Climb {
    match w.evaluate(0, start)
    case None => Climb(start, [], [], 0, BaselineRaised)
    case Some(results) => Climb(start, results, [], 0, Going)
  }

  /** `CalibrationLoop.run`, from the baseline on. */
  method HillClimb(start: Disk, max: nat, w: World) returns (c: Climb)
    ensures c == Climbed(Baseline(start, w), 1, max, w)
  {
    var editor := new ConfigEditor(start);
    var baseline := w.evaluate(0, start);
    if baseline.None? {
      return Climb(start, [], [], 0, BaselineRaised);
    }
    var best := baseline.value;
    var improvements: seq<nat> := [];
    var applied := 0;
    var at := 1;
    while at <= max
      invariant 1 <= at <= max + 1
      invariant Climbed(Climb(editor.disk, best, improvements, applied, Going), at, max, w)
             == Climbed(Baseline(start, w), 1, max, w)
    {
      if AllPassed(best) {
        break;
      }
      ghost var before := Climb(editor.disk, best, improvements, applied, Going);
      var halt;
      best, improvements, applied, halt := Iterate(editor, best, improvements, applied, at, w);
      assert Climb(editor.disk, best, improvements, applied, halt) == Attempt(before, at, w);
      if !halt.Going? {
        return Climb(editor.disk, best, improvements, applied, halt);
      }
      at := at + 1;
    }
    c := Climb(editor.disk, best, improvements, applied, Going);
  }

  method Iterate(editor: ConfigEditor, best0: seq<bool>, improvements0: seq<nat>, applied0: nat, at: nat, w: World)
    returns (best: seq<bool>, improvements: seq<nat>, applied: nat, halt: Halt)
    modifies editor
    ensures Climb(editor.disk, best, improvements, applied, halt)
         == Attempt(Climb(old(editor.disk), best0, improvements0, applied0, Going), at, w)
  {
    best, improvements, applied, halt := best0, improvements0, applied0, Going;
    var proposed := w.propose(at);
    if proposed.None? {
      return;
    }
    var ok := editor.ApplyChanges(proposed.value, w.fault(at));
    if !ok {
      halt := ApplyRaised;
      return;
    }
    applied := applied + 1;
    var results := w.evaluate(at, editor.disk);
    if results.None? {
      halt := EvaluationRaised(at);
      return;
    }
    if Passed(results.value) > Passed(best) {
      improvements := improvements + [Passed(results.value) - Passed(best)];
      best := results.value;
    } else {
      editor.Rollback();
    }
  }

  /** The disk, one rollback further when an evaluation has raised over an unscored configuration. */
  function Settled(c: Climb): Disk {
    if c.halt.EvaluationRaised? then RolledBack(c.disk) else c.disk
  }

  /** What every point of the climb keeps. `bestAt` and `bestDisk` are the evaluation that earned the
      best score; the configuration on disk (behind a raised evaluation: its backup) is that one, unless
      the directory did not exist at the start and something was written without ever being kept. */
  predicate OnBest(c: Climb, start: Disk, w: World, bestAt: nat, bestDisk: Disk) {
    && w.evaluate(bestAt, bestDisk) == Some(c.best)
    && w.evaluate(0, start).Some?
    && Passed(c.best) == Passed(w.evaluate(0, start).value) + Sum(c.improvements)
    && (forall i :: 0 <= i < |c.improvements| ==> c.improvements[i] > 0)
    && |c.improvements| <= c.applied
    && (c.improvements == [] ==> bestAt == 0 && bestDisk == start)
    && (c.disk.Absent? ==> c.applied == 0 && c.halt.Going? && start.Absent?)
    && (Config(Settled(c)) == Config(bestDisk) <==> Kept(c, start))
    && (c.halt.EvaluationRaised? && Kept(c, start) ==> Unscored(c, w))
  }

  /** The writes of the last proposal went through, over the configuration now in the backup. */
  predicate Unscored(c: Climb, w: World)
    requires c.halt.EvaluationRaised?
  {
    var p, fault := w.propose(c.halt.at), w.fault(c.halt.at);
    && p.Some? && c.disk.Present? && c.disk.backup.Some?
    && DoAll(c.disk.backup.value, Sections(p.value), 0, fault) == Applied(c.disk.items, true)
  }

  predicate Kept(c: Climb, start: Disk) {
    start.Present? || c.improvements != [] || (c.applied == 0 && c.halt.Going?)
  }

  /** What an apply leaves, as far as the climb depends on it. */
  predicate Transacted(d: Disk, ops: seq<Op>, fault: Fault, o: Outcome) {
    && o.disk.Present?
    && (o.ok && d.Present? ==>
          o.disk.backup == Some(d.items) && DoAll(d.items, ops, 0, fault) == Applied(o.disk.items, true))
    && (d.Present? ==> Config(if o.ok then RolledBack(o.disk) else o.disk) == Config(d))
    && (o.ok ==> RolledBack(o.disk).Present?)
  }

  lemma SettleKeepsBest(c: Climb, start: Disk, at: nat, o: Outcome, w: World, bestAt: nat, bestDisk: Disk)
    returns (nextAt: nat, nextDisk: Disk)
    requires c.halt.Going? && OnBest(c, start, w, bestAt, bestDisk) && w.propose(at).Some?
    requires Transacted(c.disk, Sections(w.propose(at).value), w.fault(at), o)
    ensures OnBest(Settle(c, at, o, w), start, w, nextAt, nextDisk)
  {
    nextAt, nextDisk := bestAt, bestDisk;
    if o.ok {
      var results := w.evaluate(at, o.disk);
      if results.Some? && Passed(results.value) > Passed(c.best) {
        SumSnoc(c.improvements, Passed(results.value) - Passed(c.best));
        nextAt, nextDisk := at, o.disk;
      }
    }
  }

  lemma ApplyTransacts(d: Disk, ops: seq<Op>, fault: Fault)
    ensures Transacted(d, ops, fault, Apply(d, ops, fault))
  {
    RollbackRestoresIff(d, ops, fault);
  }

  lemma AttemptKeepsBest(c: Climb, start: Disk, at: nat, w: World, bestAt: nat, bestDisk: Disk)
    returns (nextAt: nat, nextDisk: Disk)
    requires c.halt.Going? && OnBest(c, start, w, bestAt, bestDisk)
    ensures OnBest(Attempt(c, at, w), start, w, nextAt, nextDisk)
  {
    nextAt, nextDisk := bestAt, bestDisk;
    var p := w.propose(at);
    if p.Some? {
      var ops, fault := Sections(p.value), w.fault(at);
      ApplyTransacts(c.disk, ops, fault);
      nextAt, nextDisk := SettleKeepsBest(c, start, at, Apply(c.disk, ops, fault), w, bestAt, bestDisk);
    }
  }

  /** Over any climb, with any analyser, any write failures and any scores: the best score is what
      the configuration `bestDisk` earned, it is the baseline plus the recorded strict improvements,
      and the disk ends on that configuration exactly when `Kept` says so. */
  lemma {:induction false} ClimbKeepsBest(c: Climb, at: nat, max: nat, w: World,
                                          start: Disk, bestAt: nat, bestDisk: Disk)
    returns (endAt: nat, endDisk: Disk)
    requires OnBest(c, start, w, bestAt, bestDisk)
    ensures OnBest(Climbed(c, at, max, w), start, w, endAt, endDisk)
    decreases max + 1 - at
  {
    endAt, endDisk := bestAt, bestDisk;
    if at <= max && c.halt.Going? && !AllPassed(c.best) {
      endAt, endDisk := AttemptKeepsBest(c, start, at, w, bestAt, bestDisk);
      endAt, endDisk := ClimbKeepsBest(Attempt(c, at, w), at + 1, max, w, start, endAt, endDisk);
    }
  }

  predicate WroteNothing(best: Disk, p: Option<Changes>) {
    best.Present? && p.Some? && NothingNew(best.items, p.value)
  }

  /** The climb from the baseline. From an existing directory it ends with the best configuration on disk
      exactly when no evaluation raised or the last proposal says nothing that is not there already; it is
      one rollback away otherwise. A baseline that raises touches nothing. */
  lemma ClimbEndsOnBest(start: Disk, max: nat, w: World) returns (bestAt: nat, bestDisk: Disk)
    ensures var c := Climbed(Baseline(start, w), 1, max, w);
      && c.applied <= max
      && (c.halt.BaselineRaised? <==> w.evaluate(0, start).None?)
      && (c.halt.BaselineRaised? ==> c.disk == start && c.applied == 0)
      && (!c.halt.BaselineRaised? ==> OnBest(c, start, w, bestAt, bestDisk))
      && (!c.halt.BaselineRaised? && start.Present? ==> Config(Settled(c)) == Config(bestDisk))
      && (!c.halt.BaselineRaised? ==>
            (Config(c.disk) == Config(bestDisk)
             <==> Kept(c, start) && (c.halt.EvaluationRaised? ==> WroteNothing(bestDisk, w.propose(c.halt.at)))))
  {
    bestAt, bestDisk := 0, start;
    if w.evaluate(0, start).Some? {
      bestAt, bestDisk := ClimbKeepsBest(Baseline(start, w), 1, max, w, start, 0, start);
    }
    ClimbCounts(Baseline(start, w), 1, max, w);
    var c := Climbed(Baseline(start, w), 1, max, w);
    if c.halt.EvaluationRaised? && Kept(c, start) {
      UnscoredIsBestIff(c, w);
    }
  }

  lemma UnscoredIsBestIff(c: Climb, w: World)
    requires c.halt.EvaluationRaised? && Unscored(c, w)
    ensures c.disk.items == c.disk.backup.value
      <==> NothingNew(c.disk.backup.value, w.propose(c.halt.at).value)
  {
    DoneIsSameIff(c.disk.backup.value, Sections(w.propose(c.halt.at).value), w.fault(c.halt.at));
  }

  lemma AttemptCounts(c: Climb, at: nat, w: World)
    requires c.halt.Going?
    ensures Attempt(c, at, w).applied <= c.applied + 1 && !Attempt(c, at, w).halt.BaselineRaised?
  {
  }

  lemma {:induction false} ClimbCounts(c: Climb, at: nat, max: nat, w: World)
    requires at <= max + 1
    ensures Climbed(c, at, max, w).applied <= c.applied + (max + 1 - at)
    ensures Climbed(c, at, max, w).halt.BaselineRaised? <==> c.halt.BaselineRaised?
    decreases max + 1 - at
  {
    if at <= max && c.halt.Going? && !AllPassed(c.best) {
      AttemptCounts(c, at, w);
      ClimbCounts(Attempt(c, at, w), at + 1, max, w);
    }
  }

  // ----- the score -----

  /** What one evaluated proposal does: it is kept, with all it wrote, exactly when strictly more scenarios
      pass than in the best results so far, and rolled back otherwise. */
  lemma KeptIffMorePass(c: Climb, at: nat, w: World)
    requires c.halt.Going? && w.propose(at).Some?
    requires Apply(c.disk, Sections(w.propose(at).value), w.fault(at)).ok
    requires w.evaluate(at, Apply(c.disk, Sections(w.propose(at).value), w.fault(at)).disk).Some?
    ensures var written := Apply(c.disk, Sections(w.propose(at).value), w.fault(at)).disk;
      var results := w.evaluate(at, written).value; var next := Attempt(c, at, w);
      && next.halt.Going? && next.applied == c.applied + 1
      && (if |Trues(results)| > |Trues(c.best)| then
            && next.disk == written && next.best == results
            && next.improvements == c.improvements + [|Trues(results)| - |Trues(c.best)|]
          else
            && next.best == c.best && next.improvements == c.improvements
            && (c.disk.Present? ==> Config(next.disk) == Config(c.disk)))
  {
    var ops, fault := Sections(w.propose(at).value), w.fault(at);
    var written := Apply(c.disk, ops, fault).disk;
    PassedCounts(w.evaluate(at, written).value);
    PassedCounts(c.best);
    RollbackRestoresIff(c.disk, ops, fault);
  }

  /** What an iteration without results does: nothing when the analysis fails; otherwise it ends the climb, with
      the best results as they were, over the restored disk when writing failed and over what was written when
      scoring did. */
  lemma UnscoredAttempts(c: Climb, at: nat, w: World)
    requires c.halt.Going?
    ensures var next := Attempt(c, at, w); var p := w.propose(at);
      if p.None? then next == c
      else
        var o := Apply(c.disk, Sections(p.value), w.fault(at));
        && (!o.ok ==> next == Climb(o.disk, c.best, c.improvements, c.applied, ApplyRaised)
                      && (c.disk.Present? ==> Config(next.disk) == Config(c.disk)))
        && (o.ok && w.evaluate(at, o.disk).None? ==>
              next == Climb(o.disk, c.best, c.improvements, c.applied + 1, EvaluationRaised(at)))
  {
    if w.propose(at).Some? {
      RollbackRestoresIff(c.disk, Sections(w.propose(at).value), w.fault(at));
    }
  }

  /** A climb never ends on fewer passed scenarios than its baseline, and where all pass it tries nothing. */
  lemma ClimbNeverRegresses(start: Disk, max: nat, w: World)
    requires w.evaluate(0, start).Some?
    ensures var c := Climbed(Baseline(start, w), 1, max, w); var baseline := w.evaluate(0, start).value;
      && |Trues(c.best)| >= |Trues(baseline)|
      && (|Trues(c.best)| > |Trues(baseline)| <==> c.improvements != [])
      && (|Trues(baseline)| == |baseline| ==> c == Climb(start, baseline, [], 0, Going))
  {
    var c := Climbed(Baseline(start, w), 1, max, w);
    var bestAt, bestDisk := ClimbEndsOnBest(start, max, w);
    PassedCounts(c.best);
    PassedCounts(w.evaluate(0, start).value);
    AllPassedIff(w.evaluate(0, start).value);
    if c.improvements != [] {
      assert c.improvements[0] > 0;
    }
  }
}
