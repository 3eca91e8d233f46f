/** Per-call thinking decisions over a run, and the two escalation guards they read. */
module PhasePolicy {
  datatype Decision = Gathering | Aggregation | Closing | NoOverride

  /** The snapshot the policy sees at one provider call. */
  datatype PhaseContext = PhaseContext(
    workflow: bool, closing: bool, nudged: bool, restricted: bool, prevTools: seq<string>, toolsUsed: seq<string>)

  predicate Marked(tools: seq<string>, markers: set<string>) {
    exists i :: 0 <= i < |tools| && tools[i] in markers
  }

  /** `options_for_phase`. */
  function Decide(enabled: bool, markers: set<string>, ctx: PhaseContext): Decision {
    if !enabled then NoOverride
    else if ctx.closing then Closing
    else if ctx.workflow then
      if Marked(ctx.toolsUsed, markers) || Marked(ctx.prevTools, markers) then Aggregation
      else if ctx.nudged || ctx.restricted then Aggregation
      else Gathering
    else NoOverride
  }

  function Rank(d: Decision): nat {
    match d
    case Gathering => 0
    case Aggregation => 1
    case Closing => 2
    case NoOverride => 0
  }

  // ----- the guards -----

  datatype MandateConfig = MandateConfig(
    enabled: bool, terminalTool: string, nudgeRatio: real, restrictRatio: real, maxTimeMs: real, maxIterations: int)

  function Greater(a: real, b: real): real {
    if a > b then a else b
  }

  /** Whichever resource is closer to exhaustion. */
  function ElapsedRatio(c: MandateConfig, elapsedMs: real, iteration: nat): real {
    var wall := if c.maxTimeMs > 0.0 then elapsedMs / c.maxTimeMs else 1.0;
    if c.maxIterations <= 0 then wall else Greater(wall, iteration as real / c.maxIterations as real)
  }

  function Active(c: MandateConfig): bool {
    c.enabled && c.terminalTool != ""
  }

  function Due(c: MandateConfig, ratio: real, used: seq<string>, elapsedMs: real, iteration: nat): bool {
    Active(c) && c.terminalTool !in used && ElapsedRatio(c, elapsedMs, iteration) >= ratio
  }

  class TerminalToolMandate {
    const config: MandateConfig
    var nudged: bool
    var restricted: bool

    constructor (config: MandateConfig)
      ensures this.config == config && !nudged && !restricted
    {
      this.config, nudged, restricted := config, false, false;
    }

    /** Answers once, and remembers that it did. */
    method ShouldNudge(used: seq<string>, elapsedMs: real, iteration: nat) returns (now: bool)
      modifies this`nudged
      ensures now == (!old(nudged) && Due(config, config.nudgeRatio, used, elapsedMs, iteration))
      ensures nudged == (old(nudged) || now)
    {
      if !Active(config) || nudged {
        return false;
      }
      if config.terminalTool in used {
        return false;
      }
      if ElapsedRatio(config, elapsedMs, iteration) < config.nudgeRatio {
        return false;
      }
      nudged := true;
      return true;
    }

    method ShouldRestrict(used: seq<string>, elapsedMs: real, iteration: nat) returns (now: bool)
      modifies this`restricted
      ensures now == (!old(restricted) && Due(config, config.restrictRatio, used, elapsedMs, iteration))
      ensures restricted == (old(restricted) || now)
    {
      if !Active(config) || restricted {
        return false;
      }
      if config.terminalTool in used {
        return false;
      }
      if ElapsedRatio(config, elapsedMs, iteration) < config.restrictRatio {
        return false;
      }
      restricted := true;
      return true;
    }
  }

  class SoftDeadline {
    const enabled: bool
    const ratio: real
    const maxTimeMs: real
    var closingMode: bool

    constructor (enabled: bool, ratio: real, maxTimeMs: real)
      ensures this.enabled == enabled && this.ratio == ratio && this.maxTimeMs == maxTimeMs && !closingMode
    {
      this.enabled, this.ratio, this.maxTimeMs, closingMode := enabled, ratio, maxTimeMs, false;
    }

    /** `apply_closing_mode`, as far as the flag goes. */
    method Apply(elapsedMs: real)
      modifies this
      ensures closingMode == (old(closingMode) || (enabled && elapsedMs >= ratio * maxTimeMs))
    {
      if closingMode {
        return;
      }
      if enabled && elapsedMs >= ratio * maxTimeMs {
        closingMode := true;
      }
    }
  }

  // ----- a run -----

  /** One turn: wall-clock readings before the call and after its batch, and the tools called. */
  datatype Turn = Turn(beforeMs: real, afterMs: real, tools: seq<string>)

  datatype Setup = Setup(
    enabled: bool, markers: set<string>, mandate: MandateConfig, deadline: bool, ratio: real, maxTimeMs: real)

  datatype PolicyState = PolicyState(
    closing: bool, nudged: bool, restricted: bool, prevTools: seq<string>, toolsUsed: seq<string>)

  const START := PolicyState(false, false, false, [], [])

  function Closes(s: PolicyState, t: Turn, x: Setup): bool {
    s.closing || (x.deadline && t.beforeMs >= x.ratio * x.maxTimeMs)
  }

  function DecisionIn(s: PolicyState, t: Turn, x: Setup): Decision {
    Decide(x.enabled, x.markers,
           PhaseContext(Active(x.mandate), Closes(s, t, x), s.nudged, s.restricted, s.prevTools, s.toolsUsed))
  }

  /** The state the next turn begins in; the mandate looks only after a tool batch. */
  function After(s: PolicyState, t: Turn, n: nat, x: Setup): PolicyState {
    var used := s.toolsUsed + t.tools;
    var m := x.mandate;
    PolicyState(
      Closes(s, t, x),
      s.nudged || (t.tools != [] && Due(m, m.nudgeRatio, used, t.afterMs, n)),
      s.restricted || (t.tools != [] && Due(m, m.restrictRatio, used, t.afterMs, n)),
      t.tools, used)
  }

  function StateAt(turns: seq<Turn>, x: Setup): PolicyState {
    if turns == [] then START
    else After(StateAt(turns[..|turns| - 1], x), turns[|turns| - 1], |turns|, x)
  }

  /** The decision of the last of these turns. */
  function DecisionAt(turns: seq<Turn>, x: Setup): Decision
    requires turns != []
  {
    DecisionIn(StateAt(turns[..|turns| - 1], x), turns[|turns| - 1], x)
  }

  function AllDecisions(turns: seq<Turn>, x: Setup): (r: seq<Decision>)
    ensures |r| == |turns|
  {
    if turns == [] then [] else AllDecisions(turns[..|turns| - 1], x) + [DecisionAt(turns, x)]
  }

  lemma {:induction false} AllDecisionsAt(turns: seq<Turn>, i: nat, x: Setup)
    requires i < |turns|
    ensures AllDecisions(turns, x)[i] == DecisionAt(turns[..i + 1], x)
  {
    if i == |turns| - 1 {
      assert turns[..i + 1] == turns;
    } else {
      var front := turns[..|turns| - 1];
      AllDecisionsAt(front, i, x);
      assert front[..i + 1] == turns[..i + 1];
    }
  }

  /** The loop's share of a run: guards updated turn by turn, a decision before each call. */
  method Decisions(turns: seq<Turn>, x: Setup) returns (out: seq<Decision>)
    ensures out == AllDecisions(turns, x)
  {
    var mandate := new TerminalToolMandate(x.mandate);
    var deadline := new SoftDeadline(x.deadline, x.ratio, x.maxTimeMs);
    var current, used: seq<string> := [], [];
    out := [];
    for i := 0 to |turns|
      invariant out == AllDecisions(turns[..i], x)
      invariant StateAt(turns[..i], x)
             == PolicyState(deadline.closingMode, mandate.nudged, mandate.restricted, current, used)
    {
      assert turns[..i + 1][..i] == turns[..i];
      var d;
      d, current, used := OneTurn(turns[i], i + 1, current, used, mandate, deadline, x);
      out := out + [d];
    }
    assert turns[..|turns|] == turns;
  }

  method OneTurn(t: Turn, n: nat, current: seq<string>, used0: seq<string>,
                 mandate: TerminalToolMandate, deadline: SoftDeadline, x: Setup)
    returns (d: Decision, tools: seq<string>, used: seq<string>)
    requires mandate.config == x.mandate
    requires deadline.enabled == x.deadline && deadline.ratio == x.ratio && deadline.maxTimeMs == x.maxTimeMs
    modifies mandate, deadline
    ensures var s := PolicyState(
        old(deadline.closingMode), old(mandate.nudged), old(mandate.restricted), current, used0);
      && d == DecisionIn(s, t, x)
      && After(s, t, n, x) == PolicyState(deadline.closingMode, mandate.nudged, mandate.restricted, tools, used)
  {
    var prev := current;
    deadline.Apply(t.beforeMs);
    d := Decide(x.enabled, x.markers,
                PhaseContext(Active(x.mandate), deadline.closingMode, mandate.nudged, mandate.restricted, prev, used0));
    tools, used := t.tools, used0 + t.tools;
    if t.tools != [] {
      var _ := mandate.ShouldNudge(used, t.afterMs, n);
      var _ := mandate.ShouldRestrict(used, t.afterMs, n);
    }
  }

  /** The previous turn's tools are among the tools used. */
  lemma {:induction false} PreviousToolsWereUsed(turns: seq<Turn>, x: Setup)
    ensures var s := StateAt(turns, x); forall t :: t in s.prevTools ==> t in s.toolsUsed
  {
    if turns != [] {
      PreviousToolsWereUsed(turns[..|turns| - 1], x);
    }
  }

  lemma MarkedGrows(a: seq<string>, b: seq<string>, markers: set<string>)
    requires Marked(a, markers) && forall t :: t in a ==> t in b
    ensures Marked(b, markers)
  {
    var i :| 0 <= i < |a| && a[i] in markers;
    assert a[i] in b;
    var j :| 0 <= j < |b| && b[j] == a[i];
  }

  /** Every reason to have left gathering, or to be closing, is still there on the next turn. */
  lemma NextNeverFallsBack(s: PolicyState, t: Turn, u: Turn, n: nat, x: Setup)
    requires forall y :: y in s.prevTools ==> y in s.toolsUsed
    ensures Rank(DecisionIn(s, t, x)) <= Rank(DecisionIn(After(s, t, n, x), u, x))
  {
    var next := After(s, t, n, x);
    if Marked(s.toolsUsed, x.markers) {
      MarkedGrows(s.toolsUsed, next.toolsUsed, x.markers);
    } else if Marked(s.prevTools, x.markers) {
      MarkedGrows(s.prevTools, s.toolsUsed, x.markers);
    }
  }

  lemma {:induction false} LaterNeverFallsBack(turns: seq<Turn>, i: nat, x: Setup)
    requires 1 <= i <= |turns|
    ensures Rank(DecisionAt(turns[..i], x)) <= Rank(DecisionAt(turns, x))
    ensures x.enabled && Active(x.mandate) ==> !DecisionAt(turns, x).NoOverride?
  {
    if i == |turns| {
      assert turns[..i] == turns;
    } else {
      var front := turns[..|turns| - 1];
      LaterNeverFallsBack(front, i, x);
      assert front[..i] == turns[..i];
      var before := front[..|front| - 1];
      PreviousToolsWereUsed(before, x);
      NextNeverFallsBack(StateAt(before, x), front[|front| - 1], turns[|turns| - 1], |front|, x);
    }
  }

  /** For a workflow subagent the decisions of any run are gathering, then aggregation, then closing. */
  lemma DecisionsNeverFallBack(turns: seq<Turn>, i: nat, j: nat, x: Setup)
    requires i <= j < |turns|
    ensures Rank(AllDecisions(turns, x)[i]) <= Rank(AllDecisions(turns, x)[j])
    ensures x.enabled && Active(x.mandate) ==> !AllDecisions(turns, x)[i].NoOverride?
  {
    AllDecisionsAt(turns, i, x);
    AllDecisionsAt(turns, j, x);
    LaterNeverFallsBack(turns[..j + 1], i + 1, x);
    assert turns[..j + 1][..i + 1] == turns[..i + 1];
  }

  // ----- a run by its turns -----

  /** The share of time or of iterations that is spent reaches the ratio. */
  predicate Reaches(m: MandateConfig, ratio: real, elapsedMs: real, n: nat) {
    || (if m.maxTimeMs > 0.0 then elapsedMs / m.maxTimeMs >= ratio else 1.0 >= ratio)
    || (m.maxIterations > 0 && n as real / m.maxIterations as real >= ratio)
  }

  predicate IsWorkflow(m: MandateConfig) {
    m.enabled && m.terminalTool != ""
  }

  /** Turn `j` called tools, no turn so far the terminal one, and the ratio is reached. */
  ghost predicate Escalates(turns: seq<Turn>, j: int, ratio: real, m: MandateConfig) {
    && IsWorkflow(m) && 0 <= j < |turns| && turns[j].tools != []
    && (forall k :: 0 <= k <= j ==> m.terminalTool !in turns[k].tools)
    && Reaches(m, ratio, turns[j].afterMs, j + 1)
  }

  predicate PastDeadline(turns: seq<Turn>, j: int, x: Setup) {
    0 <= j < |turns| && x.deadline && turns[j].beforeMs >= x.ratio * x.maxTimeMs
  }

  predicate CalledIn(turns: seq<Turn>, j: int, tool: string) {
    0 <= j < |turns| && tool in turns[j].tools
  }

  lemma {:induction false} UsedMeans(turns: seq<Turn>, x: Setup, tool: string)
    ensures tool in StateAt(turns, x).toolsUsed <==> exists j :: CalledIn(turns, j, tool)
  {
    if turns != [] {
      var front, last := turns[..|turns| - 1], turns[|turns| - 1];
      UsedMeans(front, x, tool);
      assert forall j :: 0 <= j < |front| ==> front[j] == turns[j];
      if tool in last.tools {
        assert CalledIn(turns, |front|, tool);
      }
      if j :| CalledIn(front, j, tool) {
        assert CalledIn(turns, j, tool);
      }
      if j :| CalledIn(turns, j, tool) {
        assert j < |front| ==> CalledIn(front, j, tool);
      }
    }
  }

  lemma DueMeans(turns: seq<Turn>, ratio: real, x: Setup)
    requires turns != []
    ensures var front, last := turns[..|turns| - 1], turns[|turns| - 1];
      (last.tools != []
       && Due(x.mandate, ratio, StateAt(front, x).toolsUsed + last.tools, last.afterMs, |turns|))
      <==> Escalates(turns, |turns| - 1, ratio, x.mandate)
  {
    var tool := x.mandate.terminalTool;
    UsedMeans(turns, x, tool);
    if forall k :: 0 <= k <= |turns| - 1 ==> tool !in turns[k].tools {
      assert forall j :: !CalledIn(turns, j, tool);
    } else {
      var k :| 0 <= k <= |turns| - 1 && tool in turns[k].tools;
      assert CalledIn(turns, k, tool);
    }
  }

  lemma EscalatesEarlier(turns: seq<Turn>, j: int, ratio: real, m: MandateConfig)
    requires turns != [] && j < |turns| - 1
    ensures Escalates(turns[..|turns| - 1], j, ratio, m) <==> Escalates(turns, j, ratio, m)
  {
    assert forall k :: 0 <= k < |turns| - 1 ==> turns[..|turns| - 1][k] == turns[k];
  }

  /** The flags by the turns: each is up exactly when some turn has raised it. */
  lemma {:induction false} FlagsMean(turns: seq<Turn>, x: Setup)
    ensures var s := StateAt(turns, x);
      && (s.closing <==> exists j :: PastDeadline(turns, j, x))
      && (s.nudged <==> exists j :: Escalates(turns, j, x.mandate.nudgeRatio, x.mandate))
      && (s.restricted <==> exists j :: Escalates(turns, j, x.mandate.restrictRatio, x.mandate))
  {
    if turns != [] {
      var front, last := turns[..|turns| - 1], turns[|turns| - 1];
      FlagsMean(front, x);
      DueMeans(turns, x.mandate.nudgeRatio, x);
      DueMeans(turns, x.mandate.restrictRatio, x);
      forall j, ratio | j < |front|
        ensures Escalates(front, j, ratio, x.mandate) <==> Escalates(turns, j, ratio, x.mandate)
      {
        EscalatesEarlier(turns, j, ratio, x.mandate);
      }
      assert forall j :: j < |front| ==> (PastDeadline(front, j, x) <==> PastDeadline(turns, j, x));
      assert PastDeadline(turns, |front|, x) <==> x.deadline && last.beforeMs >= x.ratio * x.maxTimeMs;
    }
  }

  /** The thinking decision at the last of these turns' call: closing once a turn has begun behind the deadline;
      for a workflow aggregation once a marker tool was called or an escalation was due, gathering before. */
  lemma DecisionMeans(turns: seq<Turn>, x: Setup)
    requires turns != []
    ensures var d := DecisionAt(turns, x); var earlier := turns[..|turns| - 1];
      var marked := exists j, tool :: tool in x.markers && CalledIn(earlier, j, tool);
      var pressed := exists j :: Escalates(earlier, j, x.mandate.nudgeRatio, x.mandate)
                              || Escalates(earlier, j, x.mandate.restrictRatio, x.mandate);
      && (d == Closing <==> x.enabled && exists j :: PastDeadline(turns, j, x))
      && (d == NoOverride <==> !x.enabled || (d != Closing && !IsWorkflow(x.mandate)))
      && (d == Aggregation <==> x.enabled && IsWorkflow(x.mandate) && d != Closing && (marked || pressed))
  {
    var earlier, last := turns[..|turns| - 1], turns[|turns| - 1];
    var s := StateAt(earlier, x);
    FlagsMean(turns, x);
    FlagsMean(earlier, x);
    PreviousToolsWereUsed(earlier, x);
    if Marked(s.toolsUsed, x.markers) || Marked(s.prevTools, x.markers) {
      if Marked(s.prevTools, x.markers) {
        MarkedGrows(s.prevTools, s.toolsUsed, x.markers);
      }
      var i :| 0 <= i < |s.toolsUsed| && s.toolsUsed[i] in x.markers;
      UsedMeans(earlier, x, s.toolsUsed[i]);
    }
    if j, tool :| tool in x.markers && CalledIn(earlier, j, tool) {
      UsedMeans(earlier, x, tool);
      assert tool in s.toolsUsed;
      var i :| 0 <= i < |s.toolsUsed| && s.toolsUsed[i] == tool;
    }
  }
}
