/**
 * The workflow configurator's generic part: the order of `configure` (databases first, then
 * the specialised setup) and `expandConfigs`, which numbers each pipeline run of one
 * workflow and gives it a production-wide offset.
 */
module WorkflowConfigurator {
  import opened Wrappers
  import opened WorkflowLauncher

  /** A pipeline entry of a workflow config: its name and its optional `runCount`. */
  datatype PipelineConfig = PipelineConfig(name: string, runCount: Option<int>)

  /** A workflow entry of the production config, under its short name, with its pipelines in order. */
  datatype WorkflowConfig = WorkflowConfig(name: string, pipelines: seq<PipelineConfig>)

  /** `ConfigGroup`: the accessors return exactly what it was built from. */
  datatype ConfigGroup = ConfigGroup(configName: string, config: PipelineConfig, configNumber: int, globalOffset: int)
  {
    /** `getConfig`: with the other three parts kept, it rebuilds the group. */
    function GetConfig(): (r: PipelineConfig)
      ensures ConfigGroup(configName, r, configNumber, globalOffset) == this
    {
      config
    }

    /** `getConfigName` */
    function GetConfigName(): (r: string)
      ensures ConfigGroup(r, config, configNumber, globalOffset) == this
    {
      configName
    }

    /** `getConfigNumber` */
    function GetConfigNumber(): (r: int)
      ensures ConfigGroup(configName, config, r, globalOffset) == this
    {
      configNumber
    }

    /** `getGlobalOffset` */
    function GetGlobalOffset(): (r: int)
      ensures ConfigGroup(configName, config, configNumber, r) == this
    {
      globalOffset
    }
  }

  /** Each accessor of a group returns exactly the argument the group was built with. */
  lemma AccessorsReturnArguments(name: string, config: PipelineConfig, number: int, offset: int)
    ensures ConfigGroup(name, config, number, offset).GetConfigName() == name
    ensures ConfigGroup(name, config, number, offset).GetConfig() == config
    ensures ConfigGroup(name, config, number, offset).GetConfigNumber() == number
    ensures ConfigGroup(name, config, number, offset).GetGlobalOffset() == offset
  {
  }

  /** The run count a pipeline adds: its `runCount`, or 1 when it has none. */
  function RunCount(p: PipelineConfig): int {
    if p.runCount.Some? then p.runCount.value else 1
  }

  /** How many groups `range(runCount)` yields: none for a count below 1. */
  function Iterations(p: PipelineConfig): (r: nat)
    ensures RunCount(p) >= 0 ==> r == RunCount(p)
    ensures RunCount(p) < 0 ==> r == 0
  {
    if RunCount(p) > 0 then RunCount(p) else 0
  }

  /** The total run count of a list of pipelines. */
  function SumCounts(ps: seq<PipelineConfig>): int {
    if ps == [] then 0 else SumCounts(ps[..|ps| - 1]) + RunCount(ps[|ps| - 1])
  }

  /** The total run count of all pipelines of a list of workflows. */
  function CountBefore(ws: seq<WorkflowConfig>): int {
    if ws == [] then 0 else CountBefore(ws[..|ws| - 1]) + SumCounts(ws[|ws| - 1].pipelines)
  }

  /** The groups of one pipeline: numbers 1 to its run count, offsets from `offset` on. */
  function PipelineGroups(p: PipelineConfig, offset: int): (r: seq<ConfigGroup>)
    ensures |r| == Iterations(p)
    ensures forall i :: 0 <= i < |r| ==> r[i] == ConfigGroup(p.name, p, i + 1, offset + i)
  {
    seq(Iterations(p), i => ConfigGroup(p.name, p, i + 1, offset + i))
  }

  /** The groups of a list of pipelines, in pipeline order, with consecutive offsets from `offset`. */
  function Groups(ps: seq<PipelineConfig>, offset: int): seq<ConfigGroup> {
    if ps == [] then []
    else
      var front := Groups(ps[..|ps| - 1], offset);
      front + PipelineGroups(ps[|ps| - 1], offset + |front|)
  }

  /** The position of the first workflow with the given short name. */
  function FindWorkflow(ws: seq<WorkflowConfig>, name: string): (r: Option<nat>)
    ensures r.Some? ==> r.value < |ws| && ws[r.value].name == name &&
                        forall j :: 0 <= j < r.value ==> ws[j].name != name
    ensures r.None? <==> forall j :: 0 <= j < |ws| ==> ws[j].name != name
  {
    if ws == [] then None
    else if ws[0].name == name then Some(0)
    else
      var r := FindWorkflow(ws[1..], name);
      if r.Some? then Some(r.value + 1) else None
  }

  /** What `expandConfigs` returns: the groups of the named workflow, numbered after all run counts before it. */
  function Expanded(ws: seq<WorkflowConfig>, name: string): Option<seq<ConfigGroup>> {
    match FindWorkflow(ws, name)
    case None => None
    case Some(k) => Some(Groups(ws[k].pipelines, 1 + CountBefore(ws[..k])))
  }

  /** The numbering loop of `expandConfigs` for the named workflow, its offsets counted on from `totalCount`. */
  method NumberPipelines(ps: seq<PipelineConfig>, totalCount: int) returns (expanded: seq<ConfigGroup>, next: int)
    ensures expanded == Groups(ps, totalCount)
    ensures next == totalCount + |expanded|
  {
    expanded := [];
    next := totalCount;
    var j := 0;
    while j < |ps|
      invariant 0 <= j <= |ps|
      invariant expanded == Groups(ps[..j], totalCount)
      invariant next == totalCount + |expanded|
    {
      var config := ps[j];
      var runCount := 1;
      if config.runCount.Some? {
        runCount := config.runCount.value;
      }
      assert ps[..j + 1][..j] == ps[..j];
      ghost var front := expanded;
      ghost var groups := PipelineGroups(config, totalCount + |front|);
      var i := 0;
      while i < runCount
        invariant 0 <= i <= Iterations(config)
        invariant expanded == front + groups[..i]
        invariant next == totalCount + |expanded|
      {
        expanded := expanded + [ConfigGroup(config.name, config, i + 1, next)];
        next := next + 1;
        i := i + 1;
      }
      assert groups[..i] == groups;
      j := j + 1;
    }
    assert ps[..j] == ps;
  }

  /** The counting loop of `expandConfigs` for a workflow before the named one. */
  method CountPipelines(ps: seq<PipelineConfig>) returns (n: int)
    ensures n == SumCounts(ps)
  {
    n := 0;
    var j := 0;
    while j < |ps|
      invariant 0 <= j <= |ps|
      invariant n == SumCounts(ps[..j])
    {
      assert ps[..j + 1][..j] == ps[..j];
      if ps[j].runCount.Some? {
        n := n + ps[j].runCount.value;
      } else {
        n := n + 1;
      }
      j := j + 1;
    }
    assert ps[..j] == ps;
  }

  /** `expandConfigs` */
  method ExpandConfigs(workflows: seq<WorkflowConfig>, wfShortName: string) returns (r: Option<seq<ConfigGroup>>)
    ensures r == Expanded(workflows, wfShortName)
  {
    var totalCount := 1;
    var k := 0;
    while k < |workflows|
      invariant 0 <= k <= |workflows|
      invariant totalCount == 1 + CountBefore(workflows[..k])
      invariant forall j :: 0 <= j < k ==> workflows[j].name != wfShortName
    {
      var wfConfig := workflows[k];
      if wfConfig.name == wfShortName {
        var expanded, _ := NumberPipelines(wfConfig.pipelines, totalCount);
        return Some(expanded);
      }
      var n := CountPipelines(wfConfig.pipelines);
      totalCount := totalCount + n;
      assert workflows[..k + 1][..k] == workflows[..k];
      k := k + 1;
    }
    return None;
  }

  /** There are as many groups as the pipelines' iterations add up to, and their offsets are consecutive from `offset`. */
  lemma {:induction false} GroupsConsecutive(ps: seq<PipelineConfig>, offset: int)
    ensures forall m :: 0 <= m < |Groups(ps, offset)| ==> Groups(ps, offset)[m].globalOffset == offset + m
  {
    if ps != [] {
      var front := Groups(ps[..|ps| - 1], offset);
      GroupsConsecutive(ps[..|ps| - 1], offset);
      var g := Groups(ps, offset);
      forall m | 0 <= m < |g| ensures g[m].globalOffset == offset + m {
        if m < |front| {
          assert g[m] == front[m];
        } else {
          assert g[m] == PipelineGroups(ps[|ps| - 1], offset + |front|)[m - |front|];
        }
      }
    }
  }

  /** Each group belongs to one of the pipelines and carries a number from 1 to that pipeline's run count. */
  lemma {:induction false} GroupsNumbered(ps: seq<PipelineConfig>, offset: int)
    ensures forall m :: 0 <= m < |Groups(ps, offset)| ==>
              var g := Groups(ps, offset)[m];
              g.config in ps && g.configName == g.config.name && 1 <= g.configNumber <= Iterations(g.config)
  {
    if ps != [] {
      var front := Groups(ps[..|ps| - 1], offset);
      GroupsNumbered(ps[..|ps| - 1], offset);
      var g := Groups(ps, offset);
      forall m | 0 <= m < |g|
        ensures g[m].config in ps && g[m].configName == g[m].config.name && 1 <= g[m].configNumber <= Iterations(g[m].config)
      {
        if m < |front| {
          assert g[m] == front[m];
          assert front[m].config in ps[..|ps| - 1];
        } else {
          assert g[m] == PipelineGroups(ps[|ps| - 1], offset + |front|)[m - |front|];
        }
      }
    }
  }

  lemma {:induction false} FindWorkflowPrefix(ws: seq<WorkflowConfig>, more: seq<WorkflowConfig>, name: string)
    requires FindWorkflow(ws, name).Some?
    ensures FindWorkflow(ws + more, name) == FindWorkflow(ws, name)
  {
    if ws[0].name != name {
      assert (ws + more)[1..] == ws[1..] + more;
      FindWorkflowPrefix(ws[1..], more, name);
    }
  }

  /** Workflows after the named one are never looked at. */
  lemma {:induction false} ExpandedIgnoresLater(ws: seq<WorkflowConfig>, more: seq<WorkflowConfig>, name: string)
    requires FindWorkflow(ws, name).Some?
    ensures Expanded(ws + more, name) == Expanded(ws, name)
  {
    FindWorkflowPrefix(ws, more, name);
    var k := FindWorkflow(ws, name).value;
    assert (ws + more)[k] == ws[k];
    assert (ws + more)[..k] == ws[..k];
  }

  /** A step of `configure`: one database's setup, or the specialised setup. */
  datatype SetupStep = DatabaseSetup(database: string) | SpecializedSetup

  /** The database steps of a workflow config: one per listed database, in order. */
  function DatabaseSteps(databases: Option<seq<string>>): (r: seq<SetupStep>)
    ensures databases.None? ==> r == []
    ensures databases.Some? ==> |r| == |databases.value|
    ensures databases.Some? ==> forall k :: 0 <= k < |r| ==> r[k] == DatabaseSetup(databases.value[k])
  {
    if databases.None? then [] else seq(|databases.value|, k requires 0 <= k < |databases.value| => DatabaseSetup(databases.value[k]))
  }

  /**
   * `configure`: the databases of the workflow config are set up first, in order, then the
   * specialised setup runs; its launcher (`specialized`, or None when it gives none) is the result.
   */
  method Configure(databases: Option<seq<string>>, specialized: Option<Launcher>)
    returns (steps: seq<SetupStep>, launcher: Option<Launcher>)
    ensures steps == DatabaseSteps(databases) + [SpecializedSetup]
    ensures launcher == specialized
  {
    steps := [];
    if databases.Some? {
      var k := 0;
      while k < |databases.value|
        invariant 0 <= k <= |databases.value|
        invariant steps == DatabaseSteps(databases)[..k]
      {
        steps := steps + [DatabaseSetup(databases.value[k])];
        k := k + 1;
      }
    }
    steps := steps + [SpecializedSetup];
    launcher := specialized;
  }
}
