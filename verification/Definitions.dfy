/** The automation.v1 step language, as far as scoping and execution depend on it. */
module Definitions {
  import opened Wrappers

  /** A value of a tool's `with` object: a JSON string (null decodes to ""), or anything else. */
  datatype Arg = Text(s: string) | Other

  datatype With = Absent | NotAnObject | Fields(entries: seq<(string, Arg)>)

  datatype Body =
    | Tool(tool: string, args: With, workspaceFrom: string)
    | Llm(prompt: string, inputs: seq<string>)
    | Agent(prompt: string, workspaceFrom: string)
    | Condition(input: Option<string>, thn: seq<string>, els: seq<string>)
    | ForEach(itemsFrom: string, steps: seq<Step>)
    | Parallel(steps: seq<Step>)
    | Finish(status: string)
    | Unknown

  datatype Step = Step(id: string, continueOnError: bool, body: Body) {
    predicate Leaf() { body.Tool? || body.Llm? || body.Agent? }

    /** producesOutput: the step types that write an output other steps may refer to. */
    predicate ProducesOutput() { Leaf() || body.ForEach? || body.Parallel? }

    function Children(): seq<Step> {
      if body.ForEach? || body.Parallel? then body.steps else []
    }
  }

  type Level = seq<Step>

  const RESERVED: set<string> := {"item", "index"}
  const CHECKOUT := "github.pr_checkout"
  const MAX_STEPS := 500
  const MAX_STEP_DEPTH := 16
  const MAX_STRING_FIELD := 8000

  function IdSet(lvl: Level): set<string> { set i | 0 <= i < |lvl| :: lvl[i].id }

  predicate UniqueIds(lvl: Level) { forall i, j :: 0 <= i < j < |lvl| ==> lvl[i].id != lvl[j].id }

  /** The index of a step id at a level; a later duplicate hides an earlier one. */
  function At(lvl: Level, id: string): (r: Option<nat>)
    ensures r.Some? ==> r.value < |lvl| && lvl[r.value].id == id
    ensures r.None? ==> id !in IdSet(lvl)
  {
    if lvl == [] then None
    else if lvl[|lvl| - 1].id == id then Some(|lvl| - 1)
    else At(lvl[..|lvl| - 1], id)
  }

  lemma AtUnique(lvl: Level, j: nat)
    requires UniqueIds(lvl) && j < |lvl|
    ensures At(lvl, lvl[j].id) == Some(j)
  {
    assert lvl[j].id in IdSet(lvl);
  }

  /** A condition's then targets followed by its else targets. */
  function BranchList(s: Step): seq<string> {
    if s.body.Condition? then s.body.thn + s.body.els else []
  }

  /** The ids some condition of the level branches to. */
  function Targets(lvl: Level): set<string> {
    set i, t | 0 <= i < |lvl| && t in BranchList(lvl[i]) :: t
  }

  // ----- the branch graph of a level -----

  function Succ(lvl: Level, id: string): seq<string> {
    var at := At(lvl, id);
    if at.None? then [] else BranchList(lvl[at.value])
  }

  ghost predicate IsPath(lvl: Level, p: seq<string>) {
    p != [] && forall k :: 0 <= k < |p| - 1 ==> p[k + 1] in Succ(lvl, p[k])
  }

  ghost predicate IsCycle(lvl: Level, p: seq<string>) {
    IsPath(lvl, p) && |p| >= 2 && p[0] == p[|p| - 1]
  }

  ghost predicate HasCycle(lvl: Level) { exists p :: IsCycle(lvl, p) }

  lemma ExtendPath(lvl: Level, p: seq<string>, t: string)
    requires IsPath(lvl, p) && t in Succ(lvl, p[|p| - 1])
    ensures IsPath(lvl, p + [t])
  {
    var q := p + [t];
    forall k | 0 <= k < |q| - 1 ensures q[k + 1] in Succ(lvl, q[k]) {
      assert k < |p| - 1 ==> p[k + 1] in Succ(lvl, p[k]);
    }
  }

  /** A path that returns to one of its own vertices holds a cycle. */
  lemma RevisitIsCycle(lvl: Level, p: seq<string>, k: nat)
    requires IsPath(lvl, p) && k < |p| - 1 && p[k] == p[|p| - 1]
    ensures HasCycle(lvl)
  {
    var c := p[k..];
    forall i | 0 <= i < |c| - 1 ensures c[i + 1] in Succ(lvl, c[i]) {
      assert p[k + i + 1] in Succ(lvl, p[k + i]);
    }
    assert IsCycle(lvl, c);
  }
}
