/** What it means for a definition to be well scoped: every step that a level can run, directly or
    through condition branches, refers only to outputs that exist when it runs. */
module Scoping {
  import opened Wrappers
  import opened Text
  import opened Selector
  import opened Templates
  import opened Definitions

  /** One reference a step makes: a bare reference, a template, or a checkout's workspace. */
  datatype Use = Bare(ref: string) | Interpolated(t: string) | Workspace(ref: string)

  predicate IsFromKey(key: string) { |key| >= 5 && key[|key| - 5..] == "_from" }

  function WithUses(entries: seq<(string, Arg)>): seq<Use> {
    if entries == [] then []
    else
      var (key, arg) := entries[0];
      (if arg.Other? then [] else if IsFromKey(key) then [Bare(arg.s)] else [Interpolated(arg.s)])
      + WithUses(entries[1..])
  }

  function InputUses(inputs: seq<string>): seq<Use> {
    seq(|inputs|, i requires 0 <= i < |inputs| => Bare(inputs[i]))
  }

  function WorkspaceUses(ref: string): seq<Use> {
    if ref == "" then [] else [Workspace(ref)]
  }

  /** The references the validator checks at a step, in order. */
  function UsesOf(s: Step): seq<Use> {
    match s.body
    case Tool(_, args, ws) => (if args.Fields? then WithUses(args.entries) else []) + WorkspaceUses(ws)
    case Llm(prompt, inputs) => [Interpolated(prompt)] + InputUses(inputs)
    case Agent(prompt, ws) => [Interpolated(prompt)] + WorkspaceUses(ws)
    case Condition(input, _, _) => if input.Some? then [Bare(input.value)] else []
    case ForEach(itemsFrom, _) => [Bare(itemsFrom)]
    case _ => []
  }

  predicate RootOk(root: string, inLoop: bool, vis: set<string>) {
    root != "" && if root in RESERVED then inLoop else root in vis
  }

  function FindStep(steps: Level, id: string): Option<Step>
    decreases steps
  {
    if steps == [] then None
    else if steps[0].id == id then Some(steps[0])
    else
      var children := steps[0].Children();
      var inner := if children == [] then None else FindStep(children, id);
      if inner.Some? then inner else FindStep(steps[1..], id)
  }

  /** A workspace reference is `<checkout step>.workspace`. */
  predicate WorkspaceOk(all: Level, ref: string, vis: set<string>) {
    var root := RootOf(ref);
    var st := FindStep(all, root);
    && root != "" && root !in RESERVED && root in vis
    && st.Some? && st.value.body.Tool? && st.value.body.tool == CHECKOUT
    && ref == root + ".workspace"
  }

  predicate UseOk(all: Level, u: Use, inLoop: bool, vis: set<string>) {
    match u
    case Bare(ref) => RootOk(RootOf(ref), inLoop, vis)
    case Interpolated(t) =>
      && |t| <= MAX_STRING_FIELD && Refs(t).Some?
      && forall ref :: ref in Refs(t).value ==> RootOk(RootOf(ref), inLoop, vis)
    case Workspace(ref) => WorkspaceOk(all, ref, vis)
  }

  /** The checks on a step that do not depend on what is visible. */
  predicate ShapeOk(s: Step, siblings: set<string>) {
    match s.body
    case Tool(_, args, _) => !args.NotAnObject?
    case Llm(prompt, inputs) => TrimSpace(prompt) != "" && |inputs| <= 256
    case Agent(prompt, _) => TrimSpace(prompt) != ""
    case Condition(input, thn, els) =>
      && input.Some? && input.value != ""
      && thn + els != [] && forall t :: t in thn + els ==> t in siblings
    case ForEach(itemsFrom, steps) => itemsFrom != "" && steps != []
    case Parallel(steps) => steps != []
    case Finish(status) => status in {"success", "skipped", "failed"}
    case Unknown => false
  }

  /** What a step at position `i` sees: the enclosing scope and, in a sequential list, the outputs
      of the earlier steps that always run. */
  function VisibleAt(lvl: Level, i: nat, sequential: bool, vis: set<string>): set<string>
    requires i <= |lvl|
  {
    if sequential
    then vis + (set k | 0 <= k < i && lvl[k].id !in Targets(lvl) && lvl[k].ProducesOutput() :: lvl[k].id)
    else vis
  }

  ghost predicate BodyOk(all: Level, s: Step, inLoop: bool, siblings: set<string>, vis: set<string>)
    decreases s, 1
  {
    && ShapeOk(s, siblings)
    && (forall u :: u in UsesOf(s) ==> UseOk(all, u, inLoop, vis))
    && (s.body.ForEach? ==> LevelOk(all, s.body.steps, true, true, vis))
    && (s.body.Parallel? ==> LevelOk(all, s.body.steps, inLoop, false, vis))
  }

  /** Dispatching the branch target `t` can run the step at index `j`, along the path `p`. */
  ghost predicate Reaches(lvl: Level, t: string, p: seq<string>, j: nat) {
    IsPath(lvl, p) && p[0] == t && At(lvl, p[|p| - 1]) == Some(j)
  }

  /** Every step that dispatching the branch target `t` can reach is well scoped. */
  ghost predicate TailOk(all: Level, lvl: Level, t: string, inLoop: bool, vis: set<string>)
    decreases lvl, 1
  {
    forall p, j: nat :: j < |lvl| && Reaches(lvl, t, p, j) ==> BodyOk(all, lvl[j], inLoop, IdSet(lvl), vis)
  }

  /** The step at index `j`, and all it can dispatch, are well scoped. */
  ghost predicate TreeOk(all: Level, lvl: Level, j: nat, inLoop: bool, vis: set<string>)
    requires j < |lvl|
    decreases lvl, 2
  {
    && BodyOk(all, lvl[j], inLoop, IdSet(lvl), vis)
    && forall t :: t in BranchList(lvl[j]) ==> TailOk(all, lvl, t, inLoop, vis)
  }

  ghost predicate LevelOk(all: Level, lvl: Level, inLoop: bool, sequential: bool, vis: set<string>)
    decreases lvl, 3
  {
    && !HasCycle(lvl)
    && forall i :: 0 <= i < |lvl| && lvl[i].id !in Targets(lvl) ==>
         TreeOk(all, lvl, i, inLoop, VisibleAt(lvl, i, sequential, vis))
  }

  lemma TailStep(all: Level, lvl: Level, t: string, inLoop: bool, vis: set<string>)
    requires TailOk(all, lvl, t, inLoop, vis) && At(lvl, t).Some?
    ensures TreeOk(all, lvl, At(lvl, t).value, inLoop, vis)
  {
    hide BodyOk, BranchList;
    var j := At(lvl, t).value;
    assert Reaches(lvl, t, [t], j);
    forall t' | t' in BranchList(lvl[j]) ensures TailOk(all, lvl, t', inLoop, vis) {
      forall p, k: nat | k < |lvl| && Reaches(lvl, t', p, k) ensures BodyOk(all, lvl[k], inLoop, IdSet(lvl), vis) {
        var q := [t] + p;
        forall n | 0 <= n < |q| - 1 ensures q[n + 1] in Succ(lvl, q[n]) {
          if n > 0 { assert p[n] in Succ(lvl, p[n - 1]); }
        }
        assert IsPath(lvl, q) && q[|q| - 1] == p[|p| - 1];
        assert Reaches(lvl, t, q, k);
      }
    }
  }

  // ----- more visible outputs never hurt -----

  lemma {:induction false} BodyMono(all: Level, s: Step, inLoop: bool, sibs: set<string>, vis: set<string>, vis': set<string>)
    requires BodyOk(all, s, inLoop, sibs, vis) && vis <= vis'
    ensures BodyOk(all, s, inLoop, sibs, vis')
    decreases s, 1
  {
    hide RootOf, Refs, LevelOk;
    if s.body.ForEach? {
      LevelMono(all, s.body.steps, true, true, vis, vis');
    } else if s.body.Parallel? {
      LevelMono(all, s.body.steps, inLoop, false, vis, vis');
    }
  }

  lemma {:induction false} LevelMono(all: Level, lvl: Level, inLoop: bool, sequential: bool, vis: set<string>, vis': set<string>)
    requires LevelOk(all, lvl, inLoop, sequential, vis) && vis <= vis'
    ensures LevelOk(all, lvl, inLoop, sequential, vis')
    decreases lvl, 3
  {
    hide BodyOk, BranchList, HasCycle, Reaches;
    forall i | 0 <= i < |lvl| && lvl[i].id !in Targets(lvl)
      ensures TreeOk(all, lvl, i, inLoop, VisibleAt(lvl, i, sequential, vis'))
    {
      var v, v' := VisibleAt(lvl, i, sequential, vis), VisibleAt(lvl, i, sequential, vis');
      assert TreeOk(all, lvl, i, inLoop, v);
      BodyMono(all, lvl[i], inLoop, IdSet(lvl), v, v');
      forall t | t in BranchList(lvl[i]) ensures TailOk(all, lvl, t, inLoop, v') {
        assert TailOk(all, lvl, t, inLoop, v);
        forall p, j: nat | j < |lvl| && Reaches(lvl, t, p, j) ensures BodyOk(all, lvl[j], inLoop, IdSet(lvl), v') {
          BodyMono(all, lvl[j], inLoop, IdSet(lvl), v, v');
        }
      }
    }
  }
}
