/** The validator: it walks a definition, collecting issues, and reports none exactly when the
    definition's ids are well formed and its steps are well scoped. */
module Validators {
  import opened Wrappers
  import opened Text
  import opened Selector
  import opened Templates
  import opened Definitions
  import opened Scoping
  import opened BranchCycles

  datatype Fault = BadShape | BadReference | BranchCycle | BadId | TooManySteps | NestedTooDeep | NoSteps

  datatype Issue = Issue(step: string, fault: Fault)

  /** Issues only accumulate, and one was added exactly when the check failed. */
  predicate Reported(before: seq<Issue>, after: seq<Issue>, ok: bool) {
    before <= after && (|after| == |before| <==> ok)
  }

  // ----- ids -----

  predicate IdChar(c: char) { 'a' <= c <= 'z' || 'A' <= c <= 'Z' || c == '_' || IsDigit(c) }

  predicate GoodId(id: string) {
    && id != "" && (forall i :: 0 <= i < |id| ==> IdChar(id[i])) && !IsDigit(id[0])
    && id !in RESERVED
  }

  /** The id of a step and of everything nested in it, in document order. */
  function StepIds(s: Step): seq<string>
    decreases s, 0
  {
    [s.id] + if s.Children() == [] then [] else AllIds(s.Children())
  }

  function AllIds(lvl: Level): seq<string>
    decreases lvl
  {
    if lvl == [] then [] else AllIds(lvl[..|lvl| - 1]) + StepIds(lvl[|lvl| - 1])
  }

  /** No step list under the step is nested deeper than the limit. */
  predicate StepDepthOk(s: Step, depth: nat)
    decreases s, 0
  {
    s.Children() != [] ==> DepthOk(s.Children(), depth + 1)
  }

  predicate DepthOk(lvl: Level, depth: nat)
    decreases lvl
  {
    depth <= MAX_STEP_DEPTH && forall i :: 0 <= i < |lvl| ==> StepDepthOk(lvl[i], depth)
  }

  /** The ids are well formed, distinct from one another and from those `seen` before, and within the cap. */
  ghost predicate IdsOk(ids: seq<string>, seen: set<string>) {
    && (forall i :: 0 <= i < |ids| ==> GoodId(ids[i]) && ids[i] !in seen)
    && (forall i, j :: 0 <= i < j < |ids| ==> ids[i] != ids[j])
    && (ids != [] ==> |seen| + |ids| <= MAX_STEPS)
  }

  function ToSet(ids: seq<string>): set<string> { set i | 0 <= i < |ids| :: ids[i] }

  lemma {:induction false} DistinctCount(ids: seq<string>)
    requires forall i, j :: 0 <= i < j < |ids| ==> ids[i] != ids[j]
    ensures |ToSet(ids)| == |ids|
  {
    if ids != [] {
      var last := |ids| - 1;
      DistinctCount(ids[..last]);
      assert ToSet(ids) == ToSet(ids[..last]) + {ids[last]};
    }
  }

  lemma IdsSplit(a: seq<string>, b: seq<string>, seen: set<string>)
    ensures IdsOk(a + b, seen) <==> IdsOk(a, seen) && IdsOk(b, seen + ToSet(a))
    ensures IdsOk(a, seen) ==> |seen + ToSet(a)| == |seen| + |a|
  {
    hide GoodId;
    var ab := a + b;
    assert forall i :: 0 <= i < |a| ==> ab[i] == a[i];
    assert forall i :: 0 <= i < |b| ==> ab[|a| + i] == b[i];
    if IdsOk(a, seen) || IdsOk(ab, seen) {
      DistinctCount(a);
      assert seen !! ToSet(a);
    }
  }

  lemma NoIds(seen: set<string>)
    ensures IdsOk([], seen) && seen + ToSet([]) == seen
  {
  }

  lemma OneMore(done: seq<string>, seen: set<string>, id: string)
    requires IdsOk(done, seen)
    ensures var now := seen + ToSet(done);
            IdsOk(done + [id], seen) <==> GoodId(id) && id !in now && |now + {id}| <= MAX_STEPS
    ensures seen + ToSet(done + [id]) == seen + ToSet(done) + {id}
  {
    hide GoodId;
    IdsSplit(done, [id], seen);
    assert ToSet(done + [id]) == ToSet(done) + {id} by {
      assert forall i :: 0 <= i < |done| ==> (done + [id])[i] == done[i];
      assert (done + [id])[|done|] == id;
    }
  }

  function InnerIds(s: Step): seq<string> { if s.Children() == [] then [] else AllIds(s.Children()) }

  /** The ids of a step are in order if its own id is and those inside it are after it. */
  lemma StepIdsOk(s: Step, seen: set<string>)
    ensures IdsOk(StepIds(s), seen) <==>
              && GoodId(s.id) && s.id !in seen && |seen + {s.id}| <= MAX_STEPS
              && IdsOk(InnerIds(s), seen + {s.id})
    ensures seen + ToSet(StepIds(s)) == seen + {s.id} + ToSet(InnerIds(s))
  {
    hide GoodId, IdsOk, AllIds, ToSet;
    var inner := InnerIds(s);
    NoIds(seen);
    OneMore([], seen, s.id);
    assert [] + [s.id] == [s.id];
    IdsSplit([s.id], inner, seen);
    ToSetPlus([s.id], inner);
    assert StepIds(s) == [s.id] + inner;
    assert seen + ToSet([s.id]) == seen + {s.id};
    assert seen + (ToSet([s.id]) + ToSet(inner)) == seen + ToSet([s.id]) + ToSet(inner);
  }

  class Validator {
    const steps: Level
    var issues: seq<Issue>

    constructor (steps: Level)
      ensures this.steps == steps && issues == []
    {
      this.steps := steps;
      issues := [];
    }

    method Add(step: string, fault: Fault)
      modifies this
      ensures issues == old(issues) + [Issue(step, fault)]
    {
      issues := issues + [Issue(step, fault)];
    }

    /** collectStepIDs: `seen` is the shared map of ids. */
    method CollectStepIds(lvl: Level, depth: nat, seen: set<string>) returns (seen': set<string>)
      modifies this
      ensures Reported(old(issues), issues, DepthOk(lvl, depth) && IdsOk(AllIds(lvl), seen))
      ensures |issues| == |old(issues)| ==> seen' == seen + ToSet(AllIds(lvl))
      decreases lvl
    {
      hide GoodId, IdsOk, StepDepthOk, StepIds;
      seen' := seen;
      if depth > MAX_STEP_DEPTH {
        Add("", NestedTooDeep);
        return;
      }
      ghost var before := issues;
      NoIds(seen);
      assert lvl[..0] == [];
      var i := 0;
      while i < |lvl|
        invariant 0 <= i <= |lvl|
        invariant Reported(before, issues, DepthOk(lvl[..i], depth) && IdsOk(AllIds(lvl[..i]), seen))
        invariant |issues| == |before| ==> seen' == seen + ToSet(AllIds(lvl[..i]))
      {
        var full;
        PrefixIds(lvl, i, depth, seen);
        seen', full := CollectStep(lvl[i], depth, seen');
        if full {
          if DepthOk(lvl, depth) && IdsOk(AllIds(lvl), seen) { PrefixOfOk(lvl, i + 1, depth, seen); }
          return;
        }
        i := i + 1;
      }
      assert lvl[..i] == lvl;
    }

    method CollectStep(s: Step, depth: nat, seen: set<string>) returns (seen': set<string>, full: bool)
      modifies this
      ensures Reported(old(issues), issues, StepDepthOk(s, depth) && IdsOk(StepIds(s), seen))
      ensures |issues| == |old(issues)| ==> seen' == seen + ToSet(StepIds(s))
      ensures full ==> |issues| > |old(issues)|
      decreases s, 0
    {
      hide GoodId, IdsOk, DepthOk, ToSet, StepIds;
      StepIdsOk(s, seen);
      NoIds(seen + {s.id});
      var children := s.Children();
      seen' := seen;
      full := false;
      if !GoodId(s.id) || s.id in seen' {
        Add(s.id, BadId);
      } else {
        seen' := seen' + {s.id};
      }
      if |seen'| > MAX_STEPS {
        Add(s.id, TooManySteps);
        full := true;
        return;
      }
      if children != [] {
        seen' := CollectStepIds(children, depth + 1, seen');
      }
    }

    // ----- references -----

    /** checkRef, and the root checks of checkTemplate. */
    method CheckRoot(step: string, root: string, inLoop: bool, vis: set<string>)
      modifies this
      ensures Reported(old(issues), issues, RootOk(root, inLoop, vis))
    {
      if root == "" {
        Add(step, BadReference);
      } else if root in RESERVED {
        if !inLoop { Add(step, BadReference); }
      } else if root !in vis {
        Add(step, BadReference);
      }
    }

    method CheckTemplate(step: string, t: string, inLoop: bool, vis: set<string>)
      modifies this
      ensures Reported(old(issues), issues, UseOk(steps, Interpolated(t), inLoop, vis))
    {
      hide Refs, RootOf;
      if |t| > MAX_STRING_FIELD {
        Add(step, BadReference);
        return;
      }
      var roots := ScanTemplateRefs(t);
      if roots.None? {
        Add(step, BadReference);
        return;
      }
      ghost var before := issues;
      var k := 0;
      while k < |roots.value|
        invariant 0 <= k <= |roots.value|
        invariant Reported(before, issues, forall i :: 0 <= i < k ==> RootOk(roots.value[i], inLoop, vis))
      {
        CheckRoot(step, roots.value[k], inLoop, vis);
        k := k + 1;
      }
      RootsCover(roots.value, Refs(t).value, inLoop, vis);
    }

    method CheckWorkspaceRef(step: string, ref: string, vis: set<string>)
      modifies this
      ensures Reported(old(issues), issues, UseOk(steps, Workspace(ref), false, vis))
    {
      hide RootOf, FindStep;
      var root := RootOf(ref);
      if root == "" {
        Add(step, BadReference);
        return;
      }
      var st := FindStep(steps, root);
      if st.None? || root in RESERVED || root !in vis {
        Add(step, BadReference);
        return;
      }
      if !st.value.body.Tool? || st.value.body.tool != CHECKOUT {
        Add(step, BadReference);
        return;
      }
      if ref != root + ".workspace" { Add(step, BadReference); }
    }

    /** The reference checks of one step, in order. */
    method CheckUses(step: string, uses: seq<Use>, inLoop: bool, vis: set<string>)
      modifies this
      ensures Reported(old(issues), issues, forall u :: u in uses ==> UseOk(steps, u, inLoop, vis))
    {
      hide UseOk;
      ghost var before := issues;
      var k := 0;
      while k < |uses|
        invariant 0 <= k <= |uses|
        invariant Reported(before, issues, forall i :: 0 <= i < k ==> UseOk(steps, uses[i], inLoop, vis))
      {
        UseKinds(steps, uses[k], inLoop, vis);
        match uses[k] {
          case Bare(ref) => CheckRoot(step, RootOf(ref), inLoop, vis);
          case Interpolated(t) => CheckTemplate(step, t, inLoop, vis);
          case Workspace(ref) => CheckWorkspaceRef(step, ref, vis);
        }
        k := k + 1;
      }
    }

    // ----- steps and levels -----

    method ValidateStep(s: Step, inLoop: bool, siblings: set<string>, vis: set<string>)
      modifies this
      ensures Reported(old(issues), issues, BodyOk(steps, s, inLoop, siblings, vis))
      decreases s, 1
    {
      hide ShapeOk, UseOk, LevelOk, UsesOf;
      if !ShapeOk(s, siblings) { Add(s.id, BadShape); }
      CheckUses(s.id, UsesOf(s), inLoop, vis);
      if s.body.ForEach? {
        ValidateLevel(s.body.steps, true, true, vis);
      } else if s.body.Parallel? {
        ValidateLevel(s.body.steps, inLoop, false, vis);
      }
    }

    /** validateStepTree: validates the step at `j` and every not yet validated step it dispatches. */
    method ValidateStepTree(lvl: Level, j: nat, inLoop: bool, running: set<string>, validated: set<string>)
      returns (validated': set<string>)
      requires j < |lvl| && validated <= IdSet(lvl)
      modifies this
      ensures old(issues) <= issues && validated <= validated' <= IdSet(lvl)
      ensures TreeOk(steps, lvl, j, inLoop, running) ==> |issues| == |old(issues)|
      ensures |issues| == |old(issues)| ==>
                Explored(steps, lvl, lvl[j], inLoop, running, validated')
                && AllExplored(steps, lvl, validated' - validated, inLoop, running, validated')
      decreases lvl, 1, |IdSet(lvl) - validated|
    {
      hide BodyOk, BranchList, TailOk, At, IdSet;
      ghost var before := issues;
      var s := lvl[j];
      validated' := validated;
      ValidateStep(s, inLoop, IdSet(lvl), running);
      var branch := BranchList(s);
      var k := 0;
      while k < |branch|
        invariant 0 <= k <= |branch|
        invariant before <= issues && validated <= validated' <= IdSet(lvl)
        invariant TreeOk(steps, lvl, j, inLoop, running) ==> |issues| == |before|
        invariant |issues| == |before| ==> BodyOk(steps, s, inLoop, IdSet(lvl), running)
        invariant forall i :: 0 <= i < k && At(lvl, branch[i]).Some? ==> branch[i] in validated'
        invariant |issues| == |before| ==>
                    AllExplored(steps, lvl, validated' - validated, inLoop, running, validated')
      {
        var tid := branch[k];
        var at := At(lvl, tid);
        if at.Some? && tid !in validated' {
          InLevel(lvl, at.value);
          ghost var v0 := validated';
          Fewer(IdSet(lvl), validated, validated', tid);
          if TreeOk(steps, lvl, j, inLoop, running) {
            assert tid in BranchList(s);
            TailStep(steps, lvl, tid, inLoop, running);
          }
          validated' := ValidateStepTree(lvl, at.value, inLoop, running, validated' + {tid});
          if |issues| == |before| {
            MoreExplored(steps, lvl, v0 - validated, tid, inLoop, running, v0, validated', validated);
          }
        }
        k := k + 1;
      }
    }

    method ValidateLevel(lvl: Level, inLoop: bool, sequential: bool, vis: set<string>)
      modifies this
      ensures Reported(old(issues), issues, LevelOk(steps, lvl, inLoop, sequential, vis))
      decreases lvl, 2
    {
      hide HasCycle, TreeOk, Targets, AllExplored, IdSet, Explored;
      NoneExplored(steps, lvl, inLoop, vis);
      ghost var before := issues;
      var targets := Targets(lvl);
      var cyclic := CheckBranchCycles(lvl);
      if cyclic { Add("", BranchCycle); }
      var running := vis;
      var validated: set<string> := {};
      var i := 0;
      while i < |lvl|
        invariant 0 <= i <= |lvl|
        invariant before <= issues && validated <= IdSet(lvl)
        invariant running == VisibleAt(lvl, i, sequential, vis)
        invariant |issues| == |before| ==> AllExplored(steps, lvl, validated, inLoop, running, validated)
        invariant |issues| == |before| <==>
                  !HasCycle(lvl) && forall k :: 0 <= k < i && lvl[k].id !in targets ==>
                    TreeOk(steps, lvl, k, inLoop, VisibleAt(lvl, k, sequential, vis))
      {
        var s := lvl[i];
        NextVisible(lvl, i, sequential, vis);
        if s.id !in targets {
          ghost var v0 := validated;
          validated := ValidateStepTree(lvl, i, inLoop, running, validated);
          if |issues| == |before| {
            TreeFromExplored(steps, lvl, i, inLoop, running, v0, validated);
          }
          ghost var run0 := running;
          if sequential && s.ProducesOutput() { running := running + {s.id}; }
          if |issues| == |before| {
            ExploredMono(steps, lvl, validated, inLoop, run0, running, validated);
          }
        }
        i := i + 1;
      }
    }

    /** Validate, without the checks on the document's other sections. */
    method Validate()
      requires issues == []
      modifies this
      ensures issues == [] <==> ValidSteps(steps)
    {
      hide LevelOk, IdsOk, DepthOk;
      var ids := CollectStepIds(steps, 0, {});
      if |steps| == 0 { Add("", NoSteps); }
      ValidateLevel(steps, false, true, {});
    }
  }

  /** A definition whose steps the validator accepts. */
  ghost predicate ValidSteps(steps: Level) {
    && steps != []
    && DepthOk(steps, 0) && IdsOk(AllIds(steps), {})
    && LevelOk(steps, steps, false, true, {})
  }

  // ----- why the marked depth-first walk checks everything that can run -----

  /** The step is well scoped and all it branches to has been visited. */
  ghost predicate Explored(all: Level, lvl: Level, s: Step, inLoop: bool, vis: set<string>, visited: set<string>) {
    && BodyOk(all, s, inLoop, IdSet(lvl), vis)
    && forall t :: t in BranchList(s) && At(lvl, t).Some? ==> t in visited
  }

  ghost predicate AllExplored(all: Level, lvl: Level, ids: set<string>, inLoop: bool, vis: set<string>, visited: set<string>) {
    forall id :: id in ids && At(lvl, id).Some? ==> Explored(all, lvl, lvl[At(lvl, id).value], inLoop, vis, visited)
  }

  lemma NoneExplored(all: Level, lvl: Level, inLoop: bool, vis: set<string>)
    ensures AllExplored(all, lvl, {}, inLoop, vis, {})
  {
  }

  lemma MoreExplored(all: Level, lvl: Level, found: set<string>, tid: string, inLoop: bool, vis: set<string>,
                     v0: set<string>, v1: set<string>, v: set<string>)
    requires v <= v0 && v0 + {tid} <= v1 && found == v0 - v && At(lvl, tid).Some?
    requires AllExplored(all, lvl, found, inLoop, vis, v0)
    requires Explored(all, lvl, lvl[At(lvl, tid).value], inLoop, vis, v1)
    requires AllExplored(all, lvl, v1 - (v0 + {tid}), inLoop, vis, v1)
    ensures AllExplored(all, lvl, v1 - v, inLoop, vis, v1)
  {
    hide BodyOk, BranchList, At, IdSet;
    forall id | id in v1 - v && At(lvl, id).Some?
      ensures Explored(all, lvl, lvl[At(lvl, id).value], inLoop, vis, v1)
    {
      if id in v0 { assert id in found; }
    }
  }

  lemma ExploredMono(all: Level, lvl: Level, ids: set<string>, inLoop: bool, vis: set<string>, vis': set<string>, visited: set<string>)
    requires AllExplored(all, lvl, ids, inLoop, vis, visited) && vis <= vis'
    ensures AllExplored(all, lvl, ids, inLoop, vis', visited)
  {
    hide BodyOk, BranchList, At, IdSet;
    forall id | id in ids && At(lvl, id).Some?
      ensures Explored(all, lvl, lvl[At(lvl, id).value], inLoop, vis', visited)
    {
      assert Explored(all, lvl, lvl[At(lvl, id).value], inLoop, vis, visited);
      BodyMono(all, lvl[At(lvl, id).value], inLoop, IdSet(lvl), vis, vis');
    }
  }

  /** In a visited set closed under branching, every path stays visited. */
  lemma {:induction false} PathExplored(all: Level, lvl: Level, p: seq<string>, inLoop: bool, vis: set<string>, visited: set<string>)
    requires AllExplored(all, lvl, visited, inLoop, vis, visited)
    requires IsPath(lvl, p) && At(lvl, p[|p| - 1]).Some?
    requires At(lvl, p[0]).Some? ==> p[0] in visited
    ensures p[|p| - 1] in visited
    decreases |p|
  {
    hide BodyOk, BranchList, At, IdSet;
    if |p| > 1 {
      assert p[1] in Succ(lvl, p[0]);
      assert At(lvl, p[0]).Some?;
      assert Explored(all, lvl, lvl[At(lvl, p[0]).value], inLoop, vis, visited);
      var q := p[1..];
      forall k | 0 <= k < |q| - 1 ensures q[k + 1] in Succ(lvl, q[k]) {
        assert p[k + 2] in Succ(lvl, p[k + 1]);
      }
      PathExplored(all, lvl, q, inLoop, vis, visited);
    }
  }

  lemma TreeFromExplored(all: Level, lvl: Level, j: nat, inLoop: bool, vis: set<string>, v0: set<string>, v1: set<string>)
    requires j < |lvl| && v0 <= v1
    requires AllExplored(all, lvl, v0, inLoop, vis, v0)
    requires Explored(all, lvl, lvl[j], inLoop, vis, v1)
    requires AllExplored(all, lvl, v1 - v0, inLoop, vis, v1)
    ensures AllExplored(all, lvl, v1, inLoop, vis, v1)
    ensures TreeOk(all, lvl, j, inLoop, vis)
  {
    hide BodyOk, BranchList, At, IdSet;
    forall id | id in v1 && At(lvl, id).Some?
      ensures Explored(all, lvl, lvl[At(lvl, id).value], inLoop, vis, v1)
    {
      if id in v0 {
        assert Explored(all, lvl, lvl[At(lvl, id).value], inLoop, vis, v0);
      } else {
        assert id in v1 - v0;
      }
    }
    forall t | t in BranchList(lvl[j]) ensures TailOk(all, lvl, t, inLoop, vis) {
      forall p, k: nat | k < |lvl| && Reaches(lvl, t, p, k) ensures BodyOk(all, lvl[k], inLoop, IdSet(lvl), vis) {
        PathExplored(all, lvl, p, inLoop, vis, v1);
        assert Explored(all, lvl, lvl[k], inLoop, vis, v1);
      }
    }
  }

  lemma NextVisible(lvl: Level, i: nat, sequential: bool, vis: set<string>)
    requires i < |lvl|
    ensures VisibleAt(lvl, i + 1, sequential, vis)
            == VisibleAt(lvl, i, sequential, vis)
               + if sequential && lvl[i].id !in Targets(lvl) && lvl[i].ProducesOutput() then {lvl[i].id} else {}
  {
    hide Targets;
  }

  lemma InLevel(lvl: Level, j: nat)
    requires j < |lvl|
    ensures lvl[j].id in IdSet(lvl)
  {
  }

  lemma Fewer(ids: set<string>, validated: set<string>, validated': set<string>, tid: string)
    requires validated <= validated' && tid in ids && tid !in validated'
    ensures |ids - (validated' + {tid})| < |ids - validated|
  {
    var rest := ids - validated - {tid};
    var left := ids - (validated' + {tid});
    assert rest == left + (rest - left);
    assert ids - validated == rest + {tid};
  }

  lemma RootsCover(roots: seq<string>, refs: seq<string>, inLoop: bool, vis: set<string>)
    requires RootsOf(roots, refs)
    ensures (forall i :: 0 <= i < |roots| ==> RootOk(roots[i], inLoop, vis))
            <==> forall ref :: ref in refs ==> RootOk(RootOf(ref), inLoop, vis)
  {
    hide RootOf, RootOk;
    if forall ref :: ref in refs ==> RootOk(RootOf(ref), inLoop, vis) {
      forall i | 0 <= i < |roots| ensures RootOk(roots[i], inLoop, vis) {
        assert roots[i] in roots;
        var ref :| ref in refs && RootOf(ref) == roots[i];
      }
    }
  }

  lemma UseKinds(all: Level, u: Use, inLoop: bool, vis: set<string>)
    ensures u.Bare? ==> (UseOk(all, u, inLoop, vis) <==> RootOk(RootOf(u.ref), inLoop, vis))
    ensures u.Workspace? ==> (UseOk(all, u, inLoop, vis) <==> UseOk(all, u, false, vis))
  {
  }

  lemma ToSetPlus(a: seq<string>, b: seq<string>)
    ensures ToSet(a + b) == ToSet(a) + ToSet(b)
  {
    assert forall i :: 0 <= i < |a| ==> (a + b)[i] == a[i];
    assert forall i :: 0 <= i < |b| ==> (a + b)[|a| + i] == b[i];
  }

  lemma PrefixIds(lvl: Level, i: nat, depth: nat, seen: set<string>)
    requires i < |lvl|
    ensures DepthOk(lvl[..i + 1], depth) <==> DepthOk(lvl[..i], depth) && StepDepthOk(lvl[i], depth)
    ensures var ids := AllIds(lvl[..i]);
            && (IdsOk(AllIds(lvl[..i + 1]), seen) <==> IdsOk(ids, seen) && IdsOk(StepIds(lvl[i]), seen + ToSet(ids)))
            && ToSet(AllIds(lvl[..i + 1])) == ToSet(ids) + ToSet(StepIds(lvl[i]))
  {
    hide IdsOk, StepIds, StepDepthOk, ToSet;
    assert lvl[..i + 1][..i] == lvl[..i] && lvl[..i + 1][i] == lvl[i];
    IdsSplit(AllIds(lvl[..i]), StepIds(lvl[i]), seen);
    ToSetPlus(AllIds(lvl[..i]), StepIds(lvl[i]));
  }

  lemma {:induction false} PrefixOfOk(lvl: Level, k: nat, depth: nat, seen: set<string>)
    requires k <= |lvl| && DepthOk(lvl, depth) && IdsOk(AllIds(lvl), seen)
    ensures DepthOk(lvl[..k], depth) && IdsOk(AllIds(lvl[..k]), seen)
    decreases |lvl|
  {
    hide IdsOk, StepIds, StepDepthOk, ToSet;
    if k == |lvl| {
      assert lvl[..k] == lvl;
    } else {
      var n := |lvl| - 1;
      assert lvl[..n + 1] == lvl;
      PrefixIds(lvl, n, depth, seen);
      PrefixOfOk(lvl[..n], k, depth, seen);
      assert lvl[..n][..k] == lvl[..k];
    }
  }
}
