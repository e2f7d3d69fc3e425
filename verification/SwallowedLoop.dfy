/** Why scope soundness needs its exception: an accepted definition whose run looks up an unbound
    root, because a for_each with continue_on_error gave up before writing its output. */
module SwallowedLoops {
  import opened Wrappers
  import opened Selector
  import opened Templates
  import opened Definitions
  import opened Scoping
  import opened Validators
  import opened Engines
  import opened Soundness

  function ToolStep(id: string): Step { Step.Step(id, false, Tool("github.notifications", Absent, "")) }

  const GIVES_UP := Step.Step("l", true, ForEach("a", [ToolStep("c")]))
  const READS_IT := Step.Step("u", false, ForEach("l", [ToolStep("d")]))
  const STEPS := [ToolStep("a"), GIVES_UP, READS_IT]

  /** Every executor replies null, which is not a list. */
  const NULLS := Env((p: Pos) => false, (p: Pos) => true, (p: Pos) => Replied(Null), (p: Pos) => EvalError,
                     (p: Pos) => 0, (p: Pos) => false, (v: Value) => None, (v: Value) => None, 0)

  lemma LetterRoot(id: string)
    requires PlainKey(id) && |id| == 1
    ensures RootOf(id) == id && Parse(id) == Ok([Key(id)])
  {
    assert PrintTail([]) == "" && id + "" == id;
    assert [Key(id)][1..] == [];
    assert Print([Key(id)]) == id;
    ParseInvertsPrint([Key(id)]);
  }

  lemma NoBranches(lvl: Level)
    requires forall i :: 0 <= i < |lvl| ==> BranchList(lvl[i]) == []
    ensures Targets(lvl) == {} && !HasCycle(lvl)
  {
    forall p ensures !IsCycle(lvl, p) {
      if |p| >= 2 {
        var k := 0;
        assert p[k + 1] !in Succ(lvl, p[k]);
      }
    }
  }

  lemma OneTool(all: Level, id: string, vis: set<string>)
    ensures LevelOk(all, [ToolStep(id)], true, true, vis)
  {
    NoBranches([ToolStep(id)]);
    assert UsesOf(ToolStep(id)) == [];
  }

  lemma StepsAreValid()
    ensures ValidSteps(STEPS)
  {
    NoBranches(STEPS);
    LetterRoot("a");
    LetterRoot("l");
    forall i | 0 <= i < |STEPS| ensures TreeOk(STEPS, STEPS, i, false, VisibleAt(STEPS, i, true, {})) {
      var vis := VisibleAt(STEPS, i, true, {});
      if i == 0 {
        assert UsesOf(STEPS[0]) == [];
      } else if i == 1 {
        assert STEPS[0].id in vis;
        OneTool(STEPS, "c", vis);
      } else {
        assert STEPS[1].id in vis;
        OneTool(STEPS, "d", vis);
      }
    }
    StepsIds();
  }

  lemma AddStep(lvl: Level, s: Step)
    ensures AllIds(lvl + [s]) == AllIds(lvl) + StepIds(s)
  {
    assert (lvl + [s])[..|lvl|] == lvl;
  }

  lemma LoopIds(id: string, swallow: bool, from: string, child: string)
    ensures StepIds(Step.Step(id, swallow, ForEach(from, [ToolStep(child)]))) == [id, child]
  {
    AddStep([], ToolStep(child));
    assert [] + [ToolStep(child)] == [ToolStep(child)];
    assert StepIds(ToolStep(child)) == [child];
    assert AllIds([ToolStep(child)]) == [child];
  }

  lemma OneId(id: string)
    ensures AllIds([]) == [] && StepIds(ToolStep(id)) == [id]
  {
  }

  lemma StepsIds()
    ensures DepthOk(STEPS, 0) && IdsOk(AllIds(STEPS), {})
  {
    hide DepthOk, IdsOk, AllIds, StepIds;
    AddStep([], ToolStep("a"));
    OneId("a");
    AddStep([ToolStep("a")], GIVES_UP);
    AddStep([ToolStep("a"), GIVES_UP], READS_IT);
    LoopIds("l", true, "a", "c");
    LoopIds("u", false, "l", "d");
    assert [] + [ToolStep("a")] == [ToolStep("a")];
    assert [ToolStep("a")] + [GIVES_UP] == [ToolStep("a"), GIVES_UP];
    assert [ToolStep("a"), GIVES_UP] + [READS_IT] == STEPS;
    assert AllIds(STEPS) == ["a", "l", "c", "u", "d"];
    FiveIds();
    StepsDepth();
  }

  lemma FiveIds()
    ensures IdsOk(["a", "l", "c", "u", "d"], {})
  {
  }

  lemma StepsDepth()
    ensures DepthOk(STEPS, 0)
  {
    assert StepDepthOk(ToolStep("c"), 1) && StepDepthOk(ToolStep("d"), 1);
    assert DepthOk([ToolStep("c")], 1) && DepthOk([ToolStep("d")], 1);
  }

  lemma AllAreRoots()
    ensures Roots(STEPS, 3) == [0, 1, 2]
  {
    NoBranches(STEPS);
    assert Roots(STEPS, 0) == [];
    assert Roots(STEPS, 1) == [0];
    assert Roots(STEPS, 2) == [0, 1];
  }

  lemma FirstReplies(sc: Scope, p: Pos)
    ensures var r := RunStep(NULLS, STEPS, 0, sc, [], p); r.end == Done && r.sc == sc["a" := Null]
  {
  }

  lemma LoopGivesUp(sc: Scope, p: Pos)
    requires "a" in sc && sc["a"] == Null
    ensures var r := RunStep(NULLS, STEPS, 1, sc, [], p); r.end == Done && r.sc == sc && GaveUp("l") in r.ev
  {
    LetterRoot("a");
  }

  lemma ReadFails(sc: Scope, p: Pos)
    requires "l" !in sc
    ensures RunStep(NULLS, STEPS, 2, sc, [], p).ev == [Looked("u", "l", false)]
  {
    LetterRoot("l");
  }

  lemma SwallowedLoopIsUnbound()
    ensures ValidSteps(STEPS) && Looked("u", "l", false) in Run(NULLS, STEPS).ev
  {
    hide RunStep, ValidSteps;
    StepsAreValid();
    AllAreRoots();
    var todo := [0, 1, 2];
    var sc := map["a" := Null];
    FirstReplies(map[], [0]);
    LoopGivesUp(sc, [1]);
    ReadFails(sc, [2]);
    var last := RunList(NULLS, STEPS, todo, 2, sc, [], []);
    assert [] + [2] == [2] && [] + [1] == [1] && [] + [0] == [0];
    assert Looked("u", "l", false) in last.ev;
    var rest := RunList(NULLS, STEPS, todo, 1, sc, [], []);
    assert Looked("u", "l", false) in rest.ev;
    assert Run(NULLS, STEPS) == RunList(NULLS, STEPS, todo, 0, map[], [], []);
  }
}
