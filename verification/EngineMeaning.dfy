/** What a run does, said of the definition itself: which steps run, in which order and scope, when an
    executor is called, and what becomes of its reply. */
module EngineMeanings {
  import opened Wrappers
  import opened Text
  import opened Selector
  import opened Templates
  import opened Definitions
  import opened Scoping
  import opened Engines
  import EngineBounds

  // ----- which steps run -----

  function IdsOf(logs: seq<Log>): seq<string> { seq(|logs|, i requires 0 <= i < |logs| => logs[i].step) }

  function TodoIds(lvl: Level, todo: seq<nat>): seq<string>
    requires forall i :: i in todo ==> i < |lvl|
  {
    if todo == [] then []
    else
      assert todo[0] in todo && forall i :: i in todo[1..] ==> i in todo;
      [lvl[todo[0]].id] + TodoIds(lvl, todo[1..])
  }

  /** A step that completes leaves exactly one log, its own. */
  lemma StepLogged(env: Env, lvl: Level, j: nat, sc: Scope, chain: seq<string>, p: Pos)
    requires j < |lvl|
    ensures var r := RunStep(env, lvl, j, sc, chain, p);
            && (r.logs == [] || (|r.logs| == 1 && r.logs[0].step == lvl[j].id))
            && (!r.end.Failed? ==> |r.logs| == 1)
  {
    hide RunList, RunLoop, RunGroup, GroupRecords, GroupError, MergeAll, GroupFinish, DispatchLeaf, Resolve, RootOf, IdSet;
    hide ChainSet;
  }

  lemma {:induction false} ListLogged(env: Env, lvl: Level, todo: seq<nat>, k: nat, sc: Scope, chain: seq<string>, p: Pos)
    requires k <= |todo| && forall i :: i in todo ==> i < |lvl|
    ensures forall i :: i in todo[k..] ==> i < |lvl|
    ensures var r := RunList(env, lvl, todo, k, sc, chain, p);
            && IdsOf(r.logs) <= TodoIds(lvl, todo[k..])
            && (r.end == Done ==> IdsOf(r.logs) == TodoIds(lvl, todo[k..]))
    decreases |todo| - k
  {
    hide RunStep, ChainSet, IdSet;
    assert forall i :: i in todo[k..] ==> i in todo;
    if k < |todo| {
      assert todo[k] in todo;
      StepLogged(env, lvl, todo[k], sc, chain, p + [k]);
      var r := RunStep(env, lvl, todo[k], sc, chain, p + [k]);
      assert todo[k..] == [todo[k]] + todo[k + 1..];
      if r.end == Done {
        ListLogged(env, lvl, todo, k + 1, r.sc, chain, p);
        var rest := RunList(env, lvl, todo, k + 1, r.sc, chain, p);
        assert IdsOf(r.logs + rest.logs) == [lvl[todo[k]].id] + IdsOf(rest.logs);
      }
    }
  }

  /** The ids of a branch that name a step of the level, in the branch's order. */
  function Present(lvl: Level, branch: seq<string>): seq<string> {
    if branch == [] then []
    else (if branch[0] in IdSet(lvl) then [branch[0]] else []) + Present(lvl, branch[1..])
  }

  lemma {:induction false} DispatchedIds(lvl: Level, branch: seq<string>)
    ensures TodoIds(lvl, Dispatched(lvl, branch)) == Present(lvl, branch)
    decreases |branch|
  {
    hide At;
    if branch != [] {
      DispatchedIds(lvl, branch[1..]);
      var at := At(lvl, branch[0]);
      if at.Some? {
        assert lvl[at.value].id in IdSet(lvl);
        var rest := Dispatched(lvl, branch[1..]);
        assert ([at.value] + rest)[1..] == rest;
      }
    }
  }

  /** Nothing keeps the condition from being evaluated, and it is decided. */
  predicate Decided(env: Env, lvl: Level, j: nat, chain: seq<string>, p: Pos, taken: bool)
    requires j < |lvl|
  {
    && lvl[j].body.Condition? && lvl[j].body.input.Some?
    && !env.cancelled(p + [0]) && lvl[j].id !in chain && env.verdict(p) == Holds(taken)
  }

  /** A condition that holds runs the steps of its then branch, in that order, and one that does not
      those of its else branch: the logs under it are theirs, all of them when it completes. */
  lemma ConditionRuns(env: Env, lvl: Level, j: nat, sc: Scope, chain: seq<string>, p: Pos)
    requires j < |lvl|
    ensures Decided(env, lvl, j, chain, p, true) ==>
              var r := RunStep(env, lvl, j, sc, chain, p);
              && |r.logs| == 1 && r.logs[0].step == lvl[j].id
              && IdsOf(r.logs[0].children) <= Present(lvl, lvl[j].body.thn)
              && (r.end == Done ==> IdsOf(r.logs[0].children) == Present(lvl, lvl[j].body.thn))
    ensures Decided(env, lvl, j, chain, p, false) ==>
              var r := RunStep(env, lvl, j, sc, chain, p);
              && |r.logs| == 1 && r.logs[0].step == lvl[j].id
              && IdsOf(r.logs[0].children) <= Present(lvl, lvl[j].body.els)
              && (r.end == Done ==> IdsOf(r.logs[0].children) == Present(lvl, lvl[j].body.els))
  {
    hide RunList, Dispatched, Present, TodoIds, RootOf, IdSet;
    if Decided(env, lvl, j, chain, p, true) { BranchRuns(env, lvl, j, sc, chain, p, lvl[j].body.thn); }
    if Decided(env, lvl, j, chain, p, false) { BranchRuns(env, lvl, j, sc, chain, p, lvl[j].body.els); }
  }

  /** A condition that is not decided runs nothing: met again on its own chain it fails, and one that
      cannot be evaluated fails unless it continues on errors. */
  lemma ConditionFails(env: Env, lvl: Level, j: nat, sc: Scope, chain: seq<string>, p: Pos)
    requires j < |lvl| && lvl[j].body.Condition? && !env.cancelled(p + [0])
    requires lvl[j].id in chain || lvl[j].body.input.None? || env.verdict(p).EvalError?
    ensures var s, r := lvl[j], RunStep(env, lvl, j, sc, chain, p);
            && r.sc == sc && IdsOf(r.logs) == [s.id] && r.logs[0].children == []
            && r.end == if s.continueOnError && s.id !in chain then Done else Failed(Ordinary)
  {
    hide RunList, Dispatched, RootOf, IdSet;
  }

  lemma BranchRuns(env: Env, lvl: Level, j: nat, sc: Scope, chain: seq<string>, p: Pos, branch: seq<string>)
    requires j < |lvl|
    ensures var r := RunList(env, lvl, Dispatched(lvl, branch), 0, sc, chain + [lvl[j].id], p + [3]);
            && IdsOf(r.logs) <= Present(lvl, branch)
            && (r.end == Done ==> IdsOf(r.logs) == Present(lvl, branch))
  {
    hide RunList, Dispatched, Present, TodoIds;
    var todo := Dispatched(lvl, branch);
    ListLogged(env, lvl, todo, 0, sc, chain + [lvl[j].id], p + [3]);
    assert todo[0..] == todo;
    DispatchedIds(lvl, branch);
  }

  /** Some condition of the level branches to the id. */
  ghost predicate Branched(lvl: Level, id: string) {
    exists c :: 0 <= c < |lvl| && lvl[c].body.Condition? && (id in lvl[c].body.thn || id in lvl[c].body.els)
  }

  /** The ids of the first n steps that no condition branches to, in order. */
  ghost function Unbranched(lvl: Level, n: nat): seq<string>
    requires n <= |lvl|
  {
    if n == 0 then [] else Unbranched(lvl, n - 1) + if Branched(lvl, lvl[n - 1].id) then [] else [lvl[n - 1].id]
  }

  lemma {:induction false} RootIds(lvl: Level, n: nat)
    requires n <= |lvl|
    ensures TodoIds(lvl, Roots(lvl, n)) == Unbranched(lvl, n)
    decreases n
  {
    hide Targets, Branched, TodoIds;
    if n == 0 {
      assert TodoIds(lvl, []) == [] by { TodoNone(lvl); }
    } else {
      RootIds(lvl, n - 1);
      BranchedIffTarget(lvl, lvl[n - 1].id);
      var before := Roots(lvl, n - 1);
      if lvl[n - 1].id in Targets(lvl) {
        assert Roots(lvl, n) == before && Unbranched(lvl, n) == Unbranched(lvl, n - 1);
      } else {
        TodoSnoc(lvl, before, n - 1);
      }
    }
  }

  lemma TodoNone(lvl: Level)
    ensures TodoIds(lvl, []) == []
  {
  }

  lemma BranchedIffTarget(lvl: Level, id: string)
    ensures Branched(lvl, id) <==> id in Targets(lvl)
  {
    if Branched(lvl, id) {
      var c :| 0 <= c < |lvl| && lvl[c].body.Condition? && (id in lvl[c].body.thn || id in lvl[c].body.els);
      assert id in BranchList(lvl[c]);
    }
  }

  lemma {:induction false} TodoSnoc(lvl: Level, todo: seq<nat>, i: nat)
    requires (forall k :: k in todo ==> k < |lvl|) && i < |lvl|
    ensures forall k :: k in todo + [i] ==> k < |lvl|
    ensures TodoIds(lvl, todo + [i]) == TodoIds(lvl, todo) + [lvl[i].id]
    decreases |todo|
  {
    if todo == [] {
      assert [] + [i] == [i] && TodoIds(lvl, [i][1..]) == [];
    } else {
      assert forall k :: k in todo[1..] ==> k in todo;
      TodoSnoc(lvl, todo[1..], i);
      assert (todo + [i])[1..] == todo[1..] + [i];
    }
  }

  /** A level runs, in order, the steps that no condition branches to; all of them when it completes. */
  lemma LevelRuns(env: Env, lvl: Level, sc: Scope, p: Pos)
    ensures var r := RunLevel(env, lvl, sc, p);
            && IdsOf(r.logs) <= Unbranched(lvl, |lvl|)
            && (r.end == Done ==> IdsOf(r.logs) == Unbranched(lvl, |lvl|))
  {
    hide RunList, Roots, TodoIds;
    var todo := Roots(lvl, |lvl|);
    ListLogged(env, lvl, todo, 0, sc, [], p);
    assert todo[0..] == todo;
    RootIds(lvl, |lvl|);
  }

  /** Each child of a parallel group runs in the scope the group was entered with. */
  lemma {:induction false} GroupRuns(env: Env, steps: Level, roots: seq<nat>, k: nat, sc: Scope, p: Pos, i: nat)
    requires k + i < |roots| && forall x :: x in roots ==> x < |steps|
    ensures roots[k + i] < |steps|
    ensures RunGroup(env, steps, roots, k, sc, p)[i] == RunStep(env, steps, roots[k + i], sc, [], p + [k + i, 0])
    decreases i
  {
    hide RunStep, ChainSet, IdSet;
    assert roots[k + i] in roots && roots[k] in roots;
    if i > 0 { GroupRuns(env, steps, roots, k + 1, sc, p, i - 1); }
  }

  /** A child's error that the group does not swallow. */
  predicate Fatal(kid: Res, swallow: bool) { kid.end.Failed? && !(swallow && kid.end.err == Ordinary) }

  /** It failed, and not because a sibling's end cancelled it. */
  predicate FailedAlone(kid: Res, swallow: bool) { Fatal(kid, swallow) && kid.end.err != Cancelled }

  predicate FirstAlone(kids: seq<Res>, swallow: bool, i: int) {
    0 <= i < |kids| && FailedAlone(kids[i], swallow) && forall k :: 0 <= k < i ==> !FailedAlone(kids[k], swallow)
  }

  predicate FirstFinished(kids: seq<Res>, i: int) {
    0 <= i < |kids| && kids[i].end.Finished? && forall k :: 0 <= k < i ==> !kids[k].end.Finished?
  }

  /** A group's error is that of the first child that failed of its own, if there is one; else a
      cancellation, if some child was cancelled. */
  lemma {:induction false} GroupErrorMeans(kids: seq<Res>, swallow: bool)
    ensures var e := GroupError(kids, swallow);
            if exists k :: 0 <= k < |kids| && FailedAlone(kids[k], swallow)
            then exists i :: FirstAlone(kids, swallow, i) && e == Some(kids[i].end.err)
            else e == if exists k :: 0 <= k < |kids| && Fatal(kids[k], swallow) then Some(Cancelled) else None
  {
    if kids != [] {
      var n := |kids| - 1;
      var before := kids[..n];
      GroupErrorMeans(before, swallow);
      assert forall k :: 0 <= k < n ==> before[k] == kids[k];
      if k :| 0 <= k < n && FailedAlone(kids[k], swallow) {
        assert FailedAlone(before[k], swallow);
        var i :| FirstAlone(before, swallow, i) && GroupError(before, swallow) == Some(before[i].end.err);
        assert FirstAlone(kids, swallow, i);
      } else if FailedAlone(kids[n], swallow) {
        assert FirstAlone(kids, swallow, n);
      }
    }
  }

  /** A group ends as its first child that finished the run, if there is one. */
  lemma {:induction false} GroupFinishMeans(kids: seq<Res>)
    ensures if exists k :: 0 <= k < |kids| && kids[k].end.Finished?
            then exists i :: FirstFinished(kids, i) && GroupFinish(kids) == kids[i].end
            else GroupFinish(kids) == Done
  {
    if kids != [] {
      var rest := kids[1..];
      GroupFinishMeans(rest);
      assert forall k :: 0 <= k < |rest| ==> rest[k] == kids[k + 1];
      if kids[0].end.Finished? {
        assert FirstFinished(kids, 0);
      } else if k :| 0 <= k < |kids| && kids[k].end.Finished? {
        assert rest[k - 1].end.Finished?;
        var i :| FirstFinished(rest, i) && GroupFinish(rest) == rest[i].end;
        assert forall x :: 0 < x <= i ==> kids[x] == rest[x - 1];
        assert FirstFinished(kids, i + 1);
      }
    }
  }

  /** How a group ends: with the error of the first child that failed of its own; else cancelled, if a
      child was and the run is; else failed, if the merged outputs exceed the cap; else as its first child
      that finished the run, or completed. */
  lemma GroupEnds(env: Env, lvl: Level, j: nat, sc: Scope, chain: seq<string>, p: Pos)
    requires j < |lvl| && lvl[j].body.Parallel? && !env.cancelled(p + [0])
    ensures var steps, swallow, r := lvl[j].body.steps, lvl[j].continueOnError, RunStep(env, lvl, j, sc, chain, p);
            var kids := RunGroup(env, steps, Roots(steps, |steps|), 0, sc, p + [5]);
            if exists k :: 0 <= k < |kids| && FailedAlone(kids[k], swallow) then
              r.sc == sc && exists i :: FirstAlone(kids, swallow, i) && r.end == kids[i].end
            else if env.cancelled(p + [6]) && exists k :: 0 <= k < |kids| && Fatal(kids[k], swallow) then
              r.sc == sc && r.end == Failed(Cancelled)
            else if MergeAll(env, steps, kids).over then r.sc == sc && r.end == Failed(Ordinary)
            else if exists k :: 0 <= k < |kids| && kids[k].end.Finished? then
              exists i :: FirstFinished(kids, i) && r.end == kids[i].end
            else r.end == Done
  {
    hide RunGroup, MergeAll, GroupRecords, GroupError, GroupFinish, GroupEvents, RootOf, ChainSet, IdSet, Roots;
    var steps, swallow := lvl[j].body.steps, lvl[j].continueOnError;
    var kids := RunGroup(env, steps, Roots(steps, |steps|), 0, sc, p + [5]);
    GroupErrorMeans(kids, swallow);
    GroupFinishMeans(kids);
  }

  // ----- loops -----

  /** The outputs an iteration leaves: those of the loop's own steps. */
  function Left(sc: Scope, steps: Level): Value { Obj(map id | id in sc && exists k :: 0 <= k < |steps| && steps[k].id == id :: sc[id]) }

  lemma LeftIsOutputs(sc: Scope, steps: Level)
    ensures Left(sc, steps) == Obj(Outputs(sc, steps))
  {
    assert forall id :: id in IdSet(steps) <==> exists k :: 0 <= k < |steps| && steps[k].id == id;
  }

  /** The total encoded size of values. */
  function Encoded(env: Env, values: seq<Value>): nat {
    if values == [] then 0
    else (if env.marshal(values[0]).Some? then env.marshal(values[0]).value else 0) + Encoded(env, values[1..])
  }

  /** The k-th iteration: in a copy of the scope with the k-th item and its index. */
  function Iteration(env: Env, steps: Level, items: seq<Value>, sc: Scope, p: Pos, k: nat): Res
    requires k < |items|
  {
    RunLevel(env, steps, sc["item" := items[k]]["index" := Num(k as real)], p + [k, 1])
  }

  /** The first iterations ran to their end, or to a failure the loop swallows, and left `out`. */
  ghost predicate Ran(env: Env, steps: Level, swallow: bool, items: seq<Value>, sc: Scope, p: Pos, out: seq<Value>) {
    && |out| <= |items|
    && forall k :: 0 <= k < |out| ==>
         var it := Iteration(env, steps, items, sc, p, k);
         && !env.cancelled(p + [k, 0]) && (it.end == Done || (swallow && it.end == Failed(Ordinary)))
         && out[k] == Left(it.sc, steps) && env.marshal(out[k]).Some?
  }

  /** One iteration of the loop. */
  lemma LoopOnce(env: Env, steps: Level, swallow: bool, items: seq<Value>, k: nat, sc: Scope, p: Pos,
                 results: seq<Value>, bytes: nat)
    requires k < |items| && !env.cancelled(p + [k, 0])
    ensures var r := RunLoop(env, steps, swallow, items, k, sc, p, results, bytes);
            match LoopTurn(env, steps, swallow, Iteration(env, steps, items, sc, p, k), results, bytes)
            case Halt(end, out) => r.end == end && r.out == out
            case Next(results', bytes') =>
              var rest := RunLoop(env, steps, swallow, items, k + 1, sc, p, results', bytes');
              r.end == rest.end && r.out == rest.out
  {
    hide RunLevel, LoopTurn, Record, ChainSet, IdSet;
  }

  /** What an iteration makes of the entries so far, its own fitting the cap. */
  lemma TurnMeans(env: Env, steps: Level, swallow: bool, it: Res, results: seq<Value>, bytes: nat)
    requires env.marshal(Left(it.sc, steps)).Some? && bytes + env.marshal(Left(it.sc, steps)).value <= env.outputCap
    ensures var entry := Left(it.sc, steps);
            LoopTurn(env, steps, swallow, it, results, bytes)
            == if it.end == Done || (swallow && it.end == Failed(Ordinary))
               then Next(results + [entry], bytes + env.marshal(entry).value)
               else Halt(it.end, if it.end.Finished? then Some(results + [entry]) else None)
  {
    hide Left, Outputs;
    LeftIsOutputs(it.sc, steps);
  }

  lemma {:induction false} LoopReaches(env: Env, steps: Level, swallow: bool, items: seq<Value>, k: nat, sc: Scope, p: Pos,
                                       out: seq<Value>, bytes: nat)
    requires k <= |out| && Ran(env, steps, swallow, items, sc, p, out) && bytes + Encoded(env, out[k..]) <= env.outputCap
    ensures var r, rest := RunLoop(env, steps, swallow, items, k, sc, p, out[..k], bytes),
                           RunLoop(env, steps, swallow, items, |out|, sc, p, out, bytes + Encoded(env, out[k..]));
            r.end == rest.end && r.out == rest.out
    decreases |out| - k
  {
    hide RunLoop, LoopTurn, Left, Iteration;
    if k == |out| {
      assert out[..k] == out;
    } else {
      var it := Iteration(env, steps, items, sc, p, k);
      assert out[k..][0] == out[k] && out[k..][1..] == out[k + 1..];
      assert out[..k] + [out[k]] == out[..k + 1];
      LoopOnce(env, steps, swallow, items, k, sc, p, out[..k], bytes);
      TurnMeans(env, steps, swallow, it, out[..k], bytes);
      LoopReaches(env, steps, swallow, items, k + 1, sc, p, out, bytes + env.marshal(out[k]).value);
    }
  }

  /** The loop over the items, from the first. */
  lemma LoopStarts(env: Env, steps: Level, swallow: bool, items: seq<Value>, sc: Scope, p: Pos, out: seq<Value>)
    requires Ran(env, steps, swallow, items, sc, p, out) && Encoded(env, out) <= env.outputCap
    ensures var r, rest := RunLoop(env, steps, swallow, items, 0, sc, p, [], 0),
                           RunLoop(env, steps, swallow, items, |out|, sc, p, out, Encoded(env, out));
            r.end == rest.end && r.out == rest.out
  {
    hide Ran, RunLoop;
    assert out[0..] == out && out[..0] == [];
    LoopReaches(env, steps, swallow, items, 0, sc, p, out, 0);
  }

  /** A loop whose iterations all end so within the output cap writes one entry for each item, in order. */
  lemma LoopRuns(env: Env, lvl: Level, j: nat, sc: Scope, chain: seq<string>, p: Pos, items: seq<Value>, out: seq<Value>)
    requires j < |lvl| && lvl[j].body.ForEach? && !env.cancelled(p + [0])
    requires Resolve(sc, lvl[j].body.itemsFrom) == Ok(Arr(items)) && |items| <= MAX_ITEMS
    requires Ran(env, lvl[j].body.steps, lvl[j].continueOnError, items, sc, p + [4], out)
    requires Encoded(env, out) <= env.outputCap
    requires |out| == |items|
    ensures var r := RunStep(env, lvl, j, sc, chain, p);
            r.end == Done && r.sc == sc[lvl[j].id := Arr(out)]
  {
    hide Resolve, Ran, RootOf, ChainSet, IdSet, RunLevel;
    LoopStarts(env, lvl[j].body.steps, lvl[j].continueOnError, items, sc, p + [4], out);
  }

  /** An iteration that is not started, since the run is cancelled, ends the loop without an output; so
      does one whose error is not swallowed, or whose entry no longer fits the output cap; one that
      finishes the run ends the loop with the entries so far and its own. */
  lemma LoopStops(env: Env, lvl: Level, j: nat, sc: Scope, chain: seq<string>, p: Pos, items: seq<Value>, out: seq<Value>)
    requires j < |lvl| && lvl[j].body.ForEach? && !env.cancelled(p + [0])
    requires Resolve(sc, lvl[j].body.itemsFrom) == Ok(Arr(items)) && |items| <= MAX_ITEMS
    requires Ran(env, lvl[j].body.steps, lvl[j].continueOnError, items, sc, p + [4], out)
    requires Encoded(env, out) <= env.outputCap
    requires |out| < |items|
    ensures var s, r := lvl[j], RunStep(env, lvl, j, sc, chain, p);
            Stopped(env, s, env.cancelled(p + [4] + [|out|, 0]), Iteration(env, s.body.steps, items, sc, p + [4], |out|), out, sc, r)
  {
    hide Resolve, Ran, RootOf, ChainSet, IdSet, RunLoop, Iteration, LoopTurn, Left;
    var s := lvl[j];
    var steps, swallow := s.body.steps, s.continueOnError;
    LoopStarts(env, steps, swallow, items, sc, p + [4], out);
    if env.cancelled(p + [4] + [|out|, 0]) {
      LoopCancelled(env, steps, swallow, items, |out|, sc, p + [4], out, Encoded(env, out));
    } else {
      LoopOnce(env, steps, swallow, items, |out|, sc, p + [4], out, Encoded(env, out));
      TurnStops(env, steps, swallow, Iteration(env, steps, items, sc, p + [4], |out|), out, Encoded(env, out));
    }
  }

  predicate Stopped(env: Env, s: Step, cancelled: bool, it: Res, out: seq<Value>, sc: Scope, r: Res)
    requires s.body.ForEach?
  {
    var entry := Left(it.sc, s.body.steps);
    if cancelled then r.end == Failed(Cancelled) && r.sc == sc
    else
      && (it.end.Failed? && !(s.continueOnError && it.end.err == Ordinary) ==> r.end == it.end && r.sc == sc)
      && (it.end.Finished? && env.marshal(entry).Some? && Encoded(env, out) + env.marshal(entry).value <= env.outputCap ==>
            r.end == it.end && r.sc == sc[s.id := Arr(out + [entry])])
      && ((it.end.Failed? ==> it.end.err == Ordinary)
          && env.marshal(entry).Some? && Encoded(env, out) + env.marshal(entry).value > env.outputCap ==>
            r.end == Failed(Ordinary) && r.sc == sc)
  }

  lemma LoopCancelled(env: Env, steps: Level, swallow: bool, items: seq<Value>, k: nat, sc: Scope, p: Pos,
                      results: seq<Value>, bytes: nat)
    requires k < |items| && env.cancelled(p + [k, 0])
    ensures var r := RunLoop(env, steps, swallow, items, k, sc, p, results, bytes);
            r.end == Failed(Cancelled) && r.out == None
  {
    hide RunLevel, LoopTurn, Record, ChainSet, IdSet;
  }

  /** An error that is not swallowed halts the loop, whatever the iteration left. */
  lemma TurnStops(env: Env, steps: Level, swallow: bool, it: Res, results: seq<Value>, bytes: nat)
    ensures it.end.Failed? && !(swallow && it.end.err == Ordinary) ==>
              LoopTurn(env, steps, swallow, it, results, bytes) == Halt(it.end, None)
    ensures var entry := Left(it.sc, steps);
            it.end.Finished? && env.marshal(entry).Some? && bytes + env.marshal(entry).value <= env.outputCap ==>
              LoopTurn(env, steps, swallow, it, results, bytes) == Halt(it.end, Some(results + [entry]))
    ensures var entry := Left(it.sc, steps);
            (it.end.Failed? ==> it.end.err == Ordinary)
            && env.marshal(entry).Some? && bytes + env.marshal(entry).value > env.outputCap ==>
              LoopTurn(env, steps, swallow, it, results, bytes) == Halt(Failed(Ordinary), None)
  {
    hide Left, Outputs;
    LeftIsOutputs(it.sc, steps);
  }

  /** A loop whose items do not resolve to a list of at most 1000 runs nothing and writes nothing; it
      fails unless it continues on errors. */
  lemma LoopGivesUp(env: Env, lvl: Level, j: nat, sc: Scope, chain: seq<string>, p: Pos)
    requires j < |lvl| && lvl[j].body.ForEach? && !env.cancelled(p + [0])
    requires forall items: seq<Value> :: |items| <= 1000 ==> Resolve(sc, lvl[j].body.itemsFrom) != Ok(Arr(items))
    ensures var s, r := lvl[j], RunStep(env, lvl, j, sc, chain, p);
            && r.sc == sc && IdsOf(r.logs) == [s.id] && r.logs[0].children == []
            && r.end == if s.continueOnError then Done else Failed(Ordinary)
  {
    hide Resolve, RunLoop, RootOf, ChainSet, IdSet;
    var v := Resolve(sc, lvl[j].body.itemsFrom);
    if v.Ok? && v.value.Arr? { assert v == Ok(Arr(v.value.items)); }
  }

  // ----- leaves -----

  /** A workspace is given by no reference, or by one that resolves to a string. */
  predicate WorkspaceResolves(sc: Scope, ref: string) {
    ref == "" || (Resolve(sc, ref).Ok? && Resolve(sc, ref).value.Str?)
  }

  /** A tool argument: a `_from` key is a reference, any other text a template, unless it is exactly one
      reference; what is not text is passed on. */
  predicate ArgResolves(env: Env, sc: Scope, key: string, arg: Arg) {
    arg.Other?
    || if IsFromKey(key) then Resolve(sc, arg.s).Ok?
       else if SingleRef(arg.s).Some? then Resolve(sc, SingleRef(arg.s).value).Ok?
       else Expand(sc, env.render, arg.s).Ok?
  }

  /** Everything the leaf needs resolves. */
  predicate Ready(env: Env, s: Step, sc: Scope)
    requires s.Leaf()
  {
    match s.body
    case Tool(_, args, ws) =>
      && !args.NotAnObject? && WorkspaceResolves(sc, ws)
      && (args.Fields? ==> forall i :: 0 <= i < |args.entries| ==> ArgResolves(env, sc, args.entries[i].0, args.entries[i].1))
    case Llm(prompt, inputs) =>
      Expand(sc, env.render, prompt).Ok? && forall i :: 0 <= i < |inputs| ==> Resolve(sc, inputs[i]).Ok?
    case Agent(prompt, ws) => Expand(sc, env.render, prompt).Ok? && WorkspaceResolves(sc, ws)
    case _ => false
  }

  lemma {:induction false} AllResolve(env: Env, step: string, sc: Scope, uses: seq<Use>, isTool: bool)
    ensures LookAll(env, step, sc, uses, isTool).ok <==> forall u :: u in uses ==> LookUse(env, step, sc, u, isTool).ok
    decreases |uses|
  {
    hide LookUse;
    if uses != [] { AllResolve(env, step, sc, uses[1..], isTool); }
  }

  /** The argument's reference or template. */
  ghost predicate IsArgUse(entries: seq<(string, Arg)>, u: Use) {
    exists i :: 0 <= i < |entries| && entries[i].1.Text?
                && u == if IsFromKey(entries[i].0) then Bare(entries[i].1.s) else Interpolated(entries[i].1.s)
  }

  /** The references of a tool's arguments are its textual ones. */
  lemma {:induction false} ArgUses(entries: seq<(string, Arg)>, u: Use)
    ensures u in WithUses(entries) <==> IsArgUse(entries, u)
    decreases |entries|
  {
    if entries != [] {
      var rest := entries[1..];
      ArgUses(rest, u);
      assert forall i :: 0 <= i < |rest| ==> rest[i] == entries[i + 1];
      if i :| 0 <= i < |entries| && entries[i].1.Text?
              && u == if IsFromKey(entries[i].0) then Bare(entries[i].1.s) else Interpolated(entries[i].1.s)
      {
        if i > 0 { assert rest[i - 1] == entries[i]; }
      }
    }
  }

  ghost predicate ToolUses(args: With, ws: string, u: Use) {
    || (ws != "" && u == Workspace(ws))
    || (args.Fields? && IsArgUse(args.entries, u))
  }

  /** What a leaf refers to, by the fields of its kind. */
  ghost predicate Needs(s: Step, u: Use) {
    match s.body
    case Tool(_, args, ws) => ToolUses(args, ws, u)
    case Llm(prompt, inputs) => u == Interpolated(prompt) || exists i :: 0 <= i < |inputs| && u == Bare(inputs[i])
    case Agent(prompt, ws) => u == Interpolated(prompt) || (ws != "" && u == Workspace(ws))
    case _ => false
  }

  lemma LeafUses(s: Step, u: Use)
    requires s.Leaf()
    ensures u in UsesOf(s) <==> Needs(s, u)
  {
    if s.body.Tool? && s.body.args.Fields? { ArgUses(s.body.args.entries, u); }
    if s.body.Llm? {
      var uses := InputUses(s.body.inputs);
      assert forall i :: 0 <= i < |uses| ==> uses[i] == Bare(s.body.inputs[i]);
    }
  }

  lemma ReadyIffResolves(env: Env, s: Step, sc: Scope)
    requires s.Leaf()
    ensures Ready(env, s, sc) <==>
              !(s.body.Tool? && s.body.args.NotAnObject?) && LookAll(env, s.id, sc, UsesOf(s), s.body.Tool?).ok
  {
    hide Resolve, Expand, SingleRef, TemplateLooks, UsesOf, LookAll, IsFromKey, RootOf;
    var uses := UsesOf(s);
    AllResolve(env, s.id, sc, uses, s.body.Tool?);
    forall u ensures u in uses <==> Needs(s, u) { LeafUses(s, u); }
    match s.body {
      case Tool(_, args, ws) =>
        if args.Fields? { ArgsResolve(env, s, sc, args.entries); }
        assert ws != "" ==> Needs(s, Workspace(ws));
      case Llm(prompt, inputs) =>
        assert Needs(s, Interpolated(prompt));
        assert forall i :: 0 <= i < |inputs| ==> Needs(s, Bare(inputs[i]));
      case Agent(prompt, ws) =>
        assert Needs(s, Interpolated(prompt)) && (ws != "" ==> Needs(s, Workspace(ws)));
    }
  }

  lemma ArgsResolve(env: Env, s: Step, sc: Scope, entries: seq<(string, Arg)>)
    ensures (forall i :: 0 <= i < |entries| ==> ArgResolves(env, sc, entries[i].0, entries[i].1))
            <==> forall u :: IsArgUse(entries, u) ==> LookUse(env, s.id, sc, u, true).ok
  {
    hide Resolve, Expand, SingleRef, TemplateLooks, IsFromKey, RootOf;
    forall i | 0 <= i < |entries| && entries[i].1.Text?
      ensures IsArgUse(entries, if IsFromKey(entries[i].0) then Bare(entries[i].1.s) else Interpolated(entries[i].1.s))
    {
    }
  }

  /** An executor is called exactly when the step's own budget grants it and everything its fields name
      resolves; then exactly once, and nothing is called for another kind. */
  lemma CallsExactly(env: Env, lvl: Level, j: nat, sc: Scope, chain: seq<string>, p: Pos, k: Kind)
    requires j < |lvl| && lvl[j].Leaf() && !env.cancelled(p + [0]) && !env.cancelled(p + [1])
    ensures var s := lvl[j];
            Called(k) in RunStep(env, lvl, j, sc, chain, p).ev <==>
              && env.granted(p) && Ready(env, s, sc)
              && match s.body
                 case Tool(_, _, _) => k == ToolCall
                 case Llm(_, _) => k == ModelCall
                 case _ => k == AgentRun
  {
    hide LookAll, UsesOf, Ready;
    var s := lvl[j];
    ReadyIffResolves(env, s, sc);
    EngineBounds.OnlyLooksAll(env, s.id, sc, UsesOf(s), s.body.Tool?);
    var d := DispatchLeaf(env, s, sc, p);
    assert forall e :: e in d.ev && e.Called? ==> e == Called(KindOf(s));
  }

  /** What becomes of a leaf. Its reply is written under its id; a failure is fatal unless the step
      continues on errors, when null or the failed reply is written; budgets and cancellations always are. */
  lemma LeafEnds(env: Env, lvl: Level, j: nat, sc: Scope, chain: seq<string>, p: Pos)
    requires j < |lvl| && lvl[j].Leaf() && !env.cancelled(p + [0]) && !env.cancelled(p + [1]) && !env.cancelled(p + [2])
    ensures var s, r := lvl[j], RunStep(env, lvl, j, sc, chain, p);
            && (!env.granted(p) ==> r.end == Failed(Budget) && r.sc == sc)
            && (env.granted(p) && !Ready(env, s, sc) ==> Fails(r, s, sc, Null))
            && (env.granted(p) && Ready(env, s, sc) ==>
                  match env.response(p)
                  case Replied(out) => r.end == Done && r.sc == sc[s.id := out]
                  case Refused(out) => Fails(r, s, sc, out)
                  case Raised(ctx) =>
                    if ctx && !s.continueOnError then r.end == Failed(Cancelled) && r.sc == sc else Fails(r, s, sc, Null))
  {
    hide LookAll, UsesOf, Ready;
    ReadyIffResolves(env, lvl[j], sc);
  }

  /** An ordinary failure, swallowed or not. */
  predicate Fails(r: Res, s: Step, sc: Scope, out: Value) {
    if s.continueOnError then r.end == Done && r.sc == sc[s.id := out] else r.end == Failed(Ordinary) && r.sc == sc
  }

  /** A step that is reached after a cancellation does nothing at all; a leaf that is cancelled while it
      waits or runs ends the run, whatever its reply, and writes nothing, even if it continues on errors. */
  lemma CancelledStops(env: Env, lvl: Level, j: nat, sc: Scope, chain: seq<string>, p: Pos, k: Kind)
    requires j < |lvl|
    ensures var r := RunStep(env, lvl, j, sc, chain, p);
            && (env.cancelled(p + [0]) ==> r == Res([], sc, Failed(Cancelled), []))
            && (lvl[j].Leaf() && (env.cancelled(p + [1]) || env.cancelled(p + [2])) ==> r.end == Failed(Cancelled) && r.sc == sc)
            && (lvl[j].Leaf() && env.cancelled(p + [1]) ==> Called(k) !in r.ev)
  {
    hide LookAll, UsesOf, RunList, RunLoop, RunGroup, DispatchLeaf, ChainSet, IdSet, RootOf;
  }

  // ----- how a run ends -----

  /** A finish step ends the run there. */
  lemma FinishEnds(env: Env, lvl: Level, j: nat, sc: Scope, chain: seq<string>, p: Pos)
    requires j < |lvl| && lvl[j].body.Finish? && !env.cancelled(p + [0])
    ensures RunStep(env, lvl, j, sc, chain, p).end == Finished(lvl[j].body.status)
  {
  }

  /** The record of a run that was not stopped from outside: failed after an error, skipped or failed
      by a finish that says so, and a success otherwise. */
  lemma StatusMeans(env: Env, steps: Level)
    ensures var end := Run(env, steps).end;
            && (StatusOf(end, false) == Success <==>
                  end == Done || (end.Finished? && end.status != "skipped" && end.status != "failed"))
            && (StatusOf(end, false) == Skipped <==> end == Finished("skipped"))
            && (StatusOf(end, false) == FailedRun <==> end.Failed? || end == Finished("failed"))
            && StatusOf(end, true) == CancelledRun
  {
    hide Run;
  }
}
