/** checkBranchCycles: a depth-first search with white/gray/black colouring over the branch graph
    of one level, and the proof that it reports an issue exactly when the graph has a cycle. */
module BranchCycles {
  import opened Wrappers
  import opened Definitions

  datatype Color = Gray | Black   // white is absence from the map

  /** `stack` holds the gray ids in call order, `done` the black ones in finishing order. */
  ghost predicate Searching(lvl: Level, color: map<string, Color>, stack: seq<string>, done: seq<string>) {
    && (forall id :: id in color && color[id] == Gray <==> id in stack)
    && (forall id :: id in color && color[id] == Black <==> id in done)
    && (stack != [] ==> IsPath(lvl, stack))
    && Finished(lvl, done)
  }

  /** Every finished id branches only to ids that finished before it. */
  ghost predicate Finished(lvl: Level, done: seq<string>) {
    && (forall i, j :: 0 <= i < j < |done| ==> done[i] != done[j])
    && (forall j, t :: 0 <= j < |done| && t in Succ(lvl, done[j]) ==> t in done[..j])
  }

  ghost predicate Covers(lvl: Level, done: seq<string>) {
    forall id :: Succ(lvl, id) != [] ==> id in done
  }

  lemma {:induction false} Descends(lvl: Level, done: seq<string>, p: seq<string>, j: nat)
    requires Finished(lvl, done) && IsPath(lvl, p) && |p| >= 2 && j < |done| && p[0] == done[j]
    ensures p[|p| - 1] in done[..j]
    decreases |p|
  {
    assert p[1] in Succ(lvl, p[0]);
    var i :| 0 <= i < j && done[..j][i] == p[1];
    if |p| > 2 {
      var q := p[1..];
      forall k | 0 <= k < |q| - 1 ensures q[k + 1] in Succ(lvl, q[k]) {
        assert p[k + 2] in Succ(lvl, p[k + 1]);
      }
      Descends(lvl, done, q, i);
      assert forall x :: x in done[..i] ==> x in done[..j];
    }
  }

  /** A finishing order over every id with out-edges rules a cycle out. */
  lemma FinishedIsAcyclic(lvl: Level, done: seq<string>)
    requires Finished(lvl, done) && Covers(lvl, done)
    ensures !HasCycle(lvl)
  {
    if p :| IsCycle(lvl, p) {
      assert p[1] in Succ(lvl, p[0]);
      var j :| 0 <= j < |done| && done[j] == p[0];
      Descends(lvl, done, p, j);
    }
  }

  /** The recursive closure. Returns the new colours and whether a cycle was found. */
  method Dfs(lvl: Level, id: string, color: map<string, Color>, ghost stack: seq<string>, ghost done: seq<string>)
    returns (color': map<string, Color>, found: bool, ghost done': seq<string>)
    requires Searching(lvl, color, stack, done) && id !in color
    requires stack != [] ==> id in Succ(lvl, stack[|stack| - 1])
    ensures found ==> HasCycle(lvl)
    ensures !found ==> Searching(lvl, color', stack, done') && done <= done' && id in done'
    decreases |IdSet(lvl) - color.Keys|
  {
    hide Succ, Searching, HasCycle, At;
    done' := done;
    var at := At(lvl, id);
    SuccOf(lvl, id);
    if at.None? || !lvl[at.value].body.Condition? {
      LeafDone(lvl, color, stack, done, id);
      return color[id := Black], false, done + [id];
    }
    color' := color[id := Gray];
    ghost var stack' := stack + [id];
    Enter(lvl, color, stack, done, id);
    var branch := BranchList(lvl[at.value]);
    assert id in IdSet(lvl);
    var k := 0;
    while k < |branch|
      invariant 0 <= k <= |branch|
      invariant Searching(lvl, color', stack', done') && done <= done'
      invariant forall i :: 0 <= i < k ==> branch[i] in done'
    {
      var t := branch[k];
      if t in color' && color'[t] == Gray {
        GrayTarget(lvl, color', stack', done', t);
        return color', true, done';
      }
      if t !in color' {
        StillColored(lvl, color, stack, done, id, color', done');
        Shrinks(IdSet(lvl), color.Keys, color'.Keys, id);
        color', found, done' := Dfs(lvl, t, color', stack', done');
        if found { return color', true, done'; }
      } else {
        BlackTarget(lvl, color', stack', done', t);
      }
      k := k + 1;
    }
    StillColored(lvl, color, stack, done, id, color', done');
    Blacken(lvl, color, color', stack, done, done', id);
    color' := color'[id := Black];
    done' := done' + [id];
    found := false;
  }

  lemma SuccOf(lvl: Level, id: string)
    ensures Succ(lvl, id) == if At(lvl, id).None? then [] else BranchList(lvl[At(lvl, id).value])
  {
  }

  lemma GrayTarget(lvl: Level, color: map<string, Color>, stack: seq<string>, done: seq<string>, t: string)
    requires Searching(lvl, color, stack, done) && stack != []
    requires t in color && color[t] == Gray && t in Succ(lvl, stack[|stack| - 1])
    ensures HasCycle(lvl)
  {
    ExtendPath(lvl, stack, t);
    var k :| 0 <= k < |stack| && stack[k] == t;
    RevisitIsCycle(lvl, stack + [t], k);
  }

  lemma BlackTarget(lvl: Level, color: map<string, Color>, stack: seq<string>, done: seq<string>, t: string)
    requires Searching(lvl, color, stack, done) && t in color && color[t] == Black
    ensures t in done
  {
  }

  lemma Enter(lvl: Level, color: map<string, Color>, stack: seq<string>, done: seq<string>, id: string)
    requires Searching(lvl, color, stack, done) && id !in color
    requires stack != [] ==> id in Succ(lvl, stack[|stack| - 1])
    ensures Searching(lvl, color[id := Gray], stack + [id], done)
  {
    if stack != [] { ExtendPath(lvl, stack, id); }
    assert forall x :: x in stack + [id] <==> x in stack || x == id;
  }

  lemma Finish(lvl: Level, done: seq<string>, id: string)
    requires Finished(lvl, done) && id !in done
    requires forall t :: t in Succ(lvl, id) ==> t in done
    ensures Finished(lvl, done + [id])
  {
    var d := done + [id];
    forall j, t | 0 <= j < |d| && t in Succ(lvl, d[j]) ensures t in d[..j] {
      if j < |done| {
        assert d[..j] == done[..j] && d[j] == done[j];
      } else {
        assert d[..j] == done;
      }
    }
  }

  lemma LeafDone(lvl: Level, color: map<string, Color>, stack: seq<string>, done: seq<string>, id: string)
    requires Searching(lvl, color, stack, done) && id !in color && Succ(lvl, id) == []
    ensures Searching(lvl, color[id := Black], stack, done + [id])
  {
    Finish(lvl, done, id);
    assert forall x :: x in done + [id] <==> x in done || x == id;
  }

  lemma StillColored(lvl: Level, color: map<string, Color>, stack: seq<string>, done: seq<string>, id: string,
                     color': map<string, Color>, done': seq<string>)
    requires Searching(lvl, color, stack, done) && Searching(lvl, color', stack + [id], done') && done <= done'
    ensures color.Keys + {id} <= color'.Keys && color'[id] == Gray
  {
    assert id in stack + [id];
    forall x | x in color.Keys ensures x in color' {
      if color[x] == Black {
        assert x in done;
        assert x in done';
      } else {
        assert x in stack + [id];
      }
    }
  }

  lemma Blacken(lvl: Level, color: map<string, Color>, color': map<string, Color>, stack: seq<string>,
                done: seq<string>, done': seq<string>, id: string)
    requires Searching(lvl, color, stack, done) && Searching(lvl, color', stack + [id], done')
    requires id !in color && id in color' && color'[id] == Gray
    requires forall t :: t in Succ(lvl, id) ==> t in done'
    ensures Searching(lvl, color'[id := Black], stack, done' + [id])
  {
    Finish(lvl, done', id);
    assert forall x :: x in stack + [id] <==> x in stack || x == id;
    assert forall x :: x in done' + [id] <==> x in done' || x == id;
  }

  lemma Shrinks(ids: set<string>, before: set<string>, after: set<string>, id: string)
    requires id in ids && id !in before && before + {id} <= after
    ensures |ids - after| < |ids - before|
  {
    var rest := ids - before - {id};
    assert rest == (ids - after) + (rest - (ids - after));
    assert ids - before == rest + {id};
  }

  /** checkBranchCycles reports an issue if and only if the level's branch graph has a cycle. */
  method CheckBranchCycles(lvl: Level) returns (found: bool)
    ensures found <==> HasCycle(lvl)
  {
    hide Succ;
    var color: map<string, Color> := map[];
    ghost var done: seq<string> := [];
    var i := 0;
    while i < |lvl|
      invariant 0 <= i <= |lvl|
      invariant Searching(lvl, color, [], done)
      invariant forall k :: 0 <= k < i && lvl[k].body.Condition? ==> lvl[k].id in done
    {
      if lvl[i].body.Condition? && lvl[i].id !in color {
        color, found, done := Dfs(lvl, lvl[i].id, color, [], done);
        if found { return true; }
      }
      i := i + 1;
    }
    forall id | Succ(lvl, id) != [] ensures id in done { SuccOf(lvl, id); }
    FinishedIsAcyclic(lvl, done);
    return false;
  }
}
