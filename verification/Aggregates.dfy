/** The outputs of loops and parallel groups are complete or absent: a later step never reads a
    part of one. */
module Aggregates {
  import opened Wrappers
  import opened Templates
  import opened Definitions
  import opened Scoping
  import opened Engines

  // ----- for_each -----

  /** How the k-th iteration of a loop ends. */
  function Iteration(env: Env, steps: Level, items: seq<Value>, k: nat, sc: Scope, p: Pos): Res
    requires k < |items|
  {
    RunLevel(env, steps, IterScope(sc, items[k], k), p + [k, 1])
  }

  /** The outputs of iterations `from..to` that JSON can encode, in item order. */
  function Entries(env: Env, steps: Level, items: seq<Value>, from: nat, to: nat, sc: Scope, p: Pos): (r: seq<Value>)
    requires from <= to <= |items|
    decreases |items| - from
  {
    if from == to then []
    else
      var out := Obj(Outputs(Iteration(env, steps, items, from, sc, p).sc, steps));
      (if env.marshal(out).Some? then [out] else []) + Entries(env, steps, items, from + 1, to, sc, p)
  }

  /** With encodable outputs there is one entry for each iteration. */
  lemma {:induction false} OneEntryEach(env: Env, steps: Level, items: seq<Value>, from: nat, to: nat, sc: Scope, p: Pos, k: nat)
    requires from <= k < to <= |items|
    requires forall v :: env.marshal(v).Some?
    ensures |Entries(env, steps, items, from, to, sc, p)| == to - from
    ensures Entries(env, steps, items, from, to, sc, p)[k - from]
            == Obj(Outputs(Iteration(env, steps, items, k, sc, p).sc, steps))
    decreases |items| - from
  {
    hide Iteration, Outputs, Entries;
    FirstEntry(env, steps, items, from, to, sc, p);
    if from + 1 < to {
      OneEntryEach(env, steps, items, from + 1, to, sc, p, if k == from then k + 1 else k);
    } else {
      NoEntries(env, steps, items, to, sc, p);
    }
  }

  lemma FirstEntry(env: Env, steps: Level, items: seq<Value>, from: nat, to: nat, sc: Scope, p: Pos)
    requires from < to <= |items| && forall v :: env.marshal(v).Some?
    ensures Entries(env, steps, items, from, to, sc, p)
            == [Obj(Outputs(Iteration(env, steps, items, from, sc, p).sc, steps))]
               + Entries(env, steps, items, from + 1, to, sc, p)
  {
    hide Iteration, Outputs;
  }

  lemma NoEntries(env: Env, steps: Level, items: seq<Value>, to: nat, sc: Scope, p: Pos)
    requires to <= |items|
    ensures Entries(env, steps, items, to, to, sc, p) == []
  {
  }

  function EncodedBytes(env: Env, values: seq<Value>): nat {
    if values == [] then 0
    else
      var size := env.marshal(values[|values| - 1]);
      EncodedBytes(env, values[..|values| - 1]) + if size.Some? then size.value else 0
  }

  /** An iteration after which the loop goes on. */
  predicate GoesOn(r: Res, swallow: bool) { r.end == Done || (r.end == Failed(Ordinary) && swallow) }

  /** The loop, from iteration `k`, exposed its results after iteration `n - 1`. */
  ghost predicate Complete(env: Env, steps: Level, swallow: bool, items: seq<Value>, k: nat, n: nat, sc: Scope, p: Pos,
                           results: seq<Value>, r: LoopRes)
    requires k <= |items|
  {
    && r.out.Some?
    && k <= n <= |items|
    && r.out.value == results + Entries(env, steps, items, k, n, sc, p)
    && EncodedBytes(env, r.out.value) <= env.outputCap
    && (r.end == Done || r.end.Finished?)
    && (r.end == Done ==> n == |items|)
    && (r.end.Finished? ==> k < n && Iteration(env, steps, items, n - 1, sc, p).end == r.end)
    && forall i :: k <= i < n && (r.end.Finished? ==> i < n - 1) ==> GoesOn(Iteration(env, steps, items, i, sc, p), swallow)
  }

  lemma {:induction false} LoopCompleteOrAbsent(env: Env, steps: Level, swallow: bool, items: seq<Value>, k: nat, sc: Scope,
                                                p: Pos, results: seq<Value>, bytes: nat) returns (n: nat)
    requires k <= |items| && bytes == EncodedBytes(env, results) <= env.outputCap
    ensures var r := RunLoop(env, steps, swallow, items, k, sc, p, results, bytes);
            if r.out.Some? then Complete(env, steps, swallow, items, k, n, sc, p, results, r) else r.end.Failed?
    decreases |items| - k
  {
    hide Iteration, Record, Outputs, LoopTurn, EncodedBytes, Entries, Complete;
    n := k;
    var r := RunLoop(env, steps, swallow, items, k, sc, p, results, bytes);
    if k == |items| {
      NothingLeft(env, steps, swallow, items, sc, p, results, r);
    } else if !env.cancelled(p + [k, 0]) {
      var it := Iteration(env, steps, items, k, sc, p);
      IsIteration(env, steps, items, k, sc, p);
      TurnFacts(env, steps, swallow, items, k, sc, p, results, bytes);
      match LoopTurn(env, steps, swallow, it, results, bytes) {
        case Halt(end, out) =>
          n := k + 1;
          if out.Some? { FinishedAfter(env, steps, swallow, items, k, sc, p, results, r); }
        case Next(results', bytes') =>
          n := LoopCompleteOrAbsent(env, steps, swallow, items, k + 1, sc, p, results', bytes');
          var rest := RunLoop(env, steps, swallow, items, k + 1, sc, p, results', bytes');
          if rest.out.Some? { OneMore(env, steps, swallow, items, k, n, sc, p, results, results', rest, r); }
      }
    }
  }

  lemma IsIteration(env: Env, steps: Level, items: seq<Value>, k: nat, sc: Scope, p: Pos)
    requires k < |items|
    ensures Iteration(env, steps, items, k, sc, p) == RunLevel(env, steps, IterScope(sc, items[k], k), p + [k, 1])
    ensures IterScope(sc, items[k], k) == sc["item" := items[k]]["index" := Num(k as real)]
  {
  }

  lemma NothingLeft(env: Env, steps: Level, swallow: bool, items: seq<Value>, sc: Scope, p: Pos, results: seq<Value>, r: LoopRes)
    requires r.out == Some(results) && r.end == Done && EncodedBytes(env, results) <= env.outputCap
    ensures Complete(env, steps, swallow, items, |items|, |items|, sc, p, results, r)
  {
    assert Entries(env, steps, items, |items|, |items|, sc, p) == [];
    assert results + [] == results;
  }

  lemma OneEntry(env: Env, steps: Level, items: seq<Value>, k: nat, sc: Scope, p: Pos, results: seq<Value>)
    requires k < |items|
    ensures var out := Obj(Outputs(Iteration(env, steps, items, k, sc, p).sc, steps));
            && Entries(env, steps, items, k, k + 1, sc, p) == (if env.marshal(out).Some? then [out] else [])
            && EncodedBytes(env, results + [out])
               == EncodedBytes(env, results) + (if env.marshal(out).Some? then env.marshal(out).value else 0)
  {
    hide Iteration, Outputs;
    var out := Obj(Outputs(Iteration(env, steps, items, k, sc, p).sc, steps));
    assert Entries(env, steps, items, k + 1, k + 1, sc, p) == [];
    assert (results + [out])[..|results|] == results;
  }

  lemma FinishedAfter(env: Env, steps: Level, swallow: bool, items: seq<Value>, k: nat, sc: Scope, p: Pos,
                      results: seq<Value>, r: LoopRes)
    requires k < |items| && r.out == Some(results + Entries(env, steps, items, k, k + 1, sc, p))
    requires r.end.Finished? && Iteration(env, steps, items, k, sc, p).end == r.end
    requires EncodedBytes(env, r.out.value) <= env.outputCap
    ensures Complete(env, steps, swallow, items, k, k + 1, sc, p, results, r)
  {
  }

  /** What a loop turn does in terms of the entries. */
  lemma TurnFacts(env: Env, steps: Level, swallow: bool, items: seq<Value>, k: nat, sc: Scope, p: Pos,
                  results: seq<Value>, bytes: nat)
    requires k < |items| && bytes == EncodedBytes(env, results) <= env.outputCap
    ensures var it := Iteration(env, steps, items, k, sc, p);
            var results'' := results + Entries(env, steps, items, k, k + 1, sc, p);
            match LoopTurn(env, steps, swallow, it, results, bytes)
            case Next(results', bytes') =>
              results' == results'' && bytes' == EncodedBytes(env, results') <= env.outputCap && GoesOn(it, swallow)
            case Halt(end, out) =>
              if out.Some? then
                out.value == results'' && EncodedBytes(env, results'') <= env.outputCap && end.Finished? && it.end == end
              else end.Failed?
  {
    hide Iteration, Outputs, Entries, EncodedBytes;
    OneEntry(env, steps, items, k, sc, p, results);
    assert results + [] == results;
  }

  lemma OneMore(env: Env, steps: Level, swallow: bool, items: seq<Value>, k: nat, n: nat, sc: Scope, p: Pos,
                results: seq<Value>, results': seq<Value>, rest: LoopRes, r: LoopRes)
    requires k < |items| && results' == results + Entries(env, steps, items, k, k + 1, sc, p)
    requires GoesOn(Iteration(env, steps, items, k, sc, p), swallow)
    requires Complete(env, steps, swallow, items, k + 1, n, sc, p, results', rest)
    requires r.out == rest.out && r.end == rest.end
    ensures Complete(env, steps, swallow, items, k, n, sc, p, results, r)
  {
    hide Iteration, Outputs, EncodedBytes;
    var first := Entries(env, steps, items, k, k + 1, sc, p);
    var more := Entries(env, steps, items, k + 1, n, sc, p);
    assert Entries(env, steps, items, k + 1, k + 1, sc, p) == [];
    assert first + more == Entries(env, steps, items, k, n, sc, p);
    assert results' + more == results + (first + more);
  }

  /** A for_each writes its output just when it does not fail and its items resolve to a list: then
      the output is every iteration's entry in item order, within the cap, and covers all items
      unless a finish ended the loop. */
  lemma LoopOutput(env: Env, lvl: Level, j: nat, sc: Scope, chain: seq<string>, p: Pos) returns (n: nat)
    requires j < |lvl| && lvl[j].body.ForEach? && !env.cancelled(p + [0])
    ensures var s, r := lvl[j], RunStep(env, lvl, j, sc, chain, p);
            var v := Resolve(sc, s.body.itemsFrom);
            if r.end.Failed? || v.Err? || !v.value.Arr? || |v.value.items| > MAX_ITEMS then
              r.sc == sc && (r.end.Failed? || (r.end == Done && s.continueOnError))
            else
              && n <= |v.value.items|
              && var out := Entries(env, s.body.steps, v.value.items, 0, n, sc, p + [4]);
                 && r.sc == sc[s.id := Arr(out)]
                 && EncodedBytes(env, out) <= env.outputCap
                 && (n < |v.value.items| ==> r.end.Finished?)
  {
    hide RunLoop, Resolve, Entries, EncodedBytes;
    n := 0;
    var s := lvl[j];
    var v := Resolve(sc, s.body.itemsFrom);
    if v.Ok? && v.value.Arr? && |v.value.items| <= MAX_ITEMS {
      assert EncodedBytes(env, []) == 0 by { NoBytes(env); }
      n := LoopCompleteOrAbsent(env, s.body.steps, s.continueOnError, v.value.items, 0, sc, p + [4], [], 0);
      var r := RunLoop(env, s.body.steps, s.continueOnError, v.value.items, 0, sc, p + [4], [], 0);
      if r.out.Some? {
        var out := Entries(env, s.body.steps, v.value.items, 0, n, sc, p + [4]);
        assert [] + out == out;
      }
    }
  }

  lemma NoBytes(env: Env)
    ensures EncodedBytes(env, []) == 0
  {
  }

  // ----- parallel -----

  /** The value a merge ends with for an id: the last child's that has one JSON can encode. */
  function LastOutput(env: Env, lvl: Level, kids: seq<Res>, id: string): Option<Value> {
    if kids == [] then None
    else
      var out := Outputs(kids[|kids| - 1].sc, lvl);
      if id in out && env.marshal(out[id]).Some? then Some(out[id]) else LastOutput(env, lvl, kids[..|kids| - 1], id)
  }

  function KeyBytes(env: Env, out: Scope, keys: seq<string>): nat {
    if keys == [] then 0
    else
      var size := if keys[0] in out then env.marshal(out[keys[0]]) else None;
      (if size.Some? then size.value else 0) + KeyBytes(env, out, keys[1..])
  }

  /** The encoded size of all outputs of all children. */
  function GroupBytes(env: Env, lvl: Level, kids: seq<Res>): nat {
    if kids == [] then 0
    else
      GroupBytes(env, lvl, kids[..|kids| - 1]) + KeyBytes(env, Outputs(kids[|kids| - 1].sc, lvl), DistinctIds(lvl))
  }

  predicate Encodable(env: Env, out: Scope, id: string) { id in out && env.marshal(out[id]).Some? }

  lemma {:induction false} MergeKeysExact(env: Env, m: Merge, out: Scope, keys: seq<string>)
    requires !m.over && m.bytes <= env.outputCap
    ensures var r := MergeKeys(env, m, out, keys);
            && (r.over <==> m.bytes + KeyBytes(env, out, keys) > env.outputCap)
            && (!r.over ==>
                  && r.bytes == m.bytes + KeyBytes(env, out, keys)
                  && (forall id :: id in r.out <==> id in m.out || (id in keys && Encodable(env, out, id)))
                  && forall id :: id in r.out ==>
                       r.out[id] == if id in keys && Encodable(env, out, id) then out[id] else m.out[id])
    decreases |keys|
  {
    if keys != [] {
      assert forall id :: id in keys <==> id == keys[0] || id in keys[1..];
      if !Encodable(env, out, keys[0]) {
        MergeKeysExact(env, m, out, keys[1..]);
      } else {
        var n := env.marshal(out[keys[0]]).value;
        if m.bytes + n <= env.outputCap {
          MergeKeysExact(env, Merge(m.out[keys[0] := out[keys[0]]], m.bytes + n, false), out, keys[1..]);
        }
      }
    }
  }

  lemma {:induction false} DistinctIdsExact(lvl: Level)
    ensures forall id :: id in DistinctIds(lvl) <==> id in IdSet(lvl)
    ensures forall i, j :: 0 <= i < j < |DistinctIds(lvl)| ==> DistinctIds(lvl)[i] != DistinctIds(lvl)[j]
    decreases |lvl|
  {
    if lvl != [] {
      var n := |lvl| - 1;
      DistinctIdsExact(lvl[..n]);
      assert IdSet(lvl) == IdSet(lvl[..n]) + {lvl[n].id} by {
        assert forall i :: 0 <= i < n ==> lvl[..n][i] == lvl[i];
      }
    }
  }

  lemma OverStays(env: Env, m: Merge, out: Scope, keys: seq<string>)
    requires m.over
    ensures MergeKeys(env, m, out, keys) == m
  {
  }

  /** The merge is over the cap exactly when the children's outputs are, whatever order their keys
      come in; otherwise it holds every child's outputs. */
  lemma {:induction false} MergeExact(env: Env, lvl: Level, kids: seq<Res>)
    ensures var m := MergeAll(env, lvl, kids);
            && (m.over <==> GroupBytes(env, lvl, kids) > env.outputCap)
            && (!m.over ==>
                  && m.bytes == GroupBytes(env, lvl, kids)
                  && (forall id :: id in m.out <==> LastOutput(env, lvl, kids, id).Some?)
                  && forall id :: id in m.out ==> Some(m.out[id]) == LastOutput(env, lvl, kids, id))
    decreases |kids|
  {
    hide DistinctIds, MergeKeys, KeyBytes;
    if kids != [] {
      var n := |kids| - 1;
      MergeExact(env, lvl, kids[..n]);
      var before := MergeAll(env, lvl, kids[..n]);
      var out := Outputs(kids[n].sc, lvl);
      if before.over {
        OverStays(env, before, out, DistinctIds(lvl));
      } else {
        MergeKeysExact(env, before, out, DistinctIds(lvl));
        DistinctIdsExact(lvl);
        assert forall id :: id in out ==> id in DistinctIds(lvl);
      }
    }
  }

  /** A parallel group exposes every child's encodable outputs or, failing, none. */
  lemma GroupOutput(env: Env, lvl: Level, j: nat, sc: Scope, chain: seq<string>, p: Pos)
    requires j < |lvl| && lvl[j].body.Parallel? && !env.cancelled(p + [0])
    ensures var s, r := lvl[j], RunStep(env, lvl, j, sc, chain, p);
            var kids := RunGroup(env, s.body.steps, Roots(s.body.steps, |s.body.steps|), 0, sc, p + [5]);
            if r.end.Failed? then r.sc == sc
            else
              && GroupBytes(env, s.body.steps, kids) <= env.outputCap
              && exists m: Scope ::
                   && r.sc == sc[s.id := Obj(m)]
                   && (forall id :: id in m <==> LastOutput(env, s.body.steps, kids, id).Some?)
                   && forall id :: id in m ==> Some(m[id]) == LastOutput(env, s.body.steps, kids, id)
  {
    hide RunGroup, Roots, MergeAll, GroupRecords, GroupEvents, GroupError, GroupBytes, LastOutput;
    var steps := lvl[j].body.steps;
    var kids := RunGroup(env, steps, Roots(steps, |steps|), 0, sc, p + [5]);
    MergeExact(env, steps, kids);
    FinishNeverFails(kids);
  }

  lemma {:induction false} FinishNeverFails(kids: seq<Res>)
    ensures !GroupFinish(kids).Failed?
  {
    if kids != [] { FinishNeverFails(kids[1..]); }
  }
}
