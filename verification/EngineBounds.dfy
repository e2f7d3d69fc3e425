/** What every run keeps, valid or not: executor calls within the ceilings, a bounded number of
    retained log nodes, and mandatory aborts that end the run. */
module EngineBounds {
  import opened Wrappers
  import opened Selector
  import opened Templates
  import opened Definitions
  import opened Scoping
  import opened Engines
  import opened EngineStates

  // ----- tallies over the events of a run -----

  function CallsOf(e: Event, k: Kind): nat { if e == Called(k) then 1 else 0 }
  function GrantsOf(e: Event, k: Kind): nat { if e == Charged(k, true) then 1 else 0 }

  function AdmittedBy(e: Event): nat {
    if e.Recorded? && e.kept <= |e.sizes| then Total(e.sizes[..e.kept]) + (if e.marked then 1 else 0) else 0
  }

  function Calls(ev: seq<Event>, k: Kind): nat { if ev == [] then 0 else CallsOf(ev[0], k) + Calls(ev[1..], k) }
  function Grants(ev: seq<Event>, k: Kind): nat { if ev == [] then 0 else GrantsOf(ev[0], k) + Grants(ev[1..], k) }
  function Admitted(ev: seq<Event>): nat { if ev == [] then 0 else AdmittedBy(ev[0]) + Admitted(ev[1..]) }

  lemma {:induction false} TallyAppend(a: seq<Event>, b: seq<Event>, k: Kind)
    ensures Calls(a + b, k) == Calls(a, k) + Calls(b, k)
    ensures Grants(a + b, k) == Grants(a, k) + Grants(b, k)
    ensures Admitted(a + b) == Admitted(a) + Admitted(b)
  {
    if a == [] {
      assert a + b == b;
    } else {
      assert (a + b)[1..] == a[1..] + b;
      TallyAppend(a[1..], b, k);
    }
  }

  lemma TallyOne(e: Event, k: Kind)
    ensures Calls([e], k) == CallsOf(e, k) && Grants([e], k) == GrantsOf(e, k) && Admitted([e]) == AdmittedBy(e)
  {
  }

  lemma TallyNone(k: Kind)
    ensures Calls([], k) == Grants([], k) == Admitted([]) == 0
  {
  }

  /** The nodes a log tree retains under for_each and parallel logs. */
  function Under(l: Log): nat
    decreases l, 0
  {
    if l.recorded then NodesOf(l.children) else UnderAll(l.children)
  }

  function UnderAll(logs: seq<Log>): nat
    decreases logs
  {
    if logs == [] then 0 else Under(logs[0]) + UnderAll(logs[1..])
  }

  lemma {:induction false} LogsAppend(a: seq<Log>, b: seq<Log>)
    ensures NodesOf(a + b) == NodesOf(a) + NodesOf(b)
    ensures UnderAll(a + b) == UnderAll(a) + UnderAll(b)
  {
    if a == [] {
      assert a + b == b;
    } else {
      assert (a + b)[1..] == a[1..] + b;
      LogsAppend(a[1..], b);
    }
  }

  /** Every call was charged for, and every retained node was admitted. */
  ghost predicate Paid(ev: seq<Event>, retained: nat) {
    (forall k :: Calls(ev, k) <= Grants(ev, k)) && retained <= Admitted(ev)
  }

  lemma PaidAppend(a: seq<Event>, m: nat, b: seq<Event>, n: nat)
    requires Paid(a, m) && Paid(b, n)
    ensures Paid(a + b, m + n)
  {
    forall k ensures Calls(a + b, k) <= Grants(a + b, k) { TallyAppend(a, b, k); }
    TallyAppend(a, b, ToolCall);
  }

  /** After a mandatory abort there is no call, and the abort is how the list ends. */
  ghost predicate Quiet(ev: seq<Event>, end: End) {
    forall i :: 0 <= i < |ev| && ev[i].Aborted? ==>
      && end.Failed? && IsAbort(end.err)
      && forall j :: i < j < |ev| ==> !ev[j].Called?
  }

  predicate NoParallel(lvl: Level)
    decreases lvl
  {
    forall i :: 0 <= i < |lvl| ==> !lvl[i].body.Parallel? && (lvl[i].body.ForEach? ==> NoParallel(lvl[i].body.steps))
  }

  // ----- leaves -----

  lemma {:induction false} OnlyLooks(env: Env, step: string, sc: Scope, t: string)
    ensures forall e :: e in TemplateLooks(step, sc, t) ==> e.Looked?
    decreases |t|
  {
    hide RootOf, Resolve, CutRef;
    var cut := CutRef(t);
    if cut.Cut? && Resolve(sc, cut.ref).Ok? { OnlyLooks(env, step, sc, cut.rest); }
  }

  lemma {:induction false} OnlyLooksAll(env: Env, step: string, sc: Scope, uses: seq<Use>, isTool: bool)
    ensures forall e :: e in LookAll(env, step, sc, uses, isTool).ev ==> e.Looked?
    decreases |uses|
  {
    hide Resolve, Expand, SingleRef, TemplateLooks;
    if uses != [] {
      if uses[0].Interpolated? { OnlyLooks(env, step, sc, uses[0].t); }
      OnlyLooksAll(env, step, sc, uses[1..], isTool);
    }
  }

  lemma {:induction false} LooksTally(ev: seq<Event>, k: Kind)
    requires forall e :: e in ev ==> e.Looked?
    ensures Calls(ev, k) == 0 && Grants(ev, k) == 0
  {
    if ev != [] {
      assert ev[0] in ev && forall e :: e in ev[1..] ==> e in ev;
      LooksTally(ev[1..], k);
    }
  }

  lemma DispatchPaid(env: Env, s: Step, sc: Scope, p: Pos)
    requires s.Leaf()
    ensures Paid(DispatchLeaf(env, s, sc, p).ev, 0)
    ensures forall e :: e in DispatchLeaf(env, s, sc, p).ev ==> !e.Aborted?
  {
    hide LookAll, UsesOf, Calls, Grants;
    var granted := env.granted(p);
    var charge := [Charged(KindOf(s), granted)];
    var looks := LookAll(env, s.id, sc, UsesOf(s), s.body.Tool?);
    OnlyLooksAll(env, s.id, sc, UsesOf(s), s.body.Tool?);
    var ev := DispatchLeaf(env, s, sc, p).ev;
    forall k ensures Calls(ev, k) <= Grants(ev, k) {
      LooksTally(looks.ev, k);
      TallyOne(charge[0], k);
      TallyOne(Called(KindOf(s)), k);
      TallyAppend(charge, looks.ev, k);
      TallyAppend(charge + looks.ev, [Called(KindOf(s))], k);
    }
  }

  lemma LeafPaid(env: Env, s: Step, sc: Scope, p: Pos)
    requires s.Leaf()
    ensures var r := RunLeaf(env, s, sc, p);
            Paid(r.ev, UnderAll(r.logs)) && Quiet(r.ev, r.end)
  {
    hide DispatchLeaf, Calls, Grants, Admitted;
    var d := DispatchLeaf(env, s, sc, p);
    DispatchPaid(env, s, sc, p);
    NotePaid(Aborted);
    PaidAppend(d.ev, 0, [Aborted], 0);
    assert UnderAll(Leaf(s)) == 0;
    assert forall i :: 0 <= i < |d.ev| ==> d.ev[i] in d.ev;
  }

  /** An event that is neither a call nor a charge. */
  lemma NotePaid(e: Event)
    requires !e.Called? && !e.Charged?
    ensures Paid([e], AdmittedBy(e))
  {
    forall k ensures Calls([e], k) <= Grants([e], k) { TallyOne(e, k); }
    TallyOne(e, ToolCall);
  }

  lemma NonePaid()
    ensures Paid([], 0)
  {
    forall k ensures Calls([], k) <= Grants([], k) { TallyNone(k); }
  }

  // ----- recordLogs -----

  lemma {:induction false} SizesTotal(logs: seq<Log>, k: nat)
    requires k <= |logs|
    ensures Total(Sizes(logs)[..k]) == NodesOf(logs[..k])
    decreases k
  {
    if k > 0 {
      SizesTotal(logs[1..], k - 1);
      assert Sizes(logs[1..]) == Sizes(logs)[1..];
      assert Sizes(logs)[..k][1..] == Sizes(logs)[1..][..k - 1];
      assert logs[..k][1..] == logs[1..][..k - 1];
    }
  }

  lemma RecordPaid(env: Env, logs: seq<Log>, p: Pos)
    ensures var kept := Record(env, logs, p);
            Paid([kept.ev], NodesOf(kept.logs)) && !kept.ev.Called? && !kept.ev.Aborted?
  {
    hide Nodes, NodesOf, Total, Admitted;
    var kept := Record(env, logs, p);
    NotePaid(kept.ev);
    var k := kept.ev.kept;
    SizesTotal(logs, k);
    var marker := if kept.ev.marked then [Log("_truncated", false, [])] else [];
    LogsAppend(logs[..k], marker);
    assert NodesOf(marker) == if kept.ev.marked then 1 else 0 by { MarkerNodes(); }
  }

  lemma MarkerNodes()
    ensures NodesOf([Log("_truncated", false, [])]) == 1 && NodesOf([]) == 0
  {
  }

  lemma {:induction false} GroupRecordsPaid(env: Env, kids: seq<Res>, p: Pos)
    ensures Paid(GroupRecords(env, kids, p).0, NodesOf(GroupRecords(env, kids, p).1))
    decreases |kids|
  {
    hide Record, Nodes, NodesOf, Calls, Grants, Admitted;
    MarkerNodes();
    if kids == [] {
      NonePaid();
    } else {
      var n := |kids| - 1;
      GroupRecordsPaid(env, kids[..n], p);
      var before := GroupRecords(env, kids[..n], p);
      var kept := Record(env, kids[n].logs, p + [n, 1]);
      RecordPaid(env, kids[n].logs, p + [n, 1]);
      PaidAppend(before.0, NodesOf(before.1), [kept.ev], NodesOf(kept.logs));
      LogsAppend(before.1, kept.logs);
    }
  }

  // ----- the interpreter -----

  /** The unconditional properties of a step's result. */
  ghost predicate Kept(r: Res, parallelFree: bool) {
    Paid(r.ev, UnderAll(r.logs)) && (parallelFree ==> Quiet(r.ev, r.end))
  }

  lemma QuietAppend(a: seq<Event>, b: seq<Event>, end: End)
    requires Quiet(a, Done) && Quiet(b, end)
    ensures Quiet(a + b, end)
  {
    var ab := a + b;
    assert forall i :: 0 <= i < |a| ==> !a[i].Aborted? && ab[i] == a[i];
    forall i | 0 <= i < |ab| && ab[i].Aborted?
      ensures end.Failed? && IsAbort(end.err) && forall j :: i < j < |ab| ==> !ab[j].Called?
    {
      assert b[i - |a|].Aborted?;
    }
  }

  lemma QuietPrefix(e: Event, ev: seq<Event>, end: End)
    requires Quiet(ev, end) && !e.Aborted?
    ensures Quiet([e] + ev, end)
  {
    assert Quiet([e], Done);
    QuietAppend([e], ev, end);
  }

  lemma QuietSuffix(ev: seq<Event>, e: Event, end: End)
    requires Quiet(ev, end) && !e.Aborted? && !e.Called?
    ensures Quiet(ev + [e], end)
  {
  }

  lemma {:induction false} StepKept(env: Env, lvl: Level, j: nat, sc: Scope, chain: seq<string>, p: Pos)
    requires j < |lvl|
    ensures Kept(RunStep(env, lvl, j, sc, chain, p), NoParallel(lvl))
    decreases lvl, IdSet(lvl) - ChainSet(chain), 0, 1
  {
    hide Paid, Quiet, RunLeaf;
    var s := lvl[j];
    NonePaid();
    assert UnderAll([]) == 0 && UnderAll(Leaf(s)) == 0;
    EmptyQuiet(if s.body.Finish? then Finished(s.body.status) else Failed(Ordinary));
    EmptyQuiet(Failed(Cancelled));
    if env.cancelled(p + [0]) {
    } else if s.body.Condition? {
      ConditionKept(env, lvl, j, sc, chain, p);
    } else if s.body.ForEach? {
      ForEachKept(env, lvl, j, sc, chain, p);
    } else if s.body.Parallel? {
      ParallelKept(env, lvl, j, sc, chain, p);
    } else if s.Leaf() {
      LeafPaid(env, s, sc, p);
    }
  }

  lemma EmptyQuiet(end: End)
    ensures Quiet([], end)
  {
  }

  lemma NoteKept(e: Event, end: End)
    requires e.Looked? || e.CycleHit? || e.GaveUp?
    ensures Paid([e], 0) && Quiet([e], end)
  {
    NotePaid(e);
  }

  lemma {:induction false} ConditionKept(env: Env, lvl: Level, j: nat, sc: Scope, chain: seq<string>, p: Pos)
    requires j < |lvl| && lvl[j].body.Condition? && !env.cancelled(p + [0])
    ensures Kept(RunStep(env, lvl, j, sc, chain, p), NoParallel(lvl))
    decreases lvl, IdSet(lvl) - ChainSet(chain), 0, 0
  {
    hide Paid, Quiet, RunList, RootOf, Dispatched, NoParallel;
    var s := lvl[j];
    assert UnderAll(Leaf(s)) == 0;
    var look := if s.body.input.Some? then [Look(s.id, sc, s.body.input.value)] else [];
    var stop := if s.continueOnError then Done else Failed(Ordinary);
    NonePaid();
    EmptyQuiet(stop);
    NoteKept(CycleHit(s.id), Failed(Ordinary));
    if s.body.input.Some? { NoteKept(look[0], stop); }
    var verdict := if s.body.input.Some? then env.verdict(p) else EvalError;
    if s.id !in chain && verdict.Holds? {
      assert s.id in IdSet(lvl);
      ChainGrows(chain, s.id);
      var todo := Dispatched(lvl, if verdict.taken then s.body.thn else s.body.els);
      var r := RunList(env, lvl, todo, 0, sc, chain + [s.id], p + [3]);
      ListKept(env, lvl, todo, 0, sc, chain + [s.id], p + [3]);
      PaidAppend(look, 0, r.ev, UnderAll(r.logs));
      OneLog(s.id, r.logs);
      if NoParallel(lvl) { QuietPrefix(look[0], r.ev, r.end); }
    }
  }

  lemma OneLog(id: string, logs: seq<Log>)
    ensures UnderAll([Log(id, false, logs)]) == UnderAll(logs)
    ensures UnderAll([Log(id, true, logs)]) == NodesOf(logs)
  {
    assert [Log(id, false, logs)][1..] == [];
    assert [Log(id, true, logs)][1..] == [];
  }

  lemma {:induction false} ListKept(env: Env, lvl: Level, todo: seq<nat>, k: nat, sc: Scope, chain: seq<string>, p: Pos)
    requires k <= |todo| && forall i :: i in todo ==> i < |lvl|
    ensures Kept(RunList(env, lvl, todo, k, sc, chain, p), NoParallel(lvl))
    decreases lvl, IdSet(lvl) - ChainSet(chain), 1, |todo| - k
  {
    hide Paid, Quiet, RunStep, NoParallel, ChainSet, IdSet;
    NonePaid();
    EmptyQuiet(Done);
    if k < |todo| {
      assert todo[k] in todo;
      StepKept(env, lvl, todo[k], sc, chain, p + [k]);
      var r := RunStep(env, lvl, todo[k], sc, chain, p + [k]);
      if r.end == Done {
        ListKept(env, lvl, todo, k + 1, r.sc, chain, p);
        var rest := RunList(env, lvl, todo, k + 1, r.sc, chain, p);
        PaidAppend(r.ev, UnderAll(r.logs), rest.ev, UnderAll(rest.logs));
        LogsAppend(r.logs, rest.logs);
        if NoParallel(lvl) { QuietAppend(r.ev, rest.ev, rest.end); }
      }
    }
  }

  ghost predicate LoopKept(r: LoopRes, parallelFree: bool) {
    Paid(r.ev, NodesOf(r.logs)) && (parallelFree ==> Quiet(r.ev, r.end))
  }

  lemma {:induction false} LoopIsKept(env: Env, steps: Level, swallow: bool, items: seq<Value>, k: nat, sc: Scope, p: Pos,
                                      results: seq<Value>, bytes: nat)
    requires k <= |items|
    ensures LoopKept(RunLoop(env, steps, swallow, items, k, sc, p, results, bytes), NoParallel(steps))
    decreases steps, IdSet(steps) - ChainSet([]), 3, |items| - k
  {
    hide Paid, Quiet, RunLevel, NoParallel, ChainSet, IdSet, LoopTurn, Record;
    NonePaid();
    MarkerNodes();
    EmptyQuiet(Done);
    EmptyQuiet(Failed(Cancelled));
    if k < |items| && !env.cancelled(p + [k, 0]) {
      var r := RunLevel(env, steps, IterScope(sc, items[k], k), p + [k, 1]);
      LevelKept(env, steps, IterScope(sc, items[k], k), p + [k, 1]);
      var kept := Record(env, r.logs, p + [k, 2]);
      RecordPaid(env, r.logs, p + [k, 2]);
      PaidLess(r.ev, UnderAll(r.logs));
      PaidAppend(r.ev, 0, [kept.ev], NodesOf(kept.logs));
      if NoParallel(steps) { TurnQuiet(env, steps, swallow, r, kept.ev, results, bytes); }
      match LoopTurn(env, steps, swallow, r, results, bytes) {
        case Halt(_, _) =>
        case Next(results', bytes') =>
          var rest := RunLoop(env, steps, swallow, items, k + 1, sc, p, results', bytes');
          LoopIsKept(env, steps, swallow, items, k + 1, sc, p, results', bytes');
          PaidAppend(r.ev + [kept.ev], NodesOf(kept.logs), rest.ev, NodesOf(rest.logs));
          LogsAppend(kept.logs, rest.logs);
          if NoParallel(steps) { QuietAppend(r.ev + [kept.ev], rest.ev, rest.end); }
      }
    }
  }

  /** An abort inside an iteration ends the loop with that abort. */
  lemma TurnQuiet(env: Env, steps: Level, swallow: bool, r: Res, e: Event, results: seq<Value>, bytes: nat)
    requires Quiet(r.ev, r.end) && !e.Aborted? && !e.Called?
    ensures match LoopTurn(env, steps, swallow, r, results, bytes)
            case Halt(end, _) => Quiet(r.ev + [e], end)
            case Next(_, _) => Quiet(r.ev + [e], Done)
  {
    hide Quiet, Outputs;
    IterationQuiet(r, e);
  }

  lemma PaidLess(ev: seq<Event>, n: nat)
    requires Paid(ev, n)
    ensures Paid(ev, 0)
  {
  }

  /** An iteration that did not abort holds no abort, so any end is consistent with its events. */
  lemma IterationQuiet(r: Res, e: Event)
    requires Quiet(r.ev, r.end) && !e.Aborted? && !e.Called?
    ensures Quiet(r.ev + [e], r.end)
    ensures !(r.end.Failed? && IsAbort(r.end.err)) ==> forall end: End :: Quiet(r.ev + [e], end)
  {
    QuietSuffix(r.ev, e, r.end);
    if !(r.end.Failed? && IsAbort(r.end.err)) {
      assert forall i :: 0 <= i < |r.ev| ==> !r.ev[i].Aborted?;
    }
  }

  lemma {:induction false} LevelKept(env: Env, lvl: Level, sc: Scope, p: Pos)
    ensures Kept(RunLevel(env, lvl, sc, p), NoParallel(lvl))
    decreases lvl, IdSet(lvl) - ChainSet([]), 2, 0
  {
    hide Kept, RunList, Roots, NoParallel;
    ListKept(env, lvl, Roots(lvl, |lvl|), 0, sc, [], p);
  }

  lemma {:induction false} ForEachKept(env: Env, lvl: Level, j: nat, sc: Scope, chain: seq<string>, p: Pos)
    requires j < |lvl| && lvl[j].body.ForEach? && !env.cancelled(p + [0])
    ensures Kept(RunStep(env, lvl, j, sc, chain, p), NoParallel(lvl))
    decreases lvl, IdSet(lvl) - ChainSet(chain), 0, 0
  {
    hide Paid, Quiet, RunLoop, Resolve, RootOf;
    var s := lvl[j];
    assert UnderAll(Leaf(s)) == 0;
    var look := Look(s.id, sc, s.body.itemsFrom);
    NoteKept(look, if s.continueOnError then Done else Failed(Ordinary));
    var v := Resolve(sc, s.body.itemsFrom);
    if v.Ok? && v.value.Arr? && |v.value.items| <= MAX_ITEMS {
      var r := RunLoop(env, s.body.steps, s.continueOnError, v.value.items, 0, sc, p + [4], [], 0);
      LoopIsKept(env, s.body.steps, s.continueOnError, v.value.items, 0, sc, p + [4], [], 0);
      PaidAppend([look], 0, r.ev, NodesOf(r.logs));
      OneLog(s.id, r.logs);
      if NoParallel(lvl) { QuietPrefix(look, r.ev, r.end); }
    } else {
      var gave := GaveUp(s.id);
      NoteKept(gave, Done);
      PaidAppend([look], 0, [gave], 0);
      QuietPrefix(look, [gave], Done);
    }
  }

  lemma {:induction false} GroupKept(env: Env, steps: Level, roots: seq<nat>, k: nat, sc: Scope, p: Pos)
    requires k <= |roots| && forall i :: i in roots ==> i < |steps|
    ensures Paid(GroupEvents(RunGroup(env, steps, roots, k, sc, p)), 0)
    decreases steps, IdSet(steps) - ChainSet([]), 2, |roots| - k
  {
    hide Paid, RunStep, ChainSet, IdSet;
    NonePaid();
    if k < |roots| {
      assert roots[k] in roots;
      var r := RunStep(env, steps, roots[k], sc, [], p + [k, 0]);
      StepKept(env, steps, roots[k], sc, [], p + [k, 0]);
      PaidLess(r.ev, UnderAll(r.logs));
      GroupKept(env, steps, roots, k + 1, sc, p);
      PaidAppend(r.ev, 0, GroupEvents(RunGroup(env, steps, roots, k + 1, sc, p)), 0);
    }
  }

  lemma {:induction false} ParallelKept(env: Env, lvl: Level, j: nat, sc: Scope, chain: seq<string>, p: Pos)
    requires j < |lvl| && lvl[j].body.Parallel? && !env.cancelled(p + [0])
    ensures Kept(RunStep(env, lvl, j, sc, chain, p), NoParallel(lvl))
    decreases lvl, IdSet(lvl) - ChainSet(chain), 0, 0
  {
    hide Paid, Quiet, RunGroup, GroupRecords, GroupEvents, GroupError, MergeAll, GroupFinish, Roots;
    var s := lvl[j];
    var steps := s.body.steps;
    var kids := RunGroup(env, steps, Roots(steps, |steps|), 0, sc, p + [5]);
    var records := GroupRecords(env, kids, p + [5]);
    GroupKept(env, steps, Roots(steps, |steps|), 0, sc, p + [5]);
    GroupRecordsPaid(env, kids, p + [5]);
    PaidAppend(GroupEvents(kids), 0, records.0, NodesOf(records.1));
    OneLog(s.id, records.1);
    assert !NoParallel(lvl);
  }

  // ----- the shared counters, under any interleaving -----

  /** Replays events against the shared state: the state after them, provided every answer in
      them is the one the state gives at that point. */
  function Replay(l: Limits, c: Counters, t: seq<Event>): Option<Counters>
    requires c.calls.Keys == {ToolCall, ModelCall, AgentRun}
    decreases |t|
  {
    if t == [] then Some(c)
    else
      match t[0]
      case Charged(k, granted) =>
        assert k.ToolCall? || k.ModelCall? || k.AgentRun?;
        var (c', g) := ChargeSpec(l, c, k);
        if g != granted then None else Replay(l, c', t[1..])
      case Recorded(sizes, kept, marked) =>
        AdmitFrame(l, c, sizes);
        var a := AdmitSpec(l, c, sizes);
        if a.kept != kept || a.marked != marked then None else Replay(l, a.counters, t[1..])
      case _ => Replay(l, c, t[1..])
  }

  lemma {:induction false} AdmitFrame(l: Limits, c: Counters, sizes: seq<nat>)
    ensures AdmitSpec(l, c, sizes).counters.calls == c.calls
    decreases |sizes|
  {
    if sizes != [] && c.recorded + sizes[0] <= l.maxStepLogs {
      AdmitFrame(l, c.(recorded := c.recorded + sizes[0]), sizes[1..]);
    }
  }

  lemma {:induction false} ReplayBounds(l: Limits, c: Counters, t: seq<Event>)
    requires WithinLimits(l, c) && Replay(l, c, t).Some?
    ensures var c' := Replay(l, c, t).value;
            && WithinLimits(l, c')
            && (forall k :: k in c.calls ==> k in c'.calls && c'.calls[k] == c.calls[k] + Grants(t, k))
            && c'.recorded == c.recorded + Admitted(t)
    decreases |t|
  {
    hide WithinLimits, AdmitSpec, Total;
    assert c.calls.Keys == {ToolCall, ModelCall, AgentRun} by { LimitsKeys(l, c); }
    if t != [] {
      match t[0] {
        case Charged(k, granted) =>
          ChargeKeeps(l, c, k);
          ReplayBounds(l, ChargeSpec(l, c, k).0, t[1..]);
        case Recorded(sizes, kept, marked) =>
          AdmitFrame(l, c, sizes);
          AdmitKeeps(l, c, sizes);
          ReplayBounds(l, AdmitSpec(l, c, sizes).counters, t[1..]);
        case _ => ReplayBounds(l, c, t[1..]);
      }
    }
  }

  lemma LimitsKeys(l: Limits, c: Counters)
    requires WithinLimits(l, c)
    ensures c.calls.Keys == {ToolCall, ModelCall, AgentRun}
  {
  }

  /** Taking one occurrence of an event out of two permutations leaves permutations. */
  lemma SameRest(a: seq<Event>, b: seq<Event>, i: nat)
    requires multiset(a) == multiset(b)
    requires a != [] && i < |b| && b[i] == a[0]
    ensures multiset(a[1..]) == multiset(b[..i] + b[i + 1..])
  {
    var rest := b[..i] + b[i + 1..];
    assert a == [a[0]] + a[1..];
    assert b == b[..i] + [b[i]] + b[i + 1..];
    assert multiset(b) == multiset(rest) + multiset([b[i]]);
    assert multiset(a) == multiset(a[1..]) + multiset([a[0]]);
    assert multiset(a[1..]) == multiset(a) - multiset([a[0]]);
  }

  lemma {:induction false} TallyPermutes(a: seq<Event>, b: seq<Event>, k: Kind)
    requires multiset(a) == multiset(b)
    ensures Calls(a, k) == Calls(b, k) && Grants(a, k) == Grants(b, k) && Admitted(a) == Admitted(b)
    decreases |a|
  {
    if a == [] {
      assert |b| == |multiset(b)| == |multiset(a)| == 0;
    } else {
      assert a[0] in multiset(b);
      var i :| 0 <= i < |b| && b[i] == a[0];
      var b' := b[..i] + b[i + 1..];
      assert b == b[..i] + ([b[i]] + b[i + 1..]);
      SameRest(a, b, i);
      TallyPermutes(a[1..], b', k);
      TallyAppend(b[..i], [b[i]] + b[i + 1..], k);
      TallyAppend([b[i]], b[i + 1..], k);
      TallyAppend(b[..i], b[i + 1..], k);
      TallyOne(b[i], k);
    }
  }

  /** However the events of a run are ordered by its interleaving, as long as every answer is the
      shared state's: each kind of executor call stays within a positive ceiling, and the nodes
      retained under for_each and parallel logs number at most one more than the step-log budget. */
  lemma BudgetsHold(env: Env, steps: Level, l: Limits, order: seq<Event>)
    requires multiset(order) == multiset(Run(env, steps).ev)
    requires Replay(l, ZERO, order).Some?
    ensures l.maxToolCalls > 0 ==> Calls(order, ToolCall) <= l.maxToolCalls
    ensures l.maxModelCalls > 0 ==> Calls(order, ModelCall) <= l.maxModelCalls
    ensures l.maxAgentRuns > 0 ==> Calls(order, AgentRun) <= l.maxAgentRuns
    ensures UnderAll(Run(env, steps).logs) <= l.maxStepLogs + 1
  {
    hide Run, Replay, Calls, Grants, Admitted;
    var r := Run(env, steps);
    RunKept(env, steps);
    ReplayBounds(l, ZERO, order);
    forall k: Kind ensures Ceiling(l, k) > 0 ==> Calls(order, k) <= Ceiling(l, k) {
      TallyPermutes(order, r.ev, k);
      assert k.ToolCall? || k.ModelCall? || k.AgentRun?;
      assert k in ZERO.calls;
    }
    TallyPermutes(order, r.ev, ToolCall);
    assert Ceiling(l, ToolCall) == l.maxToolCalls && Ceiling(l, ModelCall) == l.maxModelCalls;
  }

  lemma RunKept(env: Env, steps: Level)
    ensures Kept(Run(env, steps), NoParallel(steps))
  {
    hide Kept, RunLevel;
    LevelKept(env, steps, map[], []);
  }

  /** In a tree without parallel groups, once a leaf has hit a budget ceiling or a cancellation no
      executor is called again, and the run is recorded as failed or cancelled. */
  lemma AbortIsFinal(env: Env, steps: Level, i: nat, stopped: bool)
    requires NoParallel(steps)
    requires i < |Run(env, steps).ev| && Run(env, steps).ev[i].Aborted?
    ensures forall j :: i < j < |Run(env, steps).ev| ==> !Run(env, steps).ev[j].Called?
    ensures StatusOf(Run(env, steps).end, stopped) in {FailedRun, CancelledRun}
  {
    hide Run, NoParallel, Paid;
    RunKept(env, steps);
  }
}
