/** The interpreter: runs a definition's steps against a scope.

    Everything the engine does not decide itself comes from an `Env`: executor replies, condition
    verdicts, whether the context is done, whether a budget charge was granted and how many logs
    were kept. Each is an arbitrary function of the dynamic position of the question, so a
    statement about every `Env` covers every executor, and, since parallel children share nothing
    but those answers, every interleaving of them. */
module Engines {
  import opened Wrappers
  import opened Text
  import opened Selector
  import opened Templates
  import opened Definitions
  import opened Scoping

  datatype Kind = ToolCall | ModelCall | AgentRun

  datatype Err = Budget | Cancelled | Ordinary

  /** isAbort: a budget ceiling or a cancellation, which continue_on_error never swallows. */
  predicate IsAbort(e: Err) { e != Ordinary }

  datatype End = Done | Finished(status: string) | Failed(err: Err)

  /** A step log. The children of a `recorded` log went through recordLogs. */
  datatype Log = Log(step: string, recorded: bool, children: seq<Log>)

  datatype Event =
    | Looked(step: string, root: string, bound: bool)    // root "": the reference does not parse
    | CycleHit(step: string)
    | GaveUp(step: string)                               // a for_each swallowed its own items error
    | Charged(kind: Kind, granted: bool)
    | Called(kind: Kind)
    | Aborted
    | Recorded(sizes: seq<nat>, kept: nat, marked: bool) // one recordLogs call

  datatype Response = Raised(ctx: bool) | Refused(out: Value) | Replied(out: Value)

  datatype Verdict = EvalError | Holds(taken: bool)

  type Pos = seq<nat>

  datatype Env = Env(
    cancelled: Pos -> bool,
    granted: Pos -> bool,
    response: Pos -> Response,
    verdict: Pos -> Verdict,
    kept: Pos -> nat,
    marked: Pos -> bool,
    render: Render,
    marshal: Value -> Option<nat>,   // the length of the JSON encoding
    outputCap: nat)

  datatype Res = Res(ev: seq<Event>, sc: Scope, end: End, logs: seq<Log>)

  const MAX_ITEMS := 1000

  function ChainSet(chain: seq<string>): set<string> { set i | 0 <= i < |chain| :: chain[i] }

  /** The steps a level runs by itself: those no condition branches to. */
  function Roots(lvl: Level, n: nat): (r: seq<nat>)
    requires n <= |lvl|
    ensures forall i :: i in r ==> i < n && lvl[i].id !in Targets(lvl)
  {
    if n == 0 then []
    else Roots(lvl, n - 1) + if lvl[n - 1].id in Targets(lvl) then [] else [n - 1]
  }

  /** The indices a branch dispatches to; unknown ids are skipped. */
  function Dispatched(lvl: Level, branch: seq<string>): (r: seq<nat>)
    ensures forall i :: i in r ==> i < |lvl| && exists t :: t in branch && At(lvl, t) == Some(i)
  {
    if branch == [] then []
    else
      var at := At(lvl, branch[0]);
      var rest := Dispatched(lvl, branch[1..]);
      assert branch[0] in branch && forall t :: t in branch[1..] ==> t in branch;
      if at.None? then rest else [at.value] + rest
  }

  /** scope.outputs: the outputs of the given steps that are present. */
  function Outputs(sc: Scope, lvl: Level): Scope { map id | id in IdSet(lvl) && id in sc :: sc[id] }

  // ----- references at run time -----

  function Look(step: string, sc: Scope, ref: string): Event {
    Looked(step, RootOf(ref), RootOf(ref) in sc)
  }

  /** singleRef: the text is exactly one ${ref}. */
  function SingleRef(s: string): Option<string> {
    var t := TrimSpace(s);
    if |t| < 3 || t[..2] != "${" || t[|t| - 1] != '}' then None
    else
      var inner := t[2..|t| - 1];
      if Index(inner, "${") >= 0 || Index(inner, "}") >= 0 then None else Some(TrimSpace(inner))
  }

  /** The lookups expanding a template makes, up to the first that fails. */
  function TemplateLooks(step: string, sc: Scope, t: string): seq<Event>
    decreases |t|
  {
    match CutRef(t)
    case NoMore => []
    case Unclosed => [Looked(step, "", false)]
    case Cut(_, ref, rest) =>
      [Look(step, sc, ref)] + if Resolve(sc, ref).Ok? then TemplateLooks(step, sc, rest) else []
  }

  datatype Looks = Looks(ev: seq<Event>, ok: bool)

  /** resolve, resolveWith's string cases, expand and resolveWorkspace. */
  function LookUse(env: Env, step: string, sc: Scope, u: Use, isArg: bool): Looks {
    match u
    case Bare(ref) => Looks([Look(step, sc, ref)], Resolve(sc, ref).Ok?)
    case Workspace(ref) => Looks([Look(step, sc, ref)], Resolve(sc, ref).Ok? && Resolve(sc, ref).value.Str?)
    case Interpolated(t) =>
      var single := SingleRef(t);
      if isArg && single.Some?
      then Looks([Look(step, sc, single.value)], Resolve(sc, single.value).Ok?)
      else Looks(TemplateLooks(step, sc, t), Expand(sc, env.render, t).Ok?)
  }

  function LookAll(env: Env, step: string, sc: Scope, uses: seq<Use>, isTool: bool): Looks {
    if uses == [] then Looks([], true)
    else
      var first := LookUse(env, step, sc, uses[0], isTool);
      if !first.ok then first
      else
        var rest := LookAll(env, step, sc, uses[1..], isTool);
        Looks(first.ev + rest.ev, rest.ok)
  }

  // ----- leaves -----

  function KindOf(s: Step): Kind
    requires s.Leaf()
  {
    if s.body.Tool? then ToolCall else if s.body.Llm? then ModelCall else AgentRun
  }

  datatype Dispatch = Dispatch(ev: seq<Event>, outcome: Result<Response, Err>)

  /** dispatchLeaf: charge, resolve the arguments, call the executor. */
  function DispatchLeaf(env: Env, s: Step, sc: Scope, p: Pos): Dispatch
    requires s.Leaf()
  {
    var granted := env.granted(p);
    var charge := [Charged(KindOf(s), granted)];
    if !granted then Dispatch(charge, Err(Budget))
    else
      var args := s.body.Tool? && s.body.args.NotAnObject?;
      var looks := LookAll(env, s.id, sc, UsesOf(s), s.body.Tool?);
      if args then Dispatch(charge, Err(Ordinary))
      else if !looks.ok then Dispatch(charge + looks.ev, Err(Ordinary))
      else Dispatch(charge + looks.ev + [Called(KindOf(s))], Ok(env.response(p)))
  }

  function Leaf(s: Step): seq<Log> { [Log(s.id, false, [])] }

  /** runLeaf, and runStep's mapping of a failed leaf to an error. */
  function RunLeaf(env: Env, s: Step, sc: Scope, p: Pos): Res
    requires s.Leaf()
  {
    if env.cancelled(p + [1]) then Res([Aborted], sc, Failed(Cancelled), Leaf(s))
    else
      var d := DispatchLeaf(env, s, sc, p);
      if env.cancelled(p + [2]) then Res(d.ev + [Aborted], sc, Failed(Cancelled), Leaf(s))
      else
        match d.outcome
        case Err(Budget) => Res(d.ev + [Aborted], sc, Failed(Budget), Leaf(s))
        case Err(_) =>
          if s.continueOnError then Res(d.ev, sc[s.id := Null], Done, Leaf(s))
          else Res(d.ev, sc, Failed(Ordinary), Leaf(s))
        case Ok(Raised(ctx)) =>
          if s.continueOnError then Res(d.ev, sc[s.id := Null], Done, Leaf(s))
          else if ctx then Res(d.ev + [Aborted], sc, Failed(Cancelled), Leaf(s))
          else Res(d.ev, sc, Failed(Ordinary), Leaf(s))
        case Ok(Refused(out)) =>
          if s.continueOnError then Res(d.ev, sc[s.id := out], Done, Leaf(s))
          else Res(d.ev, sc, Failed(Ordinary), Leaf(s))
        case Ok(Replied(out)) => Res(d.ev, sc[s.id := out], Done, Leaf(s))
  }

  // ----- logs -----

  function Nodes(l: Log): nat
    decreases l, 0
  {
    1 + NodesOf(l.children)
  }

  function NodesOf(logs: seq<Log>): nat
    decreases logs
  {
    if logs == [] then 0 else Nodes(logs[0]) + NodesOf(logs[1..])
  }

  function Sizes(logs: seq<Log>): seq<nat> { seq(|logs|, i requires 0 <= i < |logs| => Nodes(logs[i])) }

  datatype Kept = Kept(ev: Event, logs: seq<Log>)

  /** recordLogs, with the outcome of its budget check as an answer of the environment. */
  function Record(env: Env, logs: seq<Log>, p: Pos): Kept {
    var k := if env.kept(p) < |logs| then env.kept(p) else |logs|;
    var marked := k < |logs| && env.marked(p);
    Kept(Recorded(Sizes(logs), k, marked),
         logs[..k] + if marked then [Log("_truncated", false, [])] else [])
  }

  // ----- parallel merging -----

  function DistinctIds(lvl: Level): seq<string> {
    if lvl == [] then []
    else
      var rest := DistinctIds(lvl[..|lvl| - 1]);
      if lvl[|lvl| - 1].id in rest then rest else rest + [lvl[|lvl| - 1].id]
  }

  datatype Merge = Merge(out: Scope, bytes: nat, over: bool)

  function MergeKeys(env: Env, m: Merge, out: Scope, keys: seq<string>): Merge
    decreases |keys|
  {
    if m.over || keys == [] then m
    else if keys[0] !in out || env.marshal(out[keys[0]]).None? then MergeKeys(env, m, out, keys[1..])
    else
      var n := env.marshal(out[keys[0]]).value;
      if m.bytes + n > env.outputCap then m.(over := true)
      else MergeKeys(env, Merge(m.out[keys[0] := out[keys[0]]], m.bytes + n, false), out, keys[1..])
  }

  function MergeAll(env: Env, lvl: Level, kids: seq<Res>): Merge {
    if kids == [] then Merge(map[], 0, false)
    else
      MergeKeys(env, MergeAll(env, lvl, kids[..|kids| - 1]), Outputs(kids[|kids| - 1].sc, lvl), DistinctIds(lvl))
  }

  /** The error a group reports: the first, unless a later one is not a cancellation. */
  function GroupError(kids: seq<Res>, swallow: bool): Option<Err> {
    if kids == [] then None
    else
      var before := GroupError(kids[..|kids| - 1], swallow);
      var end := kids[|kids| - 1].end;
      if !end.Failed? || (swallow && !IsAbort(end.err)) then before
      else if before.None? || (before.value == Cancelled && end.err != Cancelled) then Some(end.err)
      else before
  }

  function GroupFinish(kids: seq<Res>): End {
    if kids == [] then Done
    else if kids[0].end.Finished? then kids[0].end
    else GroupFinish(kids[1..])
  }

  function GroupEvents(kids: seq<Res>): seq<Event> {
    if kids == [] then [] else kids[0].ev + GroupEvents(kids[1..])
  }

  function GroupRecords(env: Env, kids: seq<Res>, p: Pos): (r: (seq<Event>, seq<Log>)) {
    if kids == [] then ([], [])
    else
      var n := |kids| - 1;
      var (ev, logs) := GroupRecords(env, kids[..n], p);
      var kept := Record(env, kids[n].logs, p + [n, 1]);
      (ev + [kept.ev], logs + kept.logs)
  }

  // ----- the interpreter -----

  function RunStep(env: Env, lvl: Level, j: nat, sc: Scope, chain: seq<string>, p: Pos): Res
    requires j < |lvl|
    decreases lvl, IdSet(lvl) - ChainSet(chain), 0, 0
  {
    var s := lvl[j];
    if env.cancelled(p + [0]) then Res([], sc, Failed(Cancelled), [])
    else
      match s.body
      case Condition(input, thn, els) =>
        if s.id in chain then Res([CycleHit(s.id)], sc, Failed(Ordinary), Leaf(s))
        else
          var look := if input.Some? then [Look(s.id, sc, input.value)] else [];
          var verdict := if input.Some? then env.verdict(p) else EvalError;
          if verdict.EvalError? then
            Res(look, sc, if s.continueOnError then Done else Failed(Ordinary), Leaf(s))
          else
            assert s.id in IdSet(lvl);
            assert s.id !in ChainSet(chain) && s.id in ChainSet(chain + [s.id]) by { ChainGrows(chain, s.id); }
            ChainGrows(chain, s.id);
            var r := RunList(env, lvl, Dispatched(lvl, if verdict.taken then thn else els), 0,
                             sc, chain + [s.id], p + [3]);
            Res(look + r.ev, r.sc, r.end, [Log(s.id, false, r.logs)])
      case Finish(status) => Res([], sc, Finished(status), Leaf(s))
      case ForEach(itemsFrom, steps) =>
        var look := [Look(s.id, sc, itemsFrom)];
        var v := Resolve(sc, itemsFrom);
        if v.Err? || !v.value.Arr? || |v.value.items| > MAX_ITEMS then
          if s.continueOnError then Res(look + [GaveUp(s.id)], sc, Done, Leaf(s))
          else Res(look, sc, Failed(Ordinary), Leaf(s))
        else
          var r := RunLoop(env, steps, s.continueOnError, v.value.items, 0, sc, p + [4], [], 0);
          Res(look + r.ev, if r.out.Some? then sc[s.id := Arr(r.out.value)] else sc, r.end,
              [Log(s.id, true, r.logs)])
      case Parallel(steps) =>
        var kids := RunGroup(env, steps, Roots(steps, |steps|), 0, sc, p + [5]);
        var records := GroupRecords(env, kids, p + [5]);
        var ev, log := GroupEvents(kids) + records.0, [Log(s.id, true, records.1)];
        var err := GroupError(kids, s.continueOnError);
        var merged := MergeAll(env, steps, kids);
        if err.Some? && !(err.value == Cancelled && !env.cancelled(p + [6])) then Res(ev, sc, Failed(err.value), log)
        else if merged.over then Res(ev, sc, Failed(Ordinary), log)
        else Res(ev, sc[s.id := Obj(merged.out)], GroupFinish(kids), log)
      case Unknown => Res([], sc, Failed(Ordinary), [])
      case _ => RunLeaf(env, s, sc, p)
  }

  /** Runs the steps `todo[k..]` of a level in order, stopping at an error or a finish. */
  function RunList(env: Env, lvl: Level, todo: seq<nat>, k: nat, sc: Scope, chain: seq<string>, p: Pos): Res
    requires k <= |todo| && forall i :: i in todo ==> i < |lvl|
    decreases lvl, IdSet(lvl) - ChainSet(chain), 1, |todo| - k
  {
    if k == |todo| then Res([], sc, Done, [])
    else
      assert todo[k] in todo;
      var r := RunStep(env, lvl, todo[k], sc, chain, p + [k]);
      if r.end != Done then r
      else
        var rest := RunList(env, lvl, todo, k + 1, r.sc, chain, p);
        Res(r.ev + rest.ev, rest.sc, rest.end, r.logs + rest.logs)
  }

  /** execLevel */
  function RunLevel(env: Env, lvl: Level, sc: Scope, p: Pos): Res
    decreases lvl, IdSet(lvl) - ChainSet([]), 2, 0
  {
    RunList(env, lvl, Roots(lvl, |lvl|), 0, sc, [], p)
  }

  datatype LoopRes = LoopRes(ev: seq<Event>, logs: seq<Log>, end: End, out: Option<seq<Value>>)

  function IterScope(sc: Scope, item: Value, k: nat): Scope { sc["item" := item]["index" := Num(k as real)] }

  datatype Turn = Halt(end: End, out: Option<seq<Value>>) | Next(results: seq<Value>, bytes: nat)

  /** What an iteration that ended as `r` does to its loop. */
  function LoopTurn(env: Env, steps: Level, swallow: bool, r: Res, results: seq<Value>, bytes: nat): Turn {
    var out := Obj(Outputs(r.sc, steps));
    var size := env.marshal(out);
    if r.end.Failed? && IsAbort(r.end.err) then Halt(r.end, None)
    else if size.Some? && bytes + size.value > env.outputCap then Halt(Failed(Ordinary), None)
    else
      var results' := if size.Some? then results + [out] else results;
      if r.end.Failed? && !swallow then Halt(r.end, None)
      else if r.end.Finished? then Halt(r.end, Some(results'))
      else Next(results', if size.Some? then bytes + size.value else bytes)
  }

  /** The iterations of a for_each from the k-th, `results` holding the entries so far. */
  function RunLoop(env: Env, steps: Level, swallow: bool, items: seq<Value>, k: nat, sc: Scope, p: Pos,
                   results: seq<Value>, bytes: nat): LoopRes
    requires k <= |items|
    decreases steps, IdSet(steps) - ChainSet([]), 3, |items| - k
  {
    if k == |items| then LoopRes([], [], Done, Some(results))
    else if env.cancelled(p + [k, 0]) then LoopRes([], [], Failed(Cancelled), None)
    else
      var r := RunLevel(env, steps, IterScope(sc, items[k], k), p + [k, 1]);
      var kept := Record(env, r.logs, p + [k, 2]);
      var ev := r.ev + [kept.ev];
      match LoopTurn(env, steps, swallow, r, results, bytes)
      case Halt(end, out) => LoopRes(ev, kept.logs, end, out)
      case Next(results', bytes') =>
        var rest := RunLoop(env, steps, swallow, items, k + 1, sc, p, results', bytes');
        LoopRes(ev + rest.ev, kept.logs + rest.logs, rest.end, rest.out)
  }

  /** The children of a parallel group from the k-th root; each has its own copy of the scope. */
  function RunGroup(env: Env, steps: Level, roots: seq<nat>, k: nat, sc: Scope, p: Pos): (kids: seq<Res>)
    requires k <= |roots| && forall i :: i in roots ==> i < |steps|
    ensures |kids| == |roots| - k
    decreases steps, IdSet(steps) - ChainSet([]), 2, |roots| - k
  {
    if k == |roots| then []
    else
      assert roots[k] in roots;
      [RunStep(env, steps, roots[k], sc, [], p + [k, 0])] + RunGroup(env, steps, roots, k + 1, sc, p)
  }

  lemma ChainGrows(chain: seq<string>, id: string)
    ensures ChainSet(chain + [id]) == ChainSet(chain) + {id}
    ensures id in ChainSet(chain) <==> id in chain
  {
    assert forall i :: 0 <= i < |chain| ==> (chain + [id])[i] == chain[i];
    assert (chain + [id])[|chain|] == id;
  }

  // ----- a whole run -----

  datatype Status = Success | Skipped | FailedRun | CancelledRun

  /** Run's terminal status; `stopped` says the parent context was cancelled. */
  function StatusOf(end: End, stopped: bool): Status {
    if stopped then CancelledRun
    else
      match end
      case Failed(_) => FailedRun
      case Finished(status) =>
        if status == "skipped" then Skipped else if status == "failed" then FailedRun else Success
      case Done => Success
  }

  function Run(env: Env, steps: Level): Res { RunLevel(env, steps, map[], []) }
}
