/** Scope soundness: the engine, running a definition the validator accepts, never meets a
    reference that does not parse, never enters a branch cycle, and finds the root of every
    reference bound, except for the output of a for_each that swallowed its own items error. */
module Soundness {
  import opened Wrappers
  import opened Text
  import opened Selector
  import opened Templates
  import opened Definitions
  import opened Scoping
  import opened Validators
  import opened Engines

  /** The for_each steps that may end without writing an output. */
  function SwallowingLoops(lvl: Level): set<string>
    decreases lvl
  {
    if lvl == [] then {}
    else
      var s := lvl[0];
      (if s.body.ForEach? && s.continueOnError then {s.id} else {})
      + (if s.Children() == [] then {} else SwallowingLoops(s.Children()))
      + SwallowingLoops(lvl[1..])
  }

  lemma {:induction false} LoopsOf(lvl: Level, j: nat)
    requires j < |lvl|
    ensures lvl[j].body.ForEach? && lvl[j].continueOnError ==> lvl[j].id in SwallowingLoops(lvl)
    ensures lvl[j].Children() != [] ==> SwallowingLoops(lvl[j].Children()) <= SwallowingLoops(lvl)
    decreases |lvl|
  {
    if j > 0 {
      assert lvl[1..][j - 1] == lvl[j];
      LoopsOf(lvl[1..], j - 1);
    }
  }

  // ----- the roots a definition names -----

  function UseRoots(u: Use): set<string> {
    match u
    case Bare(ref) => {RootOf(ref)}
    case Workspace(ref) => {RootOf(ref)}
    case Interpolated(t) => if Refs(t).None? then {} else set ref | ref in Refs(t).value :: RootOf(ref)
  }

  function NamedBy(uses: seq<Use>): set<string> {
    if uses == [] then {} else UseRoots(uses[0]) + NamedBy(uses[1..])
  }

  /** The roots of all references of a definition. */
  function NamedRoots(lvl: Level): set<string>
    decreases lvl
  {
    if lvl == [] then {}
    else
      var s := lvl[0];
      NamedBy(UsesOf(s)) + (if s.Children() == [] then {} else NamedRoots(s.Children())) + NamedRoots(lvl[1..])
  }

  lemma {:induction false} UseIsNamed(uses: seq<Use>, u: Use)
    requires u in uses
    ensures UseRoots(u) <= NamedBy(uses)
    decreases |uses|
  {
    if uses[0] != u { UseIsNamed(uses[1..], u); }
  }

  lemma {:induction false} NamesOf(lvl: Level, j: nat)
    requires j < |lvl|
    ensures forall u :: u in UsesOf(lvl[j]) ==> UseRoots(u) <= NamedRoots(lvl)
    ensures lvl[j].Children() != [] ==> NamedRoots(lvl[j].Children()) <= NamedRoots(lvl)
    decreases |lvl|
  {
    hide UsesOf, UseRoots;
    if j > 0 {
      assert lvl[1..][j - 1] == lvl[j];
      NamesOf(lvl[1..], j - 1);
    } else {
      forall u | u in UsesOf(lvl[0]) ensures UseRoots(u) <= NamedRoots(lvl) { UseIsNamed(UsesOf(lvl[0]), u); }
    }
  }

  /** The for_each steps that may give up without an output, the roots the definition names, and the
      steps that did give up. */
  datatype Names = Names(loops: set<string>, named: set<string>, gave: set<string>)

  ghost predicate SoundEvent(e: Event, ns: Names) {
    && !e.CycleHit?
    && (e.Looked? ==> e.root != "" && e.root in ns.named && (e.bound || e.root in ns.gave))
    && (e.GaveUp? ==> e.step in ns.loops)
  }

  ghost predicate SoundEvents(ev: seq<Event>, ns: Names) {
    forall e :: e in ev ==> SoundEvent(e, ns)
  }

  /** The loops that give up along the events are among the ones that did. */
  ghost predicate GaveIn(ev: seq<Event>, ns: Names) { forall e :: e in ev && e.GaveUp? ==> e.step in ns.gave }

  /** The scope binds what is visible, apart from loops that gave up, and the loop variables in a loop. */
  ghost predicate Binds(sc: Scope, inLoop: bool, vis: set<string>, ns: Names) {
    vis <= sc.Keys + ns.gave && (inLoop ==> RESERVED <= sc.Keys)
  }

  predicate UniqueTree(lvl: Level)
    decreases lvl
  {
    && UniqueIds(lvl)
    && forall i :: 0 <= i < |lvl| ==> var c := lvl[i].Children(); c != [] ==> UniqueTree(c)
  }

  // ----- references -----

  lemma RootBound(step: string, sc: Scope, ref: string, inLoop: bool, vis: set<string>, ns: Names)
    requires Binds(sc, inLoop, vis, ns) && RootOk(RootOf(ref), inLoop, vis) && RootOf(ref) in ns.named
    ensures SoundEvent(Look(step, sc, ref), ns)
  {
  }

  predicate AllSpace(s: string) { forall i :: 0 <= i < |s| ==> IsSpace(s[i]) }

  lemma {:induction false} TrimLeftCuts(s: string)
    ensures forall k :: 0 <= k < |s| - |TrimLeft(s)| ==> IsSpace(s[k])
  {
    hide IsSpace;
    if s != [] && IsSpace(s[0]) {
      TrimLeftCuts(s[1..]);
      assert forall k :: 1 <= k < |s| ==> s[k] == s[1..][k - 1];
    }
  }

  lemma {:induction false} TrimRightCuts(s: string)
    ensures forall k :: |TrimRight(s)| <= k < |s| ==> IsSpace(s[k])
  {
    hide IsSpace;
    if s != [] && IsSpace(s[|s| - 1]) { TrimRightCuts(s[..|s| - 1]); }
  }

  lemma TrimLeftSplit(s: string) returns (pre: string)
    ensures s == pre + TrimLeft(s) && AllSpace(pre)
  {
    hide IsSpace, TrimLeft;
    TrimLeftCuts(s);
    pre := s[..|s| - |TrimLeft(s)|];
  }

  lemma TrimRightSplit(s: string) returns (post: string)
    ensures s == TrimRight(s) + post && AllSpace(post)
  {
    hide IsSpace, TrimRight;
    TrimRightCuts(s);
    post := s[|TrimRight(s)|..];
  }

  lemma NeverOpens(post: string)
    requires '$' !in post
    ensures Index(post, "${") < 0
  {
    if j :| OccursAt(post, "${", j) {
      assert post[j..][0] == post[j];
    }
  }

  lemma SingleRefShape(t: string) returns (pre: string, inner: string, post: string)
    requires SingleRef(t).Some?
    ensures t == pre + "${" + (inner + "}" + post) && AllSpace(pre) && AllSpace(post)
    ensures Index(inner, "}") < 0 && SingleRef(t) == Some(TrimSpace(inner))
  {
    hide TrimLeft, TrimRight, Index, AllSpace, IsSpace;
    pre := TrimLeftSplit(t);
    post := TrimRightSplit(TrimLeft(t));
    var mid := TrimSpace(t);
    inner := mid[2..|mid| - 1];
    Bracket(mid);
    Regroup(pre, "${", inner, "}", post);
  }

  lemma Bracket(mid: string)
    requires |mid| >= 3 && mid[..2] == "${" && mid[|mid| - 1] == '}'
    ensures mid == "${" + mid[2..|mid| - 1] + "}"
  {
    assert mid == mid[..2] + mid[2..|mid| - 1] + [mid[|mid| - 1]];
  }

  lemma Regroup(pre: string, a: string, inner: string, b: string, post: string)
    ensures pre + ((a + inner + b) + post) == pre + a + (inner + b + post)
  {
  }

  lemma CutShape(pre: string, inner: string, post: string)
    requires AllSpace(pre) && AllSpace(post) && Index(inner, "}") < 0
    ensures CutRef(pre + "${" + (inner + "}" + post)) == Cut(pre, TrimSpace(inner), post) && CutRef(post) == NoMore
  {
    hide TrimSpace, Index, AllSpace;
    NotSpace();
    NeverOpens(pre);
    NeverOpens(post);
    CutPart(Part(pre, inner), post);
    assert pre + "${" + inner + "}" + post == pre + "${" + (inner + "}" + post);
  }

  lemma OneRef(t: string, pre: string, ref: string, post: string)
    requires CutRef(t) == Cut(pre, ref, post) && CutRef(post) == NoMore
    ensures Refs(t) == if RootOf(ref) == "" then None else Some([ref])
  {
    hide CutRef, RootOf;
    assert [ref] + [] == [ref];
  }

  /** A text that the runtime takes for a single reference scans as exactly that reference. */
  lemma SingleRefScans(t: string)
    requires SingleRef(t).Some?
    ensures Refs(t) == if RootOf(SingleRef(t).value) == "" then None else Some([SingleRef(t).value])
  {
    hide *;
    var pre, inner, post := SingleRefShape(t);
    CutShape(pre, inner, post);
    OneRef(t, pre, TrimSpace(inner), post);
  }

  lemma NotSpace()
    ensures forall s: string :: AllSpace(s) ==> '$' !in s
  {
  }

  lemma {:induction false} TemplateSound(step: string, sc: Scope, t: string, inLoop: bool, vis: set<string>, ns: Names)
    requires Binds(sc, inLoop, vis, ns)
    requires Refs(t).Some?
    requires forall ref :: ref in Refs(t).value ==> RootOk(RootOf(ref), inLoop, vis) && RootOf(ref) in ns.named
    ensures SoundEvents(TemplateLooks(step, sc, t), ns)
    decreases |t|
  {
    hide RootOf, CutRef, Resolve, RootOk;
    var cut := CutRef(t);
    if cut.Cut? {
      assert Refs(t).value == [cut.ref] + Refs(cut.rest).value;
      assert cut.ref in Refs(t).value;
      RootBound(step, sc, cut.ref, inLoop, vis, ns);
      assert forall ref :: ref in Refs(cut.rest).value ==> ref in Refs(t).value;
      TemplateSound(step, sc, cut.rest, inLoop, vis, ns);
    }
  }

  lemma UseSound(env: Env, all: Level, step: string, sc: Scope, u: Use, isArg: bool,
                 inLoop: bool, vis: set<string>, ns: Names)
    requires Binds(sc, inLoop, vis, ns) && UseOk(all, u, inLoop, vis) && UseRoots(u) <= ns.named
    ensures SoundEvents(LookUse(env, step, sc, u, isArg).ev, ns)
  {
    hide RootOf, Refs, Resolve, TemplateLooks, Expand, SingleRef, FindStep;
    match u {
      case Bare(ref) => RootBound(step, sc, ref, inLoop, vis, ns);
      case Workspace(ref) => RootBound(step, sc, ref, inLoop, vis, ns);
      case Interpolated(t) =>
        var single := SingleRef(t);
        if isArg && single.Some? {
          SingleRefScans(t);
          assert single.value in Refs(t).value;
          RootBound(step, sc, single.value, inLoop, vis, ns);
        } else {
          TemplateSound(step, sc, t, inLoop, vis, ns);
        }
    }
  }

  lemma {:induction false} UsesSound(env: Env, all: Level, step: string, sc: Scope, uses: seq<Use>, isArg: bool,
                                     inLoop: bool, vis: set<string>, ns: Names)
    requires Binds(sc, inLoop, vis, ns) && forall u :: u in uses ==> UseOk(all, u, inLoop, vis) && UseRoots(u) <= ns.named
    ensures SoundEvents(LookAll(env, step, sc, uses, isArg).ev, ns)
    decreases |uses|
  {
    hide LookUse, UseOk, UseRoots;
    if uses != [] {
      assert uses[0] in uses && forall u :: u in uses[1..] ==> u in uses;
      UseSound(env, all, step, sc, uses[0], isArg, inLoop, vis, ns);
      UsesSound(env, all, step, sc, uses[1..], isArg, inLoop, vis, ns);
    }
  }

  // ----- steps -----

  /** What running a step guarantees: sound events, a scope that only grows, and the step's own
      output once it has completed. */
  ghost predicate Sound(r: Res, sc: Scope, ns: Names) {
    SoundEvents(r.ev, ns) && sc.Keys <= r.sc.Keys
  }

  ghost predicate Delivers(r: Res, s: Step, ns: Names) {
    r.end == Done && s.ProducesOutput() ==> s.id in r.sc.Keys + ns.gave
  }

  lemma LeafSound(env: Env, all: Level, s: Step, sibs: set<string>, sc: Scope, p: Pos,
                  inLoop: bool, vis: set<string>, ns: Names)
    requires s.Leaf() && Binds(sc, inLoop, vis, ns) && BodyOk(all, s, inLoop, sibs, vis)
    requires forall u :: u in UsesOf(s) ==> UseRoots(u) <= ns.named
    ensures Sound(RunLeaf(env, s, sc, p), sc, ns) && Delivers(RunLeaf(env, s, sc, p), s, ns)
  {
    hide LookAll, UseOk, ShapeOk, UsesOf, Binds, UseRoots;
    UsesSound(env, all, s.id, sc, UsesOf(s), s.body.Tool?, inLoop, vis, ns);
    var d := DispatchLeaf(env, s, sc, p);
    assert SoundEvents(d.ev, ns);
  }

  lemma TreeMono(all: Level, lvl: Level, j: nat, inLoop: bool, vis: set<string>, vis': set<string>)
    requires j < |lvl| && TreeOk(all, lvl, j, inLoop, vis) && vis <= vis'
    ensures TreeOk(all, lvl, j, inLoop, vis')
  {
    hide BodyOk, Reaches;
    BodyMono(all, lvl[j], inLoop, IdSet(lvl), vis, vis');
    forall t | t in BranchList(lvl[j]) ensures TailOk(all, lvl, t, inLoop, vis') {
      assert TailOk(all, lvl, t, inLoop, vis);
      forall q, k: nat | k < |lvl| && Reaches(lvl, t, q, k) ensures BodyOk(all, lvl[k], inLoop, IdSet(lvl), vis') {
        BodyMono(all, lvl[k], inLoop, IdSet(lvl), vis, vis');
      }
    }
  }

  /** The ids on the dispatch chain, followed by the step itself, form a path of the branch graph. */
  ghost predicate OnPath(lvl: Level, chain: seq<string>, id: string) { IsPath(lvl, chain + [id]) }

  ghost predicate Setting(lvl: Level, ns: Names) {
    UniqueTree(lvl) && !HasCycle(lvl) && SwallowingLoops(lvl) <= ns.loops && NamedRoots(lvl) <= ns.named
  }

  /** The steps of `todo` that write an output. */
  function Produced(lvl: Level, todo: seq<nat>): set<string> {
    set m | 0 <= m < |todo| && todo[m] < |lvl| && lvl[todo[m]].ProducesOutput() :: lvl[todo[m]].id
  }

  /** The i-th step of a list may run after the ones before it. */
  ghost predicate Ready(all: Level, lvl: Level, todo: seq<nat>, i: nat, chain: seq<string>, inLoop: bool, vis: set<string>)
    requires i < |todo|
  {
    && todo[i] < |lvl|
    && TreeOk(all, lvl, todo[i], inLoop, vis + Produced(lvl, todo[..i]))
    && OnPath(lvl, chain, lvl[todo[i]].id)
  }

  lemma {:induction false} StepSound(env: Env, all: Level, lvl: Level, j: nat, sc: Scope, chain: seq<string>, p: Pos,
                                     inLoop: bool, vis: set<string>, ns: Names)
    requires j < |lvl| && Setting(lvl, ns) && Binds(sc, inLoop, vis, ns)
    requires TreeOk(all, lvl, j, inLoop, vis) && OnPath(lvl, chain, lvl[j].id)
    requires GaveIn(RunStep(env, lvl, j, sc, chain, p).ev, ns)
    ensures Sound(RunStep(env, lvl, j, sc, chain, p), sc, ns)
    ensures Delivers(RunStep(env, lvl, j, sc, chain, p), lvl[j], ns)
    decreases lvl, IdSet(lvl) - ChainSet(chain), 0, 1
  {
    var s := lvl[j];
    if env.cancelled(p + [0]) {
    } else {
      LoopsOf(lvl, j);
      NamesOf(lvl, j);
      match s.body {
        case Condition(_, _, _) => ConditionSound(env, all, lvl, j, sc, chain, p, inLoop, vis, ns);
        case ForEach(_, _) => ForEachSound(env, all, lvl, j, sc, chain, p, inLoop, vis, ns);
        case Parallel(steps) =>
          ParallelSound(env, all, lvl, j, sc, chain, p, inLoop, vis, ns);
        case Finish(_) =>
        case Unknown =>
        case _ => LeafSound(env, all, s, IdSet(lvl), sc, p, inLoop, vis, ns);
      }
    }
  }

  lemma NoRevisit(lvl: Level, chain: seq<string>, id: string)
    requires OnPath(lvl, chain, id) && !HasCycle(lvl)
    ensures id !in chain
  {
    if id in chain {
      var k :| 0 <= k < |chain| && chain[k] == id;
      RevisitIsCycle(lvl, chain + [id], k);
    }
  }

  lemma InputSound(env: Env, all: Level, lvl: Level, j: nat, sc: Scope, ref: string, inLoop: bool, vis: set<string>, ns: Names)
    requires j < |lvl| && Binds(sc, inLoop, vis, ns) && TreeOk(all, lvl, j, inLoop, vis)
    requires (lvl[j].body.ForEach? && ref == lvl[j].body.itemsFrom)
             || (lvl[j].body.Condition? && lvl[j].body.input == Some(ref))
    requires NamedRoots(lvl) <= ns.named
    ensures SoundEvents([Look(lvl[j].id, sc, ref)], ns)
  {
    hide RootOf, TailOk, LevelOk;
    assert Bare(ref) in UsesOf(lvl[j]);
    assert UseOk(all, Bare(ref), inLoop, vis);
    NamesOf(lvl, j);
    assert UseRoots(Bare(ref)) == {RootOf(ref)};
    RootBound(lvl[j].id, sc, ref, inLoop, vis, ns);
  }

  lemma {:induction false} ConditionSound(env: Env, all: Level, lvl: Level, j: nat, sc: Scope, chain: seq<string>, p: Pos,
                                          inLoop: bool, vis: set<string>, ns: Names)
    requires j < |lvl| && Setting(lvl, ns) && Binds(sc, inLoop, vis, ns)
    requires TreeOk(all, lvl, j, inLoop, vis) && OnPath(lvl, chain, lvl[j].id)
    requires lvl[j].body.Condition? && !env.cancelled(p + [0])
    requires GaveIn(RunStep(env, lvl, j, sc, chain, p).ev, ns)
    ensures Sound(RunStep(env, lvl, j, sc, chain, p), sc, ns)
    decreases lvl, IdSet(lvl) - ChainSet(chain), 0, 0
  {
    hide TailOk, LevelOk, BodyOk, ShapeOk, UseOk, HasCycle, IsPath, At, UniqueTree, SwallowingLoops, NamedRoots, Targets;
    var s := lvl[j];
    NoRevisit(lvl, chain, s.id);
    if s.body.input.Some? { InputSound(env, all, lvl, j, sc, s.body.input.value, inLoop, vis, ns); }
    var verdict := if s.body.input.Some? then env.verdict(p) else EvalError;
    if verdict.Holds? {
      var branch := if verdict.taken then s.body.thn else s.body.els;
      var todo := Dispatched(lvl, branch);
      var chain' := chain + [s.id];
      assert s.id in IdSet(lvl);
      ChainGrows(chain, s.id);
      forall i | 0 <= i < |todo|
        ensures Ready(all, lvl, todo, i, chain', inLoop, vis)
      {
        assert todo[i] in todo;
        var t :| t in branch && At(lvl, t) == Some(todo[i]);
        assert t in BranchList(s);
        TailStep(all, lvl, t, inLoop, vis);
        TreeMono(all, lvl, todo[i], inLoop, vis, vis + Produced(lvl, todo[..i]));
        BranchOnPath(lvl, j, chain, t);
      }
      Widen(sc, inLoop, vis, ns, lvl, todo);
      ListSound(env, all, lvl, todo, 0, sc, chain', p + [3], inLoop, vis, ns);
    }
  }

  lemma BranchOnPath(lvl: Level, j: nat, chain: seq<string>, t: string)
    requires j < |lvl| && UniqueTree(lvl) && OnPath(lvl, chain, lvl[j].id) && t in BranchList(lvl[j])
    ensures OnPath(lvl, chain + [lvl[j].id], t)
  {
    AtUnique(lvl, j);
    ExtendPath(lvl, chain + [lvl[j].id], t);
  }

  lemma Widen(sc: Scope, inLoop: bool, vis: set<string>, ns: Names, lvl: Level, todo: seq<nat>)
    requires Binds(sc, inLoop, vis, ns)
    ensures Binds(sc, inLoop, vis + Produced(lvl, todo[..0]), ns)
  {
  }

  /** Running steps in order: each finds the outputs of those before it. */
  lemma {:induction false} ListSound(env: Env, all: Level, lvl: Level, todo: seq<nat>, k: nat, sc: Scope, chain: seq<string>,
                                     p: Pos, inLoop: bool, vis: set<string>, ns: Names)
    requires k <= |todo| && (forall i :: i in todo ==> i < |lvl|) && Setting(lvl, ns)
    requires Binds(sc, inLoop, vis + Produced(lvl, todo[..k]), ns)
    requires forall i :: k <= i < |todo| ==> Ready(all, lvl, todo, i, chain, inLoop, vis)
    requires GaveIn(RunList(env, lvl, todo, k, sc, chain, p).ev, ns)
    ensures Sound(RunList(env, lvl, todo, k, sc, chain, p), sc, ns)
    decreases lvl, IdSet(lvl) - ChainSet(chain), 1, |todo| - k
  {
    hide TreeOk, Setting, OnPath, ChainSet, IdSet;
    if k < |todo| {
      assert todo[k] in todo && Ready(all, lvl, todo, k, chain, inLoop, vis);
      StepSound(env, all, lvl, todo[k], sc, chain, p + [k], inLoop, vis + Produced(lvl, todo[..k]), ns);
      var r := RunStep(env, lvl, todo[k], sc, chain, p + [k]);
      if r.end == Done {
        ProducedNext(lvl, todo, k);
        ListSound(env, all, lvl, todo, k + 1, r.sc, chain, p, inLoop, vis, ns);
      }
    }
  }

  lemma ProducedNext(lvl: Level, todo: seq<nat>, k: nat)
    requires k < |todo| && todo[k] < |lvl|
    ensures Produced(lvl, todo[..k + 1])
            == Produced(lvl, todo[..k]) + if lvl[todo[k]].ProducesOutput() then {lvl[todo[k]].id} else {}
  {
    assert todo[..k + 1] == todo[..k] + [todo[k]];
    assert forall m :: 0 <= m < k ==> todo[..k + 1][m] == todo[..k][m];
  }

  // ----- levels -----

  lemma {:induction false} RootsComplete(lvl: Level, n: nat, i: nat)
    requires n <= |lvl| && i < |Roots(lvl, n)|
    ensures var r := Roots(lvl, n);
            r[i] < n && lvl[r[i]].id !in Targets(lvl)
            && forall m: nat :: m < r[i] && lvl[m].id !in Targets(lvl) ==> m in r[..i]
    decreases n
  {
    hide Targets;
    var r := Roots(lvl, n);
    assert r[i] in r;
    if n > 0 {
      var r' := Roots(lvl, n - 1);
      if i < |r'| {
        RootsComplete(lvl, n - 1, i);
        assert r[..i] == r'[..i] && r[i] == r'[i];
      } else {
        assert r[..i] == r' && r[i] == n - 1;
        forall m: nat | m < n - 1 && lvl[m].id !in Targets(lvl) ensures m in r' { RootIn(lvl, n - 1, m); }
      }
    }
  }

  lemma {:induction false} RootsAscend(lvl: Level, n: nat, m: nat, i: nat)
    requires n <= |lvl| && m < i < |Roots(lvl, n)|
    ensures Roots(lvl, n)[m] < Roots(lvl, n)[i] < n && lvl[Roots(lvl, n)[m]].id !in Targets(lvl)
    decreases n
  {
    hide Targets;
    var r := Roots(lvl, n);
    assert r[m] in r && r[i] in r;
    var before := Roots(lvl, n - 1);
    if i < |before| {
      RootsAscend(lvl, n - 1, m, i);
      assert r[m] == before[m] && r[i] == before[i];
    } else {
      assert r[m] == before[m] && before[m] in before && r[i] == n - 1;
    }
  }

  lemma {:induction false} RootIn(lvl: Level, n: nat, m: nat)
    requires m < n <= |lvl| && lvl[m].id !in Targets(lvl)
    ensures m in Roots(lvl, n)
    decreases n
  {
    hide Targets;
    var before := Roots(lvl, n - 1);
    if m < n - 1 {
      RootIn(lvl, n - 1, m);
      assert Roots(lvl, n)[..|before|] == before;
    } else {
      assert Roots(lvl, n) == before + [m];
    }
  }

  lemma RootsVisible(lvl: Level, i: nat, vis: set<string>)
    requires i < |Roots(lvl, |lvl|)|
    ensures var r := Roots(lvl, |lvl|);
            r[i] < |lvl| && VisibleAt(lvl, r[i], true, vis) == vis + Produced(lvl, r[..i])
  {
    hide Targets, Roots;
    RootsComplete(lvl, |lvl|, i);
    var r := Roots(lvl, |lvl|);
    forall id | id in VisibleAt(lvl, r[i], true, vis) && id !in vis ensures id in Produced(lvl, r[..i]) {
      var k :| 0 <= k < r[i] && lvl[k].id !in Targets(lvl) && lvl[k].ProducesOutput() && lvl[k].id == id;
      var m :| 0 <= m < i && r[..i][m] == k;
    }
    forall id | id in Produced(lvl, r[..i]) ensures id in VisibleAt(lvl, r[i], true, vis) {
      var m :| 0 <= m < i && r[..i][m] < |lvl| && lvl[r[m]].ProducesOutput() && lvl[r[m]].id == id;
      RootsAscend(lvl, |lvl|, m, i);
    }
  }

  lemma {:induction false} LevelSound(env: Env, all: Level, lvl: Level, sc: Scope, p: Pos,
                                      inLoop: bool, vis: set<string>, ns: Names)
    requires Setting(lvl, ns) && Binds(sc, inLoop, vis, ns) && LevelOk(all, lvl, inLoop, true, vis)
    requires GaveIn(RunLevel(env, lvl, sc, p).ev, ns)
    ensures Sound(RunLevel(env, lvl, sc, p), sc, ns)
    decreases lvl, IdSet(lvl) - ChainSet([]), 2, 0
  {
    hide TreeOk, Targets, Roots, HasCycle, UniqueTree, SwallowingLoops, NamedRoots, VisibleAt, Produced, ChainSet, IdSet;
    var todo := Roots(lvl, |lvl|);
    forall i | 0 <= i < |todo|
      ensures Ready(all, lvl, todo, i, [], inLoop, vis)
    {
      RootsVisible(lvl, i, vis);
      assert todo[i] in todo;
      TreeMono(all, lvl, todo[i], inLoop, VisibleAt(lvl, todo[i], true, vis), vis + Produced(lvl, todo[..i]));
    }
    Widen(sc, inLoop, vis, ns, lvl, todo);
    ListSound(env, all, lvl, todo, 0, sc, [], p, inLoop, vis, ns);
  }

  lemma {:induction false} LoopSound(env: Env, all: Level, steps: Level, swallow: bool, items: seq<Value>, k: nat, sc: Scope,
                                     p: Pos, results: seq<Value>, bytes: nat, inLoop: bool, vis: set<string>, ns: Names)
    requires k <= |items| && Setting(steps, ns) && Binds(sc, inLoop, vis, ns)
    requires LevelOk(all, steps, true, true, vis)
    requires GaveIn(RunLoop(env, steps, swallow, items, k, sc, p, results, bytes).ev, ns)
    ensures SoundEvents(RunLoop(env, steps, swallow, items, k, sc, p, results, bytes).ev, ns)
    ensures RunLoop(env, steps, swallow, items, k, sc, p, results, bytes).end == Done ==>
              RunLoop(env, steps, swallow, items, k, sc, p, results, bytes).out.Some?
    decreases steps, IdSet(steps) - ChainSet([]), 3, |items| - k
  {
    hide LevelOk, Setting, ChainSet, IdSet, RunLevel, Outputs, Record;
    if k < |items| && !env.cancelled(p + [k, 0]) {
      LevelSound(env, all, steps, IterScope(sc, items[k], k), p + [k, 1], true, vis, ns);
      var r := RunLevel(env, steps, IterScope(sc, items[k], k), p + [k, 1]);
      RecordIsSound(env, r.logs, p + [k, 2], ns);
      match LoopTurn(env, steps, swallow, r, results, bytes) {
        case Halt(_, _) =>
        case Next(results', bytes') =>
          LoopSound(env, all, steps, swallow, items, k + 1, sc, p, results', bytes', inLoop, vis, ns);
      }
    }
  }

  lemma RecordIsSound(env: Env, logs: seq<Log>, p: Pos, ns: Names)
    ensures SoundEvent(Record(env, logs, p).ev, ns)
  {
  }

  lemma {:induction false} ForEachSound(env: Env, all: Level, lvl: Level, j: nat, sc: Scope, chain: seq<string>, p: Pos,
                                        inLoop: bool, vis: set<string>, ns: Names)
    requires j < |lvl| && Setting(lvl, ns) && Binds(sc, inLoop, vis, ns)
    requires TreeOk(all, lvl, j, inLoop, vis)
    requires lvl[j].body.ForEach? && !env.cancelled(p + [0])
    requires GaveIn(RunStep(env, lvl, j, sc, chain, p).ev, ns)
    ensures Sound(RunStep(env, lvl, j, sc, chain, p), sc, ns)
    ensures Delivers(RunStep(env, lvl, j, sc, chain, p), lvl[j], ns)
    decreases lvl, IdSet(lvl) - ChainSet(chain), 0, 0
  {
    hide TailOk, UseOk, HasCycle, RootOf, Resolve, RunLoop;
    var s := lvl[j];
    InputSound(env, all, lvl, j, sc, s.body.itemsFrom, inLoop, vis, ns);
    LoopsOf(lvl, j);
    var v := Resolve(sc, s.body.itemsFrom);
    if v.Ok? && v.value.Arr? && |v.value.items| <= MAX_ITEMS {
      InnerSetting(all, lvl, j, inLoop, vis, ns);
      LoopSound(env, all, s.body.steps, s.continueOnError, v.value.items, 0, sc, p + [4], [], 0, inLoop, vis, ns);
    }
  }

  lemma InnerSetting(all: Level, lvl: Level, j: nat, inLoop: bool, vis: set<string>, ns: Names)
    requires j < |lvl| && Setting(lvl, ns) && TreeOk(all, lvl, j, inLoop, vis)
    requires lvl[j].body.ForEach? || lvl[j].body.Parallel?
    ensures Setting(lvl[j].body.steps, ns)
    ensures LevelOk(all, lvl[j].body.steps, lvl[j].body.ForEach? || inLoop, lvl[j].body.ForEach?, vis)
  {
    hide TailOk, HasCycle, UseOk;
    LoopsOf(lvl, j);
    NamesOf(lvl, j);
    var steps := lvl[j].body.steps;
    assert lvl[j].Children() == steps;
    assert UniqueTree(steps) by {
      if steps == [] { assert UniqueIds(steps); }
    }
    assert SwallowingLoops(steps) <= ns.loops && NamedRoots(steps) <= ns.named;
    assert BodyOk(all, lvl[j], inLoop, IdSet(lvl), vis);
    LevelAcyclic(all, steps, lvl[j].body.ForEach? || inLoop, lvl[j].body.ForEach?, vis);
  }

  lemma {:induction false} GroupSound(env: Env, all: Level, steps: Level, roots: seq<nat>, k: nat, sc: Scope, p: Pos,
                                      inLoop: bool, vis: set<string>, ns: Names)
    requires k <= |roots| && (forall i :: i in roots ==> i < |steps| && steps[i].id !in Targets(steps))
    requires Setting(steps, ns) && Binds(sc, inLoop, vis, ns) && LevelOk(all, steps, inLoop, false, vis)
    requires GaveIn(GroupEvents(RunGroup(env, steps, roots, k, sc, p)), ns)
    ensures SoundEvents(GroupEvents(RunGroup(env, steps, roots, k, sc, p)), ns)
    decreases steps, IdSet(steps) - ChainSet([]), 2, |roots| - k
  {
    hide TreeOk, Targets, HasCycle, UniqueTree, SwallowingLoops, NamedRoots, ChainSet, IdSet, RunStep;
    if k < |roots| {
      assert roots[k] in roots;
      assert OnPath(steps, [], steps[roots[k]].id);
      assert VisibleAt(steps, roots[k], false, vis) == vis;
      StepSound(env, all, steps, roots[k], sc, [], p + [k, 0], inLoop, vis, ns);
      GroupSound(env, all, steps, roots, k + 1, sc, p, inLoop, vis, ns);
    }
  }

  lemma {:induction false} RecordsSound(env: Env, kids: seq<Res>, p: Pos, ns: Names)
    ensures SoundEvents(GroupRecords(env, kids, p).0, ns)
    decreases |kids|
  {
    if kids != [] { RecordsSound(env, kids[..|kids| - 1], p, ns); }
  }

  lemma {:induction false} ParallelSound(env: Env, all: Level, lvl: Level, j: nat, sc: Scope, chain: seq<string>, p: Pos,
                                         inLoop: bool, vis: set<string>, ns: Names)
    requires j < |lvl| && Setting(lvl, ns) && Binds(sc, inLoop, vis, ns)
    requires TreeOk(all, lvl, j, inLoop, vis)
    requires lvl[j].body.Parallel? && !env.cancelled(p + [0])
    requires GaveIn(RunStep(env, lvl, j, sc, chain, p).ev, ns)
    ensures Sound(RunStep(env, lvl, j, sc, chain, p), sc, ns)
    ensures Delivers(RunStep(env, lvl, j, sc, chain, p), lvl[j], ns)
    decreases lvl, IdSet(lvl) - ChainSet(chain), 0, 0
  {
    hide TreeOk, LevelOk, HasCycle, RunGroup, GroupRecords, GroupEvents, GroupError, MergeAll, GroupFinish, Setting;
    hide Binds, Roots, Targets;
    var steps := lvl[j].body.steps;
    InnerSetting(all, lvl, j, inLoop, vis, ns);
    GroupSound(env, all, steps, Roots(steps, |steps|), 0, sc, p + [5], inLoop, vis, ns);
    RecordsSound(env, RunGroup(env, steps, Roots(steps, |steps|), 0, sc, p + [5]), p + [5], ns);
  }

  // ----- the theorem -----

  ghost predicate Distinct(ids: seq<string>) { forall i, j :: 0 <= i < j < |ids| ==> ids[i] != ids[j] }

  lemma {:induction false} DistinctIdsUnique(lvl: Level)
    requires Distinct(AllIds(lvl))
    ensures UniqueTree(lvl)
    decreases lvl
  {
    hide AllIds, Distinct;
    forall k | 0 <= k < |lvl|
      ensures lvl[k].Children() != [] ==> UniqueTree(lvl[k].Children())
      ensures forall i :: 0 <= i < k ==> lvl[i].id != lvl[k].id
    {
      DistinctInside(lvl, k);
      if lvl[k].Children() != [] { DistinctIdsUnique(lvl[k].Children()); }
      forall i | 0 <= i < k ensures lvl[i].id != lvl[k].id { DistinctBefore(lvl, i, k); }
    }
  }

  lemma DistinctPart(before: seq<string>, ids: seq<string>, after: seq<string>)
    requires Distinct(before + ids + after)
    ensures Distinct(ids) && forall m, n :: 0 <= m < |before| && 0 <= n < |ids| ==> before[m] != ids[n]
  {
    var all := before + ids + after;
    assert forall n :: 0 <= n < |ids| ==> all[|before| + n] == ids[n];
    assert forall m :: 0 <= m < |before| ==> all[m] == before[m];
  }

  lemma DistinctInside(lvl: Level, k: nat)
    requires Distinct(AllIds(lvl)) && k < |lvl|
    ensures lvl[k].Children() != [] ==> Distinct(AllIds(lvl[k].Children()))
  {
    hide AllIds, Distinct;
    var before, ids, after := SplitIds(lvl, k);
    DistinctPart(before, ids, after);
    if lvl[k].Children() != [] {
      var inner := AllIds(lvl[k].Children());
      assert ids == [lvl[k].id] + inner + [];
      DistinctPart([lvl[k].id], inner, []);
    }
  }

  lemma DistinctBefore(lvl: Level, i: nat, k: nat)
    requires Distinct(AllIds(lvl)) && i < k < |lvl|
    ensures lvl[i].id != lvl[k].id
  {
    hide AllIds, Distinct;
    var before, ids, after := SplitIds(lvl, k);
    DistinctPart(before, ids, after);
    IdBefore(lvl[..k], i);
    assert lvl[..k][i] == lvl[i] && ids[0] == lvl[k].id;
    var m :| 0 <= m < |before| && before[m] == lvl[i].id;
  }

  lemma {:induction false} SplitIds(lvl: Level, k: nat) returns (before: seq<string>, ids: seq<string>, after: seq<string>)
    requires k < |lvl|
    ensures AllIds(lvl) == before + ids + after && before == AllIds(lvl[..k]) && ids == StepIds(lvl[k])
    decreases |lvl|
  {
    var n := |lvl| - 1;
    if k == n {
      before, ids, after := AllIds(lvl[..n]), StepIds(lvl[n]), [];
    } else {
      before, ids, after := SplitIds(lvl[..n], k);
      assert lvl[..n][..k] == lvl[..k];
      after := after + StepIds(lvl[n]);
    }
  }

  lemma {:induction false} IdBefore(lvl: Level, i: nat)
    requires i < |lvl|
    ensures lvl[i].id in AllIds(lvl)
    decreases |lvl|
  {
    var n := |lvl| - 1;
    if i == n {
      assert StepIds(lvl[n])[0] == lvl[n].id;
    } else {
      assert lvl[..n][i] == lvl[i];
      IdBefore(lvl[..n], i);
    }
  }

  /** The for_each steps that swallowed their own items error during a run. */
  function GaveUps(ev: seq<Event>): set<string> { set e | e in ev && e.GaveUp? :: e.step }

  /** For every accepted definition and every environment, each reference the run resolves parses
      and its root is bound, unless the root is a for_each with continue_on_error whose items did
      not resolve in this very run; and the run never meets a branch cycle. */
  lemma ScopeSoundness(env: Env, steps: Level)
    requires ValidSteps(steps)
    ensures var ev := Run(env, steps).ev; SoundEvents(ev, Names(SwallowingLoops(steps), NamedRoots(steps), GaveUps(ev)))
  {
    hide DepthOk, LevelOk, RunLevel;
    var ev := Run(env, steps).ev;
    var ns := Names(SwallowingLoops(steps), NamedRoots(steps), GaveUps(ev));
    assert GaveIn(ev, ns);
    DistinctIdsUnique(steps);
    LevelAcyclic(steps, steps, false, true, {});
    LevelSound(env, steps, steps, map[], [], false, {}, ns);
  }

  lemma LevelAcyclic(all: Level, lvl: Level, inLoop: bool, sequential: bool, vis: set<string>)
    requires LevelOk(all, lvl, inLoop, sequential, vis)
    ensures !HasCycle(lvl)
  {
  }

  /** If no reference names the output of such a loop there is no exception left: every root is bound. */
  lemma ScopeSoundnessUnlessNamed(env: Env, steps: Level)
    requires ValidSteps(steps) && SwallowingLoops(steps) * NamedRoots(steps) == {}
    ensures forall e :: e in Run(env, steps).ev ==> !e.CycleHit? && (e.Looked? ==> e.root != "" && e.bound)
  {
    hide ValidSteps, Run;
    ScopeSoundness(env, steps);
    var ev := Run(env, steps).ev;
    var ns := Names(SwallowingLoops(steps), NamedRoots(steps), GaveUps(ev));
    forall e | e in ev && e.Looked? ensures e.bound {
      assert SoundEvent(e, ns) && forall g :: g in ev && g.GaveUp? ==> SoundEvent(g, ns);
      assert e.root !in SwallowingLoops(steps) * NamedRoots(steps);
    }
  }

  /** In particular if no loop swallows its errors. */
  lemma ScopeSoundnessWithoutSwallowing(env: Env, steps: Level)
    requires ValidSteps(steps) && SwallowingLoops(steps) == {}
    ensures forall e :: e in Run(env, steps).ev ==> !e.CycleHit? && (e.Looked? ==> e.root != "" && e.bound)
  {
    hide ValidSteps, Run;
    ScopeSoundnessUnlessNamed(env, steps);
  }
}
