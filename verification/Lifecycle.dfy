/** The shared model bundle: loaded on first use by one caller, pinned while held, unloaded after an
    idle timer or on shutdown. Bundles are closed outside the mutex. */
module Lifecycles {
  import opened Wrappers

  type Bundle = nat
  type Caller = nat

  /** The fields the mutex guards. `val` is the resident bundle. */
  datatype Core = Core(val: Option<Bundle>, refs: nat, armed: bool, loading: bool, closed: bool)

  const COLD := Core(None, 0, false, false, false)

  // ----- the critical sections -----

  datatype Entry = Denied | Pinned(bundle: Bundle) | Wait | Load

  /** The switch at the head of Acquire. */
  function Enter(c: Core): (Core, Entry) {
    if c.closed then (c, Denied)
    else if c.val.Some? then (c.(refs := c.refs + 1, armed := false), Pinned(c.val.value))
    else if c.loading then (c, Wait)
    else (c.(loading := true), Load)
  }

  datatype Loaded = Failed | Opened(bundle: Bundle, cancelled: bool)

  datatype Outcome = NoBundle | Discard(bundle: Bundle) | Holds(bundle: Bundle)

  /** The end of a load: the fresh bundle is committed, or discarded if closed or cancelled meanwhile. */
  function FinishLoad(c: Core, l: Loaded): (Core, Outcome) {
    var c' := c.(loading := false);
    if l.Failed? then (c', NoBundle)
    else if c.closed || l.cancelled then (c', Discard(l.bundle))
    else (c'.(val := Some(l.bundle), refs := c.refs + 1), Holds(l.bundle))
  }

  /** release: the bundle to close, if Close was waiting for the last holder. */
  function Release(ttl: int, c: Core): (Core, Option<Bundle>) {
    var refs := if c.refs > 0 then c.refs - 1 else 0;
    var c' := c.(refs := refs);
    if refs != 0 then (c', None)
    else if c.closed && c.val.Some? then (c'.(val := None), c.val)
    else if c.val.Some? && ttl > 0 then (c'.(armed := true), None)
    else (c', None)
  }

  /** The idle timer's callback, which may run long after the timer was stopped. */
  function IdleUnload(c: Core): (Core, Option<Bundle>) {
    if c.closed || c.val.None? || c.refs != 0 then (c, None) else (c.(val := None, armed := false), c.val)
  }

  function Shut(c: Core): (Core, Option<Bundle>) {
    if c.closed then (c, None)
    else
      var c' := c.(closed := true, armed := false);
      if c.refs == 0 && c.val.Some? then (c'.(val := None), c.val) else (c', None)
  }

  /** An acquire is denied just after shutdown, and otherwise takes the resident bundle, waits for the
      load in flight, or becomes the one that loads. */
  lemma EnterMeans(c: Core)
    ensures Enter(c).1 == Denied <==> c.closed
    ensures forall b: Bundle :: Enter(c).1 == Pinned(b) <==> !c.closed && c.val == Some(b)
    ensures Enter(c).1 == Wait <==> !c.closed && c.val.None? && c.loading
    ensures Enter(c).1 == Load <==> !c.closed && c.val.None? && !c.loading
    ensures Enter(c).0.val == c.val && Enter(c).0.closed == c.closed
    ensures Enter(c).0.refs == c.refs + (if Enter(c).1.Pinned? then 1 else 0)
    ensures Enter(c).0.loading <==> c.loading || Enter(c).1 == Load
    ensures Enter(c).1.Pinned? ==> !Enter(c).0.armed
  {
  }

  /** A load that succeeds is kept, for its caller, unless the lifecycle was closed or the caller gave up. */
  lemma LoadMeans(c: Core, b: Bundle, cancelled: bool)
    ensures var (c', out) := FinishLoad(c, Opened(b, cancelled));
            && !c'.loading
            && (if c.closed || cancelled then out == Discard(b) && c'.val == c.val && c'.refs == c.refs
                else out == Holds(b) && c'.val == Some(b) && c'.refs == c.refs + 1)
    ensures FinishLoad(c, Failed) == (c.(loading := false), NoBundle)
  {
  }

  /** When a bundle leaves: with the last holder after a shutdown, with the idle timer while open and
      unheld, or with the shutdown while unheld; it is then the resident one, and no longer resident. */
  lemma UnloadMeans(ttl: int, c: Core)
    ensures Release(ttl, c).1 == (if c.refs <= 1 && c.closed then c.val else None)
    ensures IdleUnload(c).1 == (if !c.closed && c.refs == 0 then c.val else None)
    ensures Shut(c).1 == (if !c.closed && c.refs == 0 then c.val else None)
    ensures Release(ttl, c).0.val == (if Release(ttl, c).1.Some? then None else c.val)
    ensures IdleUnload(c).0.val == (if IdleUnload(c).1.Some? then None else c.val)
    ensures Shut(c).0.val == (if Shut(c).1.Some? then None else c.val) && Shut(c).0.closed
    ensures c.refs > 0 ==> Release(ttl, c).0.refs == c.refs - 1
    ensures c.refs == 1 && !c.closed && c.val.Some? && ttl > 0 ==> Release(ttl, c).0.armed
  {
  }

  class Lifecycle {
    const idleTTL: int
    var val: Bundle
    var loaded: bool
    var refs: nat
    var timer: bool
    var loading: bool
    var closed: bool

    function Abs(): Core
      reads this
    {
      Core(if loaded then Some(val) else None, refs, timer, loading, closed)
    }

    constructor (idleTTL: int)
      ensures this.idleTTL == idleTTL && Abs() == COLD
    {
      this.idleTTL := idleTTL;
      val, loaded, refs, timer, loading, closed := 0, false, 0, false, false, false;
    }

    method EnterAcquire() returns (entry: Entry)
      modifies this
      ensures (Abs(), entry) == Enter(old(Abs()))
    {
      if closed { return Denied; }
      if loaded {
        refs := refs + 1;
        timer := false;
        return Pinned(val);
      }
      if loading { return Wait; }
      loading := true;
      return Load;
    }

    method EndLoad(l: Loaded) returns (outcome: Outcome)
      requires !loaded
      modifies this
      ensures (Abs(), outcome) == FinishLoad(old(Abs()), l)
    {
      loading := false;
      match l {
        case Failed => return NoBundle;
        case Opened(v, cancelled) =>
          if closed || cancelled { return Discard(v); }
          val, loaded := v, true;
          refs := refs + 1;
          return Holds(v);
      }
    }

    method ReleaseHolder() returns (toClose: Option<Bundle>)
      modifies this
      ensures (Abs(), toClose) == Release(idleTTL, old(Abs()))
    {
      if refs > 0 { refs := refs - 1; }
      if refs != 0 { return None; }
      if closed && loaded {
        toClose := Some(val);
        val, loaded := 0, false;
        return;
      }
      if loaded && idleTTL > 0 { timer := true; }
      return None;
    }

    method IdleTimer() returns (toClose: Option<Bundle>)
      modifies this
      ensures (Abs(), toClose) == IdleUnload(old(Abs()))
    {
      if closed || !loaded || refs != 0 { return None; }
      toClose := Some(val);
      val, loaded, timer := 0, false, false;
    }

    method Close() returns (toClose: Option<Bundle>)
      modifies this
      ensures (Abs(), toClose) == Shut(old(Abs()))
    {
      if closed { return None; }
      closed := true;
      timer := false;
      if refs == 0 && loaded {
        toClose := Some(val);
        val, loaded := 0, false;
        return;
      }
      return None;
    }
  }

  // ----- callers, holders and closings around it -----

  /** `made` bundles exist, numbered from 0; `closing` ones are taken out and about to be closed. */
  datatype World = World(core: Core, loaders: set<Caller>, holders: map<Caller, Bundle>,
                         closing: set<Bundle>, closings: seq<Bundle>, made: nat, next: Caller)

  const FRESH := World(COLD, {}, map[], {}, [], 0, 0)

  datatype Action =
    | Acquire
    | LoadEnds(caller: Caller, ok: bool, cancelled: bool)
    | ReleaseBy(caller: Caller)
    | TimerFires
    | CloseCall
    | CloseBundle(bundle: Bundle)

  function TakeOut(w: World, b: Option<Bundle>): World { if b.Some? then w.(closing := w.closing + {b.value}) else w }

  function Step(ttl: int, w: World, act: Action): World {
    match act
    case Acquire =>
      var (core, entry) := Enter(w.core);
      var w' := w.(core := core, next := w.next + 1);
      (match entry
       case Pinned(b) => w'.(holders := w.holders[w.next := b])
       case Load => w'.(loaders := w.loaders + {w.next})
       case _ => w')
    case LoadEnds(caller, ok, cancelled) =>
      if caller !in w.loaders then w
      else
        var (core, outcome) := FinishLoad(w.core, if ok then Opened(w.made, cancelled) else Failed);
        var w' := w.(core := core, loaders := w.loaders - {caller}, made := if ok then w.made + 1 else w.made);
        (match outcome
         case NoBundle => w'
         case Discard(b) => TakeOut(w', Some(b))
         case Holds(b) => w'.(holders := w.holders[caller := b]))
    case ReleaseBy(caller) =>
      if caller !in w.holders then w    // the closure runs once
      else
        var (core, out) := Release(ttl, w.core);
        TakeOut(w.(core := core, holders := w.holders - {caller}), out)
    case TimerFires =>
      if ttl <= 0 then w
      else
        var (core, out) := IdleUnload(w.core);
        TakeOut(w.(core := core), out)
    case CloseCall =>
      var (core, out) := Shut(w.core);
      TakeOut(w.(core := core), out)
    case CloseBundle(b) =>
      if b !in w.closing then w else w.(closing := w.closing - {b}, closings := w.closings + [b])
  }

  function Run(ttl: int, acts: seq<Action>): World
    decreases |acts|
  {
    if acts == [] then FRESH else Step(ttl, Run(ttl, acts[..|acts| - 1]), acts[|acts| - 1])
  }

  // ----- what every run keeps -----

  predicate Resident(w: World, b: Bundle) { w.core.val == Some(b) }

  /** Every opened bundle is in one place: resident, about to be closed, or closed once. */
  ghost predicate OnePlace(w: World) {
    && (forall b: Bundle :: b < w.made <==> Resident(w, b) || b in w.closing || b in w.closings)
    && (forall b: Bundle :: Resident(w, b) ==> b !in w.closing && b !in w.closings)
    && (forall b: Bundle :: b in w.closing ==> b !in w.closings)
    && (forall i, j :: 0 <= i < j < |w.closings| ==> w.closings[i] != w.closings[j])
  }

  /** The reference count is the number of unreleased holders, and all hold the resident bundle. */
  ghost predicate Pins(w: World) {
    && w.core.refs == |w.holders|
    && (forall h :: h in w.holders ==> Resident(w, w.holders[h]))
    && (w.core.closed && w.core.refs == 0 ==> w.core.val.None?)
  }

  ghost predicate SingleFlight(w: World) {
    && (w.core.loading <==> w.loaders != {})
    && |w.loaders| <= 1
    && (w.core.loading ==> w.core.val.None? && w.holders == map[])
    && (forall c :: c in w.loaders || c in w.holders ==> c < w.next)
    && (forall c :: c in w.loaders ==> c !in w.holders)
  }

  ghost predicate Inv(w: World) { OnePlace(w) && Pins(w) && SingleFlight(w) }

  lemma Pinning(m: map<Caller, Bundle>, c: Caller, b: Bundle)
    ensures c !in m ==> |m[c := b]| == |m| + 1
    ensures c in m ==> |m - {c}| == |m| - 1
  {
    assert c !in m ==> m[c := b].Keys == m.Keys + {c};
    assert (m - {c}).Keys == m.Keys - {c};
    assert |m[c := b].Keys| == |m[c := b]| && |(m - {c}).Keys| == |m - {c}|;
    assert |m.Keys| == |m|;
  }

  lemma TakenOut(w: World, b: Bundle)
    requires OnePlace(w.(core := w.core.(val := Some(b)))) && w.core.val.None?
    ensures OnePlace(TakeOut(w, Some(b)))
  {
  }

  lemma PlacesFrame(w: World, w': World)
    requires OnePlace(w) && w'.core.val == w.core.val
    requires w'.closing == w.closing && w'.closings == w.closings && w'.made == w.made
    ensures OnePlace(w')
  {
    assert forall b :: Resident(w', b) <==> Resident(w, b);
  }

  lemma AcquireKeeps(ttl: int, w: World)
    requires Inv(w)
    ensures Inv(Step(ttl, w, Acquire))
  {
    hide OnePlace;
    PlacesFrame(w, Step(ttl, w, Acquire));
    Pinning(w.holders, w.next, if w.core.val.Some? then w.core.val.value else 0);
    assert w.loaders + {w.next} == {w.next} || w.loaders != {};
  }

  lemma LoadKeeps(ttl: int, w: World, caller: Caller, ok: bool, cancelled: bool)
    requires Inv(w)
    ensures Inv(Step(ttl, w, LoadEnds(caller, ok, cancelled)))
  {
    if caller in w.loaders {
      OnlyLoader(w.loaders, caller);
      Pinning(w.holders, caller, w.made);
      assert w.holders == map[];
    }
  }

  lemma OnlyLoader(loaders: set<Caller>, c: Caller)
    requires |loaders| <= 1 && c in loaders
    ensures loaders == {c} && loaders - {c} == {}
  {
    assert |loaders - {c}| == 0;
    assert loaders == (loaders - {c}) + {c};
  }

  lemma ReleaseKeeps(ttl: int, w: World, caller: Caller)
    requires Inv(w)
    ensures Inv(Step(ttl, w, ReleaseBy(caller)))
  {
    if caller in w.holders {
      Pinning(w.holders, caller, 0);
      assert Resident(w, w.holders[caller]);
      if |w.holders| == 1 { LastHolder(w.holders, caller); }
    }
  }

  lemma LastHolder(m: map<Caller, Bundle>, c: Caller)
    requires c in m && |m| == 1
    ensures m - {c} == map[]
  {
    Pinning(m, c, 0);
  }

  lemma TimerKeeps(ttl: int, w: World)
    requires Inv(w)
    ensures Inv(Step(ttl, w, TimerFires))
  {
    assert |w.holders| == 0 ==> w.holders == map[];
  }

  lemma CloseKeeps(ttl: int, w: World)
    requires Inv(w)
    ensures Inv(Step(ttl, w, CloseCall))
  {
    assert |w.holders| == 0 ==> w.holders == map[];
  }

  lemma CloseBundleKeeps(ttl: int, w: World, b: Bundle)
    requires Inv(w)
    ensures Inv(Step(ttl, w, CloseBundle(b)))
  {
    if b in w.closing {
      var w' := Step(ttl, w, CloseBundle(b));
      forall x: Bundle ensures x < w'.made <==> Resident(w', x) || x in w'.closing || x in w'.closings {
        assert x < w.made <==> Resident(w, x) || x in w.closing || x in w.closings;
        assert x in w'.closings <==> x in w.closings || x == b;
        assert Resident(w', x) <==> Resident(w, x);
      }
    }
  }

  lemma {:induction false} Reachable(ttl: int, acts: seq<Action>)
    ensures Inv(Run(ttl, acts))
    decreases |acts|
  {
    if acts != [] {
      Reachable(ttl, acts[..|acts| - 1]);
      var w := Run(ttl, acts[..|acts| - 1]);
      match acts[|acts| - 1] {
        case Acquire => AcquireKeeps(ttl, w);
        case LoadEnds(caller, ok, cancelled) => LoadKeeps(ttl, w, caller, ok, cancelled);
        case ReleaseBy(caller) => ReleaseKeeps(ttl, w, caller);
        case TimerFires => TimerKeeps(ttl, w);
        case CloseCall => CloseKeeps(ttl, w);
        case CloseBundle(b) => CloseBundleKeeps(ttl, w, b);
      }
    }
  }

  /** In every reachable state the count is exact, a held bundle is neither closed nor about to be,
      and at most one load is in flight. */
  lemma NeverClosedWhileHeld(ttl: int, acts: seq<Action>, holder: Caller)
    ensures var w := Run(ttl, acts);
            && w.core.refs == |w.holders| && |w.loaders| <= 1
            && (holder in w.holders ==>
                  var b := w.holders[holder]; w.core.val == Some(b) && b !in w.closing && b !in w.closings)
  {
    Reachable(ttl, acts);
  }

  /** No bundle is closed twice; and once closed, released and settled, every one has been. */
  lemma ClosedExactlyOnce(ttl: int, acts: seq<Action>)
    ensures var w := Run(ttl, acts);
            && (forall i, j :: 0 <= i < j < |w.closings| ==> w.closings[i] != w.closings[j])
            && (w.core.closed && w.holders == map[] && w.loaders == {} && w.closing == {} ==>
                  forall b: Bundle :: b < w.made <==> b in w.closings)
  {
    Reachable(ttl, acts);
  }
}
