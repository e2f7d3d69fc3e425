/** Generation-tagged recognition segments of a call: starts that load slowly, stops, the
    max-duration timer, teardown and the microphone frames interleave freely. */
module Listening {
  import opened Wrappers

  type Stream = nat
  type Gen = nat

  /** The fields guarded by the session's recognition mutex. `stream` is the installed stream. */
  datatype Core = Core(gen: Gen, stream: Option<Stream>, starting: bool, activeSeg: Gen, dropped: nat, timer: Option<Gen>)

  const IDLE := Core(0, None, false, 0, 0, None)

  /** A stream taken out of the session, with its segment and the frames it dropped. */
  datatype Taken = Taken(stream: Stream, seg: Gen, dropped: nat)

  // ----- the critical sections -----

  /** beginListen: reserves a start and captures the generation. */
  function Begin(c: Core): (Core, Option<Gen>) {
    if c.stream.Some? || c.starting then (c, None) else (c.(starting := true), Some(c.gen))
  }

  /** finishListen: installs the opened stream, unless the start failed or was overtaken. */
  function Finish(c: Core, opened_: Option<Stream>, failed: bool, closed: bool, myGen: Gen): (Core, bool) {
    var c' := c.(starting := false);
    if failed || opened_.None? || closed || c.gen != myGen then (c', false)
    else (c'.(stream := opened_, activeSeg := myGen, dropped := 0, timer := Some(myGen)), true)
  }

  /** stopListen and closeListen: bump the generation and take the stream. */
  function Take(c: Core): (Core, Option<Taken>) {
    (c.(gen := c.gen + 1, timer := None, stream := None),
     if c.stream.Some? then Some(Taken(c.stream.value, c.activeSeg, c.dropped)) else None)
  }

  /** timedStop: only for the segment the timer was armed for. */
  function TimedTake(c: Core, gen: Gen): (Core, Option<Taken>) {
    if c.stream.None? || c.activeSeg != gen then (c, None) else Take(c)
  }

  /** feedASR: `accepted` is the stream's answer to a non-blocking write. */
  function Fed(c: Core, accepted: bool): Core {
    if c.stream.Some? && !accepted then c.(dropped := c.dropped + 1) else c
  }

  /** A start is let in exactly when no stream is installed and no other start is under way. */
  lemma BeginMeans(c: Core)
    ensures Begin(c).1.Some? <==> c.stream.None? && !c.starting
    ensures Begin(c).1.Some? ==> Begin(c) == (c.(starting := true), Some(c.gen))
    ensures Begin(c).1.None? ==> Begin(c).0 == c
  {
  }

  /** A start installs its stream exactly when it succeeded, the call is open and no stop came between;
      the segment then has the start's generation, nothing dropped, and an armed timer. */
  lemma FinishMeans(c: Core, opened_: Option<Stream>, failed: bool, closed: bool, myGen: Gen)
    ensures var (c', installed) := Finish(c, opened_, failed, closed, myGen);
            && (installed <==> !failed && opened_.Some? && !closed && c.gen == myGen)
            && (installed ==> c' == Core(c.gen, opened_, false, myGen, 0, Some(myGen)))
            && (!installed ==> c' == c.(starting := false))
  {
  }

  /** A stop takes the installed stream with its segment and count; the timer only its own segment's. */
  lemma TakeMeans(c: Core, gen: Gen)
    ensures Take(c).1 == if c.stream.Some? then Some(Taken(c.stream.value, c.activeSeg, c.dropped)) else None
    ensures Take(c).0.gen == c.gen + 1 && Take(c).0.stream.None? && Take(c).0.timer.None?
    ensures TimedTake(c, gen) == if c.stream.Some? && c.activeSeg == gen then Take(c) else (c, None)
  {
  }

  class Session {
    var listenGen: Gen
    var asrStream: Option<Stream>
    var asrStarting: bool
    var activeSeg: Gen
    var asrDropped: nat
    var listenTimer: Option<Gen>

    function Abs(): Core
      reads this
    {
      Core(listenGen, asrStream, asrStarting, activeSeg, asrDropped, listenTimer)
    }

    constructor ()
      ensures Abs() == IDLE
    {
      listenGen, asrStream, asrStarting, activeSeg, asrDropped, listenTimer := 0, None, false, 0, 0, None;
    }

    method BeginListen() returns (gen: Option<Gen>)
      modifies this
      ensures (Abs(), gen) == Begin(old(Abs()))
    {
      if asrStream.Some? || asrStarting { return None; }
      asrStarting := true;
      return Some(listenGen);
    }

    method FinishListen(made: Option<Stream>, failed: bool, closed: bool, myGen: Gen) returns (installed: bool)
      modifies this
      ensures (Abs(), installed) == Finish(old(Abs()), made, failed, closed, myGen)
    {
      asrStarting := false;
      if failed || made.None? || closed || listenGen != myGen { return false; }
      asrStream := made;
      activeSeg := myGen;
      asrDropped := 0;
      listenTimer := Some(myGen);
      return true;
    }

    method StopListen() returns (taken: Option<Taken>)
      modifies this
      ensures (Abs(), taken) == Take(old(Abs()))
    {
      listenGen := listenGen + 1;
      listenTimer := None;
      if asrStream.Some? {
        taken := Some(Taken(asrStream.value, activeSeg, asrDropped));
      } else {
        taken := None;
      }
      asrStream := None;
    }

    method TimedStop(gen: Gen) returns (taken: Option<Taken>)
      modifies this
      ensures (Abs(), taken) == TimedTake(old(Abs()), gen)
    {
      if asrStream.None? || activeSeg != gen { return None; }
      taken := StopListen();
    }

    method FeedAsr(accepted: bool)
      modifies this
      ensures Abs() == Fed(old(Abs()), accepted)
    {
      if asrStream.Some? && !accepted { asrDropped := asrDropped + 1; }
    }
  }

  // ----- the goroutines around it -----

  datatype Item = Frame | Marker

  /** finalizeSegment: waiting for the result, or done with it and about to report. */
  datatype Stage = Waiting | Reporting

  datatype Finalizer = Finalizer(taken: Taken, stage: Stage)

  /** `starts` are finishListen calls in flight; `timers` the generations a timer was ever armed for;
      `segs` the segment ids of the streams ever installed, `reports` the terminal events by stream.
      `queues` hold what each stream was sent, `marked` the streams whose finalize was requested,
      `closing` those about to be closed. */
  datatype World = World(core: Core, closed: bool, starts: map<nat, Gen>, timers: set<Gen>,
                         queues: map<Stream, seq<Item>>, finalizers: map<Stream, Finalizer>, closing: set<Stream>,
                         marked: set<Stream>,
                         closes: seq<Stream>, segs: map<Stream, Gen>, reports: seq<Stream>, next: nat)

  const START := World(IDLE, false, map[], {}, map[], map[], {}, {}, [], map[], [], 0)

  datatype Action =
    | BeginListen
    | FinishListen(start: nat, made: bool, failed: bool)
    | StopListen
    | TimerFires(gen: Gen)
    | CloseFlag
    | CloseListen
    | FeedFrame(accepted: bool)
    | RequestFinalize(stream: Stream)
    | Result(stream: Stream)
    | FinalizeTimeout(stream: Stream)
    | Report(stream: Stream, canceled: bool)
    | CloseStream(stream: Stream)

  function TakenOut(w: World, t: Option<Taken>): World {
    if t.None? then w else w.(finalizers := w.finalizers[t.value.stream := Finalizer(t.value, Waiting)])
  }

  function DoFinish(w: World, start: nat, made: bool, failed: bool): World {
    if start !in w.starts then w
    else
      var stream := if made then Some(w.next) else None;
      var (core, installed) := Finish(w.core, stream, failed, w.closed, w.starts[start]);
      var w' := w.(core := core, starts := w.starts - {start}, next := w.next + 1,
                   queues := if made then w.queues[w.next := []] else w.queues);
      if installed then
        w'.(segs := w.segs[w.next := w.starts[start]], timers := w.timers + {w.starts[start]})
      else if made then w'.(closing := w.closing + {w.next}) else w'
  }

  function DoBegin(w: World): World {
    var (core, gen) := Begin(w.core);
    if gen.None? then w else w.(core := core, starts := w.starts[w.next := gen.value], next := w.next + 1)
  }

  /** A stop or the timer hands the stream to a finalizer; teardown hands it over to be closed. */
  function DoTake(w: World, taken: (Core, Option<Taken>), finalize: bool): (w': World)
    ensures w'.starts == w.starts && w'.next == w.next && w'.core == taken.0
  {
    if finalize || taken.1.None? then TakenOut(w.(core := taken.0), taken.1)
    else w.(core := taken.0, closing := w.closing + {taken.1.value.stream})
  }

  function DoFeed(w: World, accepted: bool): (w': World)
    ensures w'.starts == w.starts && w'.next == w.next && w'.core.gen == w.core.gen
  {
    var w' := w.(core := Fed(w.core, accepted));
    if w.core.stream.None? || !accepted || w.core.stream.value !in w.queues then w'
    else w'.(queues := w.queues[w.core.stream.value := w.queues[w.core.stream.value] + [Frame]])
  }

  /** The goroutine of finalizeSegment that calls Finalize. */
  function DoRequest(w: World, stream: Stream): (w': World)
    ensures w'.starts == w.starts && w'.next == w.next && w'.core == w.core
  {
    if stream !in w.finalizers || stream in w.marked || stream !in w.queues then w
    else w.(marked := w.marked + {stream}, queues := w.queues[stream := w.queues[stream] + [Marker]])
  }

  /** The result arrives and the stream is closed; or it does not, and the stream is closed in the background. */
  function DoResult(w: World, stream: Stream, arrived: bool): (w': World)
    ensures w'.starts == w.starts && w'.next == w.next && w'.core == w.core
  {
    if stream !in w.finalizers || w.finalizers[stream].stage != Waiting || (arrived && stream !in w.marked) then w
    else
      var w' := w.(finalizers := w.finalizers[stream := w.finalizers[stream].(stage := Reporting)]);
      if arrived then w'.(closes := w.closes + [stream]) else w'.(closing := w.closing + {stream})
  }

  /** The terminal event, unless the call is closed or the result was a cancellation. */
  function DoReport(w: World, stream: Stream, canceled: bool): (w': World)
    ensures w'.starts == w.starts && w'.next == w.next && w'.core == w.core
  {
    if stream !in w.finalizers || w.finalizers[stream].stage != Reporting then w
    else
      var w' := w.(finalizers := w.finalizers - {stream});
      if canceled || w.closed then w' else w'.(reports := w.reports + [stream])
  }

  function DoClose(w: World, stream: Stream): (w': World)
    ensures w'.starts == w.starts && w'.next == w.next && w'.core == w.core
  {
    if stream !in w.closing then w else w.(closing := w.closing - {stream}, closes := w.closes + [stream])
  }

  function Step(w: World, act: Action): World {
    match act
    case BeginListen => DoBegin(w)
    case FinishListen(start, made, failed) => DoFinish(w, start, made, failed)
    case StopListen => DoTake(w, Take(w.core), true)
    case TimerFires(gen) => if gen in w.timers then DoTake(w, TimedTake(w.core, gen), true) else w
    case CloseFlag => w.(closed := true)
    case CloseListen => DoTake(w, Take(w.core), false)
    case FeedFrame(accepted) => DoFeed(w, accepted)
    case RequestFinalize(stream) => DoRequest(w, stream)
    case Result(stream) => DoResult(w, stream, true)
    case FinalizeTimeout(stream) => DoResult(w, stream, false)
    case Report(stream, canceled) => DoReport(w, stream, canceled)
    case CloseStream(stream) => DoClose(w, stream)
  }

  function Run(acts: seq<Action>): World
    decreases |acts|
  {
    if acts == [] then START else Step(Run(acts[..|acts| - 1]), acts[|acts| - 1])
  }

  /** What the goroutines do: an accepted frame goes to the end of the installed stream's queue and a
      refused one is counted; a finalize request adds the marker once; a result that is neither canceled
      nor past the call's end is reported. */
  lemma StepsMean(w: World, stream: Stream, canceled: bool)
    ensures w.core.stream.Some? && w.core.stream.value in w.queues ==>
              var s := w.core.stream.value;
              && DoFeed(w, true).queues == w.queues[s := w.queues[s] + [Frame]] && DoFeed(w, true).core == w.core
              && DoFeed(w, false).queues == w.queues && DoFeed(w, false).core.dropped == w.core.dropped + 1
    ensures w.core.stream.None? ==> DoFeed(w, canceled) == w
    ensures stream in w.finalizers && stream !in w.marked && stream in w.queues ==>
              DoRequest(w, stream).queues == w.queues[stream := w.queues[stream] + [Marker]]
    ensures stream in w.finalizers && w.finalizers[stream].stage == Reporting ==>
              DoReport(w, stream, canceled).reports == w.reports + (if canceled || w.closed then [] else [stream])
    ensures stream in w.finalizers && w.finalizers[stream].stage == Waiting ==>
              && (stream in w.marked ==> DoResult(w, stream, true).closes == w.closes + [stream])
              && DoResult(w, stream, false).closing == w.closing + {stream}
  {
  }

  // ----- what every call keeps -----

  type Finalizers = map<Stream, Finalizer>

  predicate Awaits(fin: Finalizers, s: Stream) { s in fin && fin[s].stage == Waiting }

  ghost predicate Distinct(log: seq<Stream>) { forall i, j :: 0 <= i < j < |log| ==> log[i] != log[j] }

  lemma DistinctAppend(log: seq<Stream>, s: Stream)
    requires Distinct(log) && s !in log
    ensures Distinct(log + [s])
    ensures forall x :: x in log + [s] <==> x in log || x == s
  {
  }

  predicate Place(stream: Option<Stream>, fin: Finalizers, closing: set<Stream>, closes: seq<Stream>, s: Stream) {
    stream == Some(s) || Awaits(fin, s) || s in closing || s in closes
  }

  /** An opened stream is installed, awaits its result, is about to be closed, or was closed: one of these. */
  ghost predicate Placed(made: set<Stream>, stream: Option<Stream>, fin: Finalizers, closing: set<Stream>, closes: seq<Stream>) {
    && (forall s :: s in made <==> Place(stream, fin, closing, closes, s))
    && (stream.Some? ==> stream.value !in fin && stream.value !in closing && stream.value !in closes)
    && (forall s :: Awaits(fin, s) ==> s !in closing && s !in closes)
    && (forall s :: s in closing ==> s !in closes)
    && (forall s :: s in fin ==> s in made)
    && Distinct(closes)
  }

  /** A start holds the reservation, with a generation no later than the current one. */
  ghost predicate Reserved(c: Core, starts: map<nat, Gen>) {
    && (c.starting <==> starts != map[])
    && (forall a, b :: a in starts && b in starts ==> a == b)
    && (forall a :: a in starts ==> starts[a] <= c.gen)
    && (c.starting ==> c.stream.None?)
  }

  ghost predicate Named(next: nat, made: set<Stream>, starts: map<nat, Gen>, segs: map<Stream, Gen>) {
    && (forall s :: s in made ==> s < next) && (forall s :: s in starts ==> s < next)
    && segs.Keys <= made
  }

  /** Segment ids are distinct, and older than the current generation unless still installed. */
  ghost predicate Tagged(c: Core, segs: map<Stream, Gen>, fin: Finalizers) {
    && (forall s, t :: s in segs && t in segs && segs[s] == segs[t] ==> s == t)
    && (forall s :: s in segs ==> segs[s] < c.gen || (c.stream == Some(s) && segs[s] == c.gen))
    && (c.stream.Some? ==> c.stream.value in segs && segs[c.stream.value] == c.activeSeg)
    && (forall s :: s in fin ==> s in segs && fin[s].taken.stream == s && fin[s].taken.seg == segs[s])
  }

  /** A queue holds frames and, once finalize was requested, the marker at its end. */
  predicate QueueOk(q: seq<Item>, isMarked: bool) {
    if isMarked then q != [] && q[|q| - 1] == Marker && Marker !in q[..|q| - 1] else Marker !in q
  }

  ghost predicate Ordered(queues: map<Stream, seq<Item>>, marked: set<Stream>, stream: Option<Stream>) {
    && (forall s :: s in queues ==> QueueOk(queues[s], s in marked))
    && marked <= queues.Keys && (stream.Some? ==> stream.value in queues && stream.value !in marked)
  }

  /** A stream that reported is neither installed nor being finalized any more. */
  ghost predicate Reported(reports: seq<Stream>, stream: Option<Stream>, fin: Finalizers, segs: map<Stream, Gen>) {
    && Distinct(reports)
    && forall s :: s in reports ==> s in segs && s !in fin && stream != Some(s)
  }

  ghost predicate Inv(w: World) {
    && Placed(w.queues.Keys, w.core.stream, w.finalizers, w.closing, w.closes)
    && Reserved(w.core, w.starts)
    && Named(w.next, w.queues.Keys, w.starts, w.segs)
    && Tagged(w.core, w.segs, w.finalizers)
    && Ordered(w.queues, w.marked, w.core.stream)
    && Reported(w.reports, w.core.stream, w.finalizers, w.segs)
  }

  lemma InitOk()
    ensures Inv(START)
  {
  }

  lemma BeginKeeps(w: World)
    requires Inv(w)
    ensures Inv(DoBegin(w))
  {
    hide Placed, Ordered, Reported, Reserved, Tagged;
    var (core, gen) := Begin(w.core);
    if gen.Some? { NewStart(w, core, w.starts[w.next := gen.value]); }
  }

  lemma NewStart(w: World, c: Core, starts: map<nat, Gen>)
    requires Reserved(w.core, w.starts) && Tagged(w.core, w.segs, w.finalizers)
    requires Begin(w.core).1.Some? && c == Begin(w.core).0 && starts == w.starts[w.next := w.core.gen]
    ensures Reserved(c, starts) && Tagged(c, w.segs, w.finalizers)
  {
    assert w.starts == map[];
    assert w.next in starts;
  }

  lemma FinishKeeps(w: World, start: nat, made: bool, failed: bool)
    requires Inv(w)
    ensures Inv(DoFinish(w, start, made, failed))
  {
    hide Placed, Reserved, Tagged, Ordered, Reported;
    if start in w.starts {
      var w' := DoFinish(w, start, made, failed);
      FinishReserved(w, start, w'.core);
      if made {
        assert w'.queues.Keys == w.queues.Keys + {w.next};
        NewPlace(w, w'.core.stream, w'.closing);
        NewQueue(w.queues, w.marked, w.core.stream, w.next, w'.core.stream);
        NewSegment(w, w'.core, w'.segs, w.starts[start]);
      } else {
        SameTags(w, w'.core);
      }
    }
  }

  lemma FinishReserved(w: World, start: nat, c: Core)
    requires Reserved(w.core, w.starts) && start in w.starts && !c.starting
    ensures w.core.stream.None? && w.starts[start] <= w.core.gen && Reserved(c, w.starts - {start})
  {
    assert forall a :: a in w.starts ==> a == start;
    assert w.starts - {start} == map[];
  }

  lemma NewPlace(w: World, stream: Option<Stream>, closing: set<Stream>)
    requires Placed(w.queues.Keys, w.core.stream, w.finalizers, w.closing, w.closes)
    requires Named(w.next, w.queues.Keys, w.starts, w.segs) && w.core.stream.None?
    requires (stream == Some(w.next) && closing == w.closing) || (stream.None? && closing == w.closing + {w.next})
    ensures Placed(w.queues.Keys + {w.next}, stream, w.finalizers, closing, w.closes)
  {
    assert w.next !in w.queues.Keys;
    assert !Place(w.core.stream, w.finalizers, w.closing, w.closes, w.next);
    assert forall s :: Place(w.core.stream, w.finalizers, w.closing, w.closes, s) <==> s in w.queues.Keys;
  }

  lemma NewQueue(queues: map<Stream, seq<Item>>, marked: set<Stream>, stream: Option<Stream>, s: Stream, stream': Option<Stream>)
    requires Ordered(queues, marked, stream) && s !in queues && (stream'.None? || stream' == Some(s))
    ensures Ordered(queues[s := []], marked, stream')
  {
  }

  lemma NewSegment(w: World, c: Core, segs: map<Stream, Gen>, gen: Gen)
    requires Tagged(w.core, w.segs, w.finalizers) && Named(w.next, w.queues.Keys, w.starts, w.segs)
    requires Reported(w.reports, w.core.stream, w.finalizers, w.segs) && w.core.stream.None? && c.gen == w.core.gen
    requires (c.stream.None? && segs == w.segs)
             || (c.stream == Some(w.next) && gen == c.gen == c.activeSeg && segs == w.segs[w.next := gen])
    ensures Tagged(c, segs, w.finalizers) && Reported(w.reports, c.stream, w.finalizers, segs)
  {
    assert w.next !in w.segs;
    assert forall s :: s in w.segs ==> w.segs[s] < w.core.gen;
  }

  lemma SameTags(w: World, c: Core)
    requires Tagged(w.core, w.segs, w.finalizers) && Reported(w.reports, w.core.stream, w.finalizers, w.segs)
    requires c.gen == w.core.gen && c.stream == w.core.stream && c.activeSeg == w.core.activeSeg
    ensures Tagged(c, w.segs, w.finalizers) && Reported(w.reports, c.stream, w.finalizers, w.segs)
  {
  }

  function Removed(w: World, finalize: bool): World { DoTake(w, Take(w.core), finalize) }

  lemma RemoveKeeps(w: World, finalize: bool)
    requires Inv(w)
    ensures Inv(Removed(w, finalize))
  {
    hide Placed, Reserved, Tagged, Ordered, Reported;
    var w' := Removed(w, finalize);
    RemovePlaces(w, w'.finalizers, w'.closing);
    RemoveTags(w, w'.core, w'.finalizers);
  }

  lemma RemovePlaces(w: World, fin: Finalizers, closing: set<Stream>)
    requires Placed(w.queues.Keys, w.core.stream, w.finalizers, w.closing, w.closes)
    requires Ordered(w.queues, w.marked, w.core.stream)
    requires (fin == Removed(w, true).finalizers && closing == w.closing)
             || (fin == w.finalizers && closing == Removed(w, false).closing)
    ensures Placed(w.queues.Keys, None, fin, closing, w.closes) && Ordered(w.queues, w.marked, None)
  {
    var s := w.core.stream;
    if s.Some? {
      assert forall x :: Place(w.core.stream, w.finalizers, w.closing, w.closes, x) <==> Place(None, fin, closing, w.closes, x);
    }
  }

  lemma RemoveTags(w: World, c: Core, fin: Finalizers)
    requires Tagged(w.core, w.segs, w.finalizers) && Reserved(w.core, w.starts)
    requires Reported(w.reports, w.core.stream, w.finalizers, w.segs)
    requires c == Take(w.core).0 && (fin == w.finalizers || fin == Removed(w, true).finalizers)
    ensures Tagged(c, w.segs, fin) && Reserved(c, w.starts) && Reported(w.reports, None, fin, w.segs)
  {
  }

  lemma FeedKeeps(w: World, accepted: bool)
    requires Inv(w)
    ensures Inv(DoFeed(w, accepted))
  {
    hide Placed, Reserved, Tagged, Ordered, Reported, Named;
    var w' := DoFeed(w, accepted);
    FedCore(w, w'.core);
    if w.core.stream.Some? && accepted && w.core.stream.value in w.queues {
      assert w'.queues.Keys == w.queues.Keys;
      FrameQueued(w.queues, w.marked, w.core.stream, w.core.stream.value);
    }
  }

  lemma FedCore(w: World, c: Core)
    requires Reserved(w.core, w.starts) && Tagged(w.core, w.segs, w.finalizers)
    requires c.gen == w.core.gen && c.stream == w.core.stream && c.activeSeg == w.core.activeSeg
    requires c.starting == w.core.starting
    ensures Reserved(c, w.starts) && Tagged(c, w.segs, w.finalizers)
  {
  }

  lemma FrameQueued(queues: map<Stream, seq<Item>>, marked: set<Stream>, stream: Option<Stream>, s: Stream)
    requires Ordered(queues, marked, stream) && stream == Some(s) && s in queues
    ensures Ordered(queues[s := queues[s] + [Frame]], marked, stream)
  {
    assert QueueOk(queues[s], false);
    assert QueueOk(queues[s] + [Frame], false);
  }

  lemma RequestKeeps(w: World, stream: Stream)
    requires Inv(w)
    ensures Inv(DoRequest(w, stream))
  {
    hide Reserved, Tagged, Reported, Named, QueueOk;
    if stream in w.finalizers && stream !in w.marked && stream in w.queues {
      var q := w.queues[stream];
      MarkerLast(q);
      assert DoRequest(w, stream).queues.Keys == w.queues.Keys;
    }
  }

  lemma MarkerLast(q: seq<Item>)
    ensures QueueOk(q, false) ==> QueueOk(q + [Marker], true)
  {
    assert (q + [Marker])[..|q|] == q;
  }

  lemma ResultKeeps(w: World, stream: Stream)
    requires Inv(w)
    ensures Inv(DoResult(w, stream, true)) && Inv(DoResult(w, stream, false))
  {
    hide Ordered, Reserved, Named, Distinct, Placed, Tagged, Reported;
    if Awaits(w.finalizers, stream) {
      var fin := w.finalizers[stream := w.finalizers[stream].(stage := Reporting)];
      assert forall s :: Awaits(fin, s) <==> Awaits(w.finalizers, s) && s != stream;
      NotClosed(w, stream);
      DistinctAppend(w.closes, stream);
      Handed(w, fin, w.closing, w.closes + [stream], stream);
      Handed(w, fin, w.closing + {stream}, w.closes, stream);
      SameSegments(w, fin);
    }
  }

  lemma NotClosed(w: World, stream: Stream)
    requires Placed(w.queues.Keys, w.core.stream, w.finalizers, w.closing, w.closes) && Awaits(w.finalizers, stream)
    ensures stream !in w.closes && Distinct(w.closes)
  {
  }

  lemma SameSegments(w: World, fin: Finalizers)
    requires Tagged(w.core, w.segs, w.finalizers) && Reported(w.reports, w.core.stream, w.finalizers, w.segs)
    requires fin.Keys <= w.finalizers.Keys && forall s :: s in fin ==> fin[s].taken == w.finalizers[s].taken
    ensures Tagged(w.core, w.segs, fin) && Reported(w.reports, w.core.stream, fin, w.segs)
  {
    hide Distinct;
  }

  /** The place of a stream changes from awaiting its result to being closed or closed. */
  lemma Handed(w: World, fin: Finalizers, closing: set<Stream>, closes: seq<Stream>, stream: Stream)
    requires Placed(w.queues.Keys, w.core.stream, w.finalizers, w.closing, w.closes)
    requires fin.Keys == w.finalizers.Keys && Awaits(w.finalizers, stream)
    requires forall s :: Awaits(fin, s) <==> Awaits(w.finalizers, s) && s != stream
    requires (closing == w.closing && Distinct(closes) && forall s :: s in closes <==> s in w.closes || s == stream)
             || (closing == w.closing + {stream} && closes == w.closes)
    ensures Placed(w.queues.Keys, w.core.stream, fin, closing, closes)
  {
    hide Distinct;
    assert forall s :: Place(w.core.stream, fin, closing, closes, s) <==> Place(w.core.stream, w.finalizers, w.closing, w.closes, s);
  }

  lemma CloseKeeps(w: World, stream: Stream)
    requires Inv(w)
    ensures Inv(DoClose(w, stream))
  {
    hide Ordered, Reserved, Named, Distinct, Tagged, Reported;
    if stream in w.closing {
      DistinctAppend(w.closes, stream);
      var closing, closes := w.closing - {stream}, w.closes + [stream];
      assert forall s :: Place(w.core.stream, w.finalizers, closing, closes, s)
                         <==> Place(w.core.stream, w.finalizers, w.closing, w.closes, s);
    }
  }

  lemma ReportKeeps(w: World, stream: Stream, canceled: bool)
    requires Inv(w)
    ensures Inv(DoReport(w, stream, canceled))
  {
    hide Ordered, Reserved, Named, Distinct, Placed, Tagged, Reported;
    if stream in w.finalizers && w.finalizers[stream].stage == Reporting {
      var fin := w.finalizers - {stream};
      SameSegments(w, fin);
      Gone(w, fin, stream);
      ReportedOnce(w, fin, stream);
    }
  }

  lemma Gone(w: World, fin: Finalizers, stream: Stream)
    requires Placed(w.queues.Keys, w.core.stream, w.finalizers, w.closing, w.closes)
    requires !Awaits(w.finalizers, stream) && fin == w.finalizers - {stream}
    ensures Placed(w.queues.Keys, w.core.stream, fin, w.closing, w.closes)
  {
    hide Distinct;
    assert forall s :: Awaits(fin, s) <==> Awaits(w.finalizers, s);
    assert forall s :: Place(w.core.stream, fin, w.closing, w.closes, s)
                       <==> Place(w.core.stream, w.finalizers, w.closing, w.closes, s);
  }

  lemma ReportedOnce(w: World, fin: Finalizers, stream: Stream)
    requires Reported(w.reports, w.core.stream, w.finalizers, w.segs) && Tagged(w.core, w.segs, w.finalizers)
    requires Placed(w.queues.Keys, w.core.stream, w.finalizers, w.closing, w.closes)
    requires stream in w.finalizers && fin == w.finalizers - {stream}
    ensures Reported(w.reports + [stream], w.core.stream, fin, w.segs)
  {
    hide Distinct;
    assert stream !in w.reports;
    DistinctAppend(w.reports, stream);
  }

  lemma StepKeeps(w: World, act: Action)
    requires Inv(w)
    ensures Inv(Step(w, act))
  {
    hide Placed, Reserved, Tagged, Ordered, Reported, Named, DoFinish, DoBegin, DoTake, DoFeed, DoRequest, DoResult;
    hide DoReport, DoClose;
    match act {
      case BeginListen => BeginKeeps(w);
      case FinishListen(start, made, failed) => FinishKeeps(w, start, made, failed);
      case StopListen => RemoveKeeps(w, true);
      case TimerFires(gen) =>
        RemoveKeeps(w, true);
        TimerTakes(w, gen);
      case CloseFlag =>
      case CloseListen => RemoveKeeps(w, false);
      case FeedFrame(accepted) => FeedKeeps(w, accepted);
      case RequestFinalize(stream) => RequestKeeps(w, stream);
      case Result(stream) => ResultKeeps(w, stream);
      case FinalizeTimeout(stream) => ResultKeeps(w, stream);
      case Report(stream, canceled) => ReportKeeps(w, stream, canceled);
      case CloseStream(stream) => CloseKeeps(w, stream);
    }
  }

  lemma TimerTakes(w: World, gen: Gen)
    ensures Step(w, TimerFires(gen)) == w || Step(w, TimerFires(gen)) == Removed(w, true)
  {
  }

  lemma {:induction false} Reachable(acts: seq<Action>)
    ensures Inv(Run(acts))
    decreases |acts|
  {
    hide Inv, Step;
    if acts == [] {
      InitOk();
    } else {
      Reachable(acts[..|acts| - 1]);
      StepKeeps(Run(acts[..|acts| - 1]), acts[|acts| - 1]);
    }
  }

  /** Segment ids are pairwise distinct, and each segment reports at most one terminal event. */
  lemma SegmentsAreDistinct(acts: seq<Action>)
    ensures var w := Run(acts);
            && (forall s, t :: s in w.segs && t in w.segs && s != t ==> w.segs[s] != w.segs[t])
            && (forall i :: 0 <= i < |w.reports| ==> w.reports[i] in w.segs)
            && (forall i, j :: 0 <= i < j < |w.reports| ==> w.segs[w.reports[i]] != w.segs[w.reports[j]])
  {
    hide Run;
    Reachable(acts);
    var w := Run(acts);
    forall i | 0 <= i < |w.reports| ensures w.reports[i] in w.segs { assert w.reports[i] in w.reports; }
  }

  /** No stream is closed twice, none is forgotten, and once nothing is installed, being finalized
      or being closed, every opened stream has been closed exactly once. */
  lemma StreamsCloseOnce(acts: seq<Action>)
    ensures var w := Run(acts);
            && (forall i, j :: 0 <= i < j < |w.closes| ==> w.closes[i] != w.closes[j])
            && (w.core.stream.None? && w.finalizers == map[] && w.closing == {} ==>
                  forall s :: s in w.queues <==> s in w.closes)
  {
    hide Run;
    Reachable(acts);
    var w := Run(acts);
    assert forall s :: s in w.queues.Keys <==> Place(w.core.stream, w.finalizers, w.closing, w.closes, s);
  }

  /** Every accepted frame precedes its segment's finalize marker. */
  lemma FramesPrecedeMarker(acts: seq<Action>, s: Stream, i: nat, j: nat)
    requires s in Run(acts).queues && i < |Run(acts).queues[s]| && j < |Run(acts).queues[s]|
    requires Run(acts).queues[s][i] == Frame && Run(acts).queues[s][j] == Marker
    ensures i < j
  {
    hide Run, Placed, Reserved, Named, Tagged, Reported;
    Reachable(acts);
    var q := Run(acts).queues[s];
    assert QueueOk(q, s in Run(acts).marked);
    assert q[j] in q;
    forall k | 0 <= k < |q| - 1 ensures q[..|q| - 1][k] == q[k] {
    }
  }

  /** At most one start is in flight, and never beside an installed stream. */
  lemma OneSegmentAtATime(acts: seq<Action>, a: nat, b: nat)
    requires a in Run(acts).starts && b in Run(acts).starts
    ensures a == b && Run(acts).core.stream.None?
  {
    hide Run;
    Reachable(acts);
  }

  /** Once the generation has moved past the one a start captured, that start never installs. */
  lemma {:induction false} OvertakenStartNeverInstalls(acts: seq<Action>, later: seq<Action>, start: nat)
    requires start in Run(acts).starts && Run(acts).core.gen > Run(acts).starts[start]
    ensures var w := Run(acts + later);
            && w.core.gen > Run(acts).starts[start]
            && (start in w.starts ==> w.starts[start] == Run(acts).starts[start])
            && forall made, failed :: start in w.starts ==> DoFinish(w, start, made, failed).segs == w.segs
    decreases |later|
  {
    hide Inv, Step;
    if later == [] {
      assert acts + later == acts;
    } else {
      var n := |later| - 1;
      OvertakenStartNeverInstalls(acts, later[..n], start);
      assert (acts + later)[..|acts + later| - 1] == acts + later[..n];
      NextGrows(acts, later[..n], start);
      StartsKept(Run(acts + later[..n]), later[n], start);
    }
  }

  lemma StartsKept(w: World, act: Action, start: nat)
    ensures Step(w, act).core.gen >= w.core.gen && Step(w, act).next >= w.next
    ensures start in Step(w, act).starts && start < w.next ==> start in w.starts && Step(w, act).starts[start] == w.starts[start]
  {
    if act.FinishListen? {
      FinishKeepsStarts(w, act.start, act.made, act.failed);
    } else {
      OthersKeepStarts(w, act, start);
    }
  }

  lemma OthersKeepStarts(w: World, act: Action, start: nat)
    requires !act.FinishListen?
    ensures Step(w, act).core.gen >= w.core.gen && Step(w, act).next >= w.next
    ensures start in Step(w, act).starts && start < w.next ==> start in w.starts && Step(w, act).starts[start] == w.starts[start]
  {
    hide DoFinish, Finish;
  }

  lemma FinishKeepsStarts(w: World, s: nat, made: bool, failed: bool)
    ensures var w' := DoFinish(w, s, made, failed);
            && w'.core.gen >= w.core.gen && w'.next >= w.next
            && forall start :: start in w'.starts ==> start in w.starts && w'.starts[start] == w.starts[start]
  {
    hide Finish;
    if s in w.starts { FinishGen(w.core, if made then Some(w.next) else None, failed, w.closed, w.starts[s]); }
  }

  lemma FinishGen(c: Core, made: Option<Stream>, failed: bool, closed: bool, myGen: Gen)
    ensures Finish(c, made, failed, closed, myGen).0.gen == c.gen
  {
  }

  lemma {:induction false} NextGrows(acts: seq<Action>, later: seq<Action>, start: nat)
    requires start in Run(acts).starts
    ensures start < Run(acts).next <= Run(acts + later).next
    decreases |later|
  {
    hide Step, Placed, Reserved, Tagged, Ordered, Reported;
    Reachable(acts);
    if later == [] {
      assert acts + later == acts;
    } else {
      var n := |later| - 1;
      NextGrows(acts, later[..n], start);
      assert (acts + later)[..|acts + later| - 1] == acts + later[..n];
      StartsKept(Run(acts + later[..n]), later[n], start);
    }
  }

  /** A stop or teardown after beginListen keeps that start from ever installing, whatever follows. */
  lemma StopPreventsInstall(acts: seq<Action>, stop: Action, later: seq<Action>, start: nat, made: bool, failed: bool)
    requires start in Run(acts).starts && (stop == StopListen || stop == CloseListen)
    ensures var w := Run(acts + [stop] + later); start in w.starts ==> DoFinish(w, start, made, failed).segs == w.segs
  {
    hide Placed, Tagged, Ordered, Reported, DoFinish, DoTake;
    Reachable(acts);
    assert (acts + [stop])[..|acts|] == acts && (acts + [stop])[|acts|] == stop;
    assert Run(acts + [stop]) == Step(Run(acts), stop);
    OvertakenStartNeverInstalls(acts + [stop], later, start);
  }
}
