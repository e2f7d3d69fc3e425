/** The durable scheduler as a state machine. One step is one critical section of the service's
    mutex, one store statement, or one wait-group change; steps of ticks, drains, runs, user edits
    and crashes interleave freely. */
module Schedulers {
  import opened Wrappers
  import opened Admission
  import opened AutomationStores

  /** A row as a tick, the reconciler or a manual trigger read it: enabled at that moment. */
  datatype Snapshot = Snapshot(auto: AutoId, owner: UserId, gen: nat, token: Option<Token>, manual: bool, policy: Policy)

  /** A fire on its way to admission. `byUser`: a manual trigger. `token`: the occurrence it drains. */
  datatype Fire = Fire(auto: AutoId, user: UserId, policy: Policy, byUser: bool, token: Option<Token>, gen: nat)

  /** Where an admitted run is, between beginRun and the end of its deferred calls. */
  datatype Pc =
    | Inserting                           // a manual trigger inserting its record
    | Spawned | Bound | Checked | Inserted | Ready | Running
    | Ending                              // before the deferred endRun
    | Over(next: Option<PendingFire>)     // after endRun, before wg.Done

  datatype Thread = Thread(fire: Fire, pc: Pc, seen: Option<Row>)

  /** beginRun holding the mutex across the store write that queues a replacement. */
  datatype Held = Held(run: RunId, fire: Fire, cancel: bool, asked: Option<(Token, bool)>)

  /** An engine run that execute started, with the row it had read. */
  datatype Launch = Launch(run: RunId, fire: Fire, seen: Row)

  datatype World = World(
    store: Store, table: Table,
    wg: int, loops: nat,                    // the wait group; scheduler loops not yet returned
    fires: map<RunId, Fire>, threads: map<RunId, Thread>, lock: Option<Held>,
    edits: multiset<AutoId>,                // edits in effect whose cancelAutomation has not run; if the
                                            // store reported an error it never does
    snaps: set<Snapshot>,
    retries: set<(AutoId, nat)>,            // fires to be marked for retry: automation and generation
    nextRun: RunId,
    launches: seq<Launch>,
    replaced: set<(RunId, Token)>,          // runs cancelled by cancel_previous, with the replacement
    width: map<AutoId, nat>)                // the widest policy each automation was admitted under

  const INIT := World(NO_ROWS, EMPTY, 0, 0, map[], map[], None, multiset{}, {}, {}, 0, [], {}, map[])

  datatype Action =
    | Create(a: AutoId, owner: UserId, manual: bool, policy: Policy)
    | Update(a: AutoId, manual: bool, policy: Policy)
    | SetEnabled(a: AutoId, enabled: bool, gen: nat)
    | Delete(a: AutoId)
    | CancelEdit(a: AutoId)
    | Read(a: AutoId)
    | FireDue(snap: Snapshot, drain: bool)
    | Trigger(snap: Snapshot)
    | BeginRun(run: RunId)
    | Persist(failed: bool, applied: bool)
    | Commit
    | Retry(a: AutoId, gen: nat)
    | InsertManual(run: RunId, ok: bool)
    | Bind(run: RunId)
    | Check(run: RunId, readable: bool)
    | Reject(run: RunId, recorded: bool, claimed: bool)
    | Insert(run: RunId, ok: bool)
    | ClaimToken(run: RunId, failed: bool, applied: bool)
    | Start(run: RunId)
    | Finish(run: RunId)
    | EndRun(run: RunId)
    | Restart(run: RunId, readable: bool)
    | Done(run: RunId)
    | StartService
    | LoopStart
    | StopService
    | LoopExit
    | Crash

  predicate Is(w: World, run: RunId, pc: Pc) { run in w.threads && w.threads[run].pc == pc }

  function SetPc(w: World, run: RunId, pc: Pc): World
    requires run in w.threads
  {
    w.(threads := w.threads[run := w.threads[run].(pc := pc)])
  }

  /** Leaves execute. A scheduled fire that drains no token is marked for retry when `retry`. */
  function GiveUp(w: World, run: RunId, retry: bool): World
    requires run in w.threads
  {
    var f := w.threads[run].fire;
    SetPc(w, run, Ending).(retries := if retry && !f.byUser && f.token.None? then w.retries + {(f.auto, f.gen)} else w.retries)
  }

  function Max(x: nat, y: nat): nat { if x < y then y else x }

  // ----- user edits and reads -----

  function DoCreate(w: World, a: AutoId, owner: UserId, manual: bool, policy: Policy): World {
    w.(store := AutomationStores.Create(w.store, a, owner, manual, policy))
  }

  function DoUpdate(w: World, a: AutoId, manual: bool, policy: Policy): World {
    DoEdit(w, a, (AutomationStores.Update(w.store, a, manual, policy), a in w.store.rows), true)
  }

  function DoSetEnabled(w: World, a: AutoId, enabled: bool, gen: nat): World {
    DoEdit(w, a, AutomationStores.SetEnabled(w.store, a, enabled, gen), !enabled)
  }

  function DoDelete(w: World, a: AutoId): World { DoEdit(w, a, AutomationStores.Delete(w.store, a), true) }

  /** cancelAutomation, after a committed edit. */
  function DoCancelEdit(w: World, a: AutoId): World {
    if a !in w.edits || w.lock.Some? then w else w.(table := CancelSpec(w.table, a), edits := w.edits - multiset{a})
  }

  function DoEdit(w: World, a: AutoId, edit: (Store, bool), cancels: bool): World {
    if edit.1 then w.(store := edit.0, edits := if cancels then w.edits + multiset{a} else w.edits) else w
  }

  function DoRead(w: World, a: AutoId): World {
    if a !in w.store.rows || !w.store.rows[a].enabled || w.store.rows[a].deleted then w
    else
      var row := w.store.rows[a];
      w.(snaps := w.snaps + {Snapshot(a, row.owner, row.gen, row.pending, row.manual, row.policy)})
  }

  // ----- fireWithID and TriggerNow up to admission -----

  function NewFire(w: World, f: Fire): World {
    w.(fires := w.fires[w.nextRun := f], nextRun := w.nextRun + 1, wg := w.wg + 1)
  }

  function DoFireDue(w: World, s: Snapshot, drain: bool): World {
    if s !in w.snaps || s.manual || (drain && s.token.None?) then w
    else NewFire(w, Fire(s.auto, s.owner, s.policy, false, if drain then s.token else None, s.gen))
  }

  function DoTrigger(w: World, s: Snapshot): World {
    if s !in w.snaps then w else NewFire(w, Fire(s.auto, s.owner, s.policy, true, None, s.gen))
  }

  function DoBeginRun(caps: Caps, w: World, run: RunId): World {
    if run !in w.fires || w.lock.Some? then w
    else
      var f := w.fires[run];
      var gone := w.(fires := w.fires - {run});
      match Decide(caps, w.table, f.auto, f.user, f.policy, f.byUser)
      case Refuse => gone.(wg := w.wg - 1)
      case Capped =>
        gone.(wg := w.wg - 1,
              retries := if !f.byUser && f.token.None? then w.retries + {(f.auto, f.gen)} else w.retries)
      case Queue(cancel) => gone.(lock := Some(Held(run, f, cancel, None)))
      case Admit => DoAdmit(caps, w, run)
  }

  function DoAdmit(caps: Caps, w: World, run: RunId): World
    requires run in w.fires
  {
    var f := w.fires[run];
    w.(fires := w.fires - {run},
       table := AdmitRun(caps, w.table, f.auto, f.user, run),
       threads := w.threads[run := Thread(f, if f.byUser then Inserting else Spawned, None)],
       width := w.width[f.auto := Max(WidthOf(w, f.auto), Width(f.policy))])
  }

  function WidthOf(w: World, a: AutoId): nat { if a in w.width then w.width[a] else 0 }

  /** The durable stamp inside beginRun; a failed write may still have been applied. */
  function DoPersist(w: World, failed: bool, applied: bool): World {
    if w.lock.None? || w.lock.value.asked.Some? then w
    else
      var h := w.lock.value;
      var (store, ok) := Stamp(w.store, h.fire.auto, h.fire.gen);
      w.(store := if failed && !applied then w.store else store,
         lock := Some(h.(asked := Some((w.store.nextToken, ok && !failed)))))
  }

  /** The rest of beginRun: queue the replacement if its token is durable, and unlock. */
  function DoCommit(w: World): World {
    if w.lock.None? || w.lock.value.asked.None? then w
    else
      var h := w.lock.value;
      var f := h.fire;
      var (token, stamped) := h.asked.value;
      var w' := w.(lock := None, wg := w.wg - 1);
      if stamped then DoQueue(w', h, token) else w'
  }

  function DoQueue(w: World, h: Held, token: Token): World {
    var f := h.fire;
    var runs := RunsOf(w.table, f.auto);
    w.(table := QueueRun(w.table, f.auto, h.cancel, PendingFire(f.user, h.run, token, f.gen)),
       replaced := if h.cancel then w.replaced + (set i | 0 <= i < |runs| :: (runs[i].run, token)) else w.replaced)
  }

  function DoRetry(w: World, a: AutoId, gen: nat): World {
    if (a, gen) !in w.retries then w else w.(store := Stamp(w.store, a, gen).0, retries := w.retries - {(a, gen)})
  }

  // ----- execute -----

  function DoInsertManual(w: World, run: RunId, ok: bool): World {
    if !Is(w, run, Inserting) then w else SetPc(w, run, if ok then Spawned else Ending)
  }

  function DoBind(w: World, run: RunId): World {
    if !Is(w, run, Spawned) || w.lock.Some? then w
    else SetPc(w.(table := BindSpec(w.table, w.threads[run].fire.auto, run)), run, Bound)
  }

  /** Re-reads the row: it must still be enabled, at the generation of the claim. */
  function DoCheck(w: World, run: RunId, readable: bool): World {
    if !Is(w, run, Bound) then w
    else
      var f := w.threads[run].fire;
      if !readable then GiveUp(w, run, true)
      else if f.auto !in w.store.rows then GiveUp(w, run, false)
      else
        var row := w.store.rows[f.auto];
        if !row.enabled || row.gen != f.gen then GiveUp(w, run, false)
        else w.(threads := w.threads[run := Thread(f, Checked, Some(row))])
  }

  /** No longer eligible: a failed record is written and the token consumed, or it is left for retry.
      A claim that does not take effect leaves the token for another drain. */
  function DoReject(w: World, run: RunId, recorded: bool, claimed: bool): World {
    if !Is(w, run, Checked) then w
    else
      var f := w.threads[run].fire;
      if !recorded && !f.byUser then GiveUp(w, run, true)
      else if f.token.Some? && claimed then GiveUp(w.(store := Claim(w.store, f.auto, f.token.value, run).0), run, false)
      else GiveUp(w, run, false)
  }

  function DoInsert(w: World, run: RunId, ok: bool): World {
    if !Is(w, run, Checked) then w
    else if ok || w.threads[run].fire.byUser then SetPc(w, run, Inserted)
    else GiveUp(w, run, true)
  }

  /** Claims the drained token before any side effect. */
  function DoClaim(w: World, run: RunId, failed: bool, applied: bool): World {
    if !Is(w, run, Inserted) then w
    else
      var f := w.threads[run].fire;
      if f.token.None? then SetPc(w, run, Ready)
      else
        var (store, won) := Claim(w.store, f.auto, f.token.value, run);
        if failed then GiveUp(if applied then w.(store := store) else w, run, false)
        else if won then SetPc(w.(store := store), run, Ready)
        else GiveUp(w, run, false)
  }

  function DoStart(w: World, run: RunId): World {
    if !Is(w, run, Ready) || w.threads[run].seen.None? then w
    else SetPc(w.(launches := w.launches + [Launch(run, w.threads[run].fire, w.threads[run].seen.value)]), run, Running)
  }

  /** The engine run ends, or the run workspace could not be created. */
  function DoFinish(w: World, run: RunId): World {
    if !Is(w, run, Running) && !Is(w, run, Ready) then w else SetPc(w, run, Ending)
  }

  function DoEndRun(caps: Caps, w: World, run: RunId): World {
    if !Is(w, run, Ending) || w.lock.Some? then w
    else
      var e := EndSpec(caps, w.table, w.threads[run].fire.auto, run);
      SetPc(w.(table := e.table), run, Over(e.next))
  }

  /** startPending: reads the current row and fires under the queued run's id, token and generation. */
  function DoRestart(w: World, run: RunId, readable: bool): World {
    if run !in w.threads || !w.threads[run].pc.Over? || w.threads[run].pc.next.None? then w
    else
      var a, pf := w.threads[run].fire.auto, w.threads[run].pc.next.value;
      var w' := SetPc(w, run, Over(None));
      if !readable || a !in w.store.rows then w'
      else
        w'.(fires := w.fires[pf.run := Fire(a, pf.user, w.store.rows[a].policy, false, Some(pf.token), pf.gen)],
            wg := w.wg + 1)
  }

  function DoDone(w: World, run: RunId): World {
    if !Is(w, run, Over(None)) then w else w.(threads := w.threads - {run}, wg := w.wg - 1)
  }

  // ----- the service -----

  function DoStartService(w: World): World {
    if w.lock.Some? || w.table.started then w else w.(table := w.table.(started := true))
  }

  /** Start adds its loop to the wait group once the reconciler is done; nothing here needs that order. */
  function DoLoopStart(w: World): World { w.(loops := w.loops + 1, wg := w.wg + 1) }

  function DoStopService(w: World): World { if w.lock.Some? then w else w.(table := StopSpec(w.table)) }

  function DoLoopExit(w: World): World { if w.loops > 0 then w.(loops := w.loops - 1, wg := w.wg - 1) else w }

  /** A crash loses all memory; only the store survives. */
  function DoCrash(w: World): World {
    w.(table := EMPTY, wg := 0, loops := 0, fires := map[], threads := map[], lock := None, edits := multiset{},
       snaps := {}, retries := {}, width := map[])
  }

  function Step(caps: Caps, w: World, act: Action): World {
    match act
    case Create(a, owner, manual, policy) => DoCreate(w, a, owner, manual, policy)
    case Update(a, manual, policy) => DoUpdate(w, a, manual, policy)
    case SetEnabled(a, enabled, gen) => DoSetEnabled(w, a, enabled, gen)
    case Delete(a) => DoDelete(w, a)
    case CancelEdit(a) => DoCancelEdit(w, a)
    case Read(a) => DoRead(w, a)
    case FireDue(snap, drain) => DoFireDue(w, snap, drain)
    case Trigger(snap) => DoTrigger(w, snap)
    case BeginRun(run) => DoBeginRun(caps, w, run)
    case Persist(failed, applied) => DoPersist(w, failed, applied)
    case Commit => DoCommit(w)
    case Retry(a, gen) => DoRetry(w, a, gen)
    case InsertManual(run, ok) => DoInsertManual(w, run, ok)
    case Bind(run) => DoBind(w, run)
    case Check(run, readable) => DoCheck(w, run, readable)
    case Reject(run, recorded, claimed) => DoReject(w, run, recorded, claimed)
    case Insert(run, ok) => DoInsert(w, run, ok)
    case ClaimToken(run, failed, applied) => DoClaim(w, run, failed, applied)
    case Start(run) => DoStart(w, run)
    case Finish(run) => DoFinish(w, run)
    case EndRun(run) => DoEndRun(caps, w, run)
    case Restart(run, readable) => DoRestart(w, run, readable)
    case Done(run) => DoDone(w, run)
    case StartService => DoStartService(w)
    case LoopStart => DoLoopStart(w)
    case StopService => DoStopService(w)
    case LoopExit => DoLoopExit(w)
    case Crash => DoCrash(w)
  }

  function Run(caps: Caps, w: World, acts: seq<Action>): World
    decreases |acts|
  {
    if acts == [] then w else Step(caps, Run(caps, w, acts[..|acts| - 1]), acts[|acts| - 1])
  }
}
