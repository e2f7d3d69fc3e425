/** What the scheduler's steps bring about: who gets cancelled and why, which runs reach the engine, and
    that a fresh fire which cannot run is left for a retry. */
module SchedulerEffects {
  import opened Wrappers
  import opened Admission
  import opened AutomationStores
  import opened Schedulers

  // ----- cancellation -----

  /** The fire that holds the lock cancels exactly if its policy is cancel_previous. */
  predicate HeldByPolicy(lock: Option<Held>) {
    lock.Some? ==> (lock.value.cancel <==> lock.value.fire.policy.CancelPrevious?)
  }

  lemma BeginHolds(caps: Caps, w: World, run: RunId)
    requires HeldByPolicy(w.lock)
    ensures HeldByPolicy(DoBeginRun(caps, w, run).lock)
  {
    hide CapsReached, AdmitRun;
  }

  lemma StepHolds(caps: Caps, w: World, act: Action)
    requires HeldByPolicy(w.lock)
    ensures HeldByPolicy(Step(caps, w, act).lock)
  {
    hide HeldByPolicy;
    NobodyHolds();
    if act.BeginRun? {
      BeginHolds(caps, w, act.run);
    } else if act.Persist? {
      PersistHolds(w, act.failed, act.applied);
    } else if act.Commit? {
      CommitFrees(w);
    } else if !act.Crash? {
      hide Step;
      SameLock(caps, w, act);
    }
  }

  lemma CommitFrees(w: World)
    ensures DoCommit(w).lock == w.lock || DoCommit(w).lock == None
  {
    hide QueueRun;
  }

  lemma SameLock(caps: Caps, w: World, act: Action)
    requires !act.BeginRun? && !act.Persist? && !act.Commit? && !act.Crash?
    ensures Step(caps, w, act).lock == w.lock
  {
    hide Stamp, Claim, EndSpec, BindSpec, CancelSpec, StopSpec;
    hide AutomationStores.Create, AutomationStores.Update, AutomationStores.SetEnabled, AutomationStores.Delete;
  }

  lemma PersistHolds(w: World, failed: bool, applied: bool)
    requires HeldByPolicy(w.lock)
    ensures HeldByPolicy(DoPersist(w, failed, applied).lock)
  {
    hide Stamp;
  }

  lemma NobodyHolds()
    ensures HeldByPolicy(None)
  {
  }

  lemma {:induction false} AlwaysHeldByPolicy(caps: Caps, acts: seq<Action>)
    ensures HeldByPolicy(Run(caps, INIT, acts).lock)
    decreases |acts|
  {
    hide Step;
    if acts != [] {
      AlwaysHeldByPolicy(caps, acts[..|acts| - 1]);
      StepHolds(caps, Run(caps, INIT, acts[..|acts| - 1]), acts[|acts| - 1]);
    }
  }

  /** Runs that are marked cancelled afterwards were before. */
  ghost predicate NoNewMarks(t: Table, t': Table, a: AutoId) {
    forall x :: x in RunsOf(t', a) && x.canceled ==> exists y :: y in RunsOf(t, a) && y.run == x.run && y.canceled
  }

  lemma SameRunsNoMarks(t: Table, t': Table, a: AutoId)
    requires RunsOf(t', a) == RunsOf(t, a)
    ensures NoNewMarks(t, t', a)
  {
  }

  lemma AdmitNoMarks(caps: Caps, t: Table, a: AutoId, user: UserId, run: RunId, b: AutoId)
    ensures NoNewMarks(t, AdmitRun(caps, t, a, user, run), b)
  {
  }

  lemma EndNoMarks(caps: Caps, t: Table, a: AutoId, run: RunId, b: AutoId)
    ensures NoNewMarks(t, EndSpec(caps, t, a, run).table, b)
  {
    hide EndSpec;
    EndDrops(caps, t, a, run);
  }

  lemma BindNoMarks(t: Table, a: AutoId, run: RunId, b: AutoId)
    ensures NoNewMarks(t, BindSpec(t, a, run), b)
  {
    hide Find;
    forall x | x in RunsOf(BindSpec(t, a, run), b) && x.canceled
      ensures exists y :: y in RunsOf(t, b) && y.run == x.run && y.canceled
    {
      var i :| 0 <= i < |RunsOf(BindSpec(t, a, run), b)| && RunsOf(BindSpec(t, a, run), b)[i] == x;
      assert RunsOf(t, b)[i] in RunsOf(t, b);
    }
  }

  lemma QueueNoMarks(t: Table, a: AutoId, cancel: bool, pf: PendingFire, b: AutoId)
    requires !cancel || b != a
    ensures NoNewMarks(t, QueueRun(t, a, cancel, pf), b)
  {
  }

  /** The step of a fire under cancel_previous that has made its replacement durable. */
  predicate Supersedes(w: World, act: Action, a: AutoId) {
    && act.Commit? && w.lock.Some? && w.lock.value.fire.auto == a && w.lock.value.fire.policy.CancelPrevious?
    && w.lock.value.asked.Some? && w.lock.value.asked.value.1
  }

  lemma StepMarks(caps: Caps, w: World, act: Action, a: AutoId)
    requires HeldByPolicy(w.lock)
    requires act != StopService && act != CancelEdit(a) && !Supersedes(w, act, a)
    ensures NoNewMarks(w.table, Step(caps, w, act).table, a)
  {
    hide NoNewMarks, DoBeginRun, DoBind, DoEndRun, DoCommit, RunsOf;
    if act.BeginRun? {
      BeginMarks(caps, w, act.run, a);
    } else if act.Bind? {
      BoundMarks(w, act.run, a);
    } else if act.EndRun? {
      EndedMarks(caps, w, act.run, a);
    } else if act.Commit? {
      CommitMarks(w, a);
    } else if act.CancelEdit? {
      OtherCancelled(w, act.a, a);
    } else if act.Crash? {
      NothingMarked(w.table, a);
    } else {
      hide Step;
      SameTableRuns(caps, w, act, a);
      SameRunsNoMarks(w.table, Step(caps, w, act).table, a);
    }
  }

  /** The steps of the store, of a fire on its way, and of a run between its binding and its end. */
  predicate OffTable(act: Action) {
    && !act.BeginRun? && !act.Bind? && !act.EndRun? && !act.Commit? && !act.CancelEdit? && !act.Crash?
    && !act.StopService? && !act.StartService?
  }

  lemma SameTableRuns(caps: Caps, w: World, act: Action, a: AutoId)
    requires OffTable(act) || act.StartService?
    ensures RunsOf(Step(caps, w, act).table, a) == RunsOf(w.table, a)
  {
    if act.StartService? {
      StartRuns(w, a);
    } else {
      hide Step;
      if StoreAct(act) { StoreTable(caps, w, act); } else { RunTable(caps, w, act); }
    }
  }

  predicate StoreAct(act: Action) {
    || act.Create? || act.Update? || act.SetEnabled? || act.Delete? || act.Read? || act.FireDue? || act.Trigger?
    || act.Persist? || act.Retry?
  }

  lemma StartRuns(w: World, a: AutoId)
    ensures RunsOf(DoStartService(w).table, a) == RunsOf(w.table, a)
  {
  }

  lemma StoreTable(caps: Caps, w: World, act: Action)
    requires StoreAct(act)
    ensures Step(caps, w, act).table == w.table
  {
    hide Stamp, Claim;
    hide AutomationStores.Create, AutomationStores.Update, AutomationStores.SetEnabled, AutomationStores.Delete;
  }

  lemma RunTable(caps: Caps, w: World, act: Action)
    requires OffTable(act) && !StoreAct(act)
    ensures Step(caps, w, act).table == w.table
  {
    hide Stamp, Claim;
  }

  lemma BeginMarks(caps: Caps, w: World, run: RunId, a: AutoId)
    ensures NoNewMarks(w.table, DoBeginRun(caps, w, run).table, a)
  {
    hide NoNewMarks, Decide, AdmitRun;
    SameRunsNoMarks(w.table, w.table, a);
    if run in w.fires { AdmitNoMarks(caps, w.table, w.fires[run].auto, w.fires[run].user, run, a); }
  }

  lemma BoundMarks(w: World, run: RunId, a: AutoId)
    ensures NoNewMarks(w.table, DoBind(w, run).table, a)
  {
    hide NoNewMarks, BindSpec;
    SameRunsNoMarks(w.table, w.table, a);
    if run in w.threads { BindNoMarks(w.table, w.threads[run].fire.auto, run, a); }
  }

  lemma EndedMarks(caps: Caps, w: World, run: RunId, a: AutoId)
    ensures NoNewMarks(w.table, DoEndRun(caps, w, run).table, a)
  {
    hide NoNewMarks, EndSpec;
    SameRunsNoMarks(w.table, w.table, a);
    if run in w.threads { EndNoMarks(caps, w.table, w.threads[run].fire.auto, run, a); }
  }

  lemma CommitMarks(w: World, a: AutoId)
    requires HeldByPolicy(w.lock) && !Supersedes(w, Commit, a)
    ensures NoNewMarks(w.table, DoCommit(w).table, a)
  {
    hide NoNewMarks, QueueRun;
    SameRunsNoMarks(w.table, w.table, a);
    if w.lock.Some? && w.lock.value.asked.Some? && w.lock.value.asked.value.1 {
      var h := w.lock.value;
      QueueNoMarks(w.table, h.fire.auto, h.cancel, PendingFire(h.fire.user, h.run, h.asked.value.0, h.fire.gen), a);
    }
  }

  lemma OtherCancelled(w: World, b: AutoId, a: AutoId)
    requires b != a
    ensures NoNewMarks(w.table, DoCancelEdit(w, b).table, a)
  {
  }

  lemma NothingMarked(t: Table, a: AutoId)
    ensures NoNewMarks(t, EMPTY, a)
  {
  }

  /** In every run of the service a run is marked cancelled only by a stop, by cancelAutomation after an
      edit of its automation, or by a fire of that automation under cancel_previous whose replacement is
      durable: never under the other policies. */
  lemma CancelledForAReason(caps: Caps, acts: seq<Action>, act: Action, a: AutoId)
    requires act != StopService && act != CancelEdit(a) && !Supersedes(Run(caps, INIT, acts), act, a)
    ensures var t, t' := Run(caps, INIT, acts).table, Step(caps, Run(caps, INIT, acts), act).table;
            forall x :: x in RunsOf(t', a) && x.canceled ==> exists y :: y in RunsOf(t, a) && y.run == x.run && y.canceled
  {
    hide Run, Step, HeldByPolicy;
    AlwaysHeldByPolicy(caps, acts);
    StepMarks(caps, Run(caps, INIT, acts), act, a);
  }

  /** A run is recorded as replaced only by such a fire: it was active for the fire's automation, it is
      marked cancelled, and the token of its replacement is the one just stamped. */
  lemma ReplacedByPolicy(caps: Caps, acts: seq<Action>, act: Action, run: RunId, token: Token)
    requires (run, token) !in Run(caps, INIT, acts).replaced
    requires (run, token) in Step(caps, Run(caps, INIT, acts), act).replaced
    ensures var w, w' := Run(caps, INIT, acts), Step(caps, Run(caps, INIT, acts), act);
            && w.lock.Some? && Supersedes(w, act, w.lock.value.fire.auto)
            && w.lock.value.asked == Some((token, true))
            && (exists x :: x in RunsOf(w.table, w.lock.value.fire.auto) && x.run == run)
            && forall x :: x in RunsOf(w'.table, w.lock.value.fire.auto) ==> x.canceled
  {
    hide Run;
    AlwaysHeldByPolicy(caps, acts);
    StepReplaces(caps, Run(caps, INIT, acts), act, run, token);
  }

  lemma StepReplaces(caps: Caps, w: World, act: Action, run: RunId, token: Token)
    requires HeldByPolicy(w.lock) && (run, token) !in w.replaced && (run, token) in Step(caps, w, act).replaced
    ensures act.Commit? && w.lock.Some? && Supersedes(w, act, w.lock.value.fire.auto) && w.lock.value.asked == Some((token, true))
    ensures exists x :: x in RunsOf(w.table, w.lock.value.fire.auto) && x.run == run
    ensures forall x :: x in RunsOf(DoCommit(w).table, w.lock.value.fire.auto) ==> x.canceled
  {
    hide DoBeginRun, DoCommit, Stamp, Claim, EndSpec, BindSpec, CancelSpec, StopSpec, RunsOf;
    hide AutomationStores.Create, AutomationStores.Update, AutomationStores.SetEnabled, AutomationStores.Delete;
    if act.Commit? {
      CommitReplaces(w, run, token);
    } else {
      SameReplaced(caps, w, act);
    }
  }

  lemma SameReplaced(caps: Caps, w: World, act: Action)
    requires !act.Commit?
    ensures Step(caps, w, act).replaced == w.replaced
  {
    hide Stamp, Claim, EndSpec, BindSpec, CancelSpec, StopSpec, Decide, AdmitRun;
    hide AutomationStores.Create, AutomationStores.Update, AutomationStores.SetEnabled, AutomationStores.Delete;
  }

  lemma CommitReplaces(w: World, run: RunId, token: Token)
    requires HeldByPolicy(w.lock) && (run, token) !in w.replaced && (run, token) in DoCommit(w).replaced
    ensures w.lock.Some? && Supersedes(w, Commit, w.lock.value.fire.auto) && w.lock.value.asked == Some((token, true))
    ensures exists x :: x in RunsOf(w.table, w.lock.value.fire.auto) && x.run == run
    ensures forall x :: x in RunsOf(DoCommit(w).table, w.lock.value.fire.auto) ==> x.canceled
  {
    assert w.lock.Some? && w.lock.value.asked.Some? && w.lock.value.asked.value.1;
    var h := w.lock.value;
    assert h.cancel;
    var runs := RunsOf(w.table, h.fire.auto);
    var i :| 0 <= i < |runs| && (runs[i].run, h.asked.value.0) == (run, token);
    assert runs[i] in runs;
  }

  // ----- which runs reach the engine -----

  /** A due row that is enabled, or one whose token is drained, fires under a new id: with nothing active
      and room under the caps it is admitted with the row's owner, policy and generation, and with the
      token exactly if it is drained. A manual trigger is admitted the same way, to insert its record. */
  lemma DueFireIsAdmitted(caps: Caps, w: World, a: AutoId, drain: bool)
    requires w.lock.None? && w.table.started && RunsOf(w.table, a) == []
    requires a in w.store.rows && w.store.rows[a].enabled && !w.store.rows[a].deleted
    requires !CapsReached(caps, w.table, w.store.rows[a].owner)
    requires drain ==> w.store.rows[a].pending.Some?
    ensures var row, run := w.store.rows[a], w.nextRun;
            var snap := Snapshot(a, row.owner, row.gen, row.pending, row.manual, row.policy);
            var due := DoBeginRun(caps, DoFireDue(DoRead(w, a), snap, drain), run);
            var asked := DoBeginRun(caps, DoTrigger(DoRead(w, a), snap), run);
            && (!row.manual ==>
                  && Is(due, run, Spawned) && due.lock.None? && due.store == w.store
                  && due.threads[run].fire
                     == Fire(a, row.owner, row.policy, false, if drain then row.pending else None, row.gen))
            && Is(asked, run, Inserting) && asked.lock.None? && asked.store == w.store
            && asked.threads[run].fire == Fire(a, row.owner, row.policy, true, None, row.gen)
  {
    hide CapsReached, AdmitRun;
    var row, run := w.store.rows[a], w.nextRun;
    var snap := Snapshot(a, row.owner, row.gen, row.pending, row.manual, row.policy);
    var read := DoRead(w, a);
    assert snap in read.snaps;
    NewFireIsAdmitted(caps, read, Fire(a, row.owner, row.policy, true, None, row.gen));
    NewFireIsAdmitted(caps, read, Fire(a, row.owner, row.policy, false, if drain then row.pending else None, row.gen));
  }

  lemma NewFireIsAdmitted(caps: Caps, w: World, f: Fire)
    requires w.lock.None? && w.table.started && RunsOf(w.table, f.auto) == [] && !CapsReached(caps, w.table, f.user)
    ensures var w' := DoBeginRun(caps, NewFire(w, f), w.nextRun);
            && Is(w', w.nextRun, if f.byUser then Inserting else Spawned)
            && w'.lock.None? && w'.store == w.store && w'.threads[w.nextRun].fire == f
  {
    hide CapsReached, AdmitRun;
  }

  /** A spawned run whose row is enabled at its generation, and whose token, if it drains one, is the
      row's, is started when nothing fails: with the row as it is read, after its token is claimed. */
  lemma RunsWhenEligible(w: World, run: RunId, row: Row)
    requires Is(w, run, Spawned) && w.lock.None?
    requires var f := w.threads[run].fire;
             f.auto in w.store.rows && w.store.rows[f.auto] == row && row.enabled && row.gen == f.gen
             && (f.token.Some? ==> row.pending == f.token)
    ensures var f := w.threads[run].fire;
            var w' := DoStart(DoClaim(DoInsert(DoCheck(DoBind(w, run), run, true), run, true), run, false, false), run);
            && w'.launches == w.launches + [Launch(run, f, row)] && Is(w', run, Running)
            && (f.token.None? ==> w'.store == w.store)
            && (f.token.Some? ==>
                  && w'.store.rows[f.auto].pending == None
                  && w'.store.claims == w.store.claims + [(f.token.value, run)])
  {
    hide BindSpec;
    var f := w.threads[run].fire;
    var w1 := DoBind(w, run);
    assert w1.threads[run] == Thread(f, Bound, w.threads[run].seen) && w1.store == w.store;
    var w2 := DoCheck(w1, run, true);
    assert w2.threads[run] == Thread(f, Checked, Some(row)) && w2.store == w.store;
    var w3 := DoInsert(w2, run, true);
    assert w3.threads[run] == Thread(f, Inserted, Some(row));
    var w4 := DoClaim(w3, run, false, false);
    assert w4.threads[run] == Thread(f, Ready, Some(row));
  }

  /** A run is turned away by the check exactly if its row cannot be read, is gone, disabled, or at
      another generation than the run's claim. */
  lemma CheckTurnsAway(w: World, run: RunId, readable: bool)
    requires Is(w, run, Bound)
    ensures var f, w' := w.threads[run].fire, DoCheck(w, run, readable);
            Is(w', run, Checked) <==>
              readable && f.auto in w.store.rows && w.store.rows[f.auto].enabled && w.store.rows[f.auto].gen == f.gen
    ensures DoCheck(w, run, readable).store == w.store
  {
  }

  /** A token that is no longer the row's keeps its run from the engine. */
  lemma LostClaimStops(w: World, run: RunId, failed: bool, applied: bool)
    requires Is(w, run, Inserted) && w.threads[run].fire.token.Some?
    requires var f := w.threads[run].fire;
             failed || f.auto !in w.store.rows || w.store.rows[f.auto].pending != f.token
    ensures Is(DoClaim(w, run, failed, applied), run, Ending) && DoClaim(w, run, failed, applied).launches == w.launches
  {
  }

  /** A fresh scheduled fire that meets a full cap, an unreadable row, or a record that cannot be written
      is left for a retry under its generation; one that drains a token leaves the token where it is. */
  lemma FreshFireIsRetried(caps: Caps, w: World, run: RunId)
    ensures run in w.fires && w.lock.None? && !w.fires[run].byUser && w.fires[run].token.None?
            && Decide(caps, w.table, w.fires[run].auto, w.fires[run].user, w.fires[run].policy, false).Capped? ==>
              (w.fires[run].auto, w.fires[run].gen) in DoBeginRun(caps, w, run).retries
    ensures run in w.threads && !w.threads[run].fire.byUser ==>
              var f := w.threads[run].fire;
              && (f.token.None? && Is(w, run, Bound) ==> (f.auto, f.gen) in DoCheck(w, run, false).retries)
              && (f.token.None? && Is(w, run, Checked) ==> (f.auto, f.gen) in DoInsert(w, run, false).retries)
              && (f.token.None? && Is(w, run, Checked) ==> (f.auto, f.gen) in DoReject(w, run, false, true).retries)
              && (f.token.Some? ==>
                    && DoCheck(w, run, false).store == w.store && DoInsert(w, run, false).store == w.store
                    && DoReject(w, run, false, true).store == w.store)
  {
    hide AdmitRun, Decide;
  }

  /** A retry stamps a new token on a row that is still enabled at the fire's generation. */
  lemma RetryStamps(w: World, a: AutoId, gen: nat)
    requires (a, gen) in w.retries
    ensures a in w.store.rows && w.store.rows[a].gen == gen && w.store.rows[a].enabled && !w.store.rows[a].deleted ==>
              DoRetry(w, a, gen).store.rows[a].pending == Some(w.store.nextToken)
  {
  }

  /** The replacement runs under the id that was reported for it, its own token and generation, and the
      policy its row has by then; without a readable row it is left to the next drain of its token. */
  lemma ReplacementFires(w: World, run: RunId, readable: bool)
    requires run in w.threads && w.threads[run].pc.Over? && w.threads[run].pc.next.Some?
    ensures var a, pf, w' := w.threads[run].fire.auto, w.threads[run].pc.next.value, DoRestart(w, run, readable);
            && w'.store == w.store
            && (readable && a in w.store.rows ==>
                  w'.fires == w.fires[pf.run := Fire(a, pf.user, w.store.rows[a].policy, false, Some(pf.token), pf.gen)])
            && (!readable || a !in w.store.rows ==> w'.fires == w.fires)
  {
  }
}
