/** What an automation's configured policies bound: as long as no stored definition allows more than
    n active runs, no more than n are ever active, whatever fires, drains and restarts interleave. */
module SchedulerWidths {
  import opened Wrappers
  import opened Admission
  import opened AutomationStores
  import opened Schedulers
  import opened SchedulerProofs

  /** The action does not configure `a` with a policy wider than n. */
  predicate Configures(act: Action, a: AutoId, n: nat) {
    match act
    case Create(b, _, _, policy) => b == a ==> Width(policy) <= n
    case Update(b, _, policy) => b == a ==> Width(policy) <= n
    case _ => true
  }

  predicate RowNarrow(rows: map<AutoId, Row>, a: AutoId, n: nat) { a in rows ==> Width(rows[a].policy) <= n }

  ghost predicate SnapsNarrow(snaps: set<Snapshot>, a: AutoId, n: nat) {
    forall s :: s in snaps && s.auto == a ==> Width(s.policy) <= n
  }

  ghost predicate FiresNarrow(fires: map<RunId, Fire>, a: AutoId, n: nat) {
    forall r :: r in fires && fires[r].auto == a ==> Width(fires[r].policy) <= n
  }

  /** No row, reading or fire of `a` carries a wider policy, and none was admitted under one. */
  ghost predicate Narrow(w: World, a: AutoId, n: nat) {
    && RowNarrow(w.store.rows, a, n) && SnapsNarrow(w.snaps, a, n) && FiresNarrow(w.fires, a, n) && WidthOf(w, a) <= n
  }

  predicate SamePolicy(s: Store, s': Store, a: AutoId) {
    a in s'.rows ==> a in s.rows && s'.rows[a].policy == s.rows[a].policy
  }

  /** A step that stores no definition, reads no row, fires nothing and admits nothing. */
  predicate Unwidened(w: World, w': World, a: AutoId) {
    w'.snaps == w.snaps && w'.width == w.width && w'.fires == w.fires && SamePolicy(w.store, w'.store, a)
  }

  lemma NarrowFrame(w: World, w': World, a: AutoId, n: nat)
    requires Narrow(w, a, n) && Unwidened(w, w', a)
    ensures Narrow(w', a, n)
  {
    hide Width;
  }

  lemma StatementsKeepPolicy(s: Store, a: AutoId, b: AutoId, enabled: bool, gen: nat, token: Token, run: RunId)
    ensures SamePolicy(s, AutomationStores.SetEnabled(s, b, enabled, gen).0, a)
    ensures SamePolicy(s, AutomationStores.Delete(s, b).0, a)
    ensures SamePolicy(s, Stamp(s, b, gen).0, a) && SamePolicy(s, Claim(s, b, token, run).0, a)
  {
    hide Resolve;
  }

  lemma SwitchUnwidened(w: World, b: AutoId, enabled: bool, gen: nat, a: AutoId)
    ensures Unwidened(w, DoSetEnabled(w, b, enabled, gen), a) && Unwidened(w, DoDelete(w, b), a)
    ensures Unwidened(w, DoCancelEdit(w, b), a)
  {
    hide AutomationStores.SetEnabled, AutomationStores.Delete, CancelSpec, DoEdit, Unwidened;
    StatementsKeepPolicy(w.store, a, b, enabled, gen, 0, 0);
    EditUnwidened(w, b, AutomationStores.SetEnabled(w.store, b, enabled, gen), !enabled, a);
    EditUnwidened(w, b, AutomationStores.Delete(w.store, b), true, a);
    CancelUnwidened(w, b, a);
  }

  lemma EditUnwidened(w: World, b: AutoId, edit: (Store, bool), cancels: bool, a: AutoId)
    requires SamePolicy(w.store, edit.0, a)
    ensures Unwidened(w, DoEdit(w, b, edit, cancels), a)
  {
  }

  lemma CancelUnwidened(w: World, b: AutoId, a: AutoId)
    ensures Unwidened(w, DoCancelEdit(w, b), a)
  {
    hide CancelSpec;
  }

  lemma StampUnwidened(w: World, failed: bool, applied: bool, b: AutoId, gen: nat, a: AutoId)
    ensures Unwidened(w, DoPersist(w, failed, applied), a) && Unwidened(w, DoRetry(w, b, gen), a)
  {
    hide Stamp;
    StatementsKeepPolicy(w.store, a, b, false, gen, 0, 0);
    if w.lock.Some? { StatementsKeepPolicy(w.store, a, w.lock.value.fire.auto, false, w.lock.value.fire.gen, 0, 0); }
  }

  lemma CommitUnwidened(w: World, a: AutoId)
    ensures Unwidened(w, DoCommit(w), a)
  {
    hide QueueRun;
  }

  lemma ClaimUnwidened(w: World, run: RunId, failed: bool, applied: bool, a: AutoId)
    ensures Unwidened(w, DoClaim(w, run, failed, applied), a) && Unwidened(w, DoReject(w, run, failed, applied), a)
  {
    hide Claim;
    if run in w.threads && w.threads[run].fire.token.Some? {
      var f := w.threads[run].fire;
      StatementsKeepPolicy(w.store, a, f.auto, false, 0, f.token.value, run);
    }
  }

  lemma CheckUnwidened(w: World, run: RunId, ok: bool, a: AutoId)
    ensures Unwidened(w, DoCheck(w, run, ok), a) && Unwidened(w, DoInsertManual(w, run, ok), a)
    ensures Unwidened(w, DoInsert(w, run, ok), a)
  {
  }

  lemma RunUnwidened(caps: Caps, w: World, run: RunId, a: AutoId)
    ensures Unwidened(w, DoBind(w, run), a) && Unwidened(w, DoStart(w, run), a) && Unwidened(w, DoFinish(w, run), a)
    ensures Unwidened(w, DoEndRun(caps, w, run), a) && Unwidened(w, DoDone(w, run), a)
  {
    hide BindSpec, EndSpec;
  }

  lemma ServiceUnwidened(w: World, a: AutoId)
    ensures Unwidened(w, DoStartService(w), a) && Unwidened(w, DoStopService(w), a)
    ensures Unwidened(w, DoLoopStart(w), a) && Unwidened(w, DoLoopExit(w), a)
  {
    hide StopSpec;
  }

  lemma EditNarrow(w: World, b: AutoId, owner: UserId, manual: bool, policy: Policy, a: AutoId, n: nat)
    requires Narrow(w, a, n) && (b == a ==> Width(policy) <= n)
    ensures Narrow(DoCreate(w, b, owner, manual, policy), a, n) && Narrow(DoUpdate(w, b, manual, policy), a, n)
  {
    hide Resolve, Width;
  }

  lemma ReadNarrow(w: World, b: AutoId, a: AutoId, n: nat)
    requires Narrow(w, a, n)
    ensures Narrow(DoRead(w, b), a, n)
  {
    hide Width;
  }

  lemma FireNarrow(w: World, snap: Snapshot, drain: bool, a: AutoId, n: nat)
    requires Narrow(w, a, n)
    ensures Narrow(DoFireDue(w, snap, drain), a, n) && Narrow(DoTrigger(w, snap), a, n)
  {
    hide Width;
  }

  lemma BeginNarrow(caps: Caps, w: World, run: RunId, a: AutoId, n: nat)
    requires Narrow(w, a, n)
    ensures Narrow(DoBeginRun(caps, w, run), a, n)
  {
    hide Decide, AdmitRun, Width;
  }

  /** A replacement runs under the policy its row has when it starts. */
  lemma RestartNarrow(w: World, run: RunId, readable: bool, a: AutoId, n: nat)
    requires Narrow(w, a, n)
    ensures Narrow(DoRestart(w, run, readable), a, n)
  {
    hide Width;
  }

  lemma CrashNarrow(w: World, a: AutoId, n: nat)
    requires Narrow(w, a, n)
    ensures Narrow(DoCrash(w), a, n)
  {
    hide Width;
  }

  lemma StepNarrow(caps: Caps, w: World, act: Action, a: AutoId, n: nat)
    requires Narrow(w, a, n) && Configures(act, a, n)
    ensures Narrow(Step(caps, w, act), a, n)
  {
    hide Narrow, Unwidened, Width, DoCreate, DoUpdate, DoSetEnabled, DoDelete, DoCancelEdit, DoRead, DoFireDue, DoTrigger;
    hide DoBeginRun, DoPersist, DoCommit, DoRetry, DoInsertManual, DoBind, DoCheck, DoReject, DoInsert, DoClaim, DoStart;
    hide DoFinish, DoEndRun, DoRestart, DoDone, DoStartService, DoStopService, DoLoopStart, DoLoopExit;
    hide DoCrash;
    match act {
      case Create(b, owner, manual, policy) => EditNarrow(w, b, owner, manual, policy, a, n);
      case Update(b, manual, policy) => EditNarrow(w, b, 0, manual, policy, a, n);
      case Read(b) => ReadNarrow(w, b, a, n);
      case FireDue(snap, drain) => FireNarrow(w, snap, drain, a, n);
      case Trigger(snap) => FireNarrow(w, snap, false, a, n);
      case BeginRun(run) => BeginNarrow(caps, w, run, a, n);
      case Restart(run, readable) => RestartNarrow(w, run, readable, a, n);
      case Crash => CrashNarrow(w, a, n);
      case _ =>
        OtherUnwidened(caps, w, act, a);
        NarrowFrame(w, Step(caps, w, act), a, n);
    }
  }

  lemma OtherUnwidened(caps: Caps, w: World, act: Action, a: AutoId)
    requires !act.Create? && !act.Update? && !act.Read? && !act.FireDue? && !act.Trigger? && !act.BeginRun?
    requires !act.Restart? && !act.Crash?
    ensures Unwidened(w, Step(caps, w, act), a)
  {
    hide Unwidened, DoSetEnabled, DoDelete, DoCancelEdit, DoPersist, DoCommit, DoRetry, DoInsertManual, DoBind, DoCheck;
    hide DoReject, DoInsert, DoClaim, DoStart, DoFinish, DoEndRun, DoDone, DoStartService, DoStopService, DoLoopStart;
    hide DoLoopExit;
    match act {
      case SetEnabled(b, enabled, gen) => SwitchUnwidened(w, b, enabled, gen, a);
      case Delete(b) => SwitchUnwidened(w, b, false, 0, a);
      case CancelEdit(b) => SwitchUnwidened(w, b, false, 0, a);
      case Persist(failed, applied) => StampUnwidened(w, failed, applied, 0, 0, a);
      case Retry(b, gen) => StampUnwidened(w, false, false, b, gen, a);
      case Commit => CommitUnwidened(w, a);
      case Check(run, readable) => CheckUnwidened(w, run, readable, a);
      case InsertManual(run, ok) => CheckUnwidened(w, run, ok, a);
      case Insert(run, ok) => CheckUnwidened(w, run, ok, a);
      case Reject(run, recorded, claimed) => ClaimUnwidened(w, run, recorded, claimed, a);
      case ClaimToken(run, failed, applied) => ClaimUnwidened(w, run, failed, applied, a);
      case Bind(run) => RunUnwidened(caps, w, run, a);
      case Start(run) => RunUnwidened(caps, w, run, a);
      case Finish(run) => RunUnwidened(caps, w, run, a);
      case EndRun(run) => RunUnwidened(caps, w, run, a);
      case Done(run) => RunUnwidened(caps, w, run, a);
      case StartService => ServiceUnwidened(w, a);
      case StopService => ServiceUnwidened(w, a);
      case LoopStart => ServiceUnwidened(w, a);
      case LoopExit => ServiceUnwidened(w, a);
    }
  }

  lemma {:induction false} AllNarrow(caps: Caps, acts: seq<Action>, a: AutoId, n: nat)
    requires forall i :: 0 <= i < |acts| ==> Configures(acts[i], a, n)
    ensures Narrow(Run(caps, INIT, acts), a, n)
    decreases |acts|
  {
    hide Step, Configures;
    if acts != [] {
      var before := acts[..|acts| - 1];
      assert forall i :: 0 <= i < |before| ==> before[i] == acts[i];
      AllNarrow(caps, before, a, n);
      StepNarrow(caps, Run(caps, INIT, before), acts[|acts| - 1], a, n);
    }
  }

  /** An automation whose definitions never allow more than n active runs never has more. */
  lemma ConfiguredWidthHolds(caps: Caps, acts: seq<Action>, a: AutoId, n: nat)
    requires forall i :: 0 <= i < |acts| ==> Configures(acts[i], a, n)
    ensures |RunsOf(Run(caps, INIT, acts).table, a)| <= n
  {
    hide Configures, Run;
    AllNarrow(caps, acts, a, n);
    PermitsConserved(caps, acts, a);
  }

  /** The action does not configure `a` to run in parallel. */
  predicate KeepsAlone(act: Action, a: AutoId) {
    match act
    case Create(b, _, _, policy) => b == a ==> !policy.Parallel?
    case Update(b, _, policy) => b == a ==> !policy.Parallel?
    case _ => true
  }

  /** Under the policies that are not parallel at most one run of an automation is ever active. */
  lemma OneRunUnlessParallel(caps: Caps, acts: seq<Action>, a: AutoId)
    requires forall i :: 0 <= i < |acts| ==> KeepsAlone(acts[i], a)
    ensures |RunsOf(Run(caps, INIT, acts).table, a)| <= 1
  {
    hide Run;
    forall i | 0 <= i < |acts| ensures Configures(acts[i], a, 1) { assert KeepsAlone(acts[i], a); }
    ConfiguredWidthHolds(caps, acts, a, 1);
  }
}
