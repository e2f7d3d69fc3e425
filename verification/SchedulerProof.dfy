/** What every run of the scheduler keeps, across crashes and any interleaving. */
module SchedulerProofs {
  import opened Wrappers
  import opened Admission
  import opened AutomationStores
  import opened Schedulers

  // ----- entries of the run table -----

  ghost predicate HasEntry(t: Table, a: AutoId, run: RunId) {
    exists i :: 0 <= i < |RunsOf(t, a)| && RunsOf(t, a)[i].run == run
  }

  ghost predicate Canceled(t: Table, a: AutoId, run: RunId) {
    exists i :: 0 <= i < |RunsOf(t, a)| && RunsOf(t, a)[i].run == run && RunsOf(t, a)[i].canceled
  }

  lemma AdmitEntries(caps: Caps, t: Table, a: AutoId, user: UserId, run: RunId, b: AutoId, r: RunId)
    ensures var t' := AdmitRun(caps, t, a, user, run);
            && (HasEntry(t', b, r) <==> HasEntry(t, b, r) || (b == a && r == run))
            && (Canceled(t, b, r) ==> Canceled(t', b, r))
  {
    var t' := AdmitRun(caps, t, a, user, run);
    if b == a {
      var n := |RunsOf(t, a)|;
      assert RunsOf(t', a)[n].run == run;
      assert forall i :: 0 <= i < n ==> RunsOf(t', a)[i] == RunsOf(t, a)[i];
    } else {
      assert RunsOf(t', b) == RunsOf(t, b);
    }
  }

  lemma MarkEntries(t: Table, t': Table, b: AutoId, r: RunId)
    requires SameRuns(t.active, t'.active)
    requires forall i :: 0 <= i < |RunsOf(t, b)| && RunsOf(t, b)[i].canceled ==> RunsOf(t', b)[i].canceled
    ensures HasEntry(t', b, r) <==> HasEntry(t, b, r)
    ensures Canceled(t, b, r) ==> Canceled(t', b, r)
  {
    assert |RunsOf(t, b)| == |RunsOf(t', b)|;
    assert forall i :: 0 <= i < |RunsOf(t, b)| ==> RunsOf(t, b)[i].run == RunsOf(t', b)[i].run;
  }

  lemma CancelEntries(t: Table, a: AutoId, r: RunId)
    ensures Canceled(CancelSpec(t, a), a, r) <==> HasEntry(t, a, r)
  {
    var t' := CancelSpec(t, a);
    assert |RunsOf(t, a)| == |RunsOf(t', a)|;
    assert forall i :: 0 <= i < |RunsOf(t, a)| ==> RunsOf(t', a)[i] == RunsOf(t, a)[i].(canceled := true);
  }

  lemma EntryMember(t: Table, a: AutoId, r: RunId)
    ensures HasEntry(t, a, r) <==> exists x :: x in RunsOf(t, a) && x.run == r
    ensures Canceled(t, a, r) <==> exists x :: x in RunsOf(t, a) && x.run == r && x.canceled
  {
    if x :| x in RunsOf(t, a) && x.run == r {
      var i :| 0 <= i < |RunsOf(t, a)| && RunsOf(t, a)[i] == x;
    }
    if x :| x in RunsOf(t, a) && x.run == r && x.canceled {
      var i :| 0 <= i < |RunsOf(t, a)| && RunsOf(t, a)[i] == x;
    }
  }

  lemma EndEntries(caps: Caps, t: Table, a: AutoId, run: RunId, b: AutoId, r: RunId)
    ensures var t' := EndSpec(caps, t, a, run).table;
            && (HasEntry(t', b, r) <==> HasEntry(t, b, r) && !(b == a && r == run))
            && (Canceled(t, b, r) && !(b == a && r == run) ==> Canceled(t', b, r))
            && |RunsOf(t', b)| <= |RunsOf(t, b)|
  {
    hide Find, Release, HasEntry, Canceled;
    var t' := EndSpec(caps, t, a, run).table;
    EndRuns(caps, t, a, run, b);
    KeepMembers(RunsOf(t, a), run);
    KeepShorter(RunsOf(t, a), run);
    EntryMember(t, b, r);
    EntryMember(t', b, r);
  }

  lemma EndRuns(caps: Caps, t: Table, a: AutoId, run: RunId, b: AutoId)
    ensures RunsOf(EndSpec(caps, t, a, run).table, b) == if b == a then Keep(RunsOf(t, a), run) else RunsOf(t, b)
  {
    hide Find, Keep;
  }

  lemma {:induction false} KeepShorter(runs: seq<ActiveRun>, run: RunId)
    ensures |Keep(runs, run)| <= |runs|
  {
    if runs != [] { KeepShorter(runs[..|runs| - 1], run); }
  }

  // ----- the invariants -----

  type Fires = map<RunId, Fire>
  type Threads = map<RunId, Thread>
  type Defs = map<(AutoId, nat), Def>

  /** Permits are exact, and the runs that hold one are exactly the threads before endRun. */
  ghost predicate Live(caps: Caps, t: Table, threads: Threads) {
    && PermitsOk(caps, t)
    && (forall r :: r in threads && !threads[r].pc.Over? ==> HasEntry(t, threads[r].fire.auto, r))
    && (forall r :: r in Holders(t.active) ==> r in threads && !threads[r].pc.Over?)
  }

  /** The wait group counts fires under way, runs not yet done, and scheduler loops. */
  ghost predicate Counted(wg: int, fires: Fires, threads: Threads, lock: Option<Held>, loops: nat) {
    wg == |fires| + |threads| + (if lock.Some? then 1 else 0) + loops
  }

  predicate Spare(fires: Fires, threads: Threads, lock: Option<Held>, nextRun: RunId, run: RunId) {
    run < nextRun && run !in fires && run !in threads && (lock.Some? ==> lock.value.run != run)
  }

  predicate Waits(threads: Threads, r: RunId) { r in threads && threads[r].pc.Over? && threads[r].pc.next.Some? }

  function NextOf(threads: Threads, r: RunId): PendingFire
    requires Waits(threads, r)
  {
    threads[r].pc.next.value
  }

  /** Run ids of fires, threads and the fire that holds the lock are distinct. */
  ghost predicate Ids(fires: Fires, threads: Threads, lock: Option<Held>, nextRun: RunId) {
    && (forall r :: r in fires ==> r !in threads && r < nextRun)
    && (forall r :: r in threads ==> r < nextRun)
    && (lock.Some? ==> lock.value.run !in fires && lock.value.run !in threads && lock.value.run < nextRun)
  }

  /** The run ids of queued replacements are distinct from one another and from all others. */
  ghost predicate Queued(fires: Fires, threads: Threads, lock: Option<Held>, nextRun: RunId, pending: map<AutoId, PendingFire>) {
    && (forall a :: a in pending ==> Spare(fires, threads, lock, nextRun, pending[a].run))
    && (forall r :: Waits(threads, r) ==> Spare(fires, threads, lock, nextRun, NextOf(threads, r).run))
    && (forall a, b :: a in pending && b in pending && pending[a].run == pending[b].run ==> a == b)
    && (forall a, r :: a in pending && Waits(threads, r) ==> NextOf(threads, r).run != pending[a].run)
    && (forall q, r :: Waits(threads, q) && Waits(threads, r) && NextOf(threads, q).run == NextOf(threads, r).run ==> q == r)
  }

  predicate Known(defs: Defs, a: AutoId, gen: nat) { (a, gen) in defs }

  /** The generation's definition fires on a schedule. */
  predicate Scheduled(defs: Defs, a: AutoId, gen: nat) { Known(defs, a, gen) && !defs[(a, gen)].manual }

  predicate FireKnown(defs: Defs, f: Fire) {
    Known(defs, f.auto, f.gen) && (!f.byUser ==> Scheduled(defs, f.auto, f.gen))
  }

  /** The row a run read is the enabled row of the generation it was claimed under. */
  predicate SawClaimed(defs: Defs, f: Fire, seen: Row) {
    && seen.enabled && !seen.deleted && seen.gen == f.gen
    && Known(defs, f.auto, f.gen) && defs[(f.auto, f.gen)] == Def(seen.version, seen.manual)
  }

  predicate ThreadKnown(defs: Defs, t: Thread) {
    && FireKnown(defs, t.fire)
    && (t.seen.Some? ==> SawClaimed(defs, t.fire, t.seen.value))
    && (t.pc.Over? && t.pc.next.Some? ==> Scheduled(defs, t.fire.auto, t.pc.next.value.gen))
  }

  ghost predicate SnapsKnown(defs: Defs, snaps: set<Snapshot>) {
    forall x :: x in snaps ==> Known(defs, x.auto, x.gen) && defs[(x.auto, x.gen)].manual == x.manual
  }

  ghost predicate FiresKnown(defs: Defs, fires: Fires) { forall r :: r in fires ==> FireKnown(defs, fires[r]) }

  ghost predicate ThreadsKnown(defs: Defs, threads: Threads) { forall r :: r in threads ==> ThreadKnown(defs, threads[r]) }

  ghost predicate LockKnown(defs: Defs, lock: Option<Held>) {
    lock.Some? ==> FireKnown(defs, lock.value.fire) && !lock.value.fire.byUser
  }

  ghost predicate PendingKnown(defs: Defs, pending: map<AutoId, PendingFire>) {
    forall a :: a in pending ==> Scheduled(defs, a, pending[a].gen)
  }

  ghost predicate RetriesKnown(defs: Defs, retries: set<(AutoId, nat)>) {
    forall x :: x in retries ==> Scheduled(defs, x.0, x.1)
  }

  ghost predicate LaunchesKnown(defs: Defs, launches: seq<Launch>) {
    forall i :: 0 <= i < |launches| ==> SawClaimed(defs, launches[i].fire, launches[i].seen)
  }

  /** Everything that carries a generation carries one the row has had, with its definition. */
  ghost predicate Gens(w: World) {
    && SnapsKnown(w.store.defs, w.snaps)
    && FiresKnown(w.store.defs, w.fires)
    && ThreadsKnown(w.store.defs, w.threads)
    && LockKnown(w.store.defs, w.lock)
    && PendingKnown(w.store.defs, w.table.pending)
    && RetriesKnown(w.store.defs, w.retries)
    && LaunchesKnown(w.store.defs, w.launches)
  }

  /** A manual-trigger automation never holds a pending fire. */
  ghost predicate NoManualPending(rows: map<AutoId, Row>) {
    forall a :: a in rows && rows[a].manual ==> rows[a].pending.None?
  }

  /** The token of a replacement is durable before anything is cancelled for it. */
  ghost predicate Replaced(fate: map<Token, Fate>, replaced: set<(RunId, Token)>) {
    forall x :: x in replaced ==> x.1 in fate
  }

  ghost predicate LockToken(fate: map<Token, Fate>, lock: Option<Held>) {
    lock.Some? && lock.value.asked.Some? && lock.value.asked.value.1 ==> lock.value.asked.value.0 in fate
  }

  predicate MayAct(pc: Pc) { pc in {Checked, Inserted, Ready, Running} }

  predicate Current(rows: map<AutoId, Row>, a: AutoId, seen: Row) {
    a in rows && rows[a].enabled && rows[a].version == seen.version
  }

  ghost predicate NotStaleRun(rows: map<AutoId, Row>, t: Table, x: Thread, edits: multiset<AutoId>, r: RunId) {
    && x.seen.Some?
    && (Canceled(t, x.fire.auto, r) || Current(rows, x.fire.auto, x.seen.value) || x.fire.auto in edits)
  }

  /** A run that may act and has not been cancelled acts for the row's current, enabled definition,
      or an edit is in effect whose cancelAutomation has not run. */
  ghost predicate NotStale(rows: map<AutoId, Row>, t: Table, threads: Threads, edits: multiset<AutoId>) {
    forall r :: r in threads && MayAct(threads[r].pc) ==> NotStaleRun(rows, t, threads[r], edits, r)
  }

  ghost predicate Widths(t: Table, width: map<AutoId, nat>) {
    forall a :: |RunsOf(t, a)| <= if a in width then width[a] else 0
  }

  ghost predicate Inv(caps: Caps, w: World) {
    && StoreOk(w.store) && NoManualPending(w.store.rows)
    && Live(caps, w.table, w.threads)
    && Counted(w.wg, w.fires, w.threads, w.lock, w.loops)
    && Ids(w.fires, w.threads, w.lock, w.nextRun)
    && Queued(w.fires, w.threads, w.lock, w.nextRun, w.table.pending)
    && Gens(w)
    && Replaced(w.store.fate, w.replaced) && LockToken(w.store.fate, w.lock)
    && NotStale(w.store.rows, w.table, w.threads, w.edits)
    && Widths(w.table, w.width)
  }

  // ----- store statements -----

  /** Edits to automations outside `edits` leave an enabled definition in place. */
  ghost predicate Stays(rows: map<AutoId, Row>, rows': map<AutoId, Row>, edits: multiset<AutoId>) {
    forall a :: a in rows && a !in edits && rows[a].enabled ==> a in rows' && rows'[a].enabled && rows'[a].version == rows[a].version
  }

  lemma GensGrow(w: World, s: Store)
    requires Gens(w) && Grows(w.store, s)
    ensures Gens(w.(store := s))
  {
    assert forall a, g :: Known(w.store.defs, a, g) ==> Known(s.defs, a, g) && s.defs[(a, g)] == w.store.defs[(a, g)];
    assert forall f :: FireKnown(w.store.defs, f) ==> FireKnown(s.defs, f);
    assert forall t :: ThreadKnown(w.store.defs, t) ==> ThreadKnown(s.defs, t);
  }

  lemma StoreStep(caps: Caps, w: World, s: Store, edits: multiset<AutoId>)
    requires Inv(caps, w)
    requires StoreOk(s) && Grows(w.store, s) && NoManualPending(s.rows)
    requires Stays(w.store.rows, s.rows, edits) && w.edits <= edits
    ensures Inv(caps, w.(store := s, edits := edits))
  {
    hide StoreOk, NoManualPending, Live, Counted, Ids, Queued, Gens, Widths, HasEntry, Canceled;
    GensGrow(w, s);
    GensFrame(w.(store := s), w.(store := s, edits := edits));
  }

  /** Gens reads only these parts. */
  lemma GensFrame(w: World, w': World)
    requires Gens(w) && w'.store == w.store && w'.snaps == w.snaps && w'.fires == w.fires && w'.threads == w.threads
    requires w'.lock == w.lock && w'.table.pending == w.table.pending && w'.retries == w.retries
    requires w'.launches == w.launches
    ensures Gens(w')
  {
  }

  lemma RetriesFrame(w: World, retries: set<(AutoId, nat)>)
    requires Gens(w) && RetriesKnown(w.store.defs, retries)
    ensures Gens(w.(retries := retries))
  {
    hide SnapsKnown, FiresKnown, ThreadsKnown, LockKnown, PendingKnown, LaunchesKnown;
  }

  lemma CreateStep(caps: Caps, w: World, a: AutoId, owner: UserId, manual: bool, policy: Policy)
    requires Inv(caps, w)
    ensures Inv(caps, DoCreate(w, a, owner, manual, policy))
  {
    hide Live, Counted, Ids, Queued, Gens, Widths, NotStale, StoreOk;
    CreateKeeps(w.store, a, owner, manual, policy);
    StoreStep(caps, w, AutomationStores.Create(w.store, a, owner, manual, policy), w.edits);
  }

  lemma UpdateStep(caps: Caps, w: World, a: AutoId, manual: bool, policy: Policy)
    requires Inv(caps, w)
    ensures Inv(caps, DoUpdate(w, a, manual, policy))
  {
    hide Live, Counted, Ids, Queued, Gens, Widths, NotStale, StoreOk;
    UpdateKeeps(w.store, a, manual, policy);
    if a in w.store.rows {
      StoreStep(caps, w, AutomationStores.Update(w.store, a, manual, policy), w.edits + multiset{a});
    }
  }

  lemma SwitchStep(caps: Caps, w: World, a: AutoId, enabled: bool, gen: nat)
    requires Inv(caps, w)
    ensures Inv(caps, DoSetEnabled(w, a, enabled, gen))
  {
    hide Live, Counted, Ids, Queued, Gens, Widths, NotStale, StoreOk;
    SwitchKeeps(w.store, a, enabled, gen);
    var s := AutomationStores.SetEnabled(w.store, a, enabled, gen);
    if s.1 { StoreStep(caps, w, s.0, if enabled then w.edits else w.edits + multiset{a}); }
  }

  lemma DeleteStep(caps: Caps, w: World, a: AutoId)
    requires Inv(caps, w)
    ensures Inv(caps, DoDelete(w, a))
  {
    hide Live, Counted, Ids, Queued, Gens, Widths, NotStale, StoreOk;
    SwitchKeeps(w.store, a, false, 0);
    var s := AutomationStores.Delete(w.store, a);
    if s.1 { StoreStep(caps, w, s.0, w.edits + multiset{a}); }
  }

  lemma StampStep(caps: Caps, w: World, a: AutoId, gen: nat)
    requires Inv(caps, w) && Scheduled(w.store.defs, a, gen)
    ensures Inv(caps, w.(store := Stamp(w.store, a, gen).0))
  {
    hide Live, Counted, Ids, Queued, Gens, Widths, NotStale, Grows;
    StampKeeps(w.store, a, gen);
    StoreStep(caps, w, Stamp(w.store, a, gen).0, w.edits);
  }

  lemma ClaimStep(caps: Caps, w: World, a: AutoId, token: Token, run: RunId)
    requires Inv(caps, w)
    ensures Inv(caps, w.(store := Claim(w.store, a, token, run).0))
  {
    hide Live, Counted, Ids, Queued, Gens, Widths, NotStale, StoreOk;
    ClaimKeeps(w.store, a, token, run);
    StoreStep(caps, w, Claim(w.store, a, token, run).0, w.edits);
  }

  lemma RetryStep(caps: Caps, w: World, a: AutoId, gen: nat)
    requires Inv(caps, w)
    ensures Inv(caps, DoRetry(w, a, gen))
  {
    hide Live, Counted, Ids, Queued, Widths, NotStale, StoreOk, NoManualPending, Stamp;
    if (a, gen) in w.retries {
      StampStep(caps, w, a, gen);
      RetriesFrame(w.(store := Stamp(w.store, a, gen).0), w.retries - {(a, gen)});
    }
  }

  lemma PersistStep(caps: Caps, w: World, failed: bool, applied: bool)
    requires Inv(caps, w)
    ensures Inv(caps, DoPersist(w, failed, applied))
  {
    hide Live, Counted, Ids, Queued, Widths, NotStale, StoreOk, NoManualPending, Stamp, Gens;
    if w.lock.Some? && w.lock.value.asked.None? {
      var h := w.lock.value;
      assert LockKnown(w.store.defs, w.lock) by { LockOf(w); }
      StampStep(caps, w, h.fire.auto, h.fire.gen);
      StampKeeps(w.store, h.fire.auto, h.fire.gen);
      var (store, ok) := Stamp(w.store, h.fire.auto, h.fire.gen);
      var w1 := if failed && !applied then w else w.(store := store);
      LockStep(caps, w1, h.(asked := Some((w.store.nextToken, ok && !failed))));
    }
  }

  lemma LockOf(w: World)
    requires Gens(w)
    ensures LockKnown(w.store.defs, w.lock)
  {
  }

  /** The holder of the lock learns the store's answer. */
  lemma LockStep(caps: Caps, w: World, h: Held)
    requires Inv(caps, w) && w.lock.Some? && h.(asked := None) == w.lock.value.(asked := None)
    requires h.asked.Some? && (h.asked.value.1 ==> h.asked.value.0 in w.store.fate)
    ensures Inv(caps, w.(lock := Some(h)))
  {
    hide Live, Widths, NotStale, StoreOk, NoManualPending, SnapsKnown, FiresKnown, ThreadsKnown, PendingKnown;
    hide RetriesKnown;
    hide LaunchesKnown;
  }

  // ----- the steps of one run -----

  /** A run moves on inside execute. */
  lemma PcStep(caps: Caps, w: World, run: RunId, pc: Pc)
    requires Inv(caps, w) && run in w.threads && !w.threads[run].pc.Over? && !pc.Over?
    requires MayAct(pc) ==> MayAct(w.threads[run].pc)
    ensures Inv(caps, SetPc(w, run, pc))
  {
    hide Widths, StoreOk, NoManualPending, SnapsKnown, FiresKnown, PendingKnown, RetriesKnown, Live, Counted, Ids;
    hide Queued;
    hide LaunchesKnown, Canceled;
    var t := w.threads[run];
    ThreadStep(caps, w, run, t.(pc := pc));
  }

  lemma ThreadStep(caps: Caps, w: World, run: RunId, t: Thread)
    requires Inv(caps, w) && run in w.threads && !w.threads[run].pc.Over? && !t.pc.Over?
    requires t.fire == w.threads[run].fire
    requires ThreadKnown(w.store.defs, t)
    requires MayAct(t.pc) ==> NotStaleRun(w.store.rows, w.table, t, w.edits, run)
    ensures Inv(caps, w.(threads := w.threads[run := t]))
  {
    hide Widths, StoreOk, NoManualPending, SnapsKnown, FiresKnown, PendingKnown, RetriesKnown, LaunchesKnown;
    hide Live, Counted, Ids, Queued, ThreadsKnown, NotStale;
    LiveThread(caps, w.table, w.threads, run, t);
    IdsThread(w, run, t);
    KnownThread(w.store.defs, w.threads, run, t);
    StaleThread(w, run, t);
  }

  lemma LiveThread(caps: Caps, t: Table, threads: Threads, run: RunId, x: Thread)
    requires Live(caps, t, threads) && run in threads && !threads[run].pc.Over? && !x.pc.Over?
    requires x.fire == threads[run].fire
    ensures Live(caps, t, threads[run := x])
  {
    hide PermitsOk, HasEntry, Holders;
  }

  lemma IdsThread(w: World, run: RunId, x: Thread)
    requires run in w.threads && !w.threads[run].pc.Over? && !x.pc.Over?
    requires Ids(w.fires, w.threads, w.lock, w.nextRun) && Counted(w.wg, w.fires, w.threads, w.lock, w.loops)
    requires Queued(w.fires, w.threads, w.lock, w.nextRun, w.table.pending)
    ensures var threads := w.threads[run := x];
            && Ids(w.fires, threads, w.lock, w.nextRun) && Counted(w.wg, w.fires, threads, w.lock, w.loops)
            && Queued(w.fires, threads, w.lock, w.nextRun, w.table.pending)
  {
    var threads := w.threads[run := x];
    assert threads.Keys == w.threads.Keys;
    assert |threads| == |threads.Keys| == |w.threads|;
    assert forall r :: Waits(threads, r) <==> Waits(w.threads, r);
    assert forall r :: Waits(threads, r) ==> NextOf(threads, r) == NextOf(w.threads, r);
  }

  lemma KnownThread(defs: Defs, threads: Threads, run: RunId, x: Thread)
    requires ThreadsKnown(defs, threads) && ThreadKnown(defs, x)
    ensures ThreadsKnown(defs, threads[run := x])
  {
  }

  lemma StaleThread(w: World, run: RunId, x: Thread)
    requires NotStale(w.store.rows, w.table, w.threads, w.edits)
    requires MayAct(x.pc) ==> NotStaleRun(w.store.rows, w.table, x, w.edits, run)
    ensures NotStale(w.store.rows, w.table, w.threads[run := x], w.edits)
  {
    hide NotStaleRun;
  }

  lemma GiveUpStep(caps: Caps, w: World, run: RunId, retry: bool)
    requires Inv(caps, w) && run in w.threads && !w.threads[run].pc.Over?
    ensures Inv(caps, GiveUp(w, run, retry))
  {
    hide Live, Counted, Ids, Queued, Widths, NotStale, StoreOk, NoManualPending;
    PcStep(caps, w, run, Ending);
    RetriesFrame(SetPc(w, run, Ending), GiveUp(w, run, retry).retries);
  }

  lemma ThreadOf(caps: Caps, w: World, run: RunId)
    requires Inv(caps, w) && run in w.threads
    ensures ThreadKnown(w.store.defs, w.threads[run])
    ensures MayAct(w.threads[run].pc) ==> NotStaleRun(w.store.rows, w.table, w.threads[run], w.edits, run)
  {
    hide StoreOk, NoManualPending, Live, Counted, Ids, Queued, Widths, NotStaleRun, ThreadKnown;
  }

  lemma RowOf(s: Store, a: AutoId)
    requires StoreOk(s) && a in s.rows
    ensures (a, s.rows[a].gen) in s.defs && s.defs[(a, s.rows[a].gen)] == Def(s.rows[a].version, s.rows[a].manual)
    ensures s.rows[a].enabled ==> !s.rows[a].deleted
  {
  }

  lemma CheckStep(caps: Caps, w: World, run: RunId, readable: bool)
    requires Inv(caps, w)
    ensures Inv(caps, DoCheck(w, run, readable))
  {
    hide Inv, ThreadsKnown, StoreOk;
    if Is(w, run, Bound) {
      ThreadOf(caps, w, run);
      var f := w.threads[run].fire;
      if !readable {
        Retriable(caps, w, run);
        GiveUpStep(caps, w, run, true);
      } else if f.auto !in w.store.rows || !w.store.rows[f.auto].enabled || w.store.rows[f.auto].gen != f.gen {
        GiveUpStep(caps, w, run, false);
      } else {
        StoreOf(caps, w);
        RowOf(w.store, f.auto);
        ThreadStep(caps, w, run, Thread(f, Checked, Some(w.store.rows[f.auto])));
      }
    }
  }

  lemma StoreOf(caps: Caps, w: World)
    requires Inv(caps, w)
    ensures StoreOk(w.store)
  {
  }

  lemma Retriable(caps: Caps, w: World, run: RunId)
    requires Inv(caps, w) && run in w.threads
    ensures var f := w.threads[run].fire; !f.byUser ==> Scheduled(w.store.defs, f.auto, f.gen)
  {
    ThreadOf(caps, w, run);
  }

  lemma RejectStep(caps: Caps, w: World, run: RunId, recorded: bool, claimed: bool)
    requires Inv(caps, w)
    ensures Inv(caps, DoReject(w, run, recorded, claimed))
  {
    hide Inv, Claim;
    if Is(w, run, Checked) {
      var f := w.threads[run].fire;
      if !recorded && !f.byUser {
        GiveUpStep(caps, w, run, true);
      } else if f.token.Some? && claimed {
        ClaimStep(caps, w, f.auto, f.token.value, run);
        GiveUpStep(caps, w.(store := Claim(w.store, f.auto, f.token.value, run).0), run, false);
      } else {
        GiveUpStep(caps, w, run, false);
      }
    }
  }

  lemma ClaimTokenStep(caps: Caps, w: World, run: RunId, failed: bool, applied: bool)
    requires Inv(caps, w)
    ensures Inv(caps, DoClaim(w, run, failed, applied))
  {
    hide Inv, Claim;
    if Is(w, run, Inserted) {
      var f := w.threads[run].fire;
      if f.token.None? {
        PcStep(caps, w, run, Ready);
      } else {
        ClaimStep(caps, w, f.auto, f.token.value, run);
        var (store, won) := Claim(w.store, f.auto, f.token.value, run);
        if failed {
          GiveUpStep(caps, if applied then w.(store := store) else w, run, false);
        } else if won {
          PcStep(caps, w.(store := store), run, Ready);
        } else {
          GiveUpStep(caps, w, run, false);
        }
      }
    }
  }

  /** The remaining moves inside execute. */
  lemma MoveStep(caps: Caps, w: World, run: RunId, ok: bool)
    requires Inv(caps, w)
    ensures Inv(caps, DoInsertManual(w, run, ok)) && Inv(caps, DoInsert(w, run, ok))
    ensures Inv(caps, DoFinish(w, run))
  {
    hide Inv;
    if Is(w, run, Inserting) { PcStep(caps, w, run, if ok then Spawned else Ending); }
    if Is(w, run, Checked) {
      PcStep(caps, w, run, Inserted);
      GiveUpStep(caps, w, run, true);
    }
    if Is(w, run, Running) || Is(w, run, Ready) { PcStep(caps, w, run, Ending); }
  }

  lemma StartStep(caps: Caps, w: World, run: RunId)
    requires Inv(caps, w)
    ensures Inv(caps, DoStart(w, run))
  {
    hide Inv;
    if Is(w, run, Ready) && w.threads[run].seen.Some? {
      ThreadOf(caps, w, run);
      var l := Launch(run, w.threads[run].fire, w.threads[run].seen.value);
      LaunchStep(caps, w, l);
      PcStep(caps, w.(launches := w.launches + [l]), run, Running);
    }
  }

  lemma LaunchStep(caps: Caps, w: World, l: Launch)
    requires Inv(caps, w) && SawClaimed(w.store.defs, l.fire, l.seen)
    ensures Inv(caps, w.(launches := w.launches + [l]))
  {
    hide StoreOk, NoManualPending, Live, Counted, Ids, Queued, NotStale, Widths, SawClaimed;
    hide SnapsKnown, FiresKnown, ThreadsKnown, PendingKnown, RetriesKnown, LockKnown;
  }

  // ----- the steps of the run table -----

  /** A change of the table that only marks runs, and perhaps drops queued replacements. */
  lemma MarkStep(caps: Caps, w: World, t: Table)
    requires Inv(caps, w) && SameRuns(w.table.active, t.active) && PermitsOk(caps, t)
    requires Holders(t.active) == Holders(w.table.active)
    requires forall a :: a in t.pending ==> a in w.table.pending && t.pending[a] == w.table.pending[a]
    requires forall b, i :: 0 <= i < |RunsOf(w.table, b)| && RunsOf(w.table, b)[i].canceled ==> RunsOf(t, b)[i].canceled
    ensures Inv(caps, w.(table := t))
  {
    hide StoreOk, NoManualPending, Counted, Ids, HasEntry, Canceled, PermitsOk, Holders, SameRuns;
    hide SnapsKnown, FiresKnown, ThreadsKnown, RetriesKnown, LockKnown, LaunchesKnown, RunsOf;
    forall b, r
      ensures HasEntry(t, b, r) <==> HasEntry(w.table, b, r)
      ensures Canceled(w.table, b, r) ==> Canceled(t, b, r)
    {
      MarkEntries(w.table, t, b, r);
    }
    SameWidths(w.table, t, w.width);
  }

  lemma SameWidths(t: Table, t': Table, width: map<AutoId, nat>)
    requires SameRuns(t.active, t'.active) && Widths(t, width)
    ensures Widths(t', width)
  {
    forall a ensures |RunsOf(t', a)| == |RunsOf(t, a)| {
    }
  }

  lemma PermitsOf(caps: Caps, w: World)
    requires Inv(caps, w)
    ensures PermitsOk(caps, w.table)
  {
  }

  lemma BindStep(caps: Caps, w: World, run: RunId)
    requires Inv(caps, w)
    ensures Inv(caps, DoBind(w, run))
  {
    hide Inv, PermitsOk, Holders, Find;
    if Is(w, run, Spawned) && w.lock.None? {
      var a := w.threads[run].fire.auto;
      PermitsOf(caps, w);
      CancelOk(caps, w.table, a, false, PendingFire(0, 0, 0, 0), run);
      MarksBind(w.table, a, run);
      MarkStep(caps, w, BindSpec(w.table, a, run));
      PcStep(caps, w.(table := BindSpec(w.table, a, run)), run, Bound);
    }
  }

  lemma StopStep(caps: Caps, w: World)
    requires Inv(caps, w)
    ensures Inv(caps, DoStopService(w))
  {
    hide Inv, PermitsOk, Holders;
    PermitsOf(caps, w);
    CancelOk(caps, w.table, 0, false, PendingFire(0, 0, 0, 0), 0);
    MarksStop(w.table);
    MarkStep(caps, w, StopSpec(w.table));
  }

  lemma CancelEditStep(caps: Caps, w: World, a: AutoId)
    requires Inv(caps, w)
    ensures Inv(caps, DoCancelEdit(w, a))
  {
    hide Inv, PermitsOk, Holders;
    if a in w.edits && w.lock.None? {
      var t := CancelSpec(w.table, a);
      PermitsOf(caps, w);
      CancelOk(caps, w.table, a, false, PendingFire(0, 0, 0, 0), 0);
      MarksCancel(w.table, a);
      MarkStep(caps, w, t);
      EditDone(caps, w.(table := t), w.table, a);
    }
  }

  /** Once every run of `a` is cancelled, one of its edits is settled. */
  lemma EditDone(caps: Caps, w: World, before: Table, a: AutoId)
    requires Inv(caps, w) && w.table == CancelSpec(before, a)
    ensures Inv(caps, w.(edits := w.edits - multiset{a}))
  {
    hide StoreOk, NoManualPending, Counted, Ids, Queued, HasEntry, Canceled, PermitsOk, Holders, Widths, Gens;
    hide CancelSpec;
    var w' := w.(edits := w.edits - multiset{a});
    GensFrame(w, w');
    forall r | r in w.threads && MayAct(w.threads[r].pc) ensures NotStaleRun(w.store.rows, w.table, w.threads[r], w'.edits, r) {
      var b := w.threads[r].fire.auto;
      assert NotStaleRun(w.store.rows, w.table, w.threads[r], w.edits, r);
      if b == a {
        CancelEntries(before, a, r);
        HasEntryAfterCancel(before, a, r);
      } else {
        assert b in w'.edits <==> b in w.edits;
      }
    }
  }

  lemma HasEntryAfterCancel(t: Table, a: AutoId, r: RunId)
    ensures HasEntry(CancelSpec(t, a), a, r) <==> HasEntry(t, a, r)
  {
    MarksCancel(t, a);
    MarkEntries(t, CancelSpec(t, a), a, r);
  }

  // ----- admission -----

  lemma ReadStep(caps: Caps, w: World, a: AutoId)
    requires Inv(caps, w)
    ensures Inv(caps, DoRead(w, a))
  {
    hide NoManualPending, Live, Counted, Ids, Queued, NotStale, Widths, StoreOk;
    hide FiresKnown, ThreadsKnown, PendingKnown, RetriesKnown, LockKnown, LaunchesKnown;
    if a in w.store.rows { RowOf(w.store, a); }
  }

  lemma NewFireStep(caps: Caps, w: World, f: Fire)
    requires Inv(caps, w) && FireKnown(w.store.defs, f)
    ensures Inv(caps, NewFire(w, f))
  {
    hide StoreOk, NoManualPending, Live, NotStale, Widths, FireKnown, SnapsKnown, ThreadsKnown, PendingKnown;
    hide RetriesKnown;
    hide LockKnown, LaunchesKnown, FiresKnown, Ids, Queued, Counted, Replaced, LockToken;
    NewFireIds(w, f);
    NewFireKnown(w.store.defs, w.fires, f, w.nextRun);
  }

  lemma NewFireIds(w: World, f: Fire)
    requires Ids(w.fires, w.threads, w.lock, w.nextRun) && Counted(w.wg, w.fires, w.threads, w.lock, w.loops)
    requires Queued(w.fires, w.threads, w.lock, w.nextRun, w.table.pending)
    ensures var fires := w.fires[w.nextRun := f];
            && Ids(fires, w.threads, w.lock, w.nextRun + 1) && Counted(w.wg + 1, fires, w.threads, w.lock, w.loops)
            && Queued(fires, w.threads, w.lock, w.nextRun + 1, w.table.pending)
  {
    hide Queued, Counted;
    NewFireQueued(w, f);
    NewFireCounted(w, f);
  }

  lemma NewFireCounted(w: World, f: Fire)
    requires Ids(w.fires, w.threads, w.lock, w.nextRun) && Counted(w.wg, w.fires, w.threads, w.lock, w.loops)
    ensures Counted(w.wg + 1, w.fires[w.nextRun := f], w.threads, w.lock, w.loops)
  {
    var fires := w.fires[w.nextRun := f];
    assert w.nextRun !in w.fires;
    assert fires.Keys == w.fires.Keys + {w.nextRun} && |fires.Keys| == |fires| && |w.fires.Keys| == |w.fires|;
  }

  lemma NewFireQueued(w: World, f: Fire)
    requires Queued(w.fires, w.threads, w.lock, w.nextRun, w.table.pending)
    ensures Queued(w.fires[w.nextRun := f], w.threads, w.lock, w.nextRun + 1, w.table.pending)
  {
    hide Waits;
  }

  lemma NewFireKnown(defs: Defs, fires: Fires, f: Fire, run: RunId)
    requires FiresKnown(defs, fires) && FireKnown(defs, f)
    ensures FiresKnown(defs, fires[run := f])
  {
    hide FireKnown;
  }

  lemma FireStep(caps: Caps, w: World, snap: Snapshot, drain: bool)
    requires Inv(caps, w)
    ensures Inv(caps, DoFireDue(w, snap, drain)) && Inv(caps, DoTrigger(w, snap))
  {
    hide Inv;
    if snap in w.snaps {
      SnapOf(caps, w, snap);
      NewFireStep(caps, w, Fire(snap.auto, snap.owner, snap.policy, true, None, snap.gen));
      if !snap.manual {
        NewFireStep(caps, w, Fire(snap.auto, snap.owner, snap.policy, false, if drain then snap.token else None, snap.gen));
      }
    }
  }

  lemma SnapOf(caps: Caps, w: World, snap: Snapshot)
    requires Inv(caps, w) && snap in w.snaps
    ensures Known(w.store.defs, snap.auto, snap.gen) && w.store.defs[(snap.auto, snap.gen)].manual == snap.manual
  {
  }

  /** A fire leaves the set of fires; the wait group gives back its count, or the lock takes it over. */
  lemma FireGone(caps: Caps, w: World, run: RunId, lock: Option<Held>)
    requires Inv(caps, w) && run in w.fires && w.lock.None?
    requires lock.Some? ==> lock.value.run == run && lock.value.fire == w.fires[run] && lock.value.asked.None?
                            && !w.fires[run].byUser
    ensures Inv(caps, w.(fires := w.fires - {run}, lock := lock, wg := if lock.Some? then w.wg else w.wg - 1))
  {
    hide StoreOk, NoManualPending, Live, NotStale, Widths, SnapsKnown, ThreadsKnown, PendingKnown, RetriesKnown;
    hide LaunchesKnown;
    hide FireKnown, Ids, Queued, Counted, Replaced;
    GoneFire(w, run, lock);
  }

  lemma GoneFire(w: World, run: RunId, lock: Option<Held>)
    requires run in w.fires && w.lock.None? && (lock.Some? ==> lock.value.run == run)
    requires Ids(w.fires, w.threads, w.lock, w.nextRun) && Counted(w.wg, w.fires, w.threads, w.lock, w.loops)
    requires Queued(w.fires, w.threads, w.lock, w.nextRun, w.table.pending)
    ensures var fires := w.fires - {run};
            && Ids(fires, w.threads, lock, w.nextRun)
            && Counted(if lock.Some? then w.wg else w.wg - 1, fires, w.threads, lock, w.loops)
            && Queued(fires, w.threads, lock, w.nextRun, w.table.pending)
  {
    var fires := w.fires - {run};
    assert fires.Keys == w.fires.Keys - {run} && |fires.Keys| == |fires| && |w.fires.Keys| == |w.fires|;
    assert forall id :: Spare(w.fires, w.threads, w.lock, w.nextRun, id) ==> Spare(fires, w.threads, lock, w.nextRun, id);
  }

  lemma BeginStep(caps: Caps, w: World, run: RunId)
    requires Inv(caps, w)
    ensures Inv(caps, DoBeginRun(caps, w, run))
  {
    hide Inv, FireKnown;
    if run in w.fires && w.lock.None? {
      var f := w.fires[run];
      match Decide(caps, w.table, f.auto, f.user, f.policy, f.byUser) {
        case Refuse => FireGone(caps, w, run, None);
        case Capped =>
          FireOf(caps, w, run);
          FireGone(caps, w, run, None);
          var w1 := w.(fires := w.fires - {run}, wg := w.wg - 1);
          RetriesStep(caps, w1, DoBeginRun(caps, w, run).retries);
        case Queue(cancel) => FireGone(caps, w, run, Some(Held(run, f, cancel, None)));
        case Admit => AdmitStep(caps, w, run);
      }
    }
  }

  lemma FireOf(caps: Caps, w: World, run: RunId)
    requires Inv(caps, w) && run in w.fires
    ensures FireKnown(w.store.defs, w.fires[run])
    ensures RetriesKnown(w.store.defs, w.retries)
    ensures !w.fires[run].byUser ==>
              RetriesKnown(w.store.defs, w.retries + {(w.fires[run].auto, w.fires[run].gen)})
  {
    hide Live, Ids, Queued, NotStale, Widths, StoreOk, NoManualPending;
  }

  lemma RetriesStep(caps: Caps, w: World, retries: set<(AutoId, nat)>)
    requires Inv(caps, w) && RetriesKnown(w.store.defs, retries)
    ensures Inv(caps, w.(retries := retries))
  {
    hide StoreOk, NoManualPending, Live, Counted, Ids, Queued, NotStale, Widths, Gens, RetriesKnown;
    RetriesFrame(w, retries);
  }

  lemma AdmitStep(caps: Caps, w: World, run: RunId)
    requires Inv(caps, w) && run in w.fires && w.lock.None?
    requires var f := w.fires[run]; Decide(caps, w.table, f.auto, f.user, f.policy, f.byUser).Admit?
    ensures Inv(caps, DoAdmit(caps, w, run))
  {
    hide StoreOk, NoManualPending, SnapsKnown, PendingKnown, RetriesKnown, LaunchesKnown, FireKnown, Live, Ids;
    hide Queued, Counted;
    hide NotStale, Widths, Decide, FiresKnown, ThreadsKnown, LockKnown, Replaced, LockToken, AdmitRun;
    var f := w.fires[run];
    var x := Thread(f, if f.byUser then Inserting else Spawned, None);
    AdmitPending(caps, w.table, f.auto, f.user, run);
    FireOf(caps, w, run);
    AdmitIds(w, run, x);
    AdmitLive(caps, w, run, x);
    AdmitStale(caps, w, run, x);
    AdmitKnown(w.store.defs, w.fires, w.threads, run, x);
    AdmitWidth(caps, w, f, run);
  }

  lemma AdmitPending(caps: Caps, t: Table, a: AutoId, user: UserId, run: RunId)
    ensures AdmitRun(caps, t, a, user, run).pending == t.pending
  {
  }

  lemma AdmitLive(caps: Caps, w: World, run: RunId, x: Thread)
    requires Live(caps, w.table, w.threads) && run in w.fires && run !in w.threads && x.fire == w.fires[run]
    requires !x.pc.Over?
    requires var f := w.fires[run]; Decide(caps, w.table, f.auto, f.user, f.policy, f.byUser).Admit?
    ensures Live(caps, AdmitRun(caps, w.table, w.fires[run].auto, w.fires[run].user, run), w.threads[run := x])
  {
    hide PermitsOk, HasEntry, Holders, Decide, AdmitRun;
    var f := w.fires[run];
    AdmitOk(caps, w.table, f.auto, f.user, f.policy, run, f.byUser);
    forall b, r ensures HasEntry(w.table, b, r) || (b == f.auto && r == run) ==>
                          HasEntry(AdmitRun(caps, w.table, f.auto, f.user, run), b, r)
    {
      AdmitEntries(caps, w.table, f.auto, f.user, run, b, r);
    }
  }

  lemma AdmitIds(w: World, run: RunId, x: Thread)
    requires run in w.fires && w.lock.None? && !x.pc.Over?
    requires Ids(w.fires, w.threads, w.lock, w.nextRun) && Counted(w.wg, w.fires, w.threads, w.lock, w.loops)
    requires Queued(w.fires, w.threads, w.lock, w.nextRun, w.table.pending)
    ensures run !in w.threads
    ensures var fires, threads := w.fires - {run}, w.threads[run := x];
            && Ids(fires, threads, w.lock, w.nextRun) && Counted(w.wg, fires, threads, w.lock, w.loops)
            && Queued(fires, threads, w.lock, w.nextRun, w.table.pending)
  {
    hide Counted, Queued;
    Moved(w, run, x);
    MovedQueue(w, run, x);
  }

  lemma Moved(w: World, run: RunId, x: Thread)
    requires run in w.fires && w.lock.None?
    requires Ids(w.fires, w.threads, w.lock, w.nextRun) && Counted(w.wg, w.fires, w.threads, w.lock, w.loops)
    ensures Counted(w.wg, w.fires - {run}, w.threads[run := x], w.lock, w.loops)
  {
    var fires, threads := w.fires - {run}, w.threads[run := x];
    assert fires.Keys == w.fires.Keys - {run} && |fires.Keys| == |fires| && |w.fires.Keys| == |w.fires|;
    assert threads.Keys == w.threads.Keys + {run} && |threads.Keys| == |threads| && |w.threads.Keys| == |w.threads|;
  }

  lemma MovedQueue(w: World, run: RunId, x: Thread)
    requires run in w.fires && run !in w.threads && w.lock.None? && !x.pc.Over?
    requires Queued(w.fires, w.threads, w.lock, w.nextRun, w.table.pending)
    ensures Queued(w.fires - {run}, w.threads[run := x], w.lock, w.nextRun, w.table.pending)
  {
    var fires, threads := w.fires - {run}, w.threads[run := x];
    assert forall r :: Waits(threads, r) <==> Waits(w.threads, r);
    assert forall r :: Waits(threads, r) ==> NextOf(threads, r) == NextOf(w.threads, r);
    assert forall r :: r in w.fires || r in w.threads <==> r in fires || r in threads;
  }

  lemma AdmitStale(caps: Caps, w: World, run: RunId, x: Thread)
    requires NotStale(w.store.rows, w.table, w.threads, w.edits) && run in w.fires && !MayAct(x.pc)
    ensures NotStale(w.store.rows, AdmitRun(caps, w.table, w.fires[run].auto, w.fires[run].user, run),
                     w.threads[run := x], w.edits)
  {
    hide Canceled, AdmitRun;
    var f := w.fires[run];
    forall b, r ensures Canceled(w.table, b, r) ==> Canceled(AdmitRun(caps, w.table, f.auto, f.user, run), b, r) {
      AdmitEntries(caps, w.table, f.auto, f.user, run, b, r);
    }
  }

  lemma AdmitKnown(defs: Defs, fires: Fires, threads: Threads, run: RunId, x: Thread)
    requires FiresKnown(defs, fires) && ThreadsKnown(defs, threads) && FireKnown(defs, x.fire) && x.seen.None?
    requires !x.pc.Over?
    ensures FiresKnown(defs, fires - {run}) && ThreadsKnown(defs, threads[run := x])
  {
  }

  lemma AdmitWidth(caps: Caps, w: World, f: Fire, run: RunId)
    requires Widths(w.table, w.width) && Decide(caps, w.table, f.auto, f.user, f.policy, f.byUser).Admit?
    ensures Widths(AdmitRun(caps, w.table, f.auto, f.user, run),
                   w.width[f.auto := Max(WidthOf(w, f.auto), Width(f.policy))])
  {
    var t := AdmitRun(caps, w.table, f.auto, f.user, run);
    forall a ensures |RunsOf(t, a)| == |RunsOf(w.table, a)| + if a == f.auto then 1 else 0 {
    }
  }

  // ----- queueing a replacement -----

  lemma CommitStep(caps: Caps, w: World)
    requires Inv(caps, w)
    ensures Inv(caps, DoCommit(w))
  {
    hide Inv, PermitsOk, Holders;
    if w.lock.Some? && w.lock.value.asked.Some? {
      var h := w.lock.value;
      var f := h.fire;
      var (token, stamped) := h.asked.value;
      var pf := PendingFire(f.user, h.run, token, f.gen);
      if !stamped {
        Unlock(caps, w, w.table.pending);
      } else {
        TokenKept(caps, w);
        QueuePending(caps, w, f.auto, pf);
        Unlock(caps, w, w.table.pending[f.auto := pf]);
        QueueMarks(caps, w.(lock := None, wg := w.wg - 1), h, token);
      }
    }
  }

  /** With the replacement queued, the active runs may be cancelled for it. */
  lemma QueueMarks(caps: Caps, w: World, h: Held, token: Token)
    requires var pf := PendingFire(h.fire.user, h.run, token, h.fire.gen);
             Inv(caps, w.(table := w.table.(pending := w.table.pending[h.fire.auto := pf])))
    requires token in w.store.fate
    ensures Inv(caps, DoQueue(w, h, token))
  {
    hide Inv, PermitsOk, Holders, SameRuns, QueueRun, DoQueue;
    var a, pf := h.fire.auto, PendingFire(h.fire.user, h.run, token, h.fire.gen);
    var w1 := w.(table := w.table.(pending := w.table.pending[a := pf]));
    var t := QueueRun(w1.table, a, h.cancel, pf);
    PermitsOf(caps, w1);
    CancelOk(caps, w1.table, a, h.cancel, pf, 0);
    MarksQueue(w1.table, a, h.cancel, pf);
    QueuedMarks(w1.table, a, h.cancel, pf);
    MarkStep(caps, w1, t);
    QueueIs(w, h, token);
    ReplacedStep(caps, w1.(table := t), token, DoQueue(w, h, token).replaced);
  }

  lemma QueuedMarks(t: Table, a: AutoId, cancel: bool, pf: PendingFire)
    requires a in t.pending && t.pending[a] == pf
    ensures var t' := QueueRun(t, a, cancel, pf);
            && t'.pending == t.pending
            && forall b, i :: 0 <= i < |RunsOf(t, b)| && RunsOf(t, b)[i].canceled ==>
                 i < |RunsOf(t', b)| && RunsOf(t', b)[i].canceled
  {
  }

  lemma QueueIs(w: World, h: Held, token: Token)
    ensures var a, pf := h.fire.auto, PendingFire(h.fire.user, h.run, token, h.fire.gen);
            var w1 := w.(table := w.table.(pending := w.table.pending[a := pf]));
            && DoQueue(w, h, token)
               == w1.(table := QueueRun(w1.table, a, h.cancel, pf), replaced := DoQueue(w, h, token).replaced)
            && forall x :: x in DoQueue(w, h, token).replaced ==> x in w.replaced || x.1 == token
  {
  }

  lemma TokenKept(caps: Caps, w: World)
    requires Inv(caps, w) && w.lock.Some? && w.lock.value.asked.Some? && w.lock.value.asked.value.1
    ensures w.lock.value.asked.value.0 in w.store.fate
    ensures forall x :: x in w.replaced ==> x.1 in w.store.fate
  {
  }

  lemma ReplacedStep(caps: Caps, w: World, token: Token, replaced: set<(RunId, Token)>)
    requires Inv(caps, w) && token in w.store.fate
    requires forall x :: x in replaced ==> x in w.replaced || x.1 == token
    ensures Inv(caps, w.(replaced := replaced))
  {
    hide StoreOk, NoManualPending, Live, Counted, Ids, Queued, NotStale, Widths, Gens;
    GensFrame(w, w.(replaced := replaced));
  }

  /** What the waiting replacements of a fire that held the lock must satisfy. */
  ghost predicate MayWait(w: World, pending: map<AutoId, PendingFire>) {
    && PendingKnown(w.store.defs, pending)
    && Queued(w.fires, w.threads, None, w.nextRun, pending)
  }

  lemma QueuePending(caps: Caps, w: World, a: AutoId, pf: PendingFire)
    requires Inv(caps, w) && w.lock.Some? && a == w.lock.value.fire.auto
    requires pf.run == w.lock.value.run && pf.gen == w.lock.value.fire.gen
    ensures MayWait(w, w.table.pending[a := pf])
  {
    hide StoreOk, NoManualPending, Live, Counted, NotStale, Widths;
    hide SnapsKnown, FiresKnown, ThreadsKnown, RetriesKnown, LaunchesKnown;
  }

  lemma Unlock(caps: Caps, w: World, pending: map<AutoId, PendingFire>)
    requires Inv(caps, w) && w.lock.Some?
    requires pending == w.table.pending || MayWait(w, pending)
    ensures Inv(caps, w.(lock := None, wg := w.wg - 1, table := w.table.(pending := pending)))
  {
    hide StoreOk, NoManualPending, NotStale, Live, Ids, Queued, Counted, Widths, Replaced;
    hide SnapsKnown, FiresKnown, ThreadsKnown, RetriesKnown, LaunchesKnown, PendingKnown;
    var t := w.table.(pending := pending);
    UnlockIds(w, pending);
    LiveFrame(caps, w.table, t, w.threads);
    EntriesFrame(w.table, t);
    StaleFrame(w.store.rows, w.table, t, w.threads, w.edits);
    WidthsFrame(w.table, t, w.width);
  }

  lemma UnlockIds(w: World, pending: map<AutoId, PendingFire>)
    requires Ids(w.fires, w.threads, w.lock, w.nextRun) && Counted(w.wg, w.fires, w.threads, w.lock, w.loops)
    requires Queued(w.fires, w.threads, w.lock, w.nextRun, w.table.pending) && w.lock.Some?
    requires pending == w.table.pending || MayWait(w, pending)
    ensures Ids(w.fires, w.threads, None, w.nextRun) && Counted(w.wg - 1, w.fires, w.threads, None, w.loops)
    ensures Queued(w.fires, w.threads, None, w.nextRun, pending)
  {
    hide PendingKnown;
  }

  lemma LiveFrame(caps: Caps, t: Table, t': Table, threads: Threads)
    requires Live(caps, t, threads) && t'.active == t.active && t'.userRuns == t.userRuns && t'.slots == t.slots
    ensures Live(caps, t', threads)
  {
    hide PermitsOk, Holders, HasEntry;
    MarksKeep(caps, t, t');
    EntriesFrame(t, t');
  }

  lemma WidthsFrame(t: Table, t': Table, width: map<AutoId, nat>)
    requires Widths(t, width) && t'.active == t.active
    ensures Widths(t', width)
  {
    assert forall b :: RunsOf(t', b) == RunsOf(t, b);
  }

  lemma EntriesFrame(t: Table, t': Table)
    requires t'.active == t.active
    ensures forall b, r :: HasEntry(t', b, r) == HasEntry(t, b, r)
    ensures forall b, r :: Canceled(t', b, r) == Canceled(t, b, r)
  {
    assert forall b :: RunsOf(t', b) == RunsOf(t, b);
  }

  lemma StaleFrame(rows: map<AutoId, Row>, t: Table, t': Table, threads: Threads, edits: multiset<AutoId>)
    requires NotStale(rows, t, threads, edits) && forall b, r :: Canceled(t, b, r) ==> Canceled(t', b, r)
    ensures NotStale(rows, t', threads, edits)
  {
    hide Canceled;
  }

  // ----- the end of a run -----

  lemma EndStep(caps: Caps, w: World, run: RunId)
    requires Inv(caps, w)
    ensures Inv(caps, DoEndRun(caps, w, run))
  {
    hide StoreOk, NoManualPending, Live, NotStale, Ids, Queued, Counted, Widths, Replaced, LockToken;
    hide SnapsKnown, FiresKnown, ThreadsKnown, RetriesKnown, LaunchesKnown, PendingKnown, LockKnown, EndSpec;
    if Is(w, run, Ending) && w.lock.None? {
      var a := w.threads[run].fire.auto;
      var e := EndSpec(caps, w.table, a, run);
      var x := w.threads[run].(pc := Over(e.next));
      EndPending(caps, w.table, a, run);
      EndLive(caps, w, run, x);
      EndIds(caps, w, run, x);
      EndKnown(caps, w, run, x);
      EndStale(caps, w, run, x);
      EndWidths(caps, w.table, a, run, w.width);
    }
  }

  lemma EndPending(caps: Caps, t: Table, a: AutoId, run: RunId)
    ensures var e := EndSpec(caps, t, a, run);
            if e.next.Some? then a in t.pending && e.next == Some(t.pending[a]) && e.table.pending == t.pending - {a}
            else e.table.pending == t.pending
  {
    hide Find, Keep;
  }

  lemma EndLive(caps: Caps, w: World, run: RunId, x: Thread)
    requires Live(caps, w.table, w.threads) && Is(w, run, Ending) && x.pc.Over?
    ensures Live(caps, EndSpec(caps, w.table, w.threads[run].fire.auto, run).table, w.threads[run := x])
  {
    hide PermitsOk, HasEntry, Holders, EndSpec, Canceled;
    var a := w.threads[run].fire.auto;
    var t := EndSpec(caps, w.table, a, run).table;
    EndOk(caps, w.table, a, run);
    HeldIsEntry(w.table, a, run);
    forall b, r ensures HasEntry(t, b, r) <==> HasEntry(w.table, b, r) && !(b == a && r == run) {
      EndEntries(caps, w.table, a, run, b, r);
    }
  }

  lemma HeldIsEntry(t: Table, a: AutoId, run: RunId)
    ensures HasEntry(t, a, run) <==> exists i :: 0 <= i < |RunsOf(t, a)| && RunsOf(t, a)[i].run == run
  {
  }

  lemma EndIds(caps: Caps, w: World, run: RunId, x: Thread)
    requires Is(w, run, Ending) && w.lock.None? && x.pc.Over?
    requires Ids(w.fires, w.threads, w.lock, w.nextRun) && Counted(w.wg, w.fires, w.threads, w.lock, w.loops)
    requires Queued(w.fires, w.threads, w.lock, w.nextRun, w.table.pending)
    requires x.pc.next == EndSpec(caps, w.table, w.threads[run].fire.auto, run).next
    ensures var threads, t := w.threads[run := x], EndSpec(caps, w.table, w.threads[run].fire.auto, run).table;
            && Ids(w.fires, threads, w.lock, w.nextRun) && Counted(w.wg, w.fires, threads, w.lock, w.loops)
            && Queued(w.fires, threads, w.lock, w.nextRun, t.pending)
  {
    hide EndSpec, Queued;
    var a := w.threads[run].fire.auto;
    var threads := w.threads[run := x];
    EndPending(caps, w.table, a, run);
    assert threads.Keys == w.threads.Keys && |threads.Keys| == |threads| && |w.threads.Keys| == |w.threads|;
    EndQueue(w, run, x, a);
  }

  /** The replacement that waited for the last run of `a` moves from the table to the ending run. */
  lemma EndQueue(w: World, run: RunId, x: Thread, a: AutoId)
    requires Is(w, run, Ending) && x.pc.Over? && (x.pc.next.Some? ==> a in w.table.pending && x.pc.next.value == w.table.pending[a])
    requires Queued(w.fires, w.threads, w.lock, w.nextRun, w.table.pending)
    ensures Queued(w.fires, w.threads[run := x], w.lock, w.nextRun,
                   if x.pc.next.Some? then w.table.pending - {a} else w.table.pending)
  {
    var threads := w.threads[run := x];
    var pending := if x.pc.next.Some? then w.table.pending - {a} else w.table.pending;
    assert forall id :: Spare(w.fires, w.threads, w.lock, w.nextRun, id) ==> Spare(w.fires, threads, w.lock, w.nextRun, id);
    assert forall b :: b in pending ==> b in w.table.pending && pending[b] == w.table.pending[b];
    forall r | Waits(threads, r)
      ensures r != run ==> Waits(w.threads, r) && NextOf(threads, r) == NextOf(w.threads, r)
      ensures Spare(w.fires, threads, w.lock, w.nextRun, NextOf(threads, r).run)
      ensures forall b :: b in pending ==> NextOf(threads, r).run != pending[b].run
    {
      assert r != run ==> Waits(w.threads, r);
    }
  }

  lemma EndKnown(caps: Caps, w: World, run: RunId, x: Thread)
    requires ThreadsKnown(w.store.defs, w.threads) && PendingKnown(w.store.defs, w.table.pending) && run in w.threads
    requires x == w.threads[run].(pc := Over(EndSpec(caps, w.table, w.threads[run].fire.auto, run).next))
    ensures var t := EndSpec(caps, w.table, w.threads[run].fire.auto, run).table;
            ThreadsKnown(w.store.defs, w.threads[run := x]) && PendingKnown(w.store.defs, t.pending)
  {
    hide EndSpec;
    EndPending(caps, w.table, w.threads[run].fire.auto, run);
  }

  lemma EndStale(caps: Caps, w: World, run: RunId, x: Thread)
    requires NotStale(w.store.rows, w.table, w.threads, w.edits) && run in w.threads && x.pc.Over?
    ensures NotStale(w.store.rows, EndSpec(caps, w.table, w.threads[run].fire.auto, run).table, w.threads[run := x], w.edits)
  {
    hide Canceled, EndSpec, HasEntry;
    var a := w.threads[run].fire.auto;
    forall b, r
      ensures Canceled(w.table, b, r) && !(b == a && r == run) ==> Canceled(EndSpec(caps, w.table, a, run).table, b, r)
    {
      EndEntries(caps, w.table, a, run, b, r);
    }
  }

  lemma EndWidths(caps: Caps, t: Table, a: AutoId, run: RunId, width: map<AutoId, nat>)
    requires Widths(t, width)
    ensures Widths(EndSpec(caps, t, a, run).table, width)
  {
    hide EndSpec;
    forall b ensures |RunsOf(EndSpec(caps, t, a, run).table, b)| <= |RunsOf(t, b)| { EndEntries(caps, t, a, run, b, run); }
  }

  /** A finished run hands on, or drops, the fire that waited for it, or leaves. */
  lemma OverStep(caps: Caps, w: World, run: RunId, threads: Threads)
    requires Inv(caps, w) && run in w.threads && w.threads[run].pc.Over?
    requires threads == w.threads[run := w.threads[run].(pc := Over(None))]
    ensures Inv(caps, w.(threads := threads))
  {
    hide StoreOk, NoManualPending, Live, Ids, NotStale, ThreadsKnown, Widths, Replaced, LockToken, Queued, Counted;
    hide SnapsKnown, FiresKnown, RetriesKnown, LaunchesKnown, PendingKnown, LockKnown;
    OverIds(w, run, threads);
    OverThread(caps, w, run, threads);
    assert Gens(w.(threads := threads));
  }

  lemma OverThread(caps: Caps, w: World, run: RunId, threads: Threads)
    requires run in w.threads && w.threads[run].pc.Over?
    requires threads == w.threads[run := w.threads[run].(pc := Over(None))]
    requires Live(caps, w.table, w.threads) && Ids(w.fires, w.threads, w.lock, w.nextRun)
    requires ThreadsKnown(w.store.defs, w.threads) && NotStale(w.store.rows, w.table, w.threads, w.edits)
    ensures Live(caps, w.table, threads) && Ids(w.fires, threads, w.lock, w.nextRun)
    ensures ThreadsKnown(w.store.defs, threads) && NotStale(w.store.rows, w.table, threads, w.edits)
  {
    hide PermitsOk, HasEntry, Holders, NotStaleRun, FireKnown, Scheduled, SawClaimed;
    assert threads.Keys == w.threads.Keys;
  }

  lemma OverIds(w: World, run: RunId, threads: Threads)
    requires run in w.threads && w.threads[run].pc.Over?
    requires threads == w.threads[run := w.threads[run].(pc := Over(None))]
    requires Counted(w.wg, w.fires, w.threads, w.lock, w.loops)
    requires Queued(w.fires, w.threads, w.lock, w.nextRun, w.table.pending)
    ensures Counted(w.wg, w.fires, threads, w.lock, w.loops)
    ensures Queued(w.fires, threads, w.lock, w.nextRun, w.table.pending)
  {
    assert threads.Keys == w.threads.Keys && |threads.Keys| == |threads| && |w.threads.Keys| == |w.threads|;
    assert forall r :: Waits(threads, r) ==> r != run && Waits(w.threads, r) && NextOf(threads, r) == NextOf(w.threads, r);
  }

  lemma RestartStep(caps: Caps, w: World, run: RunId, readable: bool)
    requires Inv(caps, w)
    ensures Inv(caps, DoRestart(w, run, readable))
  {
    hide Inv;
    if Waits(w.threads, run) {
      var a, pf := w.threads[run].fire.auto, NextOf(w.threads, run);
      var w' := SetPc(w, run, Over(None));
      OverStep(caps, w, run, w'.threads);
      if readable && a in w.store.rows {
        WaitedFor(caps, w, run);
        ReuseId(caps, w', pf.run, Fire(a, pf.user, w.store.rows[a].policy, false, Some(pf.token), pf.gen));
      }
    }
  }

  lemma WaitedFor(caps: Caps, w: World, run: RunId)
    requires Inv(caps, w) && Waits(w.threads, run)
    ensures var threads := w.threads[run := w.threads[run].(pc := Over(None))];
            var pf := NextOf(w.threads, run);
            && Unused(w.(threads := threads), pf.run)
            && Scheduled(w.store.defs, w.threads[run].fire.auto, pf.gen)
  {
    hide StoreOk, NoManualPending, Live, NotStale, Widths, Counted, Ids, Scheduled, FireKnown;
    hide SnapsKnown, FiresKnown, PendingKnown, RetriesKnown, LaunchesKnown;
    assert ThreadKnown(w.store.defs, w.threads[run]);
    WaitedUnused(w, run);
  }

  lemma WaitedUnused(w: World, run: RunId)
    requires Waits(w.threads, run) && Queued(w.fires, w.threads, w.lock, w.nextRun, w.table.pending)
    ensures var threads := w.threads[run := w.threads[run].(pc := Over(None))];
            Unused(w.(threads := threads), NextOf(w.threads, run).run)
  {
    var threads := w.threads[run := w.threads[run].(pc := Over(None))];
    forall r | Waits(threads, r) ensures NextOf(threads, r).run != NextOf(w.threads, run).run {
      assert r != run && Waits(w.threads, r) && NextOf(threads, r) == NextOf(w.threads, r);
    }
  }

  /** An id no fire, thread or waiting replacement has. */
  ghost predicate Unused(w: World, id: RunId) {
    && Spare(w.fires, w.threads, w.lock, w.nextRun, id)
    && (forall a :: a in w.table.pending ==> w.table.pending[a].run != id)
    && (forall r :: Waits(w.threads, r) ==> NextOf(w.threads, r).run != id)
  }

  lemma ReuseId(caps: Caps, w: World, id: RunId, f: Fire)
    requires Inv(caps, w) && FireKnown(w.store.defs, f) && Unused(w, id)
    ensures Inv(caps, w.(fires := w.fires[id := f], wg := w.wg + 1))
  {
    hide StoreOk, NoManualPending, Live, NotStale, Widths, FireKnown, SnapsKnown, ThreadsKnown, PendingKnown;
    hide RetriesKnown;
    hide LockKnown, LaunchesKnown, FiresKnown, Ids, Queued, Counted, Replaced, LockToken;
    ReuseIds(w, id, f);
    NewFireKnown(w.store.defs, w.fires, f, id);
  }

  lemma ReuseIds(w: World, id: RunId, f: Fire)
    requires Ids(w.fires, w.threads, w.lock, w.nextRun) && Counted(w.wg, w.fires, w.threads, w.lock, w.loops)
    requires Queued(w.fires, w.threads, w.lock, w.nextRun, w.table.pending) && Unused(w, id)
    ensures var fires := w.fires[id := f];
            && Ids(fires, w.threads, w.lock, w.nextRun) && Counted(w.wg + 1, fires, w.threads, w.lock, w.loops)
            && Queued(fires, w.threads, w.lock, w.nextRun, w.table.pending)
  {
    var fires := w.fires[id := f];
    assert fires.Keys == w.fires.Keys + {id} && |fires.Keys| == |fires| && |w.fires.Keys| == |w.fires|;
  }

  lemma DoneStep(caps: Caps, w: World, run: RunId)
    requires Inv(caps, w)
    ensures Inv(caps, DoDone(w, run))
  {
    hide Inv;
    if Is(w, run, Over(None)) { GoneStep(caps, w, run, w.threads - {run}); }
  }

  lemma GoneStep(caps: Caps, w: World, run: RunId, threads: Threads)
    requires Inv(caps, w) && Is(w, run, Over(None)) && threads == w.threads - {run}
    ensures Inv(caps, w.(threads := threads, wg := w.wg - 1))
  {
    hide StoreOk, NoManualPending, Live, Ids, NotStale, ThreadsKnown, Widths, Replaced, LockToken, Queued, Counted;
    hide SnapsKnown, FiresKnown, RetriesKnown, LaunchesKnown, PendingKnown, LockKnown;
    GoneIds(w, run);
    GoneThread(caps, w, run);
    assert Gens(w.(threads := threads, wg := w.wg - 1));
  }

  lemma GoneThread(caps: Caps, w: World, run: RunId)
    requires Is(w, run, Over(None)) && Live(caps, w.table, w.threads) && Ids(w.fires, w.threads, w.lock, w.nextRun)
    requires ThreadsKnown(w.store.defs, w.threads) && NotStale(w.store.rows, w.table, w.threads, w.edits)
    ensures var threads := w.threads - {run};
            && Live(caps, w.table, threads) && Ids(w.fires, threads, w.lock, w.nextRun)
            && ThreadsKnown(w.store.defs, threads) && NotStale(w.store.rows, w.table, threads, w.edits)
  {
    hide PermitsOk, HasEntry, Holders, NotStaleRun, ThreadKnown;
  }

  lemma GoneIds(w: World, run: RunId)
    requires Is(w, run, Over(None))
    requires Counted(w.wg, w.fires, w.threads, w.lock, w.loops)
    requires Queued(w.fires, w.threads, w.lock, w.nextRun, w.table.pending)
    ensures Counted(w.wg - 1, w.fires, w.threads - {run}, w.lock, w.loops)
    ensures Queued(w.fires, w.threads - {run}, w.lock, w.nextRun, w.table.pending)
  {
    var threads := w.threads - {run};
    assert threads.Keys == w.threads.Keys - {run} && |threads.Keys| == |threads| && |w.threads.Keys| == |w.threads|;
    assert forall r :: Waits(threads, r) ==> Waits(w.threads, r) && NextOf(threads, r) == NextOf(w.threads, r);
  }

  // ----- the service -----

  lemma ServiceStep(caps: Caps, w: World)
    requires Inv(caps, w)
    ensures Inv(caps, DoStartService(w)) && Inv(caps, DoLoopStart(w)) && Inv(caps, DoLoopExit(w))
  {
    hide StoreOk, NoManualPending, PermitsOk, Holders, NotStale, Widths, Live, Ids, Queued, Replaced, LockToken;
    hide SnapsKnown, FiresKnown, ThreadsKnown, RetriesKnown, LaunchesKnown, PendingKnown, LockKnown;
    var t := w.table.(started := true);
    LiveFrame(caps, w.table, t, w.threads);
    EntriesFrame(w.table, t);
    StaleFrame(w.store.rows, w.table, t, w.threads, w.edits);
    WidthsFrame(w.table, t, w.width);
  }

  lemma NothingActive(caps: Caps)
    ensures PermitsOk(caps, EMPTY) && Holders(EMPTY.active) == {}
  {
    assert forall u :: UserHolders(EMPTY.active, u) == {};
    assert Holders(EMPTY.active) == {};
  }

  lemma NoMemory(caps: Caps, nextRun: RunId, rows: map<AutoId, Row>)
    ensures Live(caps, EMPTY, map[]) && Counted(0, map[], map[], None, 0) && Ids(map[], map[], None, nextRun)
    ensures Queued(map[], map[], None, nextRun, map[]) && NotStale(rows, EMPTY, map[], multiset{})
    ensures Widths(EMPTY, map[])
  {
    hide PermitsOk, Holders;
    NothingActive(caps);
  }

  lemma NothingKnown(defs: Defs)
    ensures SnapsKnown(defs, {}) && FiresKnown(defs, map[]) && ThreadsKnown(defs, map[]) && LockKnown(defs, None)
    ensures PendingKnown(defs, map[]) && RetriesKnown(defs, {})
  {
  }

  /** A crash keeps what is durable. */
  lemma CrashStep(caps: Caps, w: World)
    requires Inv(caps, w)
    ensures Inv(caps, DoCrash(w))
  {
    hide StoreOk, NoManualPending, Replaced, LaunchesKnown, Live, Counted, Ids, Queued, NotStale, Widths;
    hide SnapsKnown, FiresKnown, ThreadsKnown, LockKnown, PendingKnown, RetriesKnown;
    NoMemory(caps, w.nextRun, w.store.rows);
    NothingKnown(w.store.defs);
  }

  /** The steps of one beginRun, uninterrupted, do to the table what the service's method does. */
  lemma BeginRefines(caps: Caps, w: World, run: RunId)
    requires run in w.fires && w.lock.None?
    ensures var f := w.fires[run];
            var (_, stamped) := Stamp(w.store, f.auto, f.gen);
            DoCommit(DoPersist(DoBeginRun(caps, w, run), false, false)).table
            == BeginSpec(caps, w.table, f.auto, f.user, f.policy, run, f.byUser, f.gen, w.store.nextToken, stamped).table
  {
    hide AdmitRun, QueueRun;
  }

  // ----- every run -----

  lemma InitOk(caps: Caps)
    ensures Inv(caps, INIT)
  {
    hide Live, Counted, Ids, Queued, NotStale, Widths;
    NoMemory(caps, 0, map[]);
  }

  /** Every step keeps the invariant. */
  lemma StepKeeps(caps: Caps, w: World, act: Action)
    requires Inv(caps, w)
    ensures Inv(caps, Step(caps, w, act))
  {
    hide Inv, DoCreate, DoUpdate, DoSetEnabled, DoDelete, DoCancelEdit, DoRead, DoFireDue, DoTrigger, DoBeginRun;
    hide DoPersist, DoCommit;
    hide DoRetry, DoInsertManual, DoBind, DoCheck, DoReject, DoInsert, DoClaim, DoStart, DoFinish, DoEndRun;
    hide DoRestart, DoDone;
    hide DoStartService, DoStopService, DoLoopStart, DoLoopExit, DoCrash;
    match act {
      case Create(a, owner, manual, policy) => CreateStep(caps, w, a, owner, manual, policy);
      case Update(a, manual, policy) => UpdateStep(caps, w, a, manual, policy);
      case SetEnabled(a, enabled, gen) => SwitchStep(caps, w, a, enabled, gen);
      case Delete(a) => DeleteStep(caps, w, a);
      case CancelEdit(a) => CancelEditStep(caps, w, a);
      case Read(a) => ReadStep(caps, w, a);
      case FireDue(snap, drain) => FireStep(caps, w, snap, drain);
      case Trigger(snap) => FireStep(caps, w, snap, false);
      case BeginRun(run) => BeginStep(caps, w, run);
      case Persist(failed, applied) => PersistStep(caps, w, failed, applied);
      case Commit => CommitStep(caps, w);
      case Retry(a, gen) => RetryStep(caps, w, a, gen);
      case InsertManual(run, ok) => MoveStep(caps, w, run, ok);
      case Bind(run) => BindStep(caps, w, run);
      case Check(run, readable) => CheckStep(caps, w, run, readable);
      case Reject(run, recorded, claimed) => RejectStep(caps, w, run, recorded, claimed);
      case Insert(run, ok) => MoveStep(caps, w, run, ok);
      case ClaimToken(run, failed, applied) => ClaimTokenStep(caps, w, run, failed, applied);
      case Start(run) => StartStep(caps, w, run);
      case Finish(run) => MoveStep(caps, w, run, true);
      case EndRun(run) => EndStep(caps, w, run);
      case Restart(run, readable) => RestartStep(caps, w, run, readable);
      case Done(run) => DoneStep(caps, w, run);
      case StartService => ServiceStep(caps, w);
      case LoopStart => ServiceStep(caps, w);
      case StopService => StopStep(caps, w);
      case LoopExit => ServiceStep(caps, w);
      case Crash => CrashStep(caps, w);
    }
  }

  lemma {:induction false} Reachable(caps: Caps, acts: seq<Action>)
    ensures Inv(caps, Run(caps, INIT, acts))
    decreases |acts|
  {
    hide Inv, Step;
    if acts == [] {
      InitOk(caps);
    } else {
      Reachable(caps, acts[..|acts| - 1]);
      StepKeeps(caps, Run(caps, INIT, acts[..|acts| - 1]), acts[|acts| - 1]);
    }
  }

  /** Permits are conserved in every reachable state: per-user counts and slots are exactly the
      active runs, the caps hold, no automation has more active runs than the widest policy it
      was admitted under, and the wait group is at least the number of active runs. */
  lemma PermitsConserved(caps: Caps, acts: seq<Action>, a: AutoId)
    ensures var w := Run(caps, INIT, acts);
            && PermitsOk(caps, w.table)
            && |RunsOf(w.table, a)| <= WidthOf(w, a)
            && w.wg >= |Holders(w.table.active)|
            && (w.wg == 0 ==> w.table.active == map[])
  {
    hide Inv, PermitsOk;
    var w := Run(caps, INIT, acts);
    Reachable(caps, acts);
    CountsActive(caps, w, a);
  }

  lemma CountsActive(caps: Caps, w: World, a: AutoId)
    requires Inv(caps, w)
    ensures PermitsOk(caps, w.table) && |RunsOf(w.table, a)| <= WidthOf(w, a)
    ensures w.wg >= |Holders(w.table.active)| && (w.wg == 0 ==> w.table.active == map[])
  {
    hide StoreOk, NoManualPending, Gens, NotStale, Queued, Replaced;
    assert Holders(w.table.active) <= w.threads.Keys;
    Cardinality(Holders(w.table.active), w.threads.Keys);
    forall b | b in w.table.active ensures Holders(w.table.active) != {} {
      assert w.table.active[b][0].run in Holders(w.table.active);
    }
  }

  lemma {:induction false} Cardinality(x: set<RunId>, y: set<RunId>)
    requires x <= y
    ensures |x| <= |y|
  {
    if x != {} {
      var e :| e in x;
      Cardinality(x - {e}, y - {e});
    }
  }

  /** A run cancelled by cancel_previous has a replacement that, through every crash and edit, is
      still durable, or in the end was cleared by an edit or claimed by a run. */
  lemma ReplacementSurvives(caps: Caps, acts: seq<Action>, run: RunId, token: Token)
    requires (run, token) in Run(caps, INIT, acts).replaced
    ensures var s := Run(caps, INIT, acts).store;
            && StoreOk(s) && token in s.fate
            && var last := Latest(s, token);
               match s.fate[last]
               case Waiting(a) => a in s.rows && s.rows[a].pending == Some(last)
               case Superseded(_) => false
               case Cleared => true
               case Claimed(by_) => (last, by_) in s.claims
  {
    Reachable(caps, acts);
    var s := Run(caps, INIT, acts).store;
    ReplacedKnown(caps, Run(caps, INIT, acts), run, token);
    assert Accounted(s, Latest(s, token));
  }

  lemma ReplacedKnown(caps: Caps, w: World, run: RunId, token: Token)
    requires Inv(caps, w) && (run, token) in w.replaced
    ensures StoreOk(w.store) && token in w.store.fate
  {
    hide StoreOk, NoManualPending, Gens, NotStale, Queued, Live, Ids, Counted, Widths;
  }

  /** No token is claimed by two runs, and a manual automation never has one. */
  lemma TokensClaimedOnce(caps: Caps, acts: seq<Action>)
    ensures var s := Run(caps, INIT, acts).store;
            && (forall i, j :: 0 <= i < j < |s.claims| ==> s.claims[i].0 != s.claims[j].0)
            && (forall a :: a in s.rows && s.rows[a].manual ==> s.rows[a].pending.None?)
            && (forall a :: a in s.rows && s.rows[a].pending.Some? ==>
                  forall i :: 0 <= i < |s.claims| ==> s.claims[i].0 != s.rows[a].pending.value)
  {
    Reachable(caps, acts);
    ClaimsOf(caps, Run(caps, INIT, acts));
  }

  lemma ClaimsOf(caps: Caps, w: World)
    requires Inv(caps, w)
    ensures ClaimedOnce(w.store) && NoManualPending(w.store.rows) && RowsOk(w.store)
  {
    hide Gens, NotStale, Queued, Live, Ids, Counted, Widths;
  }

  /** Every engine run saw its row enabled, at exactly the generation it was claimed under and so
      with the definition of that generation; and a run that may still act, unless cancelled or
      overtaken by an edit whose cancelAutomation has not run, acts for the enabled definition the
      row holds now. */
  lemma NoStaleSideEffects(caps: Caps, acts: seq<Action>, i: nat, run: RunId)
    ensures var w := Run(caps, INIT, acts);
            && (i < |w.launches| ==> SawClaimed(w.store.defs, w.launches[i].fire, w.launches[i].seen))
            && (run in w.threads && MayAct(w.threads[run].pc) ==>
                  NotStaleRun(w.store.rows, w.table, w.threads[run], w.edits, run))
  {
    hide Inv, SawClaimed, NotStaleRun;
    var w := Run(caps, INIT, acts);
    Reachable(caps, acts);
    LaunchOf(caps, w, i, run);
  }

  lemma LaunchOf(caps: Caps, w: World, i: nat, run: RunId)
    requires Inv(caps, w)
    ensures i < |w.launches| ==> SawClaimed(w.store.defs, w.launches[i].fire, w.launches[i].seen)
    ensures run in w.threads && MayAct(w.threads[run].pc) ==>
              NotStaleRun(w.store.rows, w.table, w.threads[run], w.edits, run)
  {
    hide StoreOk, NoManualPending, Live, Counted, Ids, Queued, Widths, SawClaimed, NotStaleRun;
  }
}
