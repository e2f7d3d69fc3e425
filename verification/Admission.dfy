/** The scheduler's in-memory table of runs: admission under overlap policies and caps, release,
    queued replacements and cancellation. Every change happens under the service's mutex. */
module Admission {
  import opened Wrappers

  type AutoId = nat
  type UserId = nat
  type RunId = nat
  type Token = nat

  datatype Policy = Skip | Parallel(max: int) | CancelPrevious | QueueOne

  /** `bound`: the run's cancel function is known, so that cancelling takes effect at once. */
  datatype ActiveRun = ActiveRun(run: RunId, user: UserId, bound: bool, canceled: bool)

  datatype PendingFire = PendingFire(user: UserId, run: RunId, token: Token, gen: nat)

  /** Run caps; zero or less means unlimited. */
  datatype Caps = Caps(perUser: int, total: int)

  datatype Table = Table(started: bool, active: map<AutoId, seq<ActiveRun>>, pending: map<AutoId, PendingFire>,
                         userRuns: map<UserId, nat>, slots: nat)

  const EMPTY := Table(false, map[], map[], map[], 0)

  function RunsOf(t: Table, a: AutoId): seq<ActiveRun> { if a in t.active then t.active[a] else [] }

  function UserCount(t: Table, u: UserId): nat { if u in t.userRuns then t.userRuns[u] else 0 }

  // ----- who holds a permit -----

  function Holders(active: map<AutoId, seq<ActiveRun>>): set<RunId> {
    set a, i | a in active && 0 <= i < |active[a]| :: active[a][i].run
  }

  function UserHolders(active: map<AutoId, seq<ActiveRun>>, u: UserId): set<RunId> {
    set a, i | a in active && 0 <= i < |active[a]| && active[a][i].user == u :: active[a][i].run
  }

  ghost predicate Distinct(active: map<AutoId, seq<ActiveRun>>) {
    forall a, i, b, j :: a in active && b in active && 0 <= i < |active[a]| && 0 <= j < |active[b]| ==>
      active[a][i].run == active[b][j].run ==> a == b && i == j
  }

  /** Per-user counts and occupied slots are exactly the active runs, and both caps hold. */
  ghost predicate PermitsOk(caps: Caps, t: Table) {
    && Distinct(t.active)
    && (forall a :: a in t.active ==> t.active[a] != [])
    && (forall u :: UserCount(t, u) == |UserHolders(t.active, u)|)
    && (forall u :: u in t.userRuns ==> t.userRuns[u] > 0)
    && t.slots == (if caps.total > 0 then |Holders(t.active)| else 0)
    && (caps.total > 0 ==> t.slots <= caps.total)
    && (caps.perUser > 0 ==> forall u :: UserCount(t, u) <= caps.perUser)
  }

  // ----- beginRun -----

  datatype Decision = Refuse | Capped | Queue(cancel: bool) | Admit

  /** The most runs of one automation a policy admits. */
  function Width(p: Policy): nat { if p.Parallel? && p.max > 1 then p.max else 1 }

  function Decide(caps: Caps, t: Table, a: AutoId, user: UserId, p: Policy, manual: bool): Decision {
    var n := |RunsOf(t, a)|;
    if !t.started && !manual then Refuse
    else if p.Parallel? && n >= Width(p) then Refuse
    else if p.Skip? && n > 0 then Refuse
    else if (p.CancelPrevious? || p.QueueOne?) && n > 0 then
      if manual then Refuse else Queue(p.CancelPrevious?)
    else if CapsReached(caps, t, user) then Capped
    else Admit
  }

  predicate CapsReached(caps: Caps, t: Table, user: UserId) {
    (caps.perUser > 0 && UserCount(t, user) >= caps.perUser) || (caps.total > 0 && t.slots >= caps.total)
  }

  function AdmitRun(caps: Caps, t: Table, a: AutoId, user: UserId, run: RunId): Table {
    t.(active := t.active[a := RunsOf(t, a) + [ActiveRun(run, user, false, false)]],
       userRuns := t.userRuns[user := UserCount(t, user) + 1],
       slots := if caps.total > 0 then t.slots + 1 else t.slots)
  }

  function CancelAll(runs: seq<ActiveRun>): seq<ActiveRun> {
    seq(|runs|, i requires 0 <= i < |runs| => runs[i].(canceled := true))
  }

  /** Records a durably stamped replacement, cancelling the active runs for cancel_previous. */
  function QueueRun(t: Table, a: AutoId, cancel: bool, pf: PendingFire): Table {
    t.(active := if cancel && a in t.active then t.active[a := CancelAll(t.active[a])] else t.active,
       pending := t.pending[a := pf])
  }

  datatype Begin = Begin(table: Table, outcome: Decision)

  /** beginRun, given whether the store took the replacement's token. */
  function BeginSpec(caps: Caps, t: Table, a: AutoId, user: UserId, p: Policy, run: RunId, manual: bool, gen: nat,
                     token: Token, stamped: bool): Begin {
    var d := Decide(caps, t, a, user, p, manual);
    match d
    case Admit => Begin(AdmitRun(caps, t, a, user, run), d)
    case Queue(cancel) =>
      if stamped then Begin(QueueRun(t, a, cancel, PendingFire(user, run, token, gen)), d) else Begin(t, Refuse)
    case _ => Begin(t, d)
  }

  // ----- endRun -----

  function Keep(runs: seq<ActiveRun>, run: RunId): seq<ActiveRun> {
    if runs == [] then []
    else Keep(runs[..|runs| - 1], run) + if runs[|runs| - 1].run == run then [] else [runs[|runs| - 1]]
  }

  /** The position of the first entry of a run. */
  function Find(runs: seq<ActiveRun>, run: RunId): (r: Option<nat>)
    ensures r.Some? ==> r.value < |runs| && runs[r.value].run == run
    ensures r.None? ==> forall i :: 0 <= i < |runs| ==> runs[i].run != run
  {
    if runs == [] then None
    else
      var before := Find(runs[..|runs| - 1], run);
      if before.Some? then before
      else if runs[|runs| - 1].run == run then Some(|runs| - 1) else None
  }

  function Release(caps: Caps, t: Table, user: UserId): Table {
    var n := UserCount(t, user);
    t.(userRuns := if n > 1 then t.userRuns[user := n - 1] else t.userRuns - {user},
       slots := if caps.total > 0 && t.slots > 0 then t.slots - 1 else t.slots)
  }

  function Drop(t: Table, a: AutoId, run: RunId): Table {
    var kept := Keep(RunsOf(t, a), run);
    t.(active := if kept == [] then t.active - {a} else t.active[a := kept])
  }

  datatype Ended = Ended(table: Table, next: Option<PendingFire>)

  function EndSpec(caps: Caps, t: Table, a: AutoId, run: RunId): Ended {
    var at := Find(RunsOf(t, a), run);
    var released := if at.Some? then Release(caps, t, RunsOf(t, a)[at.value].user) else t;
    var t' := Drop(released, a, run);
    if a in t.pending && a !in t'.active && t.started
    then Ended(t'.(pending := t'.pending - {a}), Some(t.pending[a]))
    else Ended(t', None)
  }

  // ----- cancellation -----

  function CancelSpec(t: Table, a: AutoId): Table {
    t.(pending := t.pending - {a}, active := if a in t.active then t.active[a := CancelAll(t.active[a])] else t.active)
  }

  function StopSpec(t: Table): Table {
    if !t.started then t
    else t.(started := false, active := map a | a in t.active :: CancelAll(t.active[a]))
  }

  function BindSpec(t: Table, a: AutoId, run: RunId): Table {
    var at := Find(RunsOf(t, a), run);
    if at.None? then t else t.(active := t.active[a := t.active[a][at.value := t.active[a][at.value].(bound := true)]])
  }

  // ----- the permits are conserved -----

  /** Two tables whose runs differ only in their marks. */
  ghost predicate SameRuns(x: map<AutoId, seq<ActiveRun>>, y: map<AutoId, seq<ActiveRun>>) {
    && x.Keys == y.Keys
    && forall a :: a in x ==>
         && |x[a]| == |y[a]|
         && forall i :: 0 <= i < |x[a]| ==> x[a][i].run == y[a][i].run && x[a][i].user == y[a][i].user
  }

  lemma MarksKeep(caps: Caps, t: Table, t': Table)
    requires PermitsOk(caps, t) && SameRuns(t.active, t'.active)
    requires t'.userRuns == t.userRuns && t'.slots == t.slots
    ensures PermitsOk(caps, t') && Holders(t'.active) == Holders(t.active)
  {
    assert Holders(t.active) == Holders(t'.active) by {
      SubHolders(t.active, t'.active);
      SubHolders(t'.active, t.active);
    }
    forall u ensures UserHolders(t.active, u) == UserHolders(t'.active, u) && UserCount(t', u) == UserCount(t, u) {
      SubUserHolders(t.active, t'.active, u);
      SubUserHolders(t'.active, t.active, u);
    }
  }

  lemma SubHolders(x: map<AutoId, seq<ActiveRun>>, y: map<AutoId, seq<ActiveRun>>)
    requires SameRuns(x, y)
    ensures Holders(x) <= Holders(y)
  {
    forall r | r in Holders(x) ensures r in Holders(y) {
      var a, i :| a in x && 0 <= i < |x[a]| && x[a][i].run == r;
      assert y[a][i].run == r;
    }
  }

  lemma SubUserHolders(x: map<AutoId, seq<ActiveRun>>, y: map<AutoId, seq<ActiveRun>>, u: UserId)
    requires SameRuns(x, y)
    ensures UserHolders(x, u) <= UserHolders(y, u)
  {
    forall r | r in UserHolders(x, u) ensures r in UserHolders(y, u) {
      var a, i :| a in x && 0 <= i < |x[a]| && x[a][i].user == u && x[a][i].run == r;
      assert y[a][i].run == r && y[a][i].user == u;
    }
  }

  function Added(active: map<AutoId, seq<ActiveRun>>, a: AutoId, r: ActiveRun): map<AutoId, seq<ActiveRun>> {
    active[a := (if a in active then active[a] else []) + [r]]
  }

  /** The entries after adding one: the old ones, and the new one at the end of its list. */
  lemma AddedEntry(active: map<AutoId, seq<ActiveRun>>, a: AutoId, r: ActiveRun)
    ensures var n := if a in active then |active[a]| else 0;
            && a in Added(active, a, r) && n < |Added(active, a, r)[a]| && Added(active, a, r)[a][n] == r
            && (forall b, i :: b in active && 0 <= i < |active[b]| ==>
                  && b in Added(active, a, r) && i < |Added(active, a, r)[b]|
                  && Added(active, a, r)[b][i] == active[b][i])
            && forall b, i :: b in Added(active, a, r) && 0 <= i < |Added(active, a, r)[b]| ==>
                 if b == a && i == n then Added(active, a, r)[b][i] == r
                 else b in active && i < |active[b]| && Added(active, a, r)[b][i] == active[b][i]
  {
  }

  lemma AddedHolders(active: map<AutoId, seq<ActiveRun>>, a: AutoId, r: ActiveRun)
    ensures Holders(Added(active, a, r)) == Holders(active) + {r.run}
  {
    hide Added;
    AddedEntry(active, a, r);
  }

  lemma AddedUserHolders(active: map<AutoId, seq<ActiveRun>>, a: AutoId, r: ActiveRun, u: UserId)
    ensures UserHolders(Added(active, a, r), u) == UserHolders(active, u) + (if r.user == u then {r.run} else {})
    ensures UserHolders(active, u) <= Holders(active)
  {
    hide Added;
    AddedEntry(active, a, r);
  }

  lemma AddedDistinct(active: map<AutoId, seq<ActiveRun>>, a: AutoId, r: ActiveRun)
    requires Distinct(active) && r.run !in Holders(active)
    ensures Distinct(Added(active, a, r))
  {
    hide Added;
    AddedEntry(active, a, r);
    assert forall b, i :: b in active && 0 <= i < |active[b]| ==> active[b][i].run in Holders(active);
  }

  lemma AdmitGate(caps: Caps, t: Table, a: AutoId, user: UserId, p: Policy, manual: bool)
    requires Decide(caps, t, a, user, p, manual).Admit?
    ensures !CapsReached(caps, t, user)
  {
  }

  lemma AdmitOk(caps: Caps, t: Table, a: AutoId, user: UserId, p: Policy, run: RunId, manual: bool)
    requires PermitsOk(caps, t) && run !in Holders(t.active)
    requires Decide(caps, t, a, user, p, manual).Admit?
    ensures PermitsOk(caps, AdmitRun(caps, t, a, user, run))
    ensures Holders(AdmitRun(caps, t, a, user, run).active) == Holders(t.active) + {run}
  {
    hide Holders, UserHolders, Distinct, Decide;
    AdmitGate(caps, t, a, user, p, manual);
    var r := ActiveRun(run, user, false, false);
    var t' := AdmitRun(caps, t, a, user, run);
    assert t'.active == Added(t.active, a, r);
    AddedHolders(t.active, a, r);
    AddedDistinct(t.active, a, r);
    forall u
      ensures UserCount(t', u) == |UserHolders(t'.active, u)|
      ensures caps.perUser > 0 ==> UserCount(t', u) <= caps.perUser
    {
      AddedUserHolders(t.active, a, r, u);
      assert UserCount(t, u) == |UserHolders(t.active, u)|;
    }
  }

  lemma {:induction false} KeepFound(runs: seq<ActiveRun>, run: RunId)
    requires forall i, j :: 0 <= i < j < |runs| ==> runs[i].run != runs[j].run
    ensures Find(runs, run).None? ==> Keep(runs, run) == runs
    ensures Find(runs, run).Some? ==>
              Keep(runs, run) == runs[..Find(runs, run).value] + runs[Find(runs, run).value + 1..]
    decreases |runs|
  {
    if runs != [] {
      var n := |runs| - 1;
      KeepFound(runs[..n], run);
      var before := Find(runs[..n], run);
      if before.Some? {
        CutThenAppend(runs, before.value);
      } else if runs[n].run == run {
        assert runs[..n] + [] == runs[..n] + runs[n + 1..];
      } else {
        assert runs[..n] + [runs[n]] == runs;
      }
    }
  }

  lemma CutThenAppend(runs: seq<ActiveRun>, k: nat)
    requires k + 1 < |runs|
    ensures var n := |runs| - 1;
            runs[..n][..k] + runs[..n][k + 1..] + [runs[n]] == runs[..k] + runs[k + 1..]
  {
  }

  /** Without one entry of the runs of `a`. */
  function Without(active: map<AutoId, seq<ActiveRun>>, a: AutoId, at: nat): map<AutoId, seq<ActiveRun>>
    requires a in active && at < |active[a]|
  {
    var kept := active[a][..at] + active[a][at + 1..];
    if kept == [] then active - {a} else active[a := kept]
  }

  lemma RemovedHolder(active: map<AutoId, seq<ActiveRun>>, a: AutoId, at: nat, u: UserId)
    requires Distinct(active) && a in active && at < |active[a]|
    ensures var active' := Without(active, a, at);
            var r := active[a][at];
            && Distinct(active')
            && Holders(active') == Holders(active) - {r.run} && r.run in Holders(active)
            && UserHolders(active', u) == UserHolders(active, u) - (if r.user == u then {r.run} else {})
            && (r.user == u ==> r.run in UserHolders(active, u))
  {
    var active' := Without(active, a, at);
    var kept := active[a][..at] + active[a][at + 1..];
    forall b, i | b in active' && 0 <= i < |active'[b]|
      ensures b in active && Old(a, at, b, i) < |active[b]| && active'[b][i] == active[b][Old(a, at, b, i)]
      ensures active[b][Old(a, at, b, i)].run != active[a][at].run
    {
    }
    forall b, i | b in active && 0 <= i < |active[b]| && !(b == a && i == at)
      ensures b in active' && New(a, at, b, i) < |active'[b]| && active'[b][New(a, at, b, i)] == active[b][i]
    {
      if b == a { assert kept[New(a, at, b, i)] == active[b][i]; }
    }
    HolderSets(active, active', a, at, u);
  }

  function Old(a: AutoId, at: nat, b: AutoId, i: nat): nat { if b == a && i >= at then i + 1 else i }

  function New(a: AutoId, at: nat, b: AutoId, i: nat): nat { if b == a && i > at then i - 1 else i }

  lemma HolderSets(active: map<AutoId, seq<ActiveRun>>, active': map<AutoId, seq<ActiveRun>>, a: AutoId, at: nat, u: UserId)
    requires a in active && at < |active[a]|
    requires forall b, i: nat :: b in active' && i < |active'[b]| ==>
               && b in active && Old(a, at, b, i) < |active[b]| && active'[b][i] == active[b][Old(a, at, b, i)]
               && active[b][Old(a, at, b, i)].run != active[a][at].run
    requires forall b, i: nat :: b in active && i < |active[b]| && !(b == a && i == at) ==>
               b in active' && New(a, at, b, i) < |active'[b]| && active'[b][New(a, at, b, i)] == active[b][i]
    ensures Holders(active') == Holders(active) - {active[a][at].run}
    ensures UserHolders(active', u) == UserHolders(active, u) - (if active[a][at].user == u then {active[a][at].run} else {})
  {
    var gone := active[a][at].run;
    forall x | x in Holders(active') ensures x in Holders(active) && x != gone {
      var b, i: nat :| b in active' && i < |active'[b]| && active'[b][i].run == x;
      assert active[b][Old(a, at, b, i)].run == x;
    }
    forall x | x in Holders(active) && x != gone ensures x in Holders(active') {
      var b, i: nat :| b in active && i < |active[b]| && active[b][i].run == x;
      assert active'[b][New(a, at, b, i)].run == x;
    }
    forall x | x in UserHolders(active', u) ensures x in UserHolders(active, u) && x != gone {
      var b, i: nat :| b in active' && i < |active'[b]| && active'[b][i].user == u && active'[b][i].run == x;
      assert active[b][Old(a, at, b, i)].run == x && active[b][Old(a, at, b, i)].user == u;
    }
    forall x | x in UserHolders(active, u) && !(x == gone && active[a][at].user == u) ensures x in UserHolders(active', u) {
      var b, i: nat :| b in active && i < |active[b]| && active[b][i].user == u && active[b][i].run == x;
      assert active'[b][New(a, at, b, i)].run == x && active'[b][New(a, at, b, i)].user == u;
    }
  }

  lemma RunsDistinct(t: Table, a: AutoId)
    requires Distinct(t.active)
    ensures forall i, j :: 0 <= i < j < |RunsOf(t, a)| ==> RunsOf(t, a)[i].run != RunsOf(t, a)[j].run
  {
  }

  lemma DropsEntry(t: Table, a: AutoId, run: RunId)
    requires Distinct(t.active) && (forall b :: b in t.active ==> t.active[b] != [])
    ensures Find(RunsOf(t, a), run).None? ==> Drop(t, a, run) == t
    ensures Find(RunsOf(t, a), run).Some? ==>
              a in t.active && Drop(t, a, run).active == Without(t.active, a, Find(RunsOf(t, a), run).value)
  {
    hide Distinct, Keep, Find;
    RunsDistinct(t, a);
    KeepFound(RunsOf(t, a), run);
    assert t.active - {a} == t.active || a in t.active;
    assert a in t.active ==> t.active[a := t.active[a]] == t.active;
    assert Find([], run).None? by { FindNone(run); }
  }

  lemma FindNone(run: RunId)
    ensures Find([], run).None?
  {
  }

  lemma DropOk(caps: Caps, t: Table, a: AutoId, run: RunId)
    requires PermitsOk(caps, t) && Find(RunsOf(t, a), run).Some?
    ensures var user := RunsOf(t, a)[Find(RunsOf(t, a), run).value].user;
            var t' := Drop(Release(caps, t, user), a, run);
            PermitsOk(caps, t') && Holders(t'.active) == Holders(t.active) - {run}
  {
    hide Holders, UserHolders, Distinct, Keep, Find, Without;
    var at := Find(RunsOf(t, a), run).value;
    var user := RunsOf(t, a)[at].user;
    var released := Release(caps, t, user);
    var t' := Drop(released, a, run);
    DropsEntry(released, a, run);
    RemovedHolder(t.active, a, at, user);
    forall u
      ensures UserCount(t', u) == |UserHolders(t'.active, u)|
      ensures UserCount(t', u) <= UserCount(t, u)
    {
      RemovedHolder(t.active, a, at, u);
      assert UserCount(t, u) == |UserHolders(t.active, u)|;
    }
    NonEmpty(t.active, a, at);
    assert t.slots == if caps.total > 0 then |Holders(t.active)| else 0;
  }

  lemma NonEmpty(active: map<AutoId, seq<ActiveRun>>, a: AutoId, at: nat)
    requires a in active && at < |active[a]| && forall b :: b in active ==> active[b] != []
    ensures forall b :: b in Without(active, a, at) ==> Without(active, a, at)[b] != []
  {
  }

  lemma Shape(caps: Caps, t: Table)
    requires PermitsOk(caps, t)
    ensures Distinct(t.active) && forall a :: a in t.active ==> t.active[a] != []
  {
  }

  /** Ending a run gives back exactly its permits; ending it again changes nothing more. */
  lemma EndOk(caps: Caps, t: Table, a: AutoId, run: RunId)
    requires PermitsOk(caps, t)
    ensures PermitsOk(caps, EndSpec(caps, t, a, run).table)
    ensures var held := exists i :: 0 <= i < |RunsOf(t, a)| && RunsOf(t, a)[i].run == run;
            Holders(EndSpec(caps, t, a, run).table.active) == Holders(t.active) - (if held then {run} else {})
  {
    hide Holders, PermitsOk, Keep, Release, Drop;
    var at := Find(RunsOf(t, a), run);
    var t' := if at.Some? then Drop(Release(caps, t, RunsOf(t, a)[at.value].user), a, run) else Drop(t, a, run);
    if at.Some? {
      DropOk(caps, t, a, run);
    } else {
      Shape(caps, t);
      DropsEntry(t, a, run);
    }
    MarksKeep(caps, t', EndSpec(caps, t, a, run).table);
  }

  /** Queueing, cancelling, stopping and binding leave every permit where it is. */
  lemma CancelOk(caps: Caps, t: Table, a: AutoId, cancel: bool, pf: PendingFire, run: RunId)
    requires PermitsOk(caps, t)
    ensures PermitsOk(caps, QueueRun(t, a, cancel, pf))
    ensures Holders(QueueRun(t, a, cancel, pf).active) == Holders(t.active)
    ensures PermitsOk(caps, CancelSpec(t, a)) && Holders(CancelSpec(t, a).active) == Holders(t.active)
    ensures PermitsOk(caps, StopSpec(t)) && Holders(StopSpec(t).active) == Holders(t.active)
    ensures PermitsOk(caps, BindSpec(t, a, run)) && Holders(BindSpec(t, a, run).active) == Holders(t.active)
  {
    hide PermitsOk, Holders, SameRuns, QueueRun, CancelSpec, StopSpec, BindSpec;
    MarksQueue(t, a, cancel, pf);
    MarksCancel(t, a);
    MarksStop(t);
    MarksBind(t, a, run);
    MarksKeep(caps, t, QueueRun(t, a, cancel, pf));
    MarksKeep(caps, t, CancelSpec(t, a));
    MarksKeep(caps, t, StopSpec(t));
    MarksKeep(caps, t, BindSpec(t, a, run));
  }

  lemma MarksQueue(t: Table, a: AutoId, cancel: bool, pf: PendingFire)
    ensures var t' := QueueRun(t, a, cancel, pf);
            SameRuns(t.active, t'.active) && t'.userRuns == t.userRuns && t'.slots == t.slots
  {
  }

  lemma MarksCancel(t: Table, a: AutoId)
    ensures var t' := CancelSpec(t, a); SameRuns(t.active, t'.active) && t'.userRuns == t.userRuns && t'.slots == t.slots
  {
  }

  lemma MarksStop(t: Table)
    ensures var t' := StopSpec(t); SameRuns(t.active, t'.active) && t'.userRuns == t.userRuns && t'.slots == t.slots
  {
  }

  lemma MarksBind(t: Table, a: AutoId, run: RunId)
    ensures var t' := BindSpec(t, a, run); SameRuns(t.active, t'.active) && t'.userRuns == t.userRuns && t'.slots == t.slots
  {
    hide Find;
  }

  /** No policy admits more runs of an automation than its width. */
  lemma BeginWithinWidth(caps: Caps, t: Table, a: AutoId, user: UserId, p: Policy, run: RunId, manual: bool, gen: nat,
                         token: Token, stamped: bool, b: AutoId)
    ensures var t' := BeginSpec(caps, t, a, user, p, run, manual, gen, token, stamped).table;
            |RunsOf(t', b)| <= |RunsOf(t, b)| || (b == a && |RunsOf(t', b)| <= Width(p))
  {
  }

  // ----- what each section does, entry by entry -----

  /** Every entry of `a` is marked cancelled and otherwise as it was; the other lists are untouched. */
  ghost predicate CancelsAll(old_: map<AutoId, seq<ActiveRun>>, new_: map<AutoId, seq<ActiveRun>>, a: AutoId) {
    && new_.Keys == old_.Keys
    && forall b :: b in old_ ==>
         && |new_[b]| == |old_[b]|
         && forall i :: 0 <= i < |old_[b]| ==>
              new_[b][i] == if b == a then ActiveRun(old_[b][i].run, old_[b][i].user, old_[b][i].bound, true) else old_[b][i]
  }

  /** The caps decide; a run that is let in stands at the end of its list, unmarked, and is counted once. */
  ghost predicate Enters(caps: Caps, t: Table, a: AutoId, user: UserId, run: RunId, t': Table, outcome: Decision) {
    if (caps.perUser > 0 && UserCount(t, user) >= caps.perUser) || (caps.total > 0 && t.slots >= caps.total)
    then outcome == Capped && t' == t
    else
      && outcome == Admit && t'.started == t.started && t'.pending == t.pending
      && t'.active.Keys == t.active.Keys + {a} && t'.active[a] == RunsOf(t, a) + [ActiveRun(run, user, false, false)]
      && (forall b :: b in t.active && b != a ==> t'.active[b] == t.active[b])
      && UserCount(t', user) == UserCount(t, user) + 1
      && (forall u :: u != user ==> UserCount(t', u) == UserCount(t, u))
      && t'.slots == t.slots + (if caps.total > 0 then 1 else 0)
  }

  /** The fire waits for `a`; nothing but the waiting fires and the marks of runs may differ. */
  ghost predicate Waits(t: Table, t': Table, a: AutoId, pf: PendingFire) {
    && t'.pending.Keys == t.pending.Keys + {a} && t'.pending[a] == pf
    && (forall b :: b in t.pending && b != a ==> t'.pending[b] == t.pending[b])
    && t'.started == t.started && t'.userRuns == t.userRuns && t'.slots == t.slots
  }

  /** What beginRun does under each policy while n runs of the automation are active: only
      cancel_previous marks runs, only a fire of the schedule waits, and only with a durable token. */
  ghost predicate Begun(caps: Caps, t: Table, a: AutoId, user: UserId, p: Policy, run: RunId, manual: bool, gen: nat,
                        token: Token, stamped: bool, t': Table, outcome: Decision) {
    var n := if a in t.active then |t.active[a]| else 0;
    if !t.started && !manual then outcome == Refuse && t' == t
    else
      match p
      case Skip => if n > 0 then outcome == Refuse && t' == t else Enters(caps, t, a, user, run, t', outcome)
      case Parallel(max) =>
        if n >= 1 && n >= max then outcome == Refuse && t' == t else Enters(caps, t, a, user, run, t', outcome)
      case QueueOne =>
        if n == 0 then Enters(caps, t, a, user, run, t', outcome)
        else if manual || !stamped then outcome == Refuse && t' == t
        else outcome == Queue(false) && t'.active == t.active && Waits(t, t', a, PendingFire(user, run, token, gen))
      case CancelPrevious =>
        if n == 0 then Enters(caps, t, a, user, run, t', outcome)
        else if manual || !stamped then outcome == Refuse && t' == t
        else
          outcome == Queue(true) && CancelsAll(t.active, t'.active, a) && Waits(t, t', a, PendingFire(user, run, token, gen))
  }

  lemma BeginPolicies(caps: Caps, t: Table, a: AutoId, user: UserId, p: Policy, run: RunId, manual: bool, gen: nat,
                      token: Token, stamped: bool)
    ensures var b := BeginSpec(caps, t, a, user, p, run, manual, gen, token, stamped);
            Begun(caps, t, a, user, p, run, manual, gen, token, stamped, b.table, b.outcome)
  {
    hide Waits, CancelsAll, Enters;
    AdmitEnters(caps, t, a, user, run);
    QueueWaits(t, a, p.CancelPrevious?, PendingFire(user, run, token, gen));
  }

  lemma AdmitEnters(caps: Caps, t: Table, a: AutoId, user: UserId, run: RunId)
    ensures CapsReached(caps, t, user) ==> Enters(caps, t, a, user, run, t, Capped)
    ensures !CapsReached(caps, t, user) ==> Enters(caps, t, a, user, run, AdmitRun(caps, t, a, user, run), Admit)
  {
  }

  lemma QueueWaits(t: Table, a: AutoId, cancel: bool, pf: PendingFire)
    ensures Waits(t, QueueRun(t, a, cancel, pf), a, pf)
    ensures if cancel then CancelsAll(t.active, QueueRun(t, a, cancel, pf).active, a)
            else QueueRun(t, a, cancel, pf).active == t.active
  {
  }

  /** endRun drops exactly the run's entry, and hands over the waiting fire exactly when no other run of
      the automation is left and the service is running. */
  ghost predicate Finished(t: Table, a: AutoId, run: RunId, t': Table, next: Option<PendingFire>) {
    && (forall x :: x in RunsOf(t', a) <==> x in RunsOf(t, a) && x.run != run)
    && (forall b :: b != a ==> RunsOf(t', b) == RunsOf(t, b))
    && t'.started == t.started
    && (next.Some? <==> a in t.pending && t.started && forall x :: x in RunsOf(t, a) ==> x.run == run)
    && (next.Some? ==> next.value == t.pending[a])
    && t'.pending == if next.Some? then t.pending - {a} else t.pending
  }

  lemma {:induction false} KeepMembers(runs: seq<ActiveRun>, run: RunId)
    ensures forall x :: x in Keep(runs, run) <==> x in runs && x.run != run
  {
    if runs != [] {
      var n := |runs| - 1;
      KeepMembers(runs[..n], run);
      assert runs == runs[..n] + [runs[n]];
    }
  }

  lemma EndDrops(caps: Caps, t: Table, a: AutoId, run: RunId)
    ensures Finished(t, a, run, EndSpec(caps, t, a, run).table, EndSpec(caps, t, a, run).next)
  {
    hide Find, Keep;
    KeepMembers(RunsOf(t, a), run);
    var kept := Keep(RunsOf(t, a), run);
    assert kept == [] <==> forall x :: x in RunsOf(t, a) ==> x.run == run by {
      if kept != [] { assert kept[0] in kept; }
    }
  }

  /** cancelAutomation marks every run of the automation and drops its waiting fire; a stop marks every
      run; neither adds or removes one. */
  lemma CancelMarks(t: Table, a: AutoId)
    ensures CancelsAll(t.active, CancelSpec(t, a).active, a) && CancelSpec(t, a).pending == t.pending - {a}
    ensures t.started ==>
              && !StopSpec(t).started && StopSpec(t).active.Keys == t.active.Keys && StopSpec(t).pending == t.pending
              && forall b :: b in t.active ==>
                   && |StopSpec(t).active[b]| == |t.active[b]|
                   && forall i :: 0 <= i < |t.active[b]| ==>
                        StopSpec(t).active[b][i]
                        == ActiveRun(t.active[b][i].run, t.active[b][i].user, t.active[b][i].bound, true)
    ensures !t.started ==> StopSpec(t) == t
  {
  }

  /** setRunCancel binds the run's own entry, if it has one, and changes nothing else. */
  lemma BindMarks(t: Table, a: AutoId, run: RunId)
    requires Distinct(t.active)
    ensures var t' := BindSpec(t, a, run);
            && t'.active.Keys == t.active.Keys && t'.pending == t.pending
            && forall b :: b in t.active ==>
                 && |t'.active[b]| == |t.active[b]|
                 && forall i :: 0 <= i < |t.active[b]| ==>
                      t'.active[b][i]
                      == if b == a && t.active[b][i].run == run
                         then ActiveRun(run, t.active[b][i].user, true, t.active[b][i].canceled) else t.active[b][i]
  {
    hide Find;
  }

  /** An entry is the only one of its run. */
  lemma OnlyEntry(caps: Caps, t: Table, a: AutoId, i: nat)
    requires PermitsOk(caps, t) && i < |RunsOf(t, a)|
    ensures forall x :: x in RunsOf(t, a) && x.run == RunsOf(t, a)[i].run ==> x == RunsOf(t, a)[i]
  {
    Shape(caps, t);
  }

  // ----- the service -----

  class Service {
    const caps: Caps
    var active: map<AutoId, seq<ActiveRun>>
    var pending: map<AutoId, PendingFire>
    var userRuns: map<UserId, nat>
    var runSlots: nat
    var started: bool

    ghost function Abs(): Table
      reads this
    {
      Table(started, active, pending, userRuns, runSlots)
    }

    ghost predicate Valid()
      reads this
    {
      PermitsOk(caps, Abs())
    }

    constructor (caps: Caps)
      ensures this.caps == caps && Abs() == EMPTY && Valid()
    {
      this.caps := caps;
      active, pending, userRuns, runSlots, started := map[], map[], map[], 0, false;
    }

    /** beginRun. `stamped` is the store's answer should the run have to be queued. */
    method BeginRun(a: AutoId, user: UserId, p: Policy, run: RunId, manual: bool, gen: nat, token: Token, stamped: bool)
      returns (outcome: Decision)
      requires Valid() && run !in Holders(active)
      modifies this
      ensures Valid()
      ensures Begin(Abs(), outcome) == BeginSpec(caps, old(Abs()), a, user, p, run, manual, gen, token, stamped)
      ensures Begun(caps, old(Abs()), a, user, p, run, manual, gen, token, stamped, Abs(), outcome)
    {
      hide PermitsOk, Holders, CancelSpec, StopSpec, BindSpec, AdmitRun, CapsReached, Begun;
      ghost var t := Abs();
      BeginPolicies(caps, t, a, user, p, run, manual, gen, token, stamped);
      if Decide(caps, t, a, user, p, manual).Admit? { AdmitOk(caps, t, a, user, p, run, manual); }
      CancelOk(caps, t, a, p.CancelPrevious?, PendingFire(user, run, token, gen), run);
      if !started && !manual { return Refuse; }
      var runs := if a in active then active[a] else [];
      match p {
        case Parallel(max) =>
          if |runs| >= (if max < 1 then 1 else max) { return Refuse; }
        case CancelPrevious =>
          if |runs| > 0 {
            if manual || !stamped { return Refuse; }
            active := active[a := CancelAll(runs)];
            pending := pending[a := PendingFire(user, run, token, gen)];
            return Queue(true);
          }
        case QueueOne =>
          if |runs| > 0 {
            if manual || !stamped { return Refuse; }
            pending := pending[a := PendingFire(user, run, token, gen)];
            return Queue(false);
          }
        case Skip =>
          if |runs| > 0 { return Refuse; }
      }
      outcome := TakePermits(a, user, run);
    }

    /** The caps, enforced once the policy has admitted the run. */
    method TakePermits(a: AutoId, user: UserId, run: RunId) returns (outcome: Decision)
      modifies this
      ensures outcome == if CapsReached(caps, old(Abs()), user) then Capped else Admit
      ensures Abs() == if outcome.Admit? then AdmitRun(caps, old(Abs()), a, user, run) else old(Abs())
    {
      var runs := if a in active then active[a] else [];
      var mine := if user in userRuns then userRuns[user] else 0;
      if caps.perUser > 0 && mine >= caps.perUser { return Capped; }
      if caps.total > 0 {
        if runSlots >= caps.total { return Capped; }
        runSlots := runSlots + 1;
      }
      userRuns := userRuns[user := mine + 1];
      active := active[a := runs + [ActiveRun(run, user, false, false)]];
      return Admit;
    }

    /** The release of a run's permits inside endRun. */
    method ReleasePermits(user: UserId)
      modifies this
      ensures Abs() == Release(caps, old(Abs()), user)
    {
      if user in userRuns && userRuns[user] > 0 {
        userRuns := userRuns[user := userRuns[user] - 1];
        if userRuns[user] == 0 { userRuns := userRuns - {user}; }
      } else {
        userRuns := userRuns - {user};
      }
      if caps.total > 0 && runSlots > 0 { runSlots := runSlots - 1; }
    }

    /** endRun: drops the run, releases its permits once and takes a fire that waited for it. */
    method EndRun(a: AutoId, run: RunId) returns (next: Option<PendingFire>)
      requires Valid()
      modifies this
      ensures Valid() && Ended(Abs(), next) == EndSpec(caps, old(Abs()), a, run)
      ensures Finished(old(Abs()), a, run, Abs(), next)
    {
      hide PermitsOk, Finished;
      EndOk(caps, Abs(), a, run);
      EndDrops(caps, Abs(), a, run);
      ghost var t := Abs();
      var runs := if a in active then active[a] else [];
      var kept: seq<ActiveRun> := [];
      var released := false;
      var i := 0;
      while i < |runs|
        invariant 0 <= i <= |runs|
        invariant kept == Keep(runs[..i], run)
        invariant released <==> Find(runs[..i], run).Some?
        invariant Abs() == if released then Release(caps, t, runs[Find(runs[..i], run).value].user) else t
      {
        assert runs[..i + 1][..i] == runs[..i];
        if runs[i].run != run {
          kept := kept + [runs[i]];
        } else if !released {
          released := true;
          ReleasePermits(runs[i].user);
        }
        i := i + 1;
      }
      assert runs[..i] == runs;
      if kept == [] { active := active - {a}; } else { active := active[a := kept]; }
      if a in pending && a !in active && started {
        next := Some(pending[a]);
        pending := pending - {a};
      } else {
        next := None;
      }
    }

    method SetRunCancel(a: AutoId, run: RunId) returns (cancelNow: bool)
      requires Valid()
      modifies this
      ensures Valid() && Abs() == BindSpec(old(Abs()), a, run)
      ensures cancelNow <==> exists x :: x in RunsOf(old(Abs()), a) && x.run == run && x.canceled
    {
      hide PermitsOk;
      CancelOk(caps, Abs(), a, false, PendingFire(0, 0, 0, 0), run);
      var runs := if a in active then active[a] else [];
      cancelNow := false;
      var i := 0;
      while i < |runs|
        invariant 0 <= i <= |runs|
        invariant Find(runs[..i], run).None?
      {
        assert runs[..i + 1][..i] == runs[..i];
        if runs[i].run == run {
          FoundAt(runs, i, run);
          OnlyEntry(caps, Abs(), a, i);
          active := active[a := runs[i := runs[i].(bound := true)]];
          return runs[i].canceled;
        }
        i := i + 1;
      }
      assert runs[..i] == runs;
    }

    method CancelAutomation(a: AutoId)
      requires Valid()
      modifies this
      ensures Valid() && Abs() == CancelSpec(old(Abs()), a)
    {
      hide PermitsOk;
      CancelOk(caps, Abs(), a, false, PendingFire(0, 0, 0, 0), 0);
      pending := pending - {a};
      if a in active {
        var runs := MarkCanceled(active[a]);
        active := active[a := runs];
      }
    }

    /** The loop that marks runs as cancelled. */
    method MarkCanceled(runs: seq<ActiveRun>) returns (marked: seq<ActiveRun>)
      ensures marked == CancelAll(runs)
    {
      marked := runs;
      var i := 0;
      while i < |runs|
        invariant 0 <= i <= |runs| && |marked| == |runs|
        invariant forall k :: 0 <= k < |runs| ==> marked[k] == if k < i then runs[k].(canceled := true) else runs[k]
      {
        marked := marked[i := marked[i].(canceled := true)];
        i := i + 1;
      }
    }

    method Stop()
      requires Valid()
      modifies this
      ensures Valid() && Abs() == StopSpec(old(Abs()))
    {
      hide PermitsOk;
      CancelOk(caps, Abs(), 0, false, PendingFire(0, 0, 0, 0), 0);
      if !started { return; }
      ghost var before := active;
      var todo := active.Keys;
      while todo != {}
        invariant todo <= active.Keys == before.Keys
        invariant forall a :: a in active ==> active[a] == if a in todo then before[a] else CancelAll(before[a])
        invariant pending == old(pending) && userRuns == old(userRuns) && runSlots == old(runSlots) && started
        decreases todo
      {
        var a :| a in todo;
        var runs := MarkCanceled(active[a]);
        active := active[a := runs];
        todo := todo - {a};
      }
      assert active == StopSpec(old(Abs())).active;
      started := false;
    }
  }

  lemma {:induction false} FoundAt(runs: seq<ActiveRun>, i: nat, run: RunId)
    requires i < |runs| && runs[i].run == run && Find(runs[..i], run).None?
    ensures Find(runs, run) == Some(i)
    decreases |runs|
  {
    var n := |runs| - 1;
    if i < n {
      assert runs[..n][..i] == runs[..i];
      FoundAt(runs[..n], i, run);
    }
  }
}
