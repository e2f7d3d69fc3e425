/** Agent credentials: browser logins that take minutes, key rotations and logouts, under a per-user
    credential lock and the broker's own mutex, with every store write able to fail. */
module Brokers {
  import opened Wrappers

  type User = nat
  type Sid = nat

  /** A user's slot for one provider. */
  datatype Slot = Slot(user: User, provider: nat)

  datatype Kind = Tar | KeyBlob

  datatype Blob = Blob(kind: Kind, content: nat)

  datatype Auth = BrowserState | ApiKey | OAuthToken

  /** The durable credential store and the profile table. */
  datatype Vault = Vault(blobs: map<Slot, Blob>, profiles: map<Slot, Auth>)

  /** A registered login session; `live` once its process is attached. */
  datatype Login = Login(slot: Slot, cancelled: bool, live: bool)

  type Registry = map<Sid, Login>

  /** Which of the steps of a credential replacement succeed. */
  datatype Outcomes = Outcomes(readable: bool, put: bool, upsert: bool, restore: bool)

  // ----- what each operation does -----

  function CancelSlot(r: Registry, slot: Slot): Registry {
    map s | s in r :: if r[s].slot == slot then r[s].(cancelled := true) else r[s]
  }

  predicate Occupied(r: Registry, slot: Slot) { exists s :: s in r && r[s].slot == slot }

  function WithBlob(v: Vault, slot: Slot, blob: Option<Blob>): Vault {
    v.(blobs := if blob.Some? then v.blobs[slot := blob.value] else v.blobs - {slot})
  }

  function BlobOf(v: Vault, slot: Slot): Option<Blob> { if slot in v.blobs then Some(v.blobs[slot]) else None }

  /** Replaces a credential and records its profile, putting the old credential back if the profile
      write fails; true if the new one was recorded. */
  function Replace(v: Vault, slot: Slot, blob: Blob, auth: Auth, o: Outcomes): (Vault, bool) {
    if !o.readable || !o.put then (v, false)
    else
      var stored := WithBlob(v, slot, Some(blob));
      if o.upsert then (stored.(profiles := v.profiles[slot := auth]), true)
      else if o.restore then (WithBlob(stored, slot, BlobOf(v, slot)), false)
      else (stored, false)
  }

  /** Credential and profile agree in kind, if both are there. */
  predicate Agrees(v: Vault, slot: Slot) {
    slot in v.blobs && slot in v.profiles ==> (v.blobs[slot].kind == Tar <==> v.profiles[slot] == BrowserState)
  }

  predicate Fits(blob: Blob, auth: Auth) { blob.kind == Tar <==> auth == BrowserState }

  /** A replacement keeps every slot in agreement, whatever fails, so long as a needed restore works
      and the new credential fits its profile; a recorded one that does not fit breaks it. */
  lemma ReplaceKeepsAgreement(v: Vault, slot: Slot, blob: Blob, auth: Auth, o: Outcomes)
    requires forall s :: Agrees(v, s)
    ensures (o.restore || o.upsert) && Fits(blob, auth) ==> forall s :: Agrees(Replace(v, slot, blob, auth, o).0, s)
    ensures Replace(v, slot, blob, auth, o).1 ==> (Agrees(Replace(v, slot, blob, auth, o).0, slot) <==> Fits(blob, auth))
    ensures !Replace(v, slot, blob, auth, o).1 && o.restore ==> Replace(v, slot, blob, auth, o).0 == v
  {
    var v' := Replace(v, slot, blob, auth, o).0;
    assert v.blobs - {slot} == v.blobs || slot in v.blobs;
    assert slot !in v.blobs ==> v.blobs[slot := blob] - {slot} == v.blobs;
    assert slot in v.blobs ==> v.blobs[slot := blob][slot := v.blobs[slot]] == v.blobs;
    forall s | (o.restore || o.upsert) && Fits(blob, auth) ensures Agrees(v', s) { assert Agrees(v, s); }
  }

  /** A replacement whose writes all succeed leaves exactly the given credential and type in the slot; one
      that cannot read or write the credential changes nothing; no other slot is touched. */
  lemma ReplaceMeans(v: Vault, slot: Slot, blob: Blob, auth: Auth, o: Outcomes)
    ensures var (v', recorded) := Replace(v, slot, blob, auth, o);
            && (recorded <==> o.readable && o.put && o.upsert)
            && (recorded ==> v' == Vault(v.blobs[slot := blob], v.profiles[slot := auth]))
            && (!o.readable || !o.put ==> v' == v)
            && (o.readable && o.put && !o.upsert && !o.restore ==> v' == Vault(v.blobs[slot := blob], v.profiles))
            && forall s :: s != slot ==> BlobOf(v', s) == BlobOf(v, s)
                                         && (s in v'.profiles <==> s in v.profiles)
                                         && (s in v.profiles ==> v'.profiles[s] == v.profiles[s])
  {
  }

  /** Exactly the slot's sessions are marked. */
  lemma CancelMarksSlot(r: Registry, slot: Slot)
    ensures CancelSlot(r, slot).Keys == r.Keys
    ensures forall s :: s in r ==>
              CancelSlot(r, slot)[s] == if r[s].slot == slot then Login(slot, true, r[s].live) else r[s]
  {
  }

  class Broker {
    var sessions: Registry
    var vault: Vault
    var nextId: Sid

    ghost predicate Valid()
      reads this
    {
      && (forall s :: s in sessions ==> s < nextId)
      && forall s, t :: s in sessions && t in sessions && sessions[s].slot == sessions[t].slot ==> s == t
    }

    constructor ()
      ensures Valid() && sessions == map[] && vault == Vault(map[], map[])
    {
      sessions, vault, nextId := map[], Vault(map[], map[]), 0;
    }

    /** The reservation at the start of StartLogin. */
    method Reserve(slot: Slot) returns (r: Option<Sid>)
      requires Valid()
      modifies this
      ensures Valid() && vault == old(vault)
      ensures r.None? <==> Occupied(old(sessions), slot)
      ensures r.None? ==> sessions == old(sessions)
      ensures r.Some? ==> r.value !in old(sessions) && sessions == old(sessions)[r.value := Login(slot, false, false)]
    {
      var active := HasActive(slot);
      if active { return None; }
      var id := nextId;
      nextId := nextId + 1;
      sessions := sessions[id := Login(slot, false, false)];
      return Some(id);
    }

    /** hasActiveSessionLocked */
    method HasActive(slot: Slot) returns (active: bool)
      ensures active <==> Occupied(sessions, slot)
    {
      var todo := sessions.Keys;
      while todo != {}
        invariant todo <= sessions.Keys
        invariant forall s :: s in sessions && s !in todo ==> sessions[s].slot != slot
        decreases todo
      {
        var s :| s in todo;
        if sessions[s].slot == slot { return true; }
        todo := todo - {s};
      }
      return false;
    }

    /** cancelSessionsLocked */
    method CancelSessions(slot: Slot)
      requires Valid()
      modifies this
      ensures Valid() && sessions == CancelSlot(old(sessions), slot)
      ensures vault == old(vault) && nextId == old(nextId)
    {
      var todo := sessions.Keys;
      ghost var before := sessions;
      while todo != {}
        invariant todo <= before.Keys == sessions.Keys
        invariant forall s :: s in before ==>
                    sessions[s] == if s !in todo && before[s].slot == slot then before[s].(cancelled := true) else before[s]
        invariant vault == old(vault) && nextId == old(nextId)
        decreases todo
      {
        var s :| s in todo;
        if sessions[s].slot == slot { sessions := sessions[s := sessions[s].(cancelled := true)]; }
        todo := todo - {s};
      }
      assert sessions == CancelSlot(before, slot);
    }

    /** The attach step of StartLogin: a session cancelled while its container started is dropped. */
    method Attach(id: Sid) returns (attached: bool)
      requires Valid() && id in sessions
      modifies this
      ensures Valid() && vault == old(vault) && attached == !old(sessions[id]).cancelled
      ensures sessions == if attached then old(sessions)[id := old(sessions[id]).(live := true)] else old(sessions) - {id}
    {
      if sessions[id].cancelled {
        sessions := sessions - {id};
        return false;
      }
      sessions := sessions[id := sessions[id].(live := true)];
      return true;
    }

    /** Cancel, by the session's owner. */
    method Cancel(id: Sid, user: User) returns (known: bool)
      requires Valid()
      modifies this
      ensures Valid() && vault == old(vault) && known == (id in old(sessions) && old(sessions)[id].slot.user == user)
      ensures sessions == if known then old(sessions)[id := old(sessions)[id].(cancelled := true)] else old(sessions)
    {
      if id !in sessions || sessions[id].slot.user != user { return false; }
      sessions := sessions[id := sessions[id].(cancelled := true)];
      return true;
    }

    /** The writes shared by SetKey and finishLogin, with snapshotState and restoreState. */
    method ReplaceCredential(slot: Slot, blob: Blob, auth: Auth, o: Outcomes) returns (recorded: bool)
      modifies this`vault
      ensures (vault, recorded) == Replace(old(vault), slot, blob, auth, o)
    {
      if !o.readable { return false; }
      var old_ := if slot in vault.blobs then Some(vault.blobs[slot]) else None;
      if !o.put { return false; }
      vault := WithBlob(vault, slot, Some(blob));
      if !o.upsert {
        if o.restore { vault := WithBlob(vault, slot, old_); }
        return false;
      }
      vault := vault.(profiles := vault.profiles[slot := auth]);
      return true;
    }

    method SetKey(slot: Slot, auth: Auth, key: nat, o: Outcomes) returns (recorded: bool)
      requires Valid()
      modifies this
      ensures Valid() && sessions == CancelSlot(old(sessions), slot)
      ensures (vault, recorded) == Replace(old(vault), slot, Blob(KeyBlob, key), auth, o)
    {
      CancelSessions(slot);
      recorded := ReplaceCredential(slot, Blob(KeyBlob, key), auth, o);
    }

    /** The critical section of finishLogin. */
    method FinishLogin(id: Sid, data: nat, o: Outcomes) returns (recorded: bool)
      requires Valid() && id in sessions
      modifies this
      ensures Valid() && sessions == old(sessions)
      ensures old(sessions)[id].cancelled ==> !recorded && vault == old(vault)
      ensures !old(sessions)[id].cancelled ==>
                (vault, recorded) == Replace(old(vault), old(sessions)[id].slot, Blob(Tar, data), BrowserState, o)
    {
      if sessions[id].cancelled { return false; }
      recorded := ReplaceCredential(sessions[id].slot, Blob(Tar, data), BrowserState, o);
    }

    method Logout(slot: Slot, deleted: bool, profileDeleted: bool) returns (ok: bool)
      requires Valid()
      modifies this
      ensures Valid() && sessions == CancelSlot(old(sessions), slot) && ok == (deleted && profileDeleted)
      ensures vault == if !deleted then old(vault)
                       else if !profileDeleted then WithBlob(old(vault), slot, None)
                       else Vault(old(vault).blobs - {slot}, old(vault).profiles - {slot})
    {
      CancelSessions(slot);
      if !deleted { return false; }
      vault := WithBlob(vault, slot, None);
      if !profileDeleted { return false; }
      vault := vault.(profiles := vault.profiles - {slot});
      return true;
    }
  }

  // ----- the interleaved system -----

  /** How far a login's own goroutine is. */
  datatype Stage = Starting | Running | Confirmed | Ended

  /** Who holds a user's credential lock, and how far. `prior` is the snapshot a restore would put back. */
  datatype Holder =
    | KeyLocked(slot: Slot) | KeyFenced(slot: Slot) | KeySnapshot(slot: Slot, prior: Option<Blob>)
    | KeyStored(slot: Slot, prior: Option<Blob>, auth: Auth)
    | LogoutFenced(slot: Slot)

  /** `fence` tells, for each slot, below which id sessions were reserved before its last completed
      logout or key change; `commits` are the logins recorded, with the fence of that moment. */
  datatype World = World(reg: Registry, stages: map<Sid, Stage>, locks: map<User, Holder>, vault: Vault, next: Sid,
                         fence: map<Slot, Sid>, commits: seq<(Sid, Sid)>)

  const INIT := World(map[], map[], map[], Vault(map[], map[]), 0, map[], [])

  datatype Action =
    | Reserve(slot: Slot)
    | StartFails(id: Sid)
    | Attach(id: Sid)
    | Exit(id: Sid, confirmed: bool)
    | Finish(id: Sid, data: nat, o: Outcomes)
    | EndSession(id: Sid)
    | CancelLogin(id: Sid)
    | LockForKey(slot: Slot)
    | FenceForKey(user: User)
    | Snapshot(user: User, readable: bool)
    | Store(user: User, auth: Auth, key: nat, ok: bool)
    | Record(user: User, ok: bool)
    | LockForLogout(slot: Slot, deleted: bool)
    | DropProfile(user: User, ok: bool)

  function Fence(w: World, slot: Slot): Sid { if slot in w.fence then w.fence[slot] else 0 }

  /** The lock is released; every session reserved so far for the slot is now fenced off. */
  function Unlock(w: World, slot: Slot): World {
    w.(locks := w.locks - {slot.user}, fence := w.fence[slot := w.next])
  }

  function DoReserve(w: World, slot: Slot): World {
    if slot.user in w.locks || Occupied(w.reg, slot) then w
    else w.(reg := w.reg[w.next := Login(slot, false, false)], stages := w.stages[w.next := Starting], next := w.next + 1)
  }

  predicate At(w: World, id: Sid, stage: Stage) { id in w.stages && w.stages[id] == stage && id in w.reg }

  function DoAttach(w: World, id: Sid): World {
    if !At(w, id, Starting) then w
    else if w.reg[id].cancelled then w.(reg := w.reg - {id}, stages := w.stages - {id})
    else w.(reg := w.reg[id := w.reg[id].(live := true)], stages := w.stages[id := Running])
  }

  function DoFinish(w: World, id: Sid, data: nat, o: Outcomes): World {
    if !At(w, id, Confirmed) || w.reg[id].slot.user in w.locks then w
    else
      var slot := w.reg[id].slot;
      var w' := w.(stages := w.stages[id := Ended]);
      if w.reg[id].cancelled then w'
      else
        var (vault, recorded) := Replace(w.vault, slot, Blob(Tar, data), BrowserState, o);
        w'.(vault := vault, commits := if recorded then w.commits + [(id, Fence(w, slot))] else w.commits)
  }

  function DoFenceForKey(w: World, user: User): World {
    if user !in w.locks || !w.locks[user].KeyLocked? then w
    else
      var slot := w.locks[user].slot;
      w.(reg := CancelSlot(w.reg, slot), locks := w.locks[user := KeyFenced(slot)])
  }

  function DoSnapshot(w: World, user: User, readable: bool): World {
    if user !in w.locks || !w.locks[user].KeyFenced? then w
    else
      var slot := w.locks[user].slot;
      if !readable then Unlock(w, slot) else w.(locks := w.locks[user := KeySnapshot(slot, BlobOf(w.vault, slot))])
  }

  function DoStore(w: World, user: User, auth: Auth, key: nat, ok: bool): World {
    if user !in w.locks || !w.locks[user].KeySnapshot? then w
    else
      var slot := w.locks[user].slot;
      if !ok then Unlock(w, slot)
      else
        w.(vault := WithBlob(w.vault, slot, Some(Blob(KeyBlob, key))),
           locks := w.locks[user := KeyStored(slot, w.locks[user].prior, auth)])
  }

  /** The profile write, or the restore after it failed. */
  function DoRecord(w: World, user: User, ok: bool): World {
    if user !in w.locks || !w.locks[user].KeyStored? then w
    else
      var h := w.locks[user];
      Unlock(if ok then w.(vault := w.vault.(profiles := w.vault.profiles[h.slot := h.auth]))
             else w.(vault := WithBlob(w.vault, h.slot, h.prior)), h.slot)
  }

  /** Logout under both locks: cancel the sessions, delete the credential. */
  function DoLogout(w: World, slot: Slot, deleted: bool): World {
    if slot.user in w.locks then w
    else
      var w' := w.(reg := CancelSlot(w.reg, slot));
      if !deleted then Unlock(w', slot)
      else w'.(vault := WithBlob(w.vault, slot, None), locks := w.locks[slot.user := LogoutFenced(slot)])
  }

  function DoDropProfile(w: World, user: User, ok: bool): World {
    if user !in w.locks || !w.locks[user].LogoutFenced? then w
    else
      var slot := w.locks[user].slot;
      Unlock(if ok then w.(vault := w.vault.(profiles := w.vault.profiles - {slot})) else w, slot)
  }

  function Step(w: World, act: Action): World {
    match act
    case Reserve(slot) => DoReserve(w, slot)
    case StartFails(id) => if At(w, id, Starting) then w.(reg := w.reg - {id}, stages := w.stages - {id}) else w
    case Attach(id) => DoAttach(w, id)
    case Exit(id, confirmed) =>
      if At(w, id, Running) then w.(stages := w.stages[id := if confirmed then Confirmed else Ended]) else w
    case Finish(id, data, o) => DoFinish(w, id, data, o)
    case EndSession(id) => if At(w, id, Ended) then w.(reg := w.reg - {id}, stages := w.stages - {id}) else w
    case CancelLogin(id) => if id in w.reg then w.(reg := w.reg[id := w.reg[id].(cancelled := true)]) else w
    case LockForKey(slot) => if slot.user in w.locks then w else w.(locks := w.locks[slot.user := KeyLocked(slot)])
    case FenceForKey(user) => DoFenceForKey(w, user)
    case Snapshot(user, readable) => DoSnapshot(w, user, readable)
    case Store(user, auth, key, ok) => DoStore(w, user, auth, key, ok)
    case Record(user, ok) => DoRecord(w, user, ok)
    case LockForLogout(slot, deleted) => DoLogout(w, slot, deleted)
    case DropProfile(user, ok) => DoDropProfile(w, user, ok)
  }

  function Run(acts: seq<Action>): World
    decreases |acts|
  {
    if acts == [] then INIT else Step(Run(acts[..|acts| - 1]), acts[|acts| - 1])
  }

  /** A confirmed login that nobody cancelled, at a free lock, records its credential; a cancelled one
      changes no credential. A logout removes the credential and then the profile. */
  lemma OutcomesMean(w: World, id: Sid, data: nat, slot: Slot)
    ensures At(w, id, Confirmed) && w.reg[id].slot.user !in w.locks ==>
              var own, w' := w.reg[id].slot, DoFinish(w, id, data, Outcomes(true, true, true, true));
              if w.reg[id].cancelled then w'.vault == w.vault && w'.commits == w.commits
              else
                && w'.vault == Vault(w.vault.blobs[own := Blob(Tar, data)], w.vault.profiles[own := BrowserState])
                && w'.commits == w.commits + [(id, Fence(w, own))]
    ensures slot.user !in w.locks ==>
              var w' := DoDropProfile(DoLogout(w, slot, true), slot.user, true);
              && w'.vault == Vault(w.vault.blobs - {slot}, w.vault.profiles - {slot})
              && w'.reg == CancelSlot(w.reg, slot) && slot.user !in w'.locks
  {
    hide CancelSlot;
  }

  // ----- what every run keeps -----

  ghost predicate OnePerSlot(reg: Registry) {
    forall s, t :: s in reg && t in reg && reg[s].slot == reg[t].slot ==> s == t
  }

  /** Every goroutine that may still record a login has its session registered. */
  ghost predicate Registered(reg: Registry, stages: map<Sid, Stage>, next: Sid) {
    reg.Keys == stages.Keys && forall s :: s in reg ==> s < next
  }

  /** Sessions from before a fence are cancelled; so are all of a slot whose holder has fenced it. */
  ghost predicate Fenced(reg: Registry, locks: map<User, Holder>, fence: map<Slot, Sid>, next: Sid) {
    && (forall s :: s in reg && reg[s].slot in fence && s < fence[reg[s].slot] ==> reg[s].cancelled)
    && (forall s :: s in reg && reg[s].slot.user in locks && HasFenced(locks[reg[s].slot.user], reg[s].slot) ==> reg[s].cancelled)
    && (forall slot :: slot in fence ==> fence[slot] <= next)
  }

  predicate HasFenced(h: Holder, slot: Slot) { h.slot == slot && !h.KeyLocked? }

  ghost predicate Committed(commits: seq<(Sid, Sid)>) { forall i :: 0 <= i < |commits| ==> commits[i].0 >= commits[i].1 }

  ghost predicate Locked(locks: map<User, Holder>, vault: Vault) {
    && (forall u :: u in locks ==> locks[u].slot.user == u)
    && (forall u :: u in locks && locks[u].KeySnapshot? ==> locks[u].prior == BlobOf(vault, locks[u].slot))
  }

  ghost predicate Inv(w: World) {
    && OnePerSlot(w.reg) && Registered(w.reg, w.stages, w.next) && Fenced(w.reg, w.locks, w.fence, w.next)
    && Committed(w.commits) && Locked(w.locks, w.vault)
  }

  lemma CancelFrame(reg: Registry, slot: Slot)
    ensures CancelSlot(reg, slot).Keys == reg.Keys
    ensures forall s :: s in reg ==> CancelSlot(reg, slot)[s].slot == reg[s].slot
    ensures forall s :: s in reg ==> (CancelSlot(reg, slot)[s].cancelled <==> reg[s].cancelled || reg[s].slot == slot)
  {
  }

  /** A registry in which sessions were only cancelled further, or dropped with their goroutine. */
  ghost predicate Narrower(reg: Registry, reg': Registry) {
    forall s :: s in reg' ==> s in reg && reg'[s].slot == reg[s].slot && (reg[s].cancelled ==> reg'[s].cancelled)
  }

  lemma NarrowerKeeps(w: World, reg: Registry, stages: map<Sid, Stage>)
    requires Inv(w) && Narrower(w.reg, reg) && reg.Keys == stages.Keys
    ensures Inv(w.(reg := reg, stages := stages))
  {
    hide Committed, Locked;
  }

  /** Releasing the lock, after the slot was fenced. */
  lemma UnlockKeeps(w: World, slot: Slot)
    requires Inv(w) && forall s :: s in w.reg && w.reg[s].slot == slot ==> w.reg[s].cancelled
    ensures Inv(Unlock(w, slot))
  {
    hide OnePerSlot, Registered, Committed;
    assert forall u :: u in Unlock(w, slot).locks ==> u in w.locks && Unlock(w, slot).locks[u] == w.locks[u];
  }

  lemma ReserveKeeps(w: World, slot: Slot)
    requires Inv(w)
    ensures Inv(DoReserve(w, slot))
  {
    hide Committed, Locked;
    if slot.user !in w.locks && !Occupied(w.reg, slot) {
      assert forall s :: s in w.reg ==> w.reg[s].slot != slot;
    }
  }

  lemma FinishKeeps(w: World, id: Sid, data: nat, o: Outcomes)
    requires Inv(w)
    ensures Inv(DoFinish(w, id, data, o))
  {
    hide OnePerSlot;
    if At(w, id, Confirmed) && w.reg[id].slot.user !in w.locks {
      var slot := w.reg[id].slot;
      assert slot in w.fence && id < w.fence[slot] ==> w.reg[id].cancelled;
      assert w.stages[id := Ended].Keys == w.stages.Keys;
      forall u | u in w.locks && w.locks[u].KeySnapshot?
        ensures BlobOf(Replace(w.vault, slot, Blob(Tar, data), BrowserState, o).0, w.locks[u].slot)
                == BlobOf(w.vault, w.locks[u].slot)
      {
        assert w.locks[u].slot.user != slot.user;
      }
    }
  }

  /** A step of a lock holder that changes its stage, and perhaps its own slot's credential. */
  lemma HolderKeeps(w: World, user: User, h: Holder, vault: Vault)
    requires Inv(w) && user in w.locks && h.slot == w.locks[user].slot && !h.KeyLocked?
    requires forall s :: s in w.reg && w.reg[s].slot == h.slot ==> w.reg[s].cancelled
    requires h.KeySnapshot? ==> h.prior == BlobOf(vault, h.slot)
    requires forall slot: Slot :: slot.user != user ==> BlobOf(vault, slot) == BlobOf(w.vault, slot)
    ensures Inv(w.(locks := w.locks[user := h], vault := vault))
  {
    hide OnePerSlot, Registered, Committed, BlobOf;
    assert h.slot.user == user;
    forall u | u in w.locks && u != user && w.locks[u].KeySnapshot?
      ensures w.locks[u].prior == BlobOf(vault, w.locks[u].slot)
    {
      assert w.locks[u].slot.user == u;
    }
  }

  lemma VaultKeeps(w: World, user: User, vault: Vault)
    requires Inv(w) && user in w.locks && !w.locks[user].KeySnapshot?
    requires forall slot: Slot :: slot.user != user ==> BlobOf(vault, slot) == BlobOf(w.vault, slot)
    ensures Inv(w.(vault := vault))
  {
    hide OnePerSlot, Registered, Committed, Fenced, BlobOf;
    forall u | u in w.locks && w.locks[u].KeySnapshot? ensures w.locks[u].prior == BlobOf(vault, w.locks[u].slot) {
      assert w.locks[u].slot.user == u;
    }
  }

  lemma FencedOf(w: World, user: User)
    requires Inv(w) && user in w.locks && !w.locks[user].KeyLocked?
    ensures w.locks[user].slot.user == user
    ensures forall s :: s in w.reg && w.reg[s].slot == w.locks[user].slot ==> w.reg[s].cancelled
  {
  }

  lemma OtherBlobs(v: Vault, slot: Slot, blob: Option<Blob>)
    ensures forall other: Slot :: other.user != slot.user ==> BlobOf(WithBlob(v, slot, blob), other) == BlobOf(v, other)
  {
  }

  lemma KeyStepsKeep(w: World, user: User, readable: bool, auth: Auth, key: nat, ok: bool)
    requires Inv(w)
    ensures Inv(DoFenceForKey(w, user)) && Inv(DoSnapshot(w, user, readable))
    ensures Inv(DoStore(w, user, auth, key, ok)) && Inv(DoRecord(w, user, ok)) && Inv(DoDropProfile(w, user, ok))
  {
    hide Inv, BlobOf, WithBlob, CancelSlot;
    if user in w.locks {
      var h := w.locks[user];
      if h.KeyLocked? {
        CancelFrame(w.reg, h.slot);
        CancelKeeps(w, h.slot);
        FenceKeeps(w.(reg := CancelSlot(w.reg, h.slot)), user);
      } else {
        FencedOf(w, user);
        UnlockKeeps(w, h.slot);
        if h.KeyFenced? { HolderKeeps(w, user, KeySnapshot(h.slot, BlobOf(w.vault, h.slot)), w.vault); }
        if h.KeySnapshot? {
          OtherBlobs(w.vault, h.slot, Some(Blob(KeyBlob, key)));
          HolderKeeps(w, user, KeyStored(h.slot, h.prior, auth), WithBlob(w.vault, h.slot, Some(Blob(KeyBlob, key))));
        }
        if h.KeyStored? { RecordKeeps(w, user, ok); }
        if h.LogoutFenced? { DropKeeps(w, user); }
      }
    }
  }

  lemma CancelKeeps(w: World, slot: Slot)
    requires Inv(w)
    ensures Inv(w.(reg := CancelSlot(w.reg, slot)))
  {
    CancelFrame(w.reg, slot);
    NarrowerKeeps(w, CancelSlot(w.reg, slot), w.stages);
  }

  lemma FenceKeeps(w: World, user: User)
    requires Inv(w) && user in w.locks
    requires forall s :: s in w.reg && w.reg[s].slot == w.locks[user].slot ==> w.reg[s].cancelled
    ensures Inv(w.(locks := w.locks[user := KeyFenced(w.locks[user].slot)]))
  {
    HolderKeeps(w, user, KeyFenced(w.locks[user].slot), w.vault);
  }

  lemma RecordKeeps(w: World, user: User, ok: bool)
    requires Inv(w) && user in w.locks && w.locks[user].KeyStored?
    ensures Inv(DoRecord(w, user, ok))
  {
    hide Inv, WithBlob;
    var h := w.locks[user];
    FencedOf(w, user);
    OtherBlobs(w.vault, h.slot, h.prior);
    var v := if ok then w.vault.(profiles := w.vault.profiles[h.slot := h.auth]) else WithBlob(w.vault, h.slot, h.prior);
    VaultKeeps(w, user, v);
    UnlockKeeps(w.(vault := v), h.slot);
  }

  lemma DropKeeps(w: World, user: User)
    requires Inv(w) && user in w.locks && w.locks[user].LogoutFenced?
    ensures Inv(DoDropProfile(w, user, true))
  {
    hide Inv;
    var h := w.locks[user];
    FencedOf(w, user);
    var v := w.vault.(profiles := w.vault.profiles - {h.slot});
    VaultKeeps(w, user, v);
    UnlockKeeps(w.(vault := v), h.slot);
  }

  lemma LogoutKeeps(w: World, slot: Slot, deleted: bool)
    requires Inv(w)
    ensures Inv(DoLogout(w, slot, deleted))
  {
    hide Inv, BlobOf, WithBlob, CancelSlot;
    if slot.user !in w.locks {
      CancelFrame(w.reg, slot);
      CancelKeeps(w, slot);
      var w' := w.(reg := CancelSlot(w.reg, slot));
      UnlockKeeps(w', slot);
      var h := w'.(locks := w'.locks[slot.user := KeyLocked(slot)]);
      LockKeeps(w', slot);
      OtherBlobs(w.vault, slot, None);
      HolderKeeps(h, slot.user, LogoutFenced(slot), WithBlob(w.vault, slot, None));
      assert w'.locks[slot.user := KeyLocked(slot)][slot.user := LogoutFenced(slot)] == w'.locks[slot.user := LogoutFenced(slot)];
    }
  }

  lemma LockKeeps(w: World, slot: Slot)
    requires Inv(w) && slot.user !in w.locks
    ensures Inv(w.(locks := w.locks[slot.user := KeyLocked(slot)]))
  {
    hide OnePerSlot, Registered, Committed;
  }

  lemma SessionStepsKeep(w: World, id: Sid, confirmed: bool)
    requires Inv(w)
    ensures Inv(DoAttach(w, id)) && Inv(Step(w, StartFails(id))) && Inv(Step(w, EndSession(id)))
    ensures Inv(Step(w, Exit(id, confirmed))) && Inv(Step(w, CancelLogin(id)))
  {
    hide OnePerSlot, Fenced, Committed, Locked;
    if id in w.reg && id in w.stages {
      NarrowerKeeps(w, w.reg - {id}, w.stages - {id});
      NarrowerKeeps(w, w.reg[id := w.reg[id].(live := true)], w.stages[id := Running]);
      NarrowerKeeps(w, w.reg[id := w.reg[id].(cancelled := true)], w.stages);
      NarrowerKeeps(w, w.reg, w.stages[id := if confirmed then Confirmed else Ended]);
    }
  }

  lemma StepKeeps(w: World, act: Action)
    requires Inv(w)
    ensures Inv(Step(w, act))
  {
    hide OnePerSlot, Registered, Fenced, Committed, Locked, DoReserve, DoAttach, DoFinish, DoFenceForKey;
    hide DoSnapshot, DoStore;
    hide DoRecord, DoLogout, DoDropProfile;
    match act {
      case Reserve(slot) => ReserveKeeps(w, slot);
      case Finish(id, data, o) => FinishKeeps(w, id, data, o);
      case LockForKey(slot) => if slot.user !in w.locks { LockKeeps(w, slot); }
      case FenceForKey(user) => KeyStepsKeep(w, user, true, ApiKey, 0, true);
      case Snapshot(user, readable) => KeyStepsKeep(w, user, readable, ApiKey, 0, true);
      case Store(user, auth, key, ok) => KeyStepsKeep(w, user, true, auth, key, ok);
      case Record(user, ok) => KeyStepsKeep(w, user, true, ApiKey, 0, ok);
      case LockForLogout(slot, deleted) => LogoutKeeps(w, slot, deleted);
      case DropProfile(user, ok) => KeyStepsKeep(w, user, true, ApiKey, 0, ok);
      case StartFails(id) => SessionStepsKeep(w, id, true);
      case Attach(id) => SessionStepsKeep(w, id, true);
      case Exit(id, confirmed) => SessionStepsKeep(w, id, confirmed);
      case EndSession(id) => SessionStepsKeep(w, id, true);
      case CancelLogin(id) => SessionStepsKeep(w, id, true);
    }
  }

  lemma InitOk()
    ensures Inv(INIT)
  {
  }

  lemma {:induction false} Reachable(acts: seq<Action>)
    ensures Inv(Run(acts))
    decreases |acts|
  {
    hide Inv, Step;
    if acts == [] {
      InitOk();
    } else {
      Reachable(acts[..|acts| - 1]);
      StepKeeps(Run(acts[..|acts| - 1]), acts[|acts| - 1]);
    }
  }

  /** A login reserved before a completed logout or key change never commits after it, and a slot has
      at most one session. */
  lemma FencedLoginsNeverCommit(acts: seq<Action>)
    ensures var w := Run(acts);
            && (forall i :: 0 <= i < |w.commits| ==> w.commits[i].0 >= w.commits[i].1)
            && (forall s, t :: s in w.reg && t in w.reg && w.reg[s].slot == w.reg[t].slot ==> s == t)
  {
    hide Run;
    Reachable(acts);
  }

  // ----- agreement of credential and profile -----

  /** The credential store as it would be if a key change in progress were rolled back. */
  ghost predicate Settled(w: World) {
    forall slot: Slot ::
      if Pending(w, slot) then Agrees(WithBlob(w.vault, slot, w.locks[slot.user].prior), slot) else Agrees(w.vault, slot)
  }

  predicate Pending(w: World, slot: Slot) {
    slot.user in w.locks && w.locks[slot.user].KeyStored? && w.locks[slot.user].slot == slot
  }

  /** Restores succeed, and keys are set under a key-style type. */
  predicate Sound(act: Action) {
    && (act.Finish? ==> act.o.restore || act.o.upsert)
    && (act.Store? ==> act.auth != BrowserState)
  }

  ghost predicate KeyTyped(w: World) {
    && (forall u :: u in w.locks && w.locks[u].KeyStored? ==> w.locks[u].auth != BrowserState)
    && (forall slot :: Pending(w, slot) ==> slot in w.vault.blobs && w.vault.blobs[slot].kind == KeyBlob)
  }

  lemma SettledStep(w: World, act: Action)
    requires Inv(w) && Settled(w) && KeyTyped(w) && Sound(act)
    ensures Settled(Step(w, act)) && KeyTyped(Step(w, act))
  {
    hide OnePerSlot, Registered, Fenced, Committed, Settled, KeyTyped, DoFinish, DoStore, DoRecord, DoLogout;
    hide DoDropProfile, DoFenceForKey, DoSnapshot, Agrees, WithBlob;
    match act {
      case Finish(id, data, o) => SettledFinish(w, id, data, o);
      case Store(user, auth, key, ok) => SettledStore(w, user, auth, key, ok);
      case Record(user, ok) => SettledRecord(w, user, ok);
      case LockForLogout(slot, deleted) => SettledLogout(w, slot, deleted);
      case DropProfile(user, ok) => SettledDrop(w, user, ok);
      case FenceForKey(user) => SettledQuiet(w, user, true);
      case Snapshot(user, readable) => SettledQuiet(w, user, readable);
      case _ => SameVault(w, Step(w, act));
    }
  }

  /** Steps that change neither the store nor a pending key change. */
  lemma SameVault(w: World, w': World)
    requires Settled(w) && KeyTyped(w) && w'.vault == w.vault
    requires forall u :: u in w'.locks && w'.locks[u].KeyStored? ==> u in w.locks && w.locks[u] == w'.locks[u]
    requires forall u :: u in w.locks && w.locks[u].KeyStored? ==> u in w'.locks && w.locks[u] == w'.locks[u]
    ensures Settled(w') && KeyTyped(w')
  {
    hide Agrees, WithBlob;
    assert forall slot :: Pending(w', slot) <==> Pending(w, slot);
  }

  lemma SettledQuiet(w: World, user: User, readable: bool)
    requires Settled(w) && KeyTyped(w) && Locked(w.locks, w.vault)
    ensures Settled(DoFenceForKey(w, user)) && KeyTyped(DoFenceForKey(w, user))
    ensures Settled(DoSnapshot(w, user, readable)) && KeyTyped(DoSnapshot(w, user, readable))
  {
    hide Settled, KeyTyped;
    SameVault(w, DoFenceForKey(w, user));
    SameVault(w, DoSnapshot(w, user, readable));
  }

  lemma SettledFinish(w: World, id: Sid, data: nat, o: Outcomes)
    requires Settled(w) && KeyTyped(w) && (o.restore || o.upsert)
    ensures Settled(DoFinish(w, id, data, o)) && KeyTyped(DoFinish(w, id, data, o))
  {
    var w' := DoFinish(w, id, data, o);
    assert w'.locks == w.locks;
    assert forall slot :: Pending(w', slot) <==> Pending(w, slot);
    if w'.vault != w.vault {
      var own := w.reg[id].slot;
      forall slot: Slot
        ensures slot != own ==> BlobOf(w'.vault, slot) == BlobOf(w.vault, slot)
        ensures slot != own ==> (slot in w'.vault.profiles <==> slot in w.vault.profiles)
        ensures slot != own && slot in w.vault.profiles ==> w'.vault.profiles[slot] == w.vault.profiles[slot]
        ensures slot == own ==> !Pending(w, slot) && Agrees(w'.vault, slot)
      {
        assert !Pending(w, own);
        assert Agrees(w.vault, own);
      }
    }
  }

  lemma SettledStore(w: World, user: User, auth: Auth, key: nat, ok: bool)
    requires Settled(w) && KeyTyped(w) && Locked(w.locks, w.vault) && auth != BrowserState
    ensures Settled(DoStore(w, user, auth, key, ok)) && KeyTyped(DoStore(w, user, auth, key, ok))
  {
    var w' := DoStore(w, user, auth, key, ok);
    if user in w.locks && w.locks[user].KeySnapshot? && ok {
      var own := w.locks[user].slot;
      assert own.user == user && !Pending(w, own);
      assert Agrees(w.vault, own);
      assert forall slot :: slot != own ==> (Pending(w', slot) <==> Pending(w, slot));
      assert forall slot :: slot != own ==> BlobOf(w'.vault, slot) == BlobOf(w.vault, slot);
      assert BlobOf(WithBlob(w'.vault, own, w'.locks[user].prior), own) == BlobOf(w.vault, own);
    } else {
      SameVault(w, w');
    }
  }

  lemma SettledRecord(w: World, user: User, ok: bool)
    requires Settled(w) && KeyTyped(w) && Locked(w.locks, w.vault)
    ensures Settled(DoRecord(w, user, ok)) && KeyTyped(DoRecord(w, user, ok))
  {
    var w' := DoRecord(w, user, ok);
    if user in w.locks && w.locks[user].KeyStored? {
      var own := w.locks[user].slot;
      assert own.user == user && Pending(w, own) && !Pending(w', own);
      assert forall slot :: slot != own ==> (Pending(w', slot) <==> Pending(w, slot));
      assert forall slot :: slot != own ==> BlobOf(w'.vault, slot) == BlobOf(w.vault, slot);
      assert Agrees(WithBlob(w.vault, own, w.locks[user].prior), own);
    }
  }

  lemma SettledLogout(w: World, slot: Slot, deleted: bool)
    requires Settled(w) && KeyTyped(w)
    ensures Settled(DoLogout(w, slot, deleted)) && KeyTyped(DoLogout(w, slot, deleted))
  {
    var w' := DoLogout(w, slot, deleted);
    if slot.user !in w.locks {
      assert forall s :: Pending(w', s) <==> Pending(w, s);
      forall s | s != slot ensures BlobOf(w'.vault, s) == BlobOf(w.vault, s) { OtherSlots(w.vault, slot, s); }
    }
  }

  lemma OtherSlots(v: Vault, slot: Slot, s: Slot)
    requires s != slot
    ensures BlobOf(WithBlob(v, slot, None), s) == BlobOf(v, s)
  {
  }

  lemma SettledDrop(w: World, user: User, ok: bool)
    requires Settled(w) && KeyTyped(w) && Locked(w.locks, w.vault)
    ensures Settled(DoDropProfile(w, user, ok)) && KeyTyped(DoDropProfile(w, user, ok))
  {
    var w' := DoDropProfile(w, user, ok);
    if user in w.locks && w.locks[user].LogoutFenced? {
      assert forall slot :: Pending(w', slot) <==> Pending(w, slot);
      assert w'.vault.blobs == w.vault.blobs;
    }
  }

  lemma {:induction false} AllSettled(acts: seq<Action>)
    requires forall i :: 0 <= i < |acts| ==> Sound(acts[i])
    ensures Settled(Run(acts)) && KeyTyped(Run(acts))
    decreases |acts|
  {
    hide Settled, KeyTyped, Step, Sound, Inv;
    if acts == [] {
      InitSettled();
    } else {
      var before := acts[..|acts| - 1];
      assert forall i :: 0 <= i < |before| ==> Sound(before[i]) by {
        assert forall i :: 0 <= i < |before| ==> before[i] == acts[i];
      }
      AllSettled(before);
      Reachable(before);
      SettledStep(Run(before), acts[|acts| - 1]);
    }
  }

  lemma InitSettled()
    ensures Settled(INIT) && KeyTyped(INIT)
  {
  }

  /** Through every failure and rollback, a user outside a critical section never has a credential
      and a profile of different kinds: for runs whose restores succeed and whose keys are set
      under a key-style type. */
  lemma KindsAgree(acts: seq<Action>, slot: Slot)
    requires forall i :: 0 <= i < |acts| ==> Sound(acts[i])
    requires slot.user !in Run(acts).locks
    ensures Agrees(Run(acts).vault, slot)
  {
    hide Run, Agrees;
    AllSettled(acts);
    assert !Pending(Run(acts), slot);
  }

  /** The steps of one key change, uninterrupted, do to the store what the broker's method does. */
  lemma KeyChangeRefines(w: World, slot: Slot, auth: Auth, key: nat, readable: bool, put: bool, upsert: bool)
    requires slot.user !in w.locks
    ensures var w1 := DoFenceForKey(Step(w, LockForKey(slot)), slot.user);
            var w2 := DoSnapshot(w1, slot.user, readable);
            var w3 := DoRecord(DoStore(w2, slot.user, auth, key, put), slot.user, upsert);
            && w3.vault == Replace(w.vault, slot, Blob(KeyBlob, key), auth, Outcomes(readable, put, upsert, true)).0
            && w3.reg == CancelSlot(w.reg, slot) && slot.user !in w3.locks
  {
    hide CancelSlot, Step, DoFenceForKey;
    FenceEffect(w, slot);
    assert BlobOf(w.vault, slot).None? ==> slot !in w.vault.blobs;
  }

  /** Both locks taken and the slot's sessions cancelled. */
  lemma FenceEffect(w: World, slot: Slot)
    requires slot.user !in w.locks
    ensures DoFenceForKey(Step(w, LockForKey(slot)), slot.user)
            == w.(reg := CancelSlot(w.reg, slot), locks := w.locks[slot.user := KeyFenced(slot)])
  {
    hide CancelSlot;
    var u := slot.user;
    assert w.locks[u := KeyLocked(slot)][u := KeyFenced(slot)] == w.locks[u := KeyFenced(slot)];
  }
}
