/** The durable automation rows, as the store's SQL statements change them, with a ledger of what
    became of every pending-fire token. Each operation is one atomic statement. */
module AutomationStores {
  import opened Wrappers
  import opened Admission

  /** `version` stands for the stored definition; `manual` and `policy` are read from it. */
  datatype Row = Row(owner: UserId, enabled: bool, deleted: bool, gen: nat, pending: Option<Token>, version: nat, manual: bool,
                     policy: Policy)

  /** What became of a token that was stamped on a row. */
  datatype Fate = Waiting(auto: AutoId) | Superseded(newer: Token) | Cleared | Claimed(run: RunId)

  /** The definition a generation of a row stands for. */
  datatype Def = Def(version: nat, manual: bool)

  datatype Store = Store(rows: map<AutoId, Row>, fate: map<Token, Fate>, claims: seq<(Token, RunId)>,
                         nextToken: Token, nextVersion: nat, defs: map<(AutoId, nat), Def>)

  const NO_ROWS := Store(map[], map[], [], 0, 0, map[])

  function Resolve(fate: map<Token, Fate>, token: Option<Token>, as_: Fate): map<Token, Fate> {
    if token.None? then fate else fate[token.value := as_]
  }

  function Put(s: Store, a: AutoId, row: Row): Store {
    s.(rows := s.rows[a := row], defs := s.defs[(a, row.gen) := Def(row.version, row.manual)])
  }

  /** CreateAutomation: stored disabled, at generation 1. */
  function Create(s: Store, a: AutoId, owner: UserId, manual: bool, policy: Policy): Store {
    if a in s.rows then s
    else Put(s, a, Row(owner, false, false, 1, None, s.nextVersion, manual, policy)).(nextVersion := s.nextVersion + 1)
  }

  /** UpdateAutomation: a new definition, disabled, pending fire cleared, generation bumped. */
  function Update(s: Store, a: AutoId, manual: bool, policy: Policy): Store {
    if a !in s.rows then s
    else
      var row := s.rows[a];
      Put(s, a, row.(enabled := false, gen := row.gen + 1, pending := None, version := s.nextVersion, manual := manual,
                     policy := policy))
      .(nextVersion := s.nextVersion + 1, fate := Resolve(s.fate, row.pending, Cleared))
  }

  /** SetAutomationEnabled: only at the expected generation, and not on a deleted row. */
  function SetEnabled(s: Store, a: AutoId, enabled: bool, gen: nat): (Store, bool) {
    if a !in s.rows || s.rows[a].deleted || s.rows[a].gen != gen then (s, false)
    else
      var row := s.rows[a];
      (Put(s, a, row.(enabled := enabled, gen := gen + 1, pending := None))
       .(fate := Resolve(s.fate, row.pending, Cleared)), true)
  }

  /** SoftDeleteAutomation */
  function Delete(s: Store, a: AutoId): (Store, bool) {
    if a !in s.rows || s.rows[a].deleted then (s, false)
    else
      var row := s.rows[a];
      (Put(s, a, row.(deleted := true, enabled := false, gen := row.gen + 1, pending := None))
       .(fate := Resolve(s.fate, row.pending, Cleared)), true)
  }

  /** SetPendingFireIfCurrent with a new token. */
  function Stamp(s: Store, a: AutoId, gen: nat): (Store, bool) {
    if a !in s.rows || s.rows[a].gen != gen || !s.rows[a].enabled || s.rows[a].deleted then (s, false)
    else
      var row := s.rows[a];
      var t := s.nextToken;
      (s.(rows := s.rows[a := row.(pending := Some(t))],
          fate := Resolve(s.fate, row.pending, Superseded(t))[t := Waiting(a)],
          nextToken := t + 1), true)
  }

  /** ClaimPendingFire: compare and clear. */
  function Claim(s: Store, a: AutoId, token: Token, run: RunId): (Store, bool) {
    if a !in s.rows || s.rows[a].pending != Some(token) then (s, false)
    else
      (s.(rows := s.rows[a := s.rows[a].(pending := None)],
          fate := s.fate[token := Claimed(run)],
          claims := s.claims + [(token, run)]), true)
  }

  // ----- what the store keeps -----

  /** The token is still durable, or was replaced by a newer one, cleared by an edit, or claimed. */
  ghost predicate Accounted(s: Store, t: Token) {
    && t in s.fate && t < s.nextToken
    && match s.fate[t]
       case Waiting(a) => a in s.rows && s.rows[a].pending == Some(t)
       case Superseded(newer) => newer in s.fate && t < newer
       case Cleared => true
       case Claimed(run) => (t, run) in s.claims
  }

  /** No token is claimed twice. */
  ghost predicate ClaimedOnce(s: Store) {
    && (forall i :: 0 <= i < |s.claims| ==> s.claims[i].0 in s.fate && s.fate[s.claims[i].0] == Claimed(s.claims[i].1))
    && forall i, j :: 0 <= i < j < |s.claims| ==> s.claims[i].0 != s.claims[j].0
  }

  ghost predicate RowsOk(s: Store) {
    forall a :: a in s.rows ==>
      && (s.rows[a].pending.Some? ==>
            && s.rows[a].pending.value in s.fate && s.fate[s.rows[a].pending.value] == Waiting(a)
            && s.rows[a].enabled)
      && (s.rows[a].enabled ==> !s.rows[a].deleted)
      && (a, s.rows[a].gen) in s.defs
      && s.defs[(a, s.rows[a].gen)] == Def(s.rows[a].version, s.rows[a].manual)
  }

  ghost predicate GensOk(s: Store) {
    forall a, g :: (a, g) in s.defs ==> a in s.rows && g <= s.rows[a].gen
  }

  ghost predicate StoreOk(s: Store) {
    && (forall t :: t in s.fate ==> Accounted(s, t))
    && ClaimedOnce(s) && RowsOk(s) && GensOk(s)
  }

  /** Definitions of past generations never change, and tokens stay accounted for. */
  ghost predicate Grows(s: Store, s': Store) {
    && (forall k :: k in s.defs ==> k in s'.defs && s'.defs[k] == s.defs[k])
    && s.fate.Keys <= s'.fate.Keys
    && s.rows.Keys <= s'.rows.Keys
  }

  /** An edit of one row: a new generation, its pending token cleared, nothing claimed, other rows alone. */
  ghost predicate Edited(s: Store, s': Store, a: AutoId) {
    && a in s.rows && s'.rows.Keys == s.rows.Keys
    && (forall b :: b in s.rows && b != a ==> s'.rows[b] == s.rows[b])
    && s'.rows[a].gen == s.rows[a].gen + 1 && s'.rows[a].pending == None
    && (s.rows[a].pending.Some? ==> s.rows[a].pending.value in s'.fate && s'.fate[s.rows[a].pending.value] == Cleared)
    && s'.claims == s.claims
  }

  lemma EditKeeps(s: Store, a: AutoId, row: Row)
    requires StoreOk(s) && a in s.rows && row.gen == s.rows[a].gen + 1 && row.pending == None
    requires row.enabled ==> !row.deleted
    ensures var s' := Put(s, a, row).(fate := Resolve(s.fate, s.rows[a].pending, Cleared)); StoreOk(s') && Grows(s, s')
  {
    var s' := Put(s, a, row).(fate := Resolve(s.fate, s.rows[a].pending, Cleared));
    assert (a, row.gen) !in s.defs;
    forall t | t in s'.fate ensures Accounted(s', t) {
      assert Accounted(s, t);
    }
  }

  lemma CreateKeeps(s: Store, a: AutoId, owner: UserId, manual: bool, policy: Policy)
    requires StoreOk(s)
    ensures StoreOk(Create(s, a, owner, manual, policy)) && Grows(s, Create(s, a, owner, manual, policy))
  {
    var s' := Create(s, a, owner, manual, policy);
    if a !in s.rows {
      assert forall g :: (a, g) !in s.defs;
      forall t | t in s'.fate ensures Accounted(s', t) {
        assert Accounted(s, t);
      }
    }
  }

  lemma VersionFrame(s: Store, n: nat)
    requires StoreOk(s)
    ensures StoreOk(s.(nextVersion := n))
  {
    var s' := s.(nextVersion := n);
    forall t | t in s'.fate ensures Accounted(s', t) {
      assert Accounted(s, t);
    }
  }

  lemma UpdateKeeps(s: Store, a: AutoId, manual: bool, policy: Policy)
    requires StoreOk(s)
    ensures StoreOk(Update(s, a, manual, policy)) && Grows(s, Update(s, a, manual, policy))
    ensures a in s.rows ==> Edited(s, Update(s, a, manual, policy), a)
    ensures a in s.rows ==> !Update(s, a, manual, policy).rows[a].enabled
  {
    hide StoreOk;
    if a in s.rows {
      var row := s.rows[a].(enabled := false, gen := s.rows[a].gen + 1, pending := None, version := s.nextVersion,
                            manual := manual, policy := policy);
      EditKeeps(s, a, row);
      var s' := Put(s, a, row).(fate := Resolve(s.fate, s.rows[a].pending, Cleared));
      VersionFrame(s', s.nextVersion + 1);
    }
  }

  lemma SwitchKeeps(s: Store, a: AutoId, enabled: bool, gen: nat)
    requires StoreOk(s)
    ensures StoreOk(SetEnabled(s, a, enabled, gen).0) && Grows(s, SetEnabled(s, a, enabled, gen).0)
    ensures StoreOk(Delete(s, a).0) && Grows(s, Delete(s, a).0)
    ensures SetEnabled(s, a, enabled, gen).1 ==>
              && Edited(s, SetEnabled(s, a, enabled, gen).0, a)
              && s.rows[a].gen == gen && SetEnabled(s, a, enabled, gen).0.rows[a].enabled == enabled
    ensures !SetEnabled(s, a, enabled, gen).1 ==> SetEnabled(s, a, enabled, gen).0 == s
    ensures Delete(s, a).1 ==> Edited(s, Delete(s, a).0, a) && Delete(s, a).0.rows[a].deleted
    ensures !Delete(s, a).1 ==> Delete(s, a).0 == s
  {
    hide StoreOk;
    if a in s.rows {
      var row := s.rows[a];
      if !row.deleted { EditKeeps(s, a, row.(enabled := enabled, gen := row.gen + 1, pending := None)); }
      EditKeeps(s, a, row.(deleted := true, enabled := false, gen := row.gen + 1, pending := None));
    }
  }

  lemma StampKeeps(s: Store, a: AutoId, gen: nat)
    requires StoreOk(s)
    ensures StoreOk(Stamp(s, a, gen).0) && Grows(s, Stamp(s, a, gen).0)
    ensures Stamp(s, a, gen).1 ==> s.nextToken in Stamp(s, a, gen).0.fate && s.nextToken !in s.fate
  {
    var (s', ok) := Stamp(s, a, gen);
    if ok {
      forall t | t in s.fate ensures t < s.nextToken { assert Accounted(s, t); }
      forall t | t in s'.fate ensures Accounted(s', t) {
        assert t == s.nextToken || Accounted(s, t);
      }
    }
  }

  lemma ClaimKeeps(s: Store, a: AutoId, token: Token, run: RunId)
    requires StoreOk(s)
    ensures StoreOk(Claim(s, a, token, run).0) && Grows(s, Claim(s, a, token, run).0)
  {
    var (s', ok) := Claim(s, a, token, run);
    if ok {
      forall t | t in s'.fate ensures Accounted(s', t) {
        assert Accounted(s, t);
        assert t != token && s.fate[t].Claimed? ==> (t, s.fate[t].run) in s.claims;
        assert s'.claims[|s.claims|] == (token, run);
      }
    }
  }

  /** What each statement writes, and when it applies. */
  lemma StatementsMean(s: Store, a: AutoId, owner: UserId, manual: bool, policy: Policy, enabled: bool, gen: nat,
                       token: Token, run: RunId)
    ensures a !in s.rows ==>
              Create(s, a, owner, manual, policy).rows
              == s.rows[a := Row(owner, false, false, 1, None, s.nextVersion, manual, policy)]
    ensures a in s.rows ==>
              var old_ := s.rows[a];
              Update(s, a, manual, policy).rows
              == s.rows[a := Row(old_.owner, false, old_.deleted, old_.gen + 1, None, s.nextVersion, manual, policy)]
    ensures SetEnabled(s, a, enabled, gen).1 <==> a in s.rows && !s.rows[a].deleted && s.rows[a].gen == gen
    ensures SetEnabled(s, a, enabled, gen).1 ==>
              SetEnabled(s, a, enabled, gen).0.rows == s.rows[a := s.rows[a].(enabled := enabled, gen := gen + 1, pending := None)]
    ensures Delete(s, a).1 <==> a in s.rows && !s.rows[a].deleted
    ensures Stamp(s, a, gen).1 <==> a in s.rows && s.rows[a].gen == gen && s.rows[a].enabled && !s.rows[a].deleted
    ensures Stamp(s, a, gen).1 ==> Stamp(s, a, gen).0.rows == s.rows[a := s.rows[a].(pending := Some(s.nextToken))]
    ensures Claim(s, a, token, run).1 <==> a in s.rows && s.rows[a].pending == Some(token)
    ensures Claim(s, a, token, run).1 ==>
              && Claim(s, a, token, run).0.rows == s.rows[a := s.rows[a].(pending := None)]
              && Claim(s, a, token, run).0.claims == s.claims + [(token, run)]
  {
  }

  /** The newest token of the chain of replacements that starts with `t`. */
  function Latest(s: Store, t: Token): (r: Token)
    requires StoreOk(s) && t in s.fate
    ensures r in s.fate && t <= r && !s.fate[r].Superseded?
    decreases s.nextToken - t
  {
    assert Accounted(s, t);
    if s.fate[t].Superseded? then
      assert Accounted(s, s.fate[t].newer);
      Latest(s, s.fate[t].newer)
    else t
  }
}
