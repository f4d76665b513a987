/** What every run of session calls keeps: the cache agrees with the table for every
    token somebody holds, although a failed transaction takes rows back and leaves
    cache writes standing. */
module SessionRuns {
  import opened Basics
  import opened SessionModel

  // ----- the invariant -----------------------------------------------------

  /** The extracted columns copy the sealed session, and the row's own token was
      handed out. */
  ghost predicate SoundRow(s: State, k: RowKey)
    requires k in s.rows
  {
    var row := s.rows[k];
    && KeyOf(row.data.plain) == k
    && row.user == row.data.plain.user
    && row.expiresAt == row.data.plain.expiresAt
    && k.id < s.nextID
    && row.tokenHash.of in s.disclosed
  }

  ghost predicate SoundRows(s: State) {
    forall k :: k in s.rows ==> SoundRow(s, k)
  }

  /** No two rows answer to one token. */
  ghost predicate OneRowPerToken(s: State) {
    forall j, k :: j in s.rows && k in s.rows && s.rows[j].tokenHash == s.rows[k].tokenHash ==> j == k
  }

  /** The entry under `slot` is the active row that answers to its digest. */
  ghost predicate Backed(s: State, slot: Slot)
    requires slot in s.cache
  {
    var entry := s.cache[slot];
    var k := RowKey(slot.tenant, entry.blob.plain.id);
    && k in s.rows
    && s.rows[k].tokenHash == slot.digest
    && s.rows[k].state == Active
    && s.rows[k].data == entry.blob
    && s.rows[k].expiresAt == entry.deadline
  }

  /** Every visible entry of a disclosed token is backed by its row. */
  ghost predicate Coherent(s: State) {
    forall slot :: slot in s.cache && slot.digest.of in s.disclosed && VisibleIn(s, slot) ==> Backed(s, slot)
  }

  /** The mint is ahead of every token in use. */
  ghost predicate Minted(s: State) {
    && (forall token :: token in s.disclosed ==> token < s.nextToken)
    && (forall slot :: slot in s.cache ==> slot.digest.of < s.nextToken)
  }

  ghost predicate Inv(s: State) {
    SoundRows(s) && OneRowPerToken(s) && Coherent(s) && Minted(s)
  }

  // ----- what a lookup answers ---------------------------------------------

  /** The read through the cache answers exactly what the table answers, for every
      token a caller can present and in every tenant. */
  lemma LookupAgrees(s: State, tenant: TenantID, token: Token)
    requires Inv(s) && Known(s, token)
    ensures CachedFind(s, tenant, Digest(token)) == FindRow(s, tenant, Digest(token))
  {
    var slot := Slot(tenant, Digest(token));
    if VisibleIn(s, slot) {
      assert Backed(s, slot);
      var k := RowKey(tenant, s.cache[slot].blob.plain.id);
      assert Credentials(s, k, tenant, Digest(token));
    }
  }

  /** A session that a token answers is the one row that holds its digest. */
  lemma FoundRow(s: State, tenant: TenantID, token: Token) returns (k: RowKey)
    requires Inv(s) && FindRow(s, tenant, Digest(token)).Some?
    ensures k == KeyOf(FindRow(s, tenant, Digest(token)).value)
    ensures Credentials(s, k, tenant, Digest(token))
    ensures s.rows[k].data.plain == FindRow(s, tenant, Digest(token)).value
    ensures token in s.disclosed
  {
    k :| Credentials(s, k, tenant, Digest(token)) && s.rows[k].data.plain == FindRow(s, tenant, Digest(token)).value;
    assert SoundRow(s, k);
  }

  /** A read that refills the cache moves nothing else, and keeps the invariant. */
  lemma RefillKeeps(s: State, tenant: TenantID, token: Token)
    requires Inv(s) && Known(s, token)
    ensures var r := Refilled(s, tenant, Digest(token));
            Inv(r) && r == s.(cache := r.cache)
  {
  }

  // ----- the writes --------------------------------------------------------

  /** A save under a digest that is either kept, or new to everybody. */
  ghost predicate Unheld(s: State, token: Token) {
    && token !in s.disclosed
    && forall slot :: slot in s.cache ==> slot.digest.of != token
  }

  lemma SavedKeeps(s: State, live: LoginSession, spent: Option<Token>, token: Token, out: set<Token>)
    requires Inv(s) && live.id < s.nextID && token < s.nextToken
    requires out == s.disclosed + {token}
    requires spent == Some(token) || Unheld(s, token)
    requires match spent
             case None => KeyOf(live) !in s.rows
             case Some(t) => KeyOf(live) in s.rows && s.rows[KeyOf(live)].tokenHash == Digest(t)
    requires live.expiresAt > s.now
    ensures Inv(Saved(s, live, Digest(token), if spent.None? then None
            else Some(Digest(spent.value))).(disclosed := out))
  {
    var key, slot := KeyOf(live), Slot(live.tenant, Digest(token));
    var r := Saved(s, live, Digest(token), if spent.None? then None else Some(Digest(spent.value))).(disclosed := out);
    forall k | k in r.rows
      ensures SoundRow(r, k)
    {
      if k != key { assert SoundRow(s, k); }
    }
    assert OneRowPerToken(r) by {
      assert forall k :: k in s.rows && k != key ==> SoundRow(s, k) && s.rows[k].tokenHash != Digest(token);
    }
    forall other | other in r.cache && other.digest.of in r.disclosed && VisibleIn(r, other)
      ensures Backed(r, other)
    {
      if other != slot {
        assert VisibleIn(s, other) && other.digest.of in s.disclosed;
        assert Backed(s, other);
      }
    }
  }

  // ----- what one call may do to the rows ----------------------------------

  /** How the sealed session of one row may change while it lives. */
  ghost predicate Follows(before: LoginSession, after: LoginSession) {
    && after.id == before.id && after.tenant == before.tenant
    && after.federation == before.federation && after.createdAt == before.createdAt
    && before.wrongCodes <= after.wrongCodes
    && before.factors.Keys <= after.factors.Keys
    && (before.user.Some? ==> after.user.Some?)
    && (before.federation.None? && before.user.Some? ==> after.user == before.user)
  }

  /** `t` is reachable from `s`, as far as the rows can tell: ids and tokens are never
      reused, a terminated row stays as it is, and an active row either kept its digest
      and its deadline or answers to a token minted since. */
  ghost predicate Later(s: State, t: State) {
    && s.now <= t.now && s.nextID <= t.nextID && s.nextToken <= t.nextToken && s.disclosed <= t.disclosed
    && s.trail <= t.trail
    && (forall k :: k in t.rows && k !in s.rows ==> s.nextID <= k.id)
    && (forall k :: k in t.rows && k in s.rows ==> Follows(s.rows[k].data.plain, t.rows[k].data.plain))
    && (forall k :: k in t.rows && k in s.rows && s.rows[k].state == Terminated ==> t.rows[k] == s.rows[k])
    && (forall k :: k in t.rows && t.rows[k].state == Active ==> s.nextToken <= t.rows[k].tokenHash.of || Kept(s, t, k))
  }

  ghost predicate Kept(s: State, t: State, k: RowKey)
    requires k in t.rows
  {
    && k in s.rows && s.rows[k].state == Active
    && s.rows[k].tokenHash == t.rows[k].tokenHash
    && s.rows[k].expiresAt == t.rows[k].expiresAt
  }

  lemma LaterIsReflexive(s: State)
    ensures Later(s, s)
  {
  }

  lemma LaterIsTransitive(s: State, t: State, u: State)
    requires Inv(s) && Later(s, t) && Later(t, u)
    ensures Later(s, u)
  {
  }

  function Mint(s: State): State {
    s.(nextToken := s.nextToken + 1)
  }

  /** A mint that nothing has used yet. */
  lemma MintKeeps(s: State)
    requires Inv(s)
    ensures Inv(Mint(s)) && Later(s, Mint(s)) && Unheld(Mint(s), s.nextToken)
  {
  }

  /** A rotation keeps the invariant, whichever way its transaction ends. */
  lemma RotatedKeeps(s: State, live: LoginSession, token: Token, fate: Fate)
    requires Inv(s) && live.expiresAt > s.now
    requires KeyOf(live) in s.rows && s.rows[KeyOf(live)].tokenHash == Digest(token)
    ensures Inv(Rotated(s, live, token, fate).0)
  {
    MintKeeps(s);
    assert SoundRow(s, KeyOf(live));
    match fate
    case WriteFailed =>
    case AuditFailed => OrphanKeeps(Mint(s), live, token, Rotated(s, live, token, fate).0);
    case Committed =>
      SavedKeeps(Mint(s), live, Some(token), s.nextToken, s.disclosed + {s.nextToken});
      var saved := Saved(Mint(s), live, Digest(s.nextToken), Some(Digest(token)));
      SameButTrail(saved.(disclosed := s.disclosed + {s.nextToken}), Rotated(s, live, token, fate).0);
  }

  /** What a rotation leaves everywhere but in the one row. */
  lemma Unmoved(s: State, live: LoginSession, token: Token, fate: Fate)
    ensures var t := Rotated(s, live, token, fate).0;
            && t.now == s.now && t.nextID == s.nextID && s.nextToken < t.nextToken
            && s.disclosed <= t.disclosed && s.trail <= t.trail
            && (t.rows == s.rows || t.rows == s.rows[KeyOf(live) := Seal(live, Digest(s.nextToken))])
  {
  }

  lemma RotatedLater(s: State, before: LoginSession, live: LoginSession, token: Token, fate: Fate)
    requires Inv(s) && FindRow(s, before.tenant, Digest(token)) == Some(before)
    requires Follows(before, live)
    ensures Later(s, Rotated(s, live, token, fate).0)
  {
    hide Inv, FindRow;
    var key := FoundRow(s, before.tenant, token);
    Unmoved(s, live, token, fate);
    hide Rotated;
    var t := Rotated(s, live, token, fate).0;
    assert t.rows == s.rows || t.rows == s.rows[key := Seal(live, Digest(s.nextToken))];
  }

  /** The audit trail plays no part in the invariant. */
  lemma SameButTrail(s: State, t: State)
    requires Inv(s) && t == s.(trail := t.trail)
    ensures Inv(t)
    ensures s.trail <= t.trail ==> Later(s, t)
  {
  }

  /** The cache writes of a rotation whose rows were taken back leave an entry under a
      token nobody was given, and a miss under the token that lives on. */
  lemma OrphanKeeps(s: State, live: LoginSession, spent: Token, t: State)
    requires Inv(s) && s.nextToken > 0 && Unheld(s, s.nextToken - 1)
    requires t == s.(cache := Saved(s, live, Digest(s.nextToken - 1), Some(Digest(spent))).cache)
    ensures Inv(t)
  {
  }

  lemma EndedLater(s: State, k: RowKey, record: seq<AuditRow>, fate: Fate)
    requires k in s.rows
    ensures Later(s, Ended(s, k, record, fate))
  {
  }

  lemma EndedCoheres(s: State, k: RowKey, record: seq<AuditRow>, fate: Fate)
    requires Inv(s) && k in s.rows
    ensures Coherent(Ended(s, k, record, fate))
  {
    var t := Ended(s, k, record, fate);
    forall slot | slot in t.cache && slot.digest.of in t.disclosed && VisibleIn(t, slot)
      ensures Backed(t, slot)
    {
      assert VisibleIn(s, slot) && Backed(s, slot);
    }
  }

  lemma EndedKeeps(s: State, k: RowKey, record: seq<AuditRow>, fate: Fate)
    requires Inv(s) && k in s.rows
    ensures var t := Ended(s, k, record, fate); Inv(t) && Later(s, t)
  {
    var t := Ended(s, k, record, fate);
    EndedLater(s, k, record, fate);
    EndedCoheres(s, k, record, fate);
    hide Later, Coherent;
    assert forall j :: j in s.rows ==> SoundRow(s, j) && SoundRow(t, j);
  }

  lemma DeletedKeeps(s: State, keys: set<RowKey>, fate: Fate)
    requires Inv(s) && keys <= s.rows.Keys
    ensures var t := Deleted(s, keys, fate); Inv(t) && Later(s, t)
  {
    var t := Deleted(s, keys, fate);
    assert forall j :: j in t.rows ==> SoundRow(s, j) && SoundRow(t, j);
    forall slot | slot in t.cache && slot.digest.of in t.disclosed && VisibleIn(t, slot)
      ensures Backed(t, slot)
    {
      assert VisibleIn(s, slot) && Backed(s, slot);
      var k := RowKey(slot.tenant, s.cache[slot].blob.plain.id);
      assert fate == Committed && k in keys ==> slot in SlotsOf(s, keys);
    }
  }

  // ----- every call keeps both ---------------------------------------------

  /** A lookup that answered: the row behind it, in the refilled state. */
  lemma Lookup(s: State, tenant: TenantID, token: Token)
    requires Inv(s) && Known(s, token)
    ensures var r := Refilled(s, tenant, Digest(token));
            && Inv(r) && Later(s, r) && r == s.(cache := r.cache)
            && CachedFind(s, tenant, Digest(token)) == FindRow(s, tenant, Digest(token))
               == FindRow(r, tenant, Digest(token))
    ensures var found := FindRow(s, tenant, Digest(token));
            found.Some? ==>
              && found.value.tenant == tenant
              && Credentials(s, KeyOf(found.value), tenant, Digest(token))
              && s.rows[KeyOf(found.value)].data.plain == found.value
  {
    LookupAgrees(s, tenant, token);
    RefillKeeps(s, tenant, token);
    var r := Refilled(s, tenant, Digest(token));
    assert forall k :: Credentials(s, k, tenant, Digest(token)) == Credentials(r, k, tenant, Digest(token));
    if FindRow(s, tenant, Digest(token)).Some? {
      var k := FoundRow(s, tenant, token);
      var j := FoundRow(r, tenant, token);
    }
  }

  lemma OpenKeeps(s: State, tenant: TenantID, user: Option<UserID>, email: string,
                  federation: Option<FederationID>, written: bool)
    requires Inv(s)
    ensures var t := OpenStep(s, tenant, user, email, federation, written).0; Inv(t) && Later(s, t)
  {
    hide Inv, Later, Saved;
    var live := LoginSession(s.nextID, tenant, user, email, federation, 0, map[], s.now, s.now + PARTIAL_LIFETIME);
    MintKeeps(s);
    var minted := s.(nextToken := s.nextToken + 1, nextID := s.nextID + 1);
    IDMintKeeps(Mint(s), minted);
    LaterIsTransitive(s, Mint(s), minted);
    if written {
      UnusedID(s, KeyOf(live));
      SavedKeeps(minted, live, None, s.nextToken, s.disclosed + {s.nextToken});
      OpenedLater(s, live);
    }
  }

  lemma UnusedID(s: State, k: RowKey)
    requires Inv(s) && s.nextID <= k.id
    ensures k !in s.rows
  {
  }

  lemma IDMintKeeps(s: State, t: State)
    requires Inv(s) && t == s.(nextID := s.nextID + 1)
    ensures Inv(t) && Later(s, t)
  {
  }

  lemma OpenedLater(s: State, live: LoginSession)
    requires Inv(s) && live.id == s.nextID && KeyOf(live) !in s.rows
    ensures var minted := s.(nextToken := s.nextToken + 1, nextID := s.nextID + 1);
            Later(s, Saved(minted, live, Digest(s.nextToken), None).(disclosed := s.disclosed + {s.nextToken}))
  {
  }

  lemma RotationKeeps(s: State, tenant: TenantID, token: Token, live: LoginSession, fate: Fate)
    requires Inv(s) && FindRow(s, tenant, Digest(token)).Some? && live.expiresAt > s.now
    requires Follows(FindRow(s, tenant, Digest(token)).value, live)
    ensures var t := Rotated(s, live, token, fate).0; Inv(t) && Later(s, t)
  {
    var key := FoundRow(s, tenant, token);
    RotatedKeeps(s, live, token, fate);
    RotatedLater(s, FindRow(s, tenant, Digest(token)).value, live, token, fate);
  }

  lemma FailCodeKeeps(s: State, tenant: TenantID, token: Token, fate: Fate)
    requires Inv(s) && Known(s, token)
    ensures var t := FailCodeStep(s, tenant, token, fate).0; Inv(t) && Later(s, t)
  {
    hide Inv, Later, Saved, Ended;
    Lookup(s, tenant, token);
    var r := Refilled(s, tenant, Digest(token));
    if FindRow(r, tenant, Digest(token)).Some? {
      var live := FindRow(r, tenant, Digest(token)).value;
      var key := FoundRow(r, tenant, token);
      var counted := live.(wrongCodes := live.wrongCodes + 1);
      if counted.wrongCodes < MAX_WRONG_CODES {
        CountedKeeps(r, live, counted, token);
        LaterIsTransitive(s, r, Saved(r, counted, Digest(token), Some(Digest(token))));
      } else {
        EndedKeeps(r, key, [AuditRow(key, LoginFailed(BadSecondFactor))], fate);
        LaterIsTransitive(s, r, Ended(r, key, [AuditRow(key, LoginFailed(BadSecondFactor))], fate));
      }
    }
  }

  lemma CountedKeeps(s: State, live: LoginSession, counted: LoginSession, token: Token)
    requires Inv(s) && FindRow(s, live.tenant, Digest(token)) == Some(live)
    requires counted == live.(wrongCodes := live.wrongCodes + 1)
    ensures var t := Saved(s, counted, Digest(token), Some(Digest(token))); Inv(t) && Later(s, t)
  {
    var key := FoundRow(s, live.tenant, token);
    assert SoundRow(s, key);
    assert s.disclosed + {token} == s.disclosed;
    SavedKeeps(s, counted, Some(token), token, s.disclosed);
    assert Saved(s, counted, Digest(token), Some(Digest(token))).rows == s.rows[key := Seal(counted, Digest(token))];
  }

  /** What a proof leaves alone: a local compare never changes the person. */
  lemma ProofFollows(live: LoginSession, check: Check, now: Instant)
    requires Prove(live, check).Proved?
    ensures var proof := Prove(live, check); Follows(live, WithPassword(live, proof.person, proof.email, now))
  {
  }

  lemma TickKeeps(s: State, span: nat)
    requires Inv(s)
    ensures var t := s.(now := s.now + span); Inv(t) && Later(s, t)
  {
  }

  lemma PasswordKeeps(s: State, tenant: TenantID, token: Token, check: Check, stepsRead: bool, fate: Fate)
    requires Inv(s) && Known(s, token)
    ensures var t := PasswordStep(s, tenant, token, check, stepsRead, fate).0; Inv(t) && Later(s, t)
  {
    hide Inv, Later, Rotated, Ended;
    Lookup(s, tenant, token);
    var r := Refilled(s, tenant, Digest(token));
    if FindRow(r, tenant, Digest(token)).Some? {
      var live := FindRow(r, tenant, Digest(token)).value;
      var proof := Prove(live, check);
      if proof.Proved? {
        ProofFollows(live, check, s.now);
        var upgraded := WithPassword(live, proof.person, proof.email, s.now);
        RotationKeeps(r, tenant, token, upgraded, fate);
        LaterIsTransitive(s, r, Rotated(r, upgraded, token, fate).0);
      } else if proof.Refused? {
        var recorded := r.(trail := r.trail + [AuditRow(KeyOf(live), LoginFailed(proof.reason))]);
        SameButTrail(r, recorded);
        LaterIsTransitive(s, r, recorded);
      }
    }
  }

  lemma CompleteKeeps(s: State, tenant: TenantID, token: Token, user: Option<UserID>, factor: string, fate: Fate)
    requires Inv(s) && Known(s, token)
    ensures var t := CompleteStep(s, tenant, token, user, factor, fate).0; Inv(t) && Later(s, t)
  {
    hide Inv, Later, Rotated, Ended;
    Lookup(s, tenant, token);
    var r := Refilled(s, tenant, Digest(token));
    if FindRow(r, tenant, Digest(token)).Some? {
      var live := FindRow(r, tenant, Digest(token)).value;
      if live.user.None? || live.user == user {
        RotationKeeps(r, tenant, token, WithFactor(live, user, factor, s.now), fate);
        LaterIsTransitive(s, r, Rotated(r, WithFactor(live, user, factor, s.now), token, fate).0);
      }
    }
  }

  lemma LogoutKeeps(s: State, tenant: TenantID, token: Token, fate: Fate)
    requires Inv(s) && Known(s, token)
    ensures var t := LogoutStep(s, tenant, token, fate).0; Inv(t) && Later(s, t)
  {
    hide Inv, Later, Rotated, Ended;
    Lookup(s, tenant, token);
    var r := Refilled(s, tenant, Digest(token));
    if FindRow(r, tenant, Digest(token)).Some? {
      var key := FoundRow(r, tenant, token);
      EndedKeeps(r, key, [AuditRow(key, LogoutSucceeded)], fate);
      LaterIsTransitive(s, r, Ended(r, key, [AuditRow(key, LogoutSucceeded)], fate));
    }
  }

  lemma TerminateKeeps(s: State, key: RowKey, fate: Fate)
    requires Inv(s)
    ensures var t := TerminateStep(s, key, fate).0; Inv(t) && Later(s, t)
  {
    hide Inv, Later, Ended;
    LaterIsReflexive(s);
    if LiveRow(s, key) { EndedKeeps(s, key, [], fate); }
  }

  lemma StepKeeps(s: State, op: Op)
    requires Inv(s) && Enabled(s, op)
    ensures Inv(Step(s, op)) && Later(s, Step(s, op))
  {
    hide Inv, Later, OpenStep, PasswordStep, CompleteStep, FailCodeStep, LogoutStep, Ended, Deleted;
    match op
    case Tick(span) => TickKeeps(s, span);
    case Open(tenant, user, email, federation, written) => OpenKeeps(s, tenant, user, email, federation, written);
    case Password(tenant, token, check, stepsRead, fate) => PasswordKeeps(s, tenant, token, check, stepsRead, fate);
    case Complete(tenant, token, user, factor, fate) => CompleteKeeps(s, tenant, token, user, factor, fate);
    case FailCode(tenant, token, fate) => FailCodeKeeps(s, tenant, token, fate);
    case Find(tenant, token) => Lookup(s, tenant, token);
    case Logout(tenant, token, fate) => LogoutKeeps(s, tenant, token, fate);
    case Terminate(key, fate) => TerminateKeeps(s, key, fate);
    case Delete(key, owner, fate) =>
      LaterIsReflexive(s);
      DeletedKeeps(s, Named(s, key, owner), fate);
    case DeleteUser(tenant, person, except, fate) => DeletedKeeps(s, HeldBy(s, tenant, person, except), fate);
  }

  // ----- the main results --------------------------------------------------

  lemma {:induction false} RunKeeps(s: State, ops: seq<Op>)
    requires Inv(s) && Admissible(s, ops)
    ensures Inv(Run(s, ops)) && Later(s, Run(s, ops))
  {
    if ops != [] {
      var init, last := ops[..|ops| - 1], ops[|ops| - 1];
      RunKeeps(s, init);
      StepKeeps(Run(s, init), last);
      LaterIsTransitive(s, Run(s, init), Run(s, ops));
    }
  }
}
