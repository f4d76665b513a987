/** The layered code of the login session: the repository, the cache decorators around
    it, and the service on top. Each method is proved to take the step SessionModel
    specifies. A transaction that fails brings back the rows and the trail, and nothing
    else. */
module SessionService {
  import opened Basics
  import opened SessionModel
  import opened SessionRuns

  /** What one hard-deleted session leaves behind. */
  datatype RevokedRow = RevokedRow(id: SessionID, user: Option<UserID>, hash: Digest)

  /** `revoked` lists each of the keys once, with what its row held. */
  ghost predicate Lists(revoked: seq<RevokedRow>, rows: map<RowKey, Row>, tenant: TenantID, keys: set<RowKey>) {
    && (forall i :: 0 <= i < |revoked| ==> ListsRow(revoked[i], rows, tenant) && RowKey(tenant, revoked[i].id) in keys)
    && (forall i, j :: 0 <= i < j < |revoked| ==> revoked[i].id != revoked[j].id)
    && (forall k :: k in keys ==> k.tenant == tenant && exists i :: 0 <= i < |revoked| && revoked[i].id == k.id)
  }

  ghost predicate ListsRow(row: RevokedRow, rows: map<RowKey, Row>, tenant: TenantID) {
    var k := RowKey(tenant, row.id);
    k in rows && row.user == rows[k].user && row.hash == rows[k].tokenHash
  }

  class Sessions {
    var now: Instant
    var rows: map<RowKey, Row>
    var cache: map<Slot, Entry>
    var trail: seq<AuditRow>
    var nextToken: Token
    var nextID: SessionID
    ghost var disclosed: set<Token>

    ghost function View(): State
      reads this
    {
      State(now, rows, cache, trail, nextToken, nextID, disclosed)
    }

    ghost predicate Valid()
      reads this
    {
      Inv(View())
    }

    constructor ()
      ensures Valid() && View() == FRESH
    {
      now, rows, cache, trail, nextToken, nextID, disclosed := 0, map[], map[], [], 0, 0, {};
    }

    // ----- the repository --------------------------------------------------

    method Save(live: LoginSession, hash: Digest, written: bool) returns (ok: bool)
      modifies this`rows
      ensures ok == written
      ensures rows == if written then old(rows)[KeyOf(live) := Seal(live, hash)] else old(rows)
    {
      if !written { return false; }
      rows := rows[RowKey(live.tenant, live.id) := Row(live.user, Active, hash, Sealed(live), live.expiresAt)];
      return true;
    }

    method FindByTokenHash(tenant: TenantID, hash: Digest) returns (found: Option<LoginSession>)
      requires Valid()
      ensures found == FindRow(View(), tenant, hash)
    {
      if k :| k in rows && k.tenant == tenant && rows[k].tokenHash == hash
              && rows[k].state == Active && rows[k].expiresAt > now {
        assert Credentials(View(), k, tenant, hash);
        return Some(rows[k].data.plain);
      }
      return None;
    }

    /** Ends one live row, and answers with the digest it held. */
    method Terminate(tenant: TenantID, id: SessionID, written: bool) returns (ended: Result<Digest, Failure>)
      modifies this`rows
      ensures var k := RowKey(tenant, id);
              if !LiveRow(old(View()), k) then ended == Err(NotFound) && rows == old(rows)
              else if !written then ended == Err(StorageFailed) && rows == old(rows)
              else ended == Ok(old(rows)[k].tokenHash) && rows == old(rows)[k := old(rows)[k].(state := Terminated)]
    {
      var k := RowKey(tenant, id);
      if k !in rows || rows[k].state != Active || rows[k].expiresAt <= now { return Err(NotFound); }
      if !written { return Err(StorageFailed); }
      var row := rows[k];
      rows := rows[k := row.(state := Terminated)];
      return Ok(row.tokenHash);
    }

    // ----- the cache decorators --------------------------------------------

    /** The database first, so a refused write never reaches the cache. */
    method CachingSave(live: LoginSession, hash: Digest, prev: Option<Digest>, written: bool) returns (ok: bool)
      modifies this`rows, this`cache
      ensures ok == written
      ensures View() == if written then Saved(old(View()), live, hash, prev) else old(View())
    {
      ok := Save(live, hash, written);
      if !ok { return; }
      if prev.Some? && prev.value != hash {
        cache := cache - {Slot(live.tenant, prev.value)};
      }
      if live.expiresAt > now {
        cache := cache[Slot(live.tenant, hash) := Entry(Sealed(live), live.expiresAt)];
      }
    }

    method CachingFind(tenant: TenantID, hash: Digest) returns (found: Option<LoginSession>)
      requires Valid()
      modifies this`cache
      ensures found == CachedFind(old(View()), tenant, hash)
      ensures View() == Refilled(old(View()), tenant, hash)
    {
      var slot := Slot(tenant, hash);
      if slot in cache && now < cache[slot].deadline {
        return Some(cache[slot].blob.plain);
      }
      found := FindByTokenHash(tenant, hash);
      if found.Some? && found.value.expiresAt > now {
        cache := cache[slot := Entry(Sealed(found.value), found.value.expiresAt)];
      }
    }

    method CachingTerminate(tenant: TenantID, id: SessionID, written: bool) returns (ended: Result<(), Failure>)
      modifies this`rows, this`cache
      ensures var k := RowKey(tenant, id);
              if !LiveRow(old(View()), k) then ended == Err(NotFound) && View() == old(View())
              else if !written then ended == Err(StorageFailed) && View() == old(View())
              else ended == Ok(()) && View() == Ended(old(View()), k, [], Committed)
    {
      var hash := Terminate(tenant, id, written);
      match hash
      case Err(why) => return Err(why);
      case Ok(digest) =>
        cache := cache - {Slot(tenant, digest)};
        return Ok(());
    }

    // ----- the hard deletes ------------------------------------------------

    method DeleteSession(tenant: TenantID, owner: Option<UserID>, id: SessionID, written: bool)
      returns (revoked: Result<RevokedRow, Failure>)
      modifies this`rows
      ensures var k := RowKey(tenant, id);
              if Named(old(View()), k, owner) == {} then revoked == Err(NoSuchSession) && rows == old(rows)
              else if !written then revoked == Err(StorageFailed) && rows == old(rows)
              else
                && revoked == Ok(RevokedRow(id, old(rows)[k].user, old(rows)[k].tokenHash))
                && rows == old(rows) - {k}
    {
      var k := RowKey(tenant, id);
      if k !in rows || (owner.Some? && rows[k].user != owner) { return Err(NoSuchSession); }
      if !written { return Err(StorageFailed); }
      var row := rows[k];
      rows := rows - {k};
      return Ok(RevokedRow(id, row.user, row.tokenHash));
    }

    /** Reads what the person holds, then deletes what it read. */
    method DeleteUserSessions(tenant: TenantID, user: UserID, except: Option<SessionID>, written: bool)
      returns (revoked: Option<seq<RevokedRow>>)
      modifies this`rows
      ensures revoked.Some? == written
      ensures var keys := HeldBy(old(View()), tenant, user, except);
              if written then Lists(revoked.value, old(rows), tenant, keys) && rows == old(rows) - keys
              else rows == old(rows)
    {
      if !written { return None; }
      var keys := set k | k in rows && k.tenant == tenant && rows[k].user == Some(user)
                          && (except.Some? ==> k.id != except.value);
      var listed: seq<RevokedRow> := [];
      var todo := keys;
      while todo != {}
        invariant todo <= keys && rows == old(rows)
        invariant Lists(listed, rows, tenant, keys - todo)
        decreases todo
      {
        var k :| k in todo;
        assert k == RowKey(tenant, k.id);
        assert keys - (todo - {k}) == (keys - todo) + {k};
        listed := listed + [RevokedRow(k.id, rows[k].user, rows[k].tokenHash)];
        ListsMore(listed, rows, tenant, keys - todo, k);
        todo := todo - {k};
      }
      assert keys - todo == keys;
      rows := rows - keys;
      return Some(listed);
    }

    method DropCached(tenant: TenantID, revoked: seq<RevokedRow>)
      modifies this`cache
      ensures cache == old(cache) - set i | 0 <= i < |revoked| :: Slot(tenant, revoked[i].hash)
    {
      for i := 0 to |revoked|
        invariant cache == old(cache) - set j | 0 <= j < i :: Slot(tenant, revoked[j].hash)
      {
        cache := cache - {Slot(tenant, revoked[i].hash)};
      }
    }

    method CachingRevoke(tenant: TenantID, owner: Option<UserID>, id: SessionID, written: bool)
      returns (revoked: Result<RevokedRow, Failure>)
      modifies this`rows, this`cache
      ensures var keys := Named(old(View()), RowKey(tenant, id), owner);
              if keys == {} then revoked == Err(NoSuchSession) && View() == old(View())
              else if !written then revoked == Err(StorageFailed) && View() == old(View())
              else revoked.Ok? && View() == Deleted(old(View()), keys, Committed)
    {
      revoked := DeleteSession(tenant, owner, id, written);
      if revoked.Ok? {
        assert [revoked.value][0].id == id;
        ListedSlots([revoked.value], old(View()), tenant, {RowKey(tenant, id)});
        DropCached(tenant, [revoked.value]);
      }
    }

    method CachingRevokeUser(tenant: TenantID, user: UserID, except: Option<SessionID>, written: bool)
      returns (revoked: Option<seq<RevokedRow>>)
      modifies this`rows, this`cache
      ensures revoked.Some? == written
      ensures var keys := HeldBy(old(View()), tenant, user, except);
              && (written ==> Lists(revoked.value, old(rows), tenant, keys))
              && View() == Deleted(old(View()), keys, if written then Committed else WriteFailed)
    {
      revoked := DeleteUserSessions(tenant, user, except, written);
      if revoked.Some? {
        ListedSlots(revoked.value, old(View()), tenant, HeldBy(old(View()), tenant, user, except));
        DropCached(tenant, revoked.value);
      }
    }

    // ----- the service -----------------------------------------------------

    method Open(tenant: TenantID, user: Option<UserID>, email: string, federation: Option<FederationID>, written: bool)
      returns (answer: Answer)
      requires Valid()
      modifies this
      ensures Valid()
      ensures (View(), answer) == OpenStep(old(View()), tenant, user, email, federation, written)
    {
      OpenKeeps(View(), tenant, user, email, federation, written);
      var live := LoginSession(nextID, tenant, user, email, federation, 0, map[], now, now + PARTIAL_LIFETIME);
      nextID := nextID + 1;
      var token := MintToken();
      var ok := CachingSave(live, Digest(token), None, written);
      if !ok { return Failed(StorageFailed); }
      disclosed := disclosed + {token};
      return Opened(live.id, token);
    }

    method MintToken() returns (token: Token)
      modifies this`nextToken
      ensures token == old(nextToken) && nextToken == token + 1
    {
      token := nextToken;
      nextToken := nextToken + 1;
    }

    /** The one transaction of a factor upgrade: the save, then the audit row. */
    method Rotate(live: LoginSession, spent: Token, fate: Fate) returns (answer: Answer)
      modifies this
      ensures (View(), answer) == Rotated(old(View()), live, spent, fate)
    {
      var rotated := MintToken();
      var before := rows;
      var ok := CachingSave(live, Digest(rotated), Some(Digest(spent)), fate != WriteFailed);
      if !ok { return Failed(StorageFailed); }
      if fate == AuditFailed {
        rows := before;
        return Failed(AuditRefused);
      }
      trail := trail + [AuditRow(RowKey(live.tenant, live.id), LoginSucceeded)];
      disclosed := disclosed + {rotated};
      return Opened(live.id, rotated);
    }

    method VerifyPassword(tenant: TenantID, token: Token, check: Check, steps: Option<seq<string>>, fate: Fate)
      returns (answer: Answer, owed: seq<string>)
      requires Valid() && Known(View(), token)
      modifies this
      ensures Valid()
      ensures (View(), answer) == PasswordStep(old(View()), tenant, token, check, steps.Some?, fate)
      ensures owed == if answer.Opened? then steps.value else []
    {
      hide Inv, Later, Rotated, FindRow, Cached, VisibleIn;
      PasswordKeeps(View(), tenant, token, check, steps.Some?, fate);
      owed := [];
      var found := CachingFind(tenant, Digest(token));
      if found.None? { return Failed(NotFound), []; }
      var live := found.value;
      var proof := Prove(live, check);
      if proof.Broken? { return Failed(StorageFailed), []; }
      if proof.Refused? {
        if fate != Committed { return Failed(AuditRefused), []; }
        trail := trail + [AuditRow(RowKey(live.tenant, live.id), LoginFailed(proof.reason))];
        return Failed(proof.why), [];
      }
      if live.user != proof.person || live.email == "" { live := live.(email := proof.email); }
      live := live.(user := proof.person);
      if steps.None? { return Failed(StorageFailed), []; }
      live := live.(factors := live.factors[FACTOR_PASSWORD := now], expiresAt := now + FULL_LIFETIME);
      answer := Rotate(live, token, fate);
      if answer.Opened? { owed := steps.value; }
    }

    method Complete(tenant: TenantID, token: Token, user: Option<UserID>, factor: string, fate: Fate)
      returns (answer: Answer)
      requires Valid() && Known(View(), token)
      modifies this
      ensures Valid()
      ensures (View(), answer) == CompleteStep(old(View()), tenant, token, user, factor, fate)
    {
      hide Inv, Later, Rotated, FindRow, Cached, VisibleIn;
      CompleteKeeps(View(), tenant, token, user, factor, fate);
      var found := CachingFind(tenant, Digest(token));
      if found.None? { return Failed(NotFound); }
      var live := found.value;
      if live.user.Some? && live.user != user { return Failed(SubjectBound); }
      live := live.(user := user);
      live := live.(factors := live.factors[factor := now]);
      live := live.(expiresAt := now + FULL_LIFETIME);
      answer := Rotate(live, token, fate);
    }

    /** The one transaction that ends a session: the terminate, then the audit row. */
    method End(tenant: TenantID, id: SessionID, record: AuditRow, fate: Fate, good: Answer) returns (answer: Answer)
      modifies this
      ensures (View(), answer) == EndStep(old(View()), RowKey(tenant, id), [record], fate, good)
    {
      var before := rows;
      var ended := CachingTerminate(tenant, id, fate != WriteFailed);
      if ended.Err? { return Failed(ended.error); }
      if fate == AuditFailed {
        rows := before;
        return Failed(AuditRefused);
      }
      trail := trail + [record];
      return good;
    }

    method FailSecondFactor(tenant: TenantID, token: Token, fate: Fate) returns (answer: Answer)
      requires Valid() && Known(View(), token)
      modifies this
      ensures Valid()
      ensures (View(), answer) == FailCodeStep(old(View()), tenant, token, fate)
    {
      hide Inv, Later, FindRow, VisibleIn, Ended;
      FailCodeKeeps(View(), tenant, token, fate);
      var found := CachingFind(tenant, Digest(token));
      if found.None? { return Failed(NotFound); }
      var live := found.value;
      live := live.(wrongCodes := live.wrongCodes + 1);
      if live.wrongCodes < MAX_WRONG_CODES {
        var ok := CachingSave(live, Digest(token), Some(Digest(token)), fate != WriteFailed);
        return if ok then Counted(false) else Failed(StorageFailed);
      }
      answer := End(
        tenant, live.id, AuditRow(RowKey(live.tenant, live.id), LoginFailed(BadSecondFactor)), fate, Counted(true));
    }

    method Find(tenant: TenantID, token: Token) returns (answer: Answer)
      requires Valid() && Known(View(), token)
      modifies this`cache
      ensures Valid()
      ensures (View(), answer) == FindStep(old(View()), tenant, token)
    {
      Lookup(View(), tenant, token);
      var found := CachingFind(tenant, Digest(token));
      return if found.Some? then Found(found.value) else Failed(NotFound);
    }

    /** Only a session that proved a factor counts as signed in. */
    method Resolve(tenant: TenantID, token: Token) returns (answer: Answer)
      requires Valid() && Known(View(), token)
      modifies this`cache
      ensures Valid() && View() == Refilled(old(View()), tenant, Digest(token))
      ensures match FindRow(old(View()), tenant, Digest(token))
              case None => answer == Failed(NotFound)
              case Some(live) => answer == if live.factors == map[] then Failed(NotAuthenticated) else Found(live)
    {
      Lookup(View(), tenant, token);
      answer := Find(tenant, token);
      if answer.Found? && !answer.live.Authenticated() { answer := Failed(NotAuthenticated); }
    }

    /** The finalize gate. `steps` is what the account owes, or nothing when it could
        not be read. */
    method ResolveForFinalize(tenant: TenantID, token: Token, steps: Option<seq<string>>) returns (answer: Answer)
      requires Valid() && Known(View(), token)
      modifies this`cache
      ensures Valid() && View() == Refilled(old(View()), tenant, Digest(token))
      ensures answer.Found? <==>
              && FindRow(old(View()), tenant, Digest(token)).Some?
              && PassesGate(FindRow(old(View()), tenant, Digest(token)).value, steps)
      ensures answer.Found? ==> answer.live == FindRow(old(View()), tenant, Digest(token)).value
      ensures answer == Failed(InsufficientFactors) <==>
              && FindRow(old(View()), tenant, Digest(token)).Some?
              && OwesFactor(FindRow(old(View()), tenant, Digest(token)).value, steps)
    {
      answer := Resolve(tenant, token);
      if !answer.Found? || FACTOR_SCAN in answer.live.factors { return; }
      if steps.None? { return Failed(StorageFailed); }
      for i := 0 to |steps.value|
        invariant forall j :: 0 <= j < i ==> answer.live.Meets(steps.value[j])
      {
        if !answer.live.Meets(steps.value[i]) {
          assert steps.value[i] in steps.value;
          return Failed(InsufficientFactors);
        }
      }
      assert forall step <- steps.value :: answer.live.Meets(step);
      assert steps.value != [] ==> answer.live.Meets(steps.value[0]);
    }

    method Logout(tenant: TenantID, token: Token, fate: Fate) returns (answer: Answer)
      requires Valid() && Known(View(), token)
      modifies this
      ensures Valid()
      ensures (View(), answer) == LogoutStep(old(View()), tenant, token, fate)
    {
      LogoutKeeps(View(), tenant, token, fate);
      var found := CachingFind(tenant, Digest(token));
      if found.None? { return Failed(NotFound); }
      var live := found.value;
      answer := End(tenant, live.id, AuditRow(RowKey(live.tenant, live.id), LogoutSucceeded), fate, Done);
    }

    /** The logout a relying party asks for. The revoke of the grants and the audit row follow
        the terminate on the request's transaction, and either one can fail it. */
    method LogoutByRelyingParty(tenant: TenantID, id: SessionID, fate: Fate) returns (answer: Answer)
      requires Valid()
      modifies this`rows, this`cache
      ensures Valid()
      ensures (View(), answer) == TerminateStep(old(View()), RowKey(tenant, id), fate)
    {
      TerminateKeeps(View(), RowKey(tenant, id), fate);
      var before := rows;
      answer := TerminateByID(tenant, id, fate != WriteFailed);
      if answer == Done && fate == AuditFailed {
        rows := before;
        return Failed(AuditRefused);
      }
    }

    method TerminateByID(tenant: TenantID, id: SessionID, written: bool) returns (answer: Answer)
      requires Valid()
      modifies this`rows, this`cache
      ensures Valid()
      ensures (View(), answer)
              == TerminateStep(old(View()), RowKey(tenant, id), if written then Committed else WriteFailed)
    {
      TerminateKeeps(View(), RowKey(tenant, id), if written then Committed else WriteFailed);
      var ended := CachingTerminate(tenant, id, written);
      return if ended.Ok? then Done else Failed(ended.error);
    }
  }

  // ----- the finalize gate, in its own words -------------------------------

  /** A scan passes alone. Anything else passes when every step owed is a challenge
      step, and a second factor is proved if any step is owed at all. */
  predicate PassesGate(live: LoginSession, steps: Option<seq<string>>) {
    && live.factors != map[]
    && (FACTOR_SCAN in live.factors
        || (&& steps.Some?
            && (forall step <- steps.value :: IsChallengeStep(step))
            && (steps.value == [] || FACTOR_OTP in live.factors || FACTOR_PASSKEY in live.factors)))
  }

  predicate OwesFactor(live: LoginSession, steps: Option<seq<string>>) {
    live.factors != map[] && steps.Some? && !PassesGate(live, steps)
  }

  // ----- lists -------------------------------------------------------------

  lemma ListsMore(listed: seq<RevokedRow>, rows: map<RowKey, Row>, tenant: TenantID, keys: set<RowKey>, k: RowKey)
    requires listed != [] && k in rows && k.tenant == tenant && k !in keys
    requires Lists(listed[..|listed| - 1], rows, tenant, keys)
    requires listed[|listed| - 1] == RevokedRow(k.id, rows[k].user, rows[k].tokenHash)
    ensures Lists(listed, rows, tenant, keys + {k})
  {
  }

  lemma ListedSlots(revoked: seq<RevokedRow>, s: State, tenant: TenantID, keys: set<RowKey>)
    requires keys <= s.rows.Keys && Lists(revoked, s.rows, tenant, keys)
    ensures (set i | 0 <= i < |revoked| :: Slot(tenant, revoked[i].hash)) == SlotsOf(s, keys)
  {
  }

  /** The moment a person last verified a factor. A partial session answers zero. */
  method AuthTime(live: LoginSession) returns (latest: Instant)
    ensures forall factor <- live.factors :: live.factors[factor] <= latest
    ensures latest == 0 || exists factor <- live.factors :: live.factors[factor] == latest
  {
    latest := 0;
    var todo := live.factors.Keys;
    while todo != {}
      invariant todo <= live.factors.Keys
      invariant forall factor :: factor in live.factors && factor !in todo ==> live.factors[factor] <= latest
      invariant latest == 0 || exists factor <- live.factors :: live.factors[factor] == latest
      decreases todo
    {
      var factor :| factor in todo;
      if live.factors[factor] > latest { latest := live.factors[factor]; }
      todo := todo - {factor};
    }
  }
}
