/** What every run of the grant store keeps, and what that says about refresh tokens
    that were rotated away. */
module GrantRuns {
  import opened Basics
  import opened GrantModel

  // ----- the invariant -----------------------------------------------------

  /** The extracted columns are what sealing the opened grant extracts again. */
  ghost predicate SoundRow(s: State, k: GrantKey)
    requires k in s.grants
  {
    var grant := s.grants[k].data.plain;
    && s.grants[k] == SealGrant(grant)
    && grant.id == k.id && k.id < s.nextID
    && (grant.refreshToken.Some? ==> grant.refreshToken.value < s.nextToken && grant.refreshToken.value !in s.retired)
  }

  ghost predicate SoundRows(s: State) {
    forall k :: k in s.grants ==> SoundRow(s, k)
  }

  ghost predicate SameToken(a: Grant, b: Grant) {
    a.refreshToken.Some? && a.refreshToken == b.refreshToken
  }

  ghost predicate OneGrantPerToken(s: State) {
    forall j, k :: j in s.grants && k in s.grants && SameToken(s.grants[j].data.plain, s.grants[k].data.plain) ==>
        j == k
  }

  /** Every superseded record is the retirement of its token, and names a stored grant. */
  ghost predicate SoundHistory(s: State) {
    && (forall h :: h in s.superseded ==> SoundRecord(s, h))
    && (forall token :: token in s.retired ==> token < s.nextToken && s.retired[token].record.grant < s.nextID)
  }

  ghost predicate SoundRecord(s: State, h: HashKey)
    requires h in s.superseded
  {
    && h.digest.of in s.retired
    && s.retired[h.digest.of] == Retirement(h.tenant, s.superseded[h])
    && GrantKey(h.tenant, s.superseded[h].grant) in s.grants
  }

  /** The grant a token was rotated away from is stored and unrevoked, and the token's
      own deadline has not passed. */
  ghost predicate MustBeDetected(s: State, token: Token) {
    && token in s.retired
    && var home := GrantKey(s.retired[token].tenant, s.retired[token].record.grant);
       && home in s.grants && s.grants[home].data.plain.Live()
       && s.now <= s.retired[token].record.expiresAt
  }

  ghost predicate Detects(s: State, token: Token)
    requires token in s.retired
  {
    HashKey(s.retired[token].tenant, Digest(token)) in s.superseded
  }

  ghost predicate CompleteHistory(s: State) {
    forall token :: MustBeDetected(s, token) ==> Detects(s, token)
  }

  ghost predicate Inv(s: State) {
    s.now >= 1000 && SoundRows(s) && OneGrantPerToken(s) && SoundHistory(s) && CompleteHistory(s)
  }

  /** History only grows, and neither ids nor tokens are used twice. */
  ghost predicate After(s: State, t: State) {
    && s.now <= t.now && s.nextToken <= t.nextToken && s.nextID <= t.nextID
    && (forall token :: token in s.retired ==> token in t.retired && t.retired[token] == s.retired[token])
    && (forall k :: k in t.grants && k !in s.grants ==> s.nextID <= k.id)
    && (forall k :: k in t.grants && k in s.grants && !s.grants[k].data.plain.Live() ==> !t.grants[k].data.plain.Live())
  }

  lemma AfterIsTransitive(s: State, t: State, u: State)
    requires Inv(s) && After(s, t) && After(t, u)
    ensures After(s, u)
  {
  }

  // ----- every call keeps both ---------------------------------------------

  lemma RetainedKeeps(s: State, tenant: TenantID, next: Grant)
    requires Inv(s) && Writable(s, tenant, next)
    ensures var r := BeforeSweep(s, tenant, next);
            SoundHistory(r) && CompleteHistory(r) && r == s.(superseded := r.superseded, retired := r.retired)
    ensures var r := BeforeSweep(s, tenant, next);
            match Rotation(s, tenant, next)
            case None => r == s
            case Some((token, record)) =>
              && token !in s.retired && HashKey(tenant, Digest(token)) !in s.superseded
              && r.retired == s.retired[token := Retirement(tenant, record)]
  {
    var r := BeforeSweep(s, tenant, next);
    if Rotation(s, tenant, next).Some? {
      assert SoundRow(s, GrantKey(tenant, next.id));
      var (token, record) := Rotation(s, tenant, next).value;
      forall h | h in r.superseded
        ensures SoundRecord(r, h)
      {
        if h != HashKey(tenant, Digest(token)) { assert SoundRecord(s, h); }
      }
      forall t | MustBeDetected(r, t)
        ensures Detects(r, t)
      {
        if t != token { assert MustBeDetected(s, t) && Detects(s, t); }
      }
    }
  }

  /** What one save leaves in the grant table, in terms of the row it writes alone. */
  lemma SavedRows(s: State, t: State, k: GrantKey, next: Grant)
    requires SoundRows(s) && OneGrantPerToken(s) && k.id == next.id
    requires t.grants == s.grants[k := SealGrant(next)] && s.nextID <= t.nextID && k.id < t.nextID
    requires s.nextToken <= t.nextToken
    requires next.refreshToken.Some? ==> next.refreshToken.value < t.nextToken && next.refreshToken.value !in t.retired
    requires forall j :: j in s.grants && j != k ==> !SameToken(s.grants[j].data.plain, next)
    requires forall j :: j in s.grants && j != k && s.grants[j].data.plain.refreshToken.Some? ==>
               s.grants[j].data.plain.refreshToken.value !in t.retired
    ensures SoundRows(t) && OneGrantPerToken(t)
  {
  }

  /** No other grant holds the token a save writes, or the token it takes away. */
  lemma Apart(s: State, tenant: TenantID, next: Grant, j: GrantKey)
    requires Inv(s) && Writable(s, tenant, next) && j in s.grants && j != GrantKey(tenant, next.id)
    ensures var r, held := BeforeSweep(s, tenant, next), s.grants[j].data.plain;
            !SameToken(held, next) && (held.refreshToken.Some? ==> held.refreshToken.value !in r.retired)
  {
  }

  /** A save never writes a token that was retired. */
  lemma WritesUnretired(s: State, tenant: TenantID, next: Grant)
    requires Inv(s) && Writable(s, tenant, next) && next.refreshToken.Some?
    ensures next.refreshToken.value !in BeforeSweep(s, tenant, next).retired
  {
  }

  lemma SaveKeepsRows(s: State, tenant: TenantID, next: Grant, swept: set<HashKey>)
    requires Inv(s) && Writable(s, tenant, next)
    ensures var t := SaveStep(s, tenant, next, swept); SoundRows(t) && OneGrantPerToken(t)
  {
    var k, t := GrantKey(tenant, next.id), SaveStep(s, tenant, next, swept);
    if next.refreshToken.Some? { WritesUnretired(s, tenant, next); }
    forall j | j in s.grants && j != k
      ensures !SameToken(s.grants[j].data.plain, next)
      ensures s.grants[j].data.plain.refreshToken.Some? ==> s.grants[j].data.plain.refreshToken.value !in t.retired
    {
      Apart(s, tenant, next, j);
    }
    KeptToken(s, tenant, next);
    hide SoundRows, OneGrantPerToken, SealGrant, SoundHistory, CompleteHistory, SameToken, Rotation, Writable;
    SavedRows(s, t, k, next);
  }

  lemma KeptToken(s: State, tenant: TenantID, next: Grant)
    requires SoundRows(s)
    ensures BeforeSweep(s, tenant, next).nextToken == s.nextToken
  {
  }

  lemma SaveIsAfter(s: State, tenant: TenantID, next: Grant, swept: set<HashKey>)
    requires Inv(s) && Writable(s, tenant, next)
    ensures After(s, SaveStep(s, tenant, next, swept))
  {
  }

  lemma SaveKeeps(s: State, tenant: TenantID, next: Grant, swept: set<HashKey>)
    requires Inv(s) && Writable(s, tenant, next) && Batch(BeforeSweep(s, tenant, next), tenant, swept)
    ensures var t := SaveStep(s, tenant, next, swept); Inv(t) && After(s, t)
  {
    hide SoundRows, OneGrantPerToken, After, SoundHistory, CompleteHistory, Writable;
    SaveKeepsRows(s, tenant, next, swept);
    SaveIsAfter(s, tenant, next, swept);
    RetainedKeeps(s, tenant, next);
    SweepKeeps(s, BeforeSweep(s, tenant, next), tenant, next, swept);
  }

  lemma SweepKeeps(s: State, r: State, tenant: TenantID, next: Grant, swept: set<HashKey>)
    requires SoundRows(s) && SoundHistory(r) && CompleteHistory(r)
    requires r == BeforeSweep(s, tenant, next) && r.grants == s.grants && swept <= Expired(r, tenant)
    requires Writable(s, tenant, next) && r.nextID == s.nextID && r.nextToken == s.nextToken && r.now == s.now
    ensures var t := SaveStep(s, tenant, next, swept); SoundHistory(t) && CompleteHistory(t)
  {
    var t := SaveStep(s, tenant, next, swept);
    forall h | h in t.superseded
      ensures SoundRecord(t, h)
    {
      assert SoundRecord(r, h);
    }
    forall token | MustBeDetected(t, token)
      ensures Detects(t, token)
    {
      assert MustBeDetected(r, token) && Detects(r, token);
      assert SoundRecord(r, HashKey(r.retired[token].tenant, Digest(token)));
    }
  }

  /** The row a revocation stamps is the one it read, unrevoked no more. */
  lemma RevokedRows(s: State, tenant: TenantID, id: GrantID)
    requires Inv(s)
    ensures var t := RevokedState(s, tenant, id); SoundRows(t) && OneGrantPerToken(t) && After(s, t)
  {
    hide SoundHistory, CompleteHistory, OfGrant;
    assert forall j :: j in s.grants ==> SoundRow(s, j);
  }

  lemma RevokedKeeps(s: State, tenant: TenantID, id: GrantID)
    requires Inv(s)
    ensures var t := RevokedState(s, tenant, id); Inv(t) && After(s, t)
  {
    RevokedRows(s, tenant, id);
    hide SoundRows, OneGrantPerToken, After, SealGrant;
    var t, k := RevokedState(s, tenant, id), GrantKey(tenant, id);
    if k in s.grants {
      forall h | h in t.superseded
        ensures SoundRecord(t, h)
      {
        assert SoundRecord(s, h);
      }
      forall token | MustBeDetected(t, token)
        ensures Detects(t, token)
      {
        RevokedDetects(s, tenant, id, token);
      }
    }
  }

  lemma RevokedDetects(s: State, tenant: TenantID, id: GrantID, token: Token)
    requires Inv(s) && MustBeDetected(RevokedState(s, tenant, id), token)
    ensures Detects(RevokedState(s, tenant, id), token)
  {
    hide SoundRows, OneGrantPerToken;
    assert MustBeDetected(s, token) && Detects(s, token);
    assert SoundRecord(s, HashKey(s.retired[token].tenant, Digest(token)));
  }

  /** Between the two deletes of a revoke, and after them, every record names a stored
      grant. */
  lemma DeleteKeeps(s: State, tenant: TenantID, narrow: Narrow)
    requires Inv(s)
    ensures SoundHistory(HistoryDropped(s, tenant, Selected(s, tenant, narrow)))
    ensures var t := DeleteState(s, tenant, narrow); Inv(t) && After(s, t)
  {
    var ids := Selected(s, tenant, narrow);
    var mid, t := HistoryDropped(s, tenant, ids), DeleteState(s, tenant, narrow);
    assert forall j :: j in t.grants ==> SoundRow(s, j) && SoundRow(t, j);
    forall h | h in mid.superseded
      ensures SoundRecord(mid, h) && SoundRecord(t, h)
    {
      assert SoundRecord(s, h);
    }
    forall token | MustBeDetected(t, token)
      ensures Detects(t, token)
    {
      assert MustBeDetected(s, token) && Detects(s, token);
      assert SoundRecord(s, HashKey(s.retired[token].tenant, Digest(token)));
    }
  }

  lemma TickKeeps(s: State, span: nat)
    requires Inv(s)
    ensures var t := s.(now := s.now + span); Inv(t) && After(s, t)
  {
    var t := s.(now := s.now + span);
    assert forall j :: j in s.grants ==> SoundRow(s, j) && SoundRow(t, j);
    assert forall h :: h in s.superseded ==> SoundRecord(s, h) && SoundRecord(t, h);
    assert forall token :: MustBeDetected(t, token) ==> MustBeDetected(s, token) && Detects(s, token);
  }

  /** A grant stamped whose history stays is still sound: nothing demands the history of a
      revoked grant, and nothing forbids it. */
  lemma StampedKeeps(s: State, tenant: TenantID, id: GrantID)
    requires Inv(s)
    ensures var t := RevokedState(s, tenant, id).(superseded := s.superseded); Inv(t) && After(s, t)
  {
    RevokedRows(s, tenant, id);
    hide SoundRows, OneGrantPerToken, SealGrant;
    var t := RevokedState(s, tenant, id).(superseded := s.superseded);
    assert t.grants == RevokedState(s, tenant, id).grants;
    StampedRows(RevokedState(s, tenant, id), t);
    assert forall h :: h in s.superseded ==> SoundRecord(s, h) && SoundRecord(t, h);
    assert forall token :: MustBeDetected(t, token) ==> MustBeDetected(s, token) && Detects(s, token);
  }

  lemma StampedRows(s: State, t: State)
    requires SoundRows(s) && OneGrantPerToken(s) && t == s.(superseded := t.superseded)
    ensures SoundRows(t) && OneGrantPerToken(t)
  {
    assert forall k :: k in s.grants ==> SoundRow(s, k) && SoundRow(t, k);
  }

  lemma PresentKeeps(s: State, tenant: TenantID, token: Token, route: Route, fault: Fault)
    requires Inv(s)
    ensures var t := PresentStep(s, tenant, token, route, fault).0; Inv(t) && After(s, t)
  {
    var h := HashKey(tenant, Digest(token));
    if h in s.superseded {
      RevokedKeeps(s, tenant, s.superseded[h].grant);
      StampedKeeps(s, tenant, s.superseded[h].grant);
    }
    AfterIsReflexive(s);
    hide Inv, After, RevokedState;
  }

  lemma AfterIsReflexive(s: State)
    ensures After(s, s)
  {
  }

  lemma StepKeeps(s: State, op: Op)
    requires Inv(s) && Enabled(s, op)
    ensures Inv(Step(s, op)) && After(s, Step(s, op))
  {
    match op
    case Tick(span) => TickKeeps(s, span);
    case Save(tenant, next, swept) => SaveKeeps(s, tenant, next, swept);
    case Present(tenant, token, route, fault) => PresentKeeps(s, tenant, token, route, fault);
    case Delete(tenant, narrow) => DeleteKeeps(s, tenant, narrow);
  }

  lemma {:induction false} RunKeeps(s: State, ops: seq<Op>)
    requires Inv(s) && Admissible(s, ops)
    ensures Inv(Run(s, ops)) && After(s, Run(s, ops))
  {
    if ops != [] {
      var init, last := ops[..|ops| - 1], ops[|ops| - 1];
      RunKeeps(s, init);
      StepKeeps(Run(s, init), last);
      AfterIsTransitive(s, Run(s, init), Run(s, ops));
    }
  }
}
