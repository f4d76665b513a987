/** What each call of the grant store must achieve: which reads are replays, how long a record is
    kept, what a save hands over, and which grants a delete takes. */
module GrantOutcomes {
  import opened Basics
  import opened GrantModel
  import opened GrantRuns
  import opened GrantTheorems

  // ----- what a read by refresh token answers ------------------------------

  /** A read is a replay if and only if a record of the token is stored, whatever its deadline.
      Otherwise it answers the grant that holds the token, or that none does. */
  lemma ReadIsExact(s: State, tenant: TenantID, token: Token, route: Route)
    requires Inv(s)
    ensures var (t, answer) := PresentStep(s, tenant, token, route, NoFault);
            && (answer.Reuse? <==> HashKey(tenant, Digest(token)) in s.superseded)
            && (answer.Found? <==> HashKey(tenant, Digest(token)) !in s.superseded
                                   && exists k :: HoldsToken(s, k, tenant, token))
            && (forall k :: answer.Found? && HoldsToken(s, k, tenant, token) ==> answer.grant == s.grants[k].data.plain)
            && (answer.Found? || answer == NotFound ==> t == s)
            && answer != Unavailable && !answer.Saved? && !answer.Deleted?
  {
    var h := HashKey(tenant, Digest(token));
    if h !in s.superseded {
      assert forall k :: k in s.grants ==> SoundRow(s, k);
      assert forall k :: AnswersTo(s, k, tenant, Digest(token)) <==> HoldsToken(s, k, tenant, token);
      forall k | HoldsToken(s, k, tenant, token)
        ensures FindByHash(s, tenant, Digest(token)) == Some(s.grants[k].data.plain)
      {
        UniqueAnswer(s, tenant, token, k);
      }
    }
    hide Inv, FindByHash, SealGrant;
  }

  /** A replay names the grant its record names. By a route without a request transaction the
      grant ends revoked at this second, if it was not before, and loses its whole history, and
      nothing else moves. At the token endpoint nothing moves at all. */
  lemma ReplayAchieves(s: State, tenant: TenantID, token: Token, route: Route)
    requires Inv(s) && HashKey(tenant, Digest(token)) in s.superseded
    ensures var id := s.superseded[HashKey(tenant, Digest(token))].grant;
            var k := GrantKey(tenant, id);
            var (t, answer) := PresentStep(s, tenant, token, route, NoFault);
            && k in s.grants && answer == Reuse(id, Some(s.grants[k].data.plain))
            && (route == TokenEndpoint ==> t == s)
            && (route == CatchAll ==>
                  && t.grants.Keys == s.grants.Keys
                  && t.grants[k].data.plain
                     == (if s.grants[k].data.plain.revokedAt == 0
                         then s.grants[k].data.plain.(revokedAt := s.now / 1000) else s.grants[k].data.plain)
                  && t.grants[k].data.plain.revokedAt != 0
                  && (forall j :: j in s.grants && j != k ==> t.grants[j] == s.grants[j])
                  && (forall h :: h in t.superseded <==>
                                    h in s.superseded && !(h.tenant == tenant && s.superseded[h].grant == id))
                  && (forall h :: h in t.superseded ==> t.superseded[h] == s.superseded[h]))
  {
    var h := HashKey(tenant, Digest(token));
    assert SoundRecord(s, h);
    hide Inv;
  }

  /** A replay one of whose statements fails answers that the store is unavailable, and keeps what
      the statements before it wrote where no request transaction takes it back: the failing stamp
      leaves all as it was, the failing delete leaves the stamp, and the failing audit row both. A
      grant that was revoked before needs no stamp, so a failing one is not met. */
  lemma FaultyReplay(s: State, tenant: TenantID, token: Token, route: Route, fault: Fault)
    requires Inv(s) && HashKey(tenant, Digest(token)) in s.superseded && fault != NoFault
    ensures var k := GrantKey(tenant, s.superseded[HashKey(tenant, Digest(token))].grant);
            var (t, answer) := PresentStep(s, tenant, token, route, fault);
            var whole := PresentStep(s, tenant, token, CatchAll, NoFault).0;
            && k in s.grants
            && (answer != Unavailable <==> fault == StampFails && IsRevoked(s, k))
            && (route == TokenEndpoint ==> t == s)
            && (route == CatchAll ==>
                  && t.grants == (if fault == StampFails && !IsRevoked(s, k) then s.grants else whole.grants)
                  && t.superseded
                     == (if fault == DropFails || (fault == StampFails && !IsRevoked(s, k)) then s.superseded
                         else whole.superseded))
  {
    assert SoundRecord(s, HashKey(tenant, Digest(token)));
    hide Inv, SealGrant, OfGrant;
  }

  // ----- how long a record is kept -----------------------------------------

  /** The calls that take a record away: the sweep of a rotation in its tenant, a replay of its
      grant whose statements got that far, and the delete of its grant. */
  ghost predicate Drops(s: State, op: Op, h: HashKey)
    requires h in s.superseded
  {
    match op
    case Tick(_) => false
    case Save(tenant, next, swept) => RotatesGrant(s, tenant, next) && h in swept
    case Present(tenant, token, route, fault) =>
      && route == CatchAll && tenant == h.tenant && HashKey(tenant, Digest(token)) in s.superseded
      && s.superseded[HashKey(tenant, Digest(token))].grant == s.superseded[h].grant
      && fault != DropFails && (fault == StampFails ==> IsRevoked(s, GrantKey(tenant, s.superseded[h].grant)))
    case Delete(tenant, narrow) =>
      && tenant == h.tenant && GrantKey(tenant, s.superseded[h].grant) in s.grants
      && Names(narrow, s.grants[GrantKey(tenant, s.superseded[h].grant)].data.plain)
  }

  predicate IsRevoked(s: State, k: GrantKey) {
    k in s.grants && s.grants[k].data.plain.revokedAt != 0
  }

  /** A save replaces the refresh token of a stored grant. */
  predicate RotatesGrant(s: State, tenant: TenantID, next: Grant) {
    var k := GrantKey(tenant, next.id);
    && k in s.grants && s.grants[k].data.plain.refreshToken.Some?
    && s.grants[k].data.plain.refreshToken != next.refreshToken
  }

  /** Whether a delete is narrowed to this grant, as the grant itself says. */
  predicate Names(narrow: Narrow, grant: Grant) {
    match narrow
    case BySession(session) => grant.session == Some(session)
    case BySubject(subject) => grant.subject == Some(subject)
    case BySubjectClient(subject, client) => grant.subject == Some(subject) && grant.client == client
  }

  lemma SaveDrops(s: State, op: Op, h: HashKey)
    requires Inv(s) && Enabled(s, op) && op.Save? && h in s.superseded
    ensures h in Step(s, op).superseded <==> !Drops(s, op, h)
    ensures h in Step(s, op).superseded ==> Step(s, op).superseded[h] == s.superseded[h]
  {
    RetainedKeeps(s, op.tenant, op.next);
    hide Inv, SealGrant;
  }

  lemma PresentDrops(s: State, op: Op, h: HashKey)
    requires Inv(s) && op.Present? && h in s.superseded
    ensures h in Step(s, op).superseded <==> !Drops(s, op, h)
    ensures h in Step(s, op).superseded ==> Step(s, op).superseded[h] == s.superseded[h]
  {
    var g := HashKey(op.tenant, Digest(op.token));
    if g in s.superseded { assert SoundRecord(s, g); }
    hide Inv, SealGrant, FindByHash;
  }

  lemma DeleteDrops(s: State, op: Op, h: HashKey)
    requires Inv(s) && op.Delete? && h in s.superseded
    ensures h in Step(s, op).superseded <==> !Drops(s, op, h)
    ensures h in Step(s, op).superseded ==> Step(s, op).superseded[h] == s.superseded[h]
  {
    assert SoundRecord(s, h);
    SelectedAre(s, op.tenant, op.narrow, s.superseded[h].grant);
    hide Inv, SealGrant, Selected;
  }

  lemma SelectedAre(s: State, tenant: TenantID, narrow: Narrow, id: GrantID)
    requires Inv(s)
    ensures var k := GrantKey(tenant, id);
            id in Selected(s, tenant, narrow) <==> k in s.grants && Names(narrow, s.grants[k].data.plain)
  {
    var k := GrantKey(tenant, id);
    assert forall j :: j in s.grants ==> SoundRow(s, j);
    if k in s.grants && Names(narrow, s.grants[k].data.plain) {
      assert k.tenant == tenant && Selects(narrow, s.grants[k]) && k.id == id;
    }
    if id in Selected(s, tenant, narrow) {
      var j :| j in s.grants && j.tenant == tenant && Selects(narrow, s.grants[j]) && j.id == id;
      assert j == k;
    }
  }

  /** A record stays as it is until one of those calls takes it away. */
  lemma RecordStays(s: State, op: Op, h: HashKey)
    requires Inv(s) && Enabled(s, op) && h in s.superseded
    ensures h in Step(s, op).superseded <==> !Drops(s, op, h)
    ensures h in Step(s, op).superseded ==> Step(s, op).superseded[h] == s.superseded[h]
  {
    match op
    case Tick(_) =>
    case Save(_, _, _) => SaveDrops(s, op, h);
    case Present(_, _, _, _) => PresentDrops(s, op, h);
    case Delete(_, _) => DeleteDrops(s, op, h);
  }

  ghost predicate NeverDropped(s: State, ops: seq<Op>, h: HashKey) {
    ops == [] ||
    (&& NeverDropped(s, ops[..|ops| - 1], h)
     && (h in Run(s, ops[..|ops| - 1]).superseded ==> !Drops(Run(s, ops[..|ops| - 1]), ops[|ops| - 1], h)))
  }

  /** No record comes back: a token is rotated away once. */
  lemma GoneForGood(s: State, op: Op, h: HashKey)
    requires Inv(s) && Enabled(s, op) && h !in s.superseded && h.digest.of in s.retired
    ensures h !in Step(s, op).superseded
  {
    if op.Save? { RetainedKeeps(s, op.tenant, op.next); }
    hide Inv, SealGrant, FindByHash;
  }

  /** Over any run, a record is still there, unchanged, if and only if no call dropped it. Time
      alone takes no record away. */
  lemma {:induction false} RecordIsKept(s: State, ops: seq<Op>, h: HashKey)
    requires Inv(s) && Admissible(s, ops) && h in s.superseded
    ensures h in Run(s, ops).superseded <==> NeverDropped(s, ops, h)
    ensures h in Run(s, ops).superseded ==> Run(s, ops).superseded[h] == s.superseded[h]
  {
    if ops != [] {
      var init, last := ops[..|ops| - 1], ops[|ops| - 1];
      RecordIsKept(s, init, h);
      RunKeeps(s, init);
      assert SoundRecord(s, h);
      RetiredStays(s, Run(s, init), h.digest.of);
      hide Inv, Step, Drops, After;
      if h in Run(s, init).superseded {
        RecordStays(Run(s, init), last, h);
      } else {
        GoneForGood(Run(s, init), last, h);
      }
    }
  }

  /** A rotation records the token it replaced under the grant it wrote, and the same call sweeps
      that record only if its deadline passed already. */
  lemma RotationRecords(s: State, op: Op)
    requires Inv(s) && Enabled(s, op) && op.Save? && RotatesGrant(s, op.tenant, op.next)
    ensures var prev := s.grants[GrantKey(op.tenant, op.next.id)].data.plain;
            var h := HashKey(op.tenant, Digest(prev.refreshToken.value));
            && RotatesAway(s, op, prev.refreshToken.value)
            && (h in Step(s, op).superseded <==> h !in op.swept)
            && (h in op.swept ==> Window(prev, s.now) < s.now)
            && (h in Step(s, op).superseded ==>
                  Step(s, op).superseded[h] == Superseded(op.next.id, Window(prev, s.now)))
  {
    NamesItsGrant(s, op);
    hide Inv, SealGrant;
  }

  /** While its record is stored, a token that was rotated away is a replay of the grant it was
      rotated away from, whatever its deadline, whatever ran since and whatever became of the
      grant but its delete. */
  lemma StoredRecordIsCaught(s: State, op: Op, token: Token, after: seq<Op>, route: Route)
    requires Inv(s) && Enabled(s, op) && RotatesAway(s, op, token) && Admissible(Step(s, op), after)
    requires HashKey(op.tenant, Digest(token)) in Run(Step(s, op), after).superseded
    ensures var t, k := Run(Step(s, op), after), GrantKey(op.tenant, op.next.id);
            var (u, answer) := PresentStep(t, op.tenant, token, route, NoFault);
            && k in t.grants && answer == Reuse(op.next.id, Some(t.grants[k].data.plain))
            && u.grants.Keys == t.grants.Keys
            && (!u.grants[k].data.plain.Live() <==> route == CatchAll || !t.grants[k].data.plain.Live())
            && (OfGrant(u, op.tenant, {op.next.id}) == {} <==> route == CatchAll)
            && (forall j :: j in t.grants && j != k ==> u.grants[j] == t.grants[j])
            && (route == TokenEndpoint ==> u == t)
  {
    RotationIsRemembered(s, op, token, after);
    NamesItsGrant(s, op);
    var t := Run(Step(s, op), after);
    hide Step, Run, SealGrant;
    assert SoundRecord(t, HashKey(op.tenant, Digest(token)));
    ReplayAchieves(t, op.tenant, token, route);
    hide Inv, PresentStep;
    assert HashKey(op.tenant, Digest(token)) in OfGrant(t, op.tenant, {op.next.id});
  }

  // ----- what a save achieves ----------------------------------------------

  /** A save stores the grant it is given and moves no other. It records and sweeps if and only
      if it rotates: at most two hundred records, all of them expired, as many as there are. */
  lemma SaveAchieves(s: State, op: Op)
    requires Inv(s) && Enabled(s, op) && op.Save?
    ensures var t, k := Step(s, op), GrantKey(op.tenant, op.next.id);
            && t.grants.Keys == s.grants.Keys + {k} && t.grants[k].data.plain == op.next
            && (forall j :: j in s.grants && j != k ==> t.grants[j] == s.grants[j])
            && (!RotatesGrant(s, op.tenant, op.next) ==> t.superseded == s.superseded)
            && (RotatesGrant(s, op.tenant, op.next) ==> forall h <- op.swept ::
                  && h.tenant == op.tenant && h !in t.superseded
                  && (h in s.superseded ==> s.superseded[h].expiresAt < s.now))
            && |op.swept| <= 200
            && (|op.swept| < 200 && RotatesGrant(s, op.tenant, op.next) ==>
                  forall h :: h in t.superseded && h.tenant == op.tenant ==> t.superseded[h].expiresAt >= t.now)
  {
    if |op.swept| < 200 && RotatesGrant(s, op.tenant, op.next) {
      var all := Expired(BeforeSweep(s, op.tenant, op.next), op.tenant);
      SubsetSize(op.swept, all);
      assert op.swept == all;
    }
    hide Inv;
  }

  /** In every reachable state the columns of a row are what its grant says. */
  lemma ColumnsCopyTheGrant(start: State, ops: seq<Op>, k: GrantKey)
    requires Fresh(start) && Admissible(start, ops) && k in Run(start, ops).grants
    ensures var row := Run(start, ops).grants[k];
            var grant := row.data.plain;
            && grant.id == k.id
            && row.client == grant.client && row.subject == grant.subject && row.session == grant.session
            && (row.authCodeHash.Some? <==> grant.authCode.Some?)
            && (row.authCodeHash.Some? ==> row.authCodeHash.value == Digest(grant.authCode.value))
            && (row.refreshTokenHash.Some? <==> grant.refreshToken.Some?)
            && (row.refreshTokenHash.Some? ==> row.refreshTokenHash.value == Digest(grant.refreshToken.value))
            && (row.expiresAt.None? <==> grant.refreshExpiresAt == 0 && grant.authCodeExpiresAt == 0)
            && (row.expiresAt.Some? ==>
                  && row.expiresAt.value >= grant.refreshExpiresAt * 1000
                  && row.expiresAt.value >= grant.authCodeExpiresAt * 1000
                  && row.expiresAt.value in {grant.refreshExpiresAt * 1000, grant.authCodeExpiresAt * 1000})
  {
    FreshIsSound(start);
    RunKeeps(start, ops);
    assert SoundRow(Run(start, ops), k);
    hide Inv;
  }

  // ----- what a delete takes -----------------------------------------------

  /** A delete takes the grants of its tenant that it is narrowed to, by what the grants say, and
      no other. A record leaves with its grant and in no other way. */
  lemma DeleteAchieves(s: State, tenant: TenantID, narrow: Narrow, k: GrantKey, h: HashKey)
    requires Inv(s)
    ensures var t := Step(s, Delete(tenant, narrow));
            && (k in t.grants <==>
                  k in s.grants && !(k.tenant == tenant && Names(narrow, s.grants[k].data.plain)))
            && (k in t.grants ==> t.grants[k] == s.grants[k])
            && (h in t.superseded <==>
                  h in s.superseded && GrantKey(h.tenant, s.superseded[h].grant) in t.grants)
            && (h in t.superseded ==> t.superseded[h] == s.superseded[h])
  {
    SelectedAre(s, tenant, narrow, k.id);
    TakesSelected(s, tenant, narrow, k);
    if h in s.superseded {
      assert SoundRecord(s, h);
      SelectedAre(s, tenant, narrow, s.superseded[h].grant);
      TakesSelected(s, tenant, narrow, GrantKey(h.tenant, s.superseded[h].grant));
    }
    hide Inv, Selected;
  }

  lemma TakesSelected(s: State, tenant: TenantID, narrow: Narrow, k: GrantKey)
    ensures k in DeleteState(s, tenant, narrow).grants <==>
              k in s.grants && !(k.tenant == tenant && k.id in Selected(s, tenant, narrow))
  {
    hide Selected;
  }
}
