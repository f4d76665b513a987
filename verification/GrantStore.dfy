/** The store the protocol engine saves its grants in. Each method is proved to take the
    step GrantModel specifies. */
module GrantStore {
  import opened Basics
  import opened GrantModel
  import opened GrantRuns

  class Grants {
    var now: Instant
    var grants: map<GrantKey, GrantRow>
    var superseded: map<HashKey, Superseded>
    ghost var retired: map<Token, Retirement>
    ghost var nextToken: Token
    ghost var nextID: GrantID

    ghost function View(): State
      reads this
    {
      State(now, grants, superseded, retired, nextToken, nextID)
    }

    ghost predicate Valid()
      reads this
    {
      Inv(View())
    }

    constructor (start: Instant)
      requires start >= 1000
      ensures Valid() && Fresh(View())
    {
      now, grants, superseded, retired, nextToken, nextID := start, map[], map[], map[], 0, 0;
    }

    // ----- reading ---------------------------------------------------------

    method FindGrant(tenant: TenantID, id: GrantID) returns (found: Option<Grant>)
      ensures found == Stored(View(), GrantKey(tenant, id))
    {
      var k := GrantKey(tenant, id);
      return if k in grants then Some(grants[k].data.plain) else None;
    }

    method FindGrantByAuthCode(tenant: TenantID, code: Token) returns (found: Option<Grant>)
      requires Valid()
      ensures found.Some? ==> GrantKey(tenant, found.value.id) in grants
                              && found == Stored(View(), GrantKey(tenant, found.value.id))
                              && found.value.authCode == Some(code)
      ensures found.None? ==> forall k :: k in grants && k.tenant == tenant ==>
                grants[k].data.plain.authCode != Some(code)
    {
      assert forall k :: k in grants ==> SoundRow(View(), k);
      if k :| k in grants && k.tenant == tenant && grants[k].authCodeHash == Some(Digest(code)) {
        assert k == GrantKey(tenant, k.id);
        return Some(grants[k].data.plain);
      }
      assert forall k :: AnswersToCode(View(), k, tenant, Digest(code)) ==> false;
      return None;
    }

    /** The indexed read, which the history is consulted before. */
    method FindByDigest(tenant: TenantID, hash: Digest) returns (found: Option<Grant>)
      requires Valid()
      ensures found == FindByHash(View(), tenant, hash)
    {
      if k :| k in grants && k.tenant == tenant && grants[k].refreshTokenHash == Some(hash) {
        assert AnswersTo(View(), k, tenant, hash);
        OneAnswer(View(), tenant, hash);
        return Some(grants[k].data.plain);
      }
      return None;
    }

    method FindGrantsByLoginSession(tenant: TenantID, session: Option<SessionID>) returns (found: seq<Grant>)
      requires Valid()
      ensures session.None? ==> found == []
      ensures forall i :: 0 <= i < |found| ==>
                Stored(View(), GrantKey(tenant, found[i].id)) == Some(found[i]) && found[i].session == session
      ensures forall i, j :: 0 <= i < j < |found| ==> found[i].id != found[j].id
      ensures session.Some? ==>
                forall k :: k in grants && k.tenant == tenant && grants[k].data.plain.session == session ==>
                    grants[k].data.plain in found
    {
      found := [];
      if session.None? { return; }
      var keys := set k | k in grants && k.tenant == tenant && grants[k].session == session;
      assert forall k :: k in grants ==> SoundRow(View(), k);
      found := OpenEach(tenant, grants, keys);
    }

    // ----- saving ----------------------------------------------------------

    /** Sweeps expired records of one tenant, a batch at most, in whatever order. */
    method Prune(tenant: TenantID) returns (ghost swept: set<HashKey>)
      modifies this`superseded
      ensures Batch(old(View()), tenant, swept)
      ensures superseded == old(superseded) - swept
    {
      swept := {};
      var expired := set h | h in superseded && h.tenant == tenant && superseded[h].expiresAt < now;
      var left := expired;
      var taken := 0;
      while left != {} && taken < PRUNE_BATCH
        invariant left <= expired && swept == expired - left && taken == |swept| <= PRUNE_BATCH
        invariant |expired| == |left| + taken
        invariant superseded == old(superseded) - swept
        decreases left
      {
        var h :| h in left;
        superseded := superseded - {h};
        left := left - {h};
        swept := swept + {h};
        taken := taken + 1;
      }
      assert expired == Expired(old(View()), tenant);
    }

    method RetainSuperseded(tenant: TenantID, next: Grant) returns (ghost swept: set<HashKey>)
      modifies this`superseded, this`retired
      ensures Batch(BeforeSweep(old(View()), tenant, next), tenant, swept)
      ensures var r := BeforeSweep(old(View()), tenant, next);
              View() == r.(superseded := if Rotation(old(View()), tenant, next).Some? then r.superseded - swept
                else r.superseded)
    {
      swept := {};
      ghost var idle :| Batch(old(View()), tenant, idle) by { SomeBatch(old(View()), tenant); }
      var prev := FindGrant(tenant, next.id);
      if prev.None? { swept := idle; return; }
      var row := Supersede(prev.value, next, now);
      if row.None? { swept := idle; return; }
      var (token, record) := row.value;
      superseded := superseded[HashKey(tenant, Digest(token)) := record];
      retired := retired[token := Retirement(tenant, record)];
      swept := Prune(tenant);
    }

    method SaveGrant(tenant: TenantID, grant: Grant) returns (ghost swept: set<HashKey>)
      requires Valid() && Writable(View(), tenant, grant)
      modifies this
      ensures Valid()
      ensures Enabled(old(View()), Op.Save(tenant, grant, swept))
      ensures View() == SaveStep(old(View()), tenant, grant, swept)
    {
      hide Inv, After, Writable, BeforeSweep, Rotation, Batch, SealGrant;
      var row := SealGrant(grant);
      swept := RetainSuperseded(tenant, grant);
      grants := grants[GrantKey(tenant, grant.id) := row];
      if grant.refreshToken.Some? { nextToken := Later(nextToken, grant.refreshToken.value + 1); }
      nextID := Later(nextID, grant.id + 1);
      SaveKeeps(old(View()), tenant, grant, swept);
    }

    // ----- presenting ------------------------------------------------------

    /** The read by refresh token as one request makes it. The token endpoint runs it on the
        transaction of the request, which an answer of 400 or worse takes back. */
    method Serve(tenant: TenantID, token: Token, route: Route, fault: Fault) returns (answer: Answer)
      requires Valid()
      modifies this`grants, this`superseded
      ensures Valid()
      ensures (View(), answer) == PresentStep(old(View()), tenant, token, route, fault)
    {
      PresentKeeps(View(), tenant, token, route, fault);
      var rows, history := grants, superseded;
      answer := FindGrantByRefreshToken(tenant, token, fault);
      if route == TokenEndpoint && Status(answer) >= BAD_REQUEST {
        grants, superseded := rows, history;
      }
    }

    /** Reads the history first. A replay revokes the grant, and always answers as one. */
    method FindGrantByRefreshToken(tenant: TenantID, token: Token, fault: Fault) returns (answer: Answer)
      requires Valid()
      modifies this`grants, this`superseded
      ensures (View(), answer) == Presented(old(View()), tenant, token, fault)
    {
      var h := HashKey(tenant, Digest(token));
      if h in superseded {
        answer := RevokeGrant(tenant, superseded[h].grant, fault);
        return;
      }
      var found := FindByDigest(tenant, Digest(token));
      return if found.Some? then Found(found.value) else NotFound;
    }

    method RevokeGrant(tenant: TenantID, id: GrantID, fault: Fault) returns (answer: Answer)
      requires Valid()
      modifies this`grants, this`superseded
      ensures (View(), answer) == Replayed(old(View()), tenant, id, fault)
    {
      assert forall k :: k in grants ==> SoundRow(View(), k);
      hide Inv, SealGrant;
      answer := if fault == RecordFails then Unavailable else Reuse(id, None);
      var found := FindGrant(tenant, id);
      if found.None? { return; }
      var grant := found.value;
      if fault != RecordFails { answer := Reuse(id, Some(grant)); }
      if grant.revokedAt == 0 {
        if fault == StampFails { return Unavailable; }
        grant := grant.(revokedAt := now / 1000);
        grants := grants[GrantKey(tenant, id) := SealGrant(grant)];
      }
      if fault == DropFails { return Unavailable; }
      DropHistory(tenant, {id});
    }

    // ----- deleting --------------------------------------------------------

    method DeleteGrantsByLoginSession(tenant: TenantID, session: Option<SessionID>) returns (count: nat)
      requires Valid()
      modifies this`grants, this`superseded
      ensures Valid()
      ensures View() == if session.None? then old(View())
              else DeleteState(old(View()), tenant, BySession(session.value))
      ensures count == |old(grants)| - |grants|
    {
      if session.None? { return 0; }
      count := DeleteGrants(tenant, BySession(session.value));
    }

    method DeleteGrantsBySubject(tenant: TenantID, subject: Option<UserID>) returns (count: nat)
      requires Valid()
      modifies this`grants, this`superseded
      ensures Valid()
      ensures View() == if subject.None? then old(View())
              else DeleteState(old(View()), tenant, BySubject(subject.value))
      ensures count == |old(grants)| - |grants|
    {
      if subject.None? { return 0; }
      count := DeleteGrants(tenant, BySubject(subject.value));
    }

    method DeleteGrantsBySubjectClient(tenant: TenantID, subject: Option<UserID>, client: Option<ClientID>)
      returns (count: nat)
      requires Valid()
      modifies this`grants, this`superseded
      ensures Valid()
      ensures View() == if subject.None? || client.None? then old(View())
                        else DeleteState(old(View()), tenant, BySubjectClient(subject.value, client.value))
      ensures count == |old(grants)| - |grants|
    {
      if subject.None? || client.None? { return 0; }
      count := DeleteGrants(tenant, BySubjectClient(subject.value, client.value));
    }

    /** The history of the selected grants goes first, then the grants. */
    method DeleteGrants(tenant: TenantID, narrow: Narrow) returns (count: nat)
      requires Valid()
      modifies this`grants, this`superseded
      ensures Valid()
      ensures View() == DeleteState(old(View()), tenant, narrow)
      ensures count == |Selected(old(View()), tenant, narrow)| == |old(grants)| - |grants|
    {
      hide Inv, After, SoundHistory, Selected, OfGrant, KeysOf;
      DeleteKeeps(View(), tenant, narrow);
      DeleteCounts(View(), tenant, narrow);
      var ids := SelectIDs(tenant, narrow);
      if ids == {} {
        NothingSelected(View(), tenant, narrow);
        return 0;
      }
      DropHistory(tenant, ids);
      assert View() == HistoryDropped(old(View()), tenant, ids);
      DropGrants(tenant, ids);
      return |ids|;
    }

    method SelectIDs(tenant: TenantID, narrow: Narrow) returns (ids: set<GrantID>)
      ensures ids == Selected(View(), tenant, narrow)
    {
      ids := set k | k in grants && k.tenant == tenant && Selects(narrow, grants[k]) :: k.id;
    }

    method DropHistory(tenant: TenantID, ids: set<GrantID>)
      modifies this`superseded
      ensures superseded == old(superseded) - OfGrant(old(View()), tenant, ids)
    {
      superseded := superseded - set h | h in superseded && h.tenant == tenant && superseded[h].grant in ids;
    }

    method DropGrants(tenant: TenantID, ids: set<GrantID>)
      modifies this`grants
      ensures grants == old(grants) - KeysOf(tenant, ids)
    {
      grants := grants - set id <- ids :: GrantKey(tenant, id);
    }
  }

  /** Opens the rows of one tenant, one grant for each of them. */
  method OpenEach(tenant: TenantID, rows: map<GrantKey, GrantRow>, keys: set<GrantKey>) returns (found: seq<Grant>)
    requires forall k <- keys :: k in rows && k == GrantKey(tenant, rows[k].data.plain.id)
    ensures forall i :: 0 <= i < |found| ==>
              GrantKey(tenant, found[i].id) in keys && rows[GrantKey(tenant, found[i].id)].data.plain == found[i]
    ensures forall i, j :: 0 <= i < j < |found| ==> found[i].id != found[j].id
    ensures forall k <- keys :: rows[k].data.plain in found
  {
    found := [];
    var todo := keys;
    while todo != {}
      invariant todo <= keys
      invariant forall i :: 0 <= i < |found| ==>
                  GrantKey(tenant, found[i].id) in keys - todo
                    && rows[GrantKey(tenant, found[i].id)].data.plain == found[i]
      invariant forall i, j :: 0 <= i < j < |found| ==> found[i].id != found[j].id
      invariant forall k :: k in keys - todo ==> rows[k].data.plain in found
      decreases todo
    {
      var k :| k in todo;
      found := found + [rows[k].data.plain];
      todo := todo - {k};
    }
  }

  // ----- counting ----------------------------------------------------------

  lemma OneAnswer(s: State, tenant: TenantID, hash: Digest)
    requires Inv(s)
    ensures forall j, k :: AnswersTo(s, j, tenant, hash) && AnswersTo(s, k, tenant, hash) ==> j == k
  {
  }

  lemma SomeBatch(s: State, tenant: TenantID)
    ensures exists swept :: Batch(s, tenant, swept)
  {
    var swept := TakeSome(Expired(s, tenant), PRUNE_BATCH);
    assert Batch(s, tenant, swept);
  }

  ghost function TakeSome<T(!new)>(from: set<T>, limit: nat): (some: set<T>)
    ensures some <= from
    ensures |some| == if |from| < limit then |from| else limit
    decreases limit
  {
    if from == {} || limit == 0 then {}
    else
      var x :| x in from;
      {x} + TakeSome(from - {x}, limit - 1)
  }

  lemma NothingSelected(s: State, tenant: TenantID, narrow: Narrow)
    requires Selected(s, tenant, narrow) == {}
    ensures DeleteState(s, tenant, narrow) == s
  {
  }

  /** A delete answers exactly how many grants left the table. */
  lemma DeleteCounts(s: State, tenant: TenantID, narrow: Narrow)
    ensures |DeleteState(s, tenant, narrow).grants| == |s.grants| - |Selected(s, tenant, narrow)|
  {
    var ids, t := Selected(s, tenant, narrow), DeleteState(s, tenant, narrow);
    KeysMatch(tenant, ids);
    assert KeysOf(tenant, ids) <= s.grants.Keys;
    assert t.grants.Keys == s.grants.Keys - KeysOf(tenant, ids);
    assert |t.grants.Keys| == |t.grants| && |s.grants.Keys| == |s.grants|;
  }

  lemma {:induction false} KeysMatch(tenant: TenantID, ids: set<GrantID>)
    ensures |KeysOf(tenant, ids)| == |ids|
  {
    if ids == {} {
      assert KeysOf(tenant, ids) == {};
    } else {
      var id :| id in ids;
      KeysMatch(tenant, ids - {id});
      assert KeysOf(tenant, ids) == KeysOf(tenant, ids - {id}) + {GrantKey(tenant, id)};
    }
  }
}
