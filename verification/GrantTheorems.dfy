/** The main results about refresh tokens: a token that was rotated away never resolves
    again, presenting it inside its window is always caught, the digest columns answer what
    a scan of the opened grants would, and the history drains. */
module GrantTheorems {
  import opened Basics
  import opened GrantModel
  import opened GrantRuns

  lemma FreshIsSound(s: State)
    requires Fresh(s)
    ensures Inv(s)
  {
  }

  // ----- tokens that were rotated away -------------------------------------

  /** One save in a run that takes a token away from the grant it writes. */
  ghost predicate RotatesAway(s: State, op: Op, token: Token) {
    op.Save? && Rotation(s, op.tenant, op.next).Some? && Rotation(s, op.tenant, op.next).value.0 == token
  }

  lemma RotationIsRemembered(s: State, op: Op, token: Token, after: seq<Op>)
    requires Inv(s) && Enabled(s, op) && RotatesAway(s, op, token) && Admissible(Step(s, op), after)
    ensures var t := Run(Step(s, op), after);
            Inv(t) && token in t.retired
            && t.retired[token] == Retirement(op.tenant, Rotation(s, op.tenant, op.next).value.1)
  {
    hide Inv, After;
    RetainedHere(s, op, token);
    StepKeeps(s, op);
    RunKeeps(Step(s, op), after);
    RetiredStays(Step(s, op), Run(Step(s, op), after), token);
  }

  lemma RetainedHere(s: State, op: Op, token: Token)
    requires RotatesAway(s, op, token)
    ensures var t := Step(s, op);
            token in t.retired && t.retired[token] == Retirement(op.tenant, Rotation(s, op.tenant, op.next).value.1)
  {
  }

  lemma RetiredStays(s: State, t: State, token: Token)
    requires After(s, t) && token in s.retired
    ensures token in t.retired && t.retired[token] == s.retired[token]
  {
  }

  lemma RetiredTokenIsUnheld(s: State, tenant: TenantID, token: Token)
    requires Inv(s) && token in s.retired
    ensures FindByHash(s, tenant, Digest(token)) == None
  {
  }

  /** From the moment a rotation replaced it, a refresh token never names a grant to use:
      in every later state, in every tenant, it is a replay or it is nothing. Sweeping the
      history, dropping it with a revocation, and deleting the grant change nothing here. */
  lemma RotatedAwayForGood(s: State, op: Op, token: Token, after: seq<Op>, tenant: TenantID, route: Route, fault: Fault)
    requires Inv(s) && Enabled(s, op) && RotatesAway(s, op, token) && Admissible(Step(s, op), after)
    ensures var answer := PresentStep(Run(Step(s, op), after), tenant, token, route, fault).1;
            answer.Reuse? || answer == NotFound || (answer == Unavailable && fault != NoFault)
  {
    RotationIsRemembered(s, op, token, after);
    RetiredTokenIsUnheld(Run(Step(s, op), after), tenant, token);
  }

  /** How long a token is watched after a rotation at `now`: to its own deadline, or for
      thirty days when its grant carried none. */
  function Window(prev: Grant, now: Instant): Instant {
    if prev.refreshExpiresAt > 0 then prev.refreshExpiresAt * 1000 else now + 30 * 86_400_000
  }

  /** The replay of a token inside its window, while the grant it was rotated away from is
      stored and unrevoked, is answered as a reuse that names that grant. The grant ends
      revoked, and its history with it, if and only if the request came in by a route without a
      request transaction: at the token endpoint the answer itself takes the revocation back.
      No other grant is touched either way. */
  lemma ReplayIsCaught(s: State, op: Op, token: Token, after: seq<Op>, route: Route)
    requires Inv(s) && Enabled(s, op) && RotatesAway(s, op, token) && Admissible(Step(s, op), after)
    requires InWindow(s, op, Run(Step(s, op), after))
    ensures var t, k := Run(Step(s, op), after), GrantKey(op.tenant, op.next.id);
            var (u, answer) := PresentStep(t, op.tenant, token, route, NoFault);
            && answer == Reuse(op.next.id, Some(t.grants[k].data.plain))
            && u.grants.Keys == t.grants.Keys
            && (!u.grants[k].data.plain.Live() <==> route == CatchAll)
            && (OfGrant(u, op.tenant, {op.next.id}) == {} <==> route == CatchAll)
            && (forall j :: j in t.grants && j != k ==> u.grants[j] == t.grants[j])
            && (route == TokenEndpoint ==> u == t)
  {
    RotationIsRemembered(s, op, token, after);
    NamesItsGrant(s, op);
    CaughtIn(Run(Step(s, op), after), op.tenant, op.next.id, token, route, NoFault);
  }

  /** Whichever statement fails: the grant ends revoked if and only if the route carries no
      request transaction and the stamp itself was written. */
  lemma RevocationStaysIff(s: State, op: Op, token: Token, after: seq<Op>, route: Route, fault: Fault)
    requires Inv(s) && Enabled(s, op) && RotatesAway(s, op, token) && Admissible(Step(s, op), after)
    requires InWindow(s, op, Run(Step(s, op), after))
    ensures var t, k := Run(Step(s, op), after), GrantKey(op.tenant, op.next.id);
            var u := PresentStep(t, op.tenant, token, route, fault).0;
            && k in u.grants
            && (!u.grants[k].data.plain.Live() <==> route == CatchAll && fault != StampFails)
  {
    RotationIsRemembered(s, op, token, after);
    NamesItsGrant(s, op);
    CaughtIn(Run(Step(s, op), after), op.tenant, op.next.id, token, route, fault);
  }

  /** The grant a rotation wrote to is stored and unrevoked, and the replaced token's window
      is open. */
  ghost predicate InWindow(s: State, op: Op, t: State)
    requires op.Save? && GrantKey(op.tenant, op.next.id) in s.grants
  {
    var k := GrantKey(op.tenant, op.next.id);
    k in t.grants && t.grants[k].data.plain.Live() && t.now <= Window(s.grants[k].data.plain, s.now)
  }

  // ----- the token endpoint ------------------------------------------------

  /** No read by refresh token at the token endpoint leaves anything behind. */
  lemma TokenEndpointOnlyReads(s: State, tenant: TenantID, token: Token, fault: Fault)
    ensures PresentStep(s, tenant, token, TokenEndpoint, fault).0 == s
  {
  }

  /** So a replay at the token endpoint leaves the grant live, and the successor of the
      replayed token is still answered with it. By another route the grant the successor is
      answered with is revoked. */
  lemma SuccessorAfterReplay(
    s: State, op: Op, token: Token, after: seq<Op>, successor: Token, route: Route, later: Route)
    requires Inv(s) && Enabled(s, op) && RotatesAway(s, op, token) && Admissible(Step(s, op), after)
    requires InWindow(s, op, Run(Step(s, op), after))
    requires Run(Step(s, op), after).grants[GrantKey(op.tenant, op.next.id)].data.plain.refreshToken == Some(successor)
    ensures var t, k := Run(Step(s, op), after), GrantKey(op.tenant, op.next.id);
            var u := PresentStep(t, op.tenant, token, route, NoFault).0;
            && k in u.grants
            && PresentStep(u, op.tenant, successor, later, NoFault) == (u, Found(u.grants[k].data.plain))
            && (u.grants[k].data.plain.Live() <==> route == TokenEndpoint)
            && (route == TokenEndpoint ==> u.grants[k] == t.grants[k])
  {
    ReplayIsCaught(s, op, token, after, route);
    RotationIsRemembered(s, op, token, after);
    var t, k := Run(Step(s, op), after), GrantKey(op.tenant, op.next.id);
    PresentKeeps(t, op.tenant, token, route, NoFault);
    var u := PresentStep(t, op.tenant, token, route, NoFault).0;
    KeepsItsToken(t, u, op.tenant, op.next.id, token, route);
    hide PresentStep;
    HolderAnswers(u, op.tenant, successor, k, later);
  }

  lemma KeepsItsToken(t: State, u: State, tenant: TenantID, id: GrantID, token: Token, route: Route)
    requires GrantKey(tenant, id) in t.grants && u == PresentStep(t, tenant, token, route, NoFault).0
    ensures GrantKey(tenant, id) in u.grants
    ensures u.grants[GrantKey(tenant, id)].data.plain.refreshToken
            == t.grants[GrantKey(tenant, id)].data.plain.refreshToken
  {
  }

  /** A token its grant holds is answered with that grant, whatever its state. */
  lemma HolderAnswers(s: State, tenant: TenantID, token: Token, k: GrantKey, route: Route)
    requires Inv(s) && k in s.grants && k.tenant == tenant && s.grants[k].data.plain.refreshToken == Some(token)
    ensures PresentStep(s, tenant, token, route, NoFault) == (s, Found(s.grants[k].data.plain))
  {
    assert SoundRow(s, k);
    UniqueAnswer(s, tenant, token, k);
  }

  const START := State(1000, map[], map[], map[], 0, 0)
  const ISSUED := Grant(0, 5, Some(7), None, None, 0, Some(0), 0, 0)
  const ROTATED := ISSUED.(refreshToken := Some(1))

  /** The shortest such run: a grant is issued under one token, rotated to the next, and the
      first token is presented again. At the token endpoint the next one still refreshes a
      live grant. By another route the grant is revoked. */
  lemma ReplayRun()
    ensures Fresh(START) && Enabled(START, Save(0, ISSUED, {}))
    ensures var s := Step(START, Save(0, ISSUED, {}));
            && Enabled(s, Save(0, ROTATED, {}))
            && var t := Step(s, Save(0, ROTATED, {}));
               var (u, one) := PresentStep(t, 0, 0, TokenEndpoint, NoFault);
               var (v, two) := PresentStep(t, 0, 0, CatchAll, NoFault);
               && one == two == Reuse(0, Some(ROTATED))
               && PresentStep(u, 0, 1, TokenEndpoint, NoFault).1 == Found(ROTATED)
               && PresentStep(v, 0, 1, TokenEndpoint, NoFault).1 == Found(ROTATED.(revokedAt := 1))
  {
    FreshIsSound(START);
    var s, op := Step(START, Save(0, ISSUED, {})), Save(0, ROTATED, {});
    FirstSave();
    SecondSave();
    assert s.grants[GrantKey(0, 0)].data.plain == ISSUED;
    StepKeeps(START, Save(0, ISSUED, {}));
    assert Run(Step(s, op), []) == Step(s, op);
    hide Inv;
    ReplayIsCaught(s, op, 0, [], TokenEndpoint);
    ReplayIsCaught(s, op, 0, [], CatchAll);
    SuccessorAfterReplay(s, op, 0, [], 1, TokenEndpoint, TokenEndpoint);
    SuccessorAfterReplay(s, op, 0, [], 1, CatchAll, TokenEndpoint);
    StampedOnce(Step(s, op));
  }

  lemma FirstSave()
    ensures Enabled(START, Save(0, ISSUED, {}))
    ensures Step(START, Save(0, ISSUED, {}))
            == State(1000, map[GrantKey(0, 0) := SealGrant(ISSUED)], map[], map[], 1, 1)
  {
    assert Expired(START, 0) == {};
  }

  lemma SecondSave()
    ensures var s, op := Step(START, Save(0, ISSUED, {})), Save(0, ROTATED, {});
            && Enabled(s, op) && RotatesAway(s, op, 0) && Admissible(Step(s, op), [])
            && Step(s, op).now == 1000 && Stored(Step(s, op), GrantKey(0, 0)) == Some(ROTATED)
            && HashKey(0, Digest(0)) in Step(s, op).superseded
               && Step(s, op).superseded[HashKey(0, Digest(0))].grant == 0
  {
    FirstSave();
    var s := Step(START, Save(0, ISSUED, {}));
    assert Expired(BeforeSweep(s, 0, ROTATED), 0) == {};
  }

  lemma StampedOnce(t: State)
    requires t.now == 1000 && Stored(t, GrantKey(0, 0)) == Some(ROTATED)
    requires HashKey(0, Digest(0)) in t.superseded && t.superseded[HashKey(0, Digest(0))].grant == 0
    ensures Stored(PresentStep(t, 0, 0, CatchAll, NoFault).0, GrantKey(0, 0)) == Some(ROTATED.(revokedAt := 1))
  {
  }

  predicate AtTokenEndpoint(op: Op) {
    op.Present? && op.route == TokenEndpoint
  }

  function Without(ops: seq<Op>): seq<Op> {
    if ops == [] then []
    else
      var init, last := ops[..|ops| - 1], ops[|ops| - 1];
      Without(init) + if AtTokenEndpoint(last) then [] else [last]
  }

  /** Over any run, the reads at the token endpoint, replays and all, might as well not have
      happened: every state is the one the other calls reach alone. */
  lemma {:induction false} TokenEndpointIsInert(s: State, ops: seq<Op>)
    ensures Run(s, ops) == Run(s, Without(ops))
  {
    if ops != [] {
      var init, last := ops[..|ops| - 1], ops[|ops| - 1];
      TokenEndpointIsInert(s, init);
      if AtTokenEndpoint(last) {
        TokenEndpointOnlyReads(Run(s, init), last.tenant, last.token, last.fault);
        assert Without(init) + [] == Without(init);
      } else {
        assert Without(ops)[..|Without(ops)| - 1] == Without(init);
      }
    }
  }

  lemma NamesItsGrant(s: State, op: Op)
    requires Inv(s) && op.Save? && Rotation(s, op.tenant, op.next).Some?
    ensures Rotation(s, op.tenant, op.next).value.1
            == Superseded(op.next.id, Window(s.grants[GrantKey(op.tenant, op.next.id)].data.plain, s.now))
  {
  }

  lemma CaughtIn(t: State, tenant: TenantID, id: GrantID, token: Token, route: Route, fault: Fault)
    requires Inv(t) && token in t.retired
    requires t.retired[token].tenant == tenant && t.retired[token].record.grant == id
    requires MustBeDetected(t, token)
    ensures var k := GrantKey(tenant, id);
            var (u, answer) := PresentStep(t, tenant, token, route, fault);
            && (fault == NoFault ==> answer == Reuse(id, Some(t.grants[k].data.plain)))
            && u.grants.Keys == t.grants.Keys
            && (!u.grants[k].data.plain.Live() <==> route == CatchAll && fault != StampFails)
            && (fault == NoFault ==> (OfGrant(u, tenant, {id}) == {} <==> route == CatchAll))
            && (forall j :: j in t.grants && j != k ==> u.grants[j] == t.grants[j])
            && (route == TokenEndpoint ==> u == t)
  {
    assert Detects(t, token);
    assert SoundRecord(t, HashKey(tenant, Digest(token)));
    assert HashKey(tenant, Digest(token)) in OfGrant(t, tenant, {id});
  }

  /** A save hands the grant over: from then on the token it carries names the grant just
      saved, and the token it replaced is caught. */
  lemma SaveHandsOver(s: State, op: Op, route: Route, fault: Fault)
    requires Inv(s) && Enabled(s, op) && op.Save? && op.next.refreshToken.Some?
    ensures PresentStep(Step(s, op), op.tenant, op.next.refreshToken.value, route, fault)
            == (Step(s, op), Found(op.next))
    ensures var k := GrantKey(op.tenant, op.next.id);
            k in s.grants && s.grants[k].data.plain.refreshToken.Some?
              && s.grants[k].data.plain.refreshToken != op.next.refreshToken ==>
              RotatesAway(s, op, s.grants[k].data.plain.refreshToken.value)
  {
    StepKeeps(s, op);
    hide After, SealGrant;
    HandsOverIn(s, op);
    var t, k := Step(s, op), GrantKey(op.tenant, op.next.id);
    assert AnswersTo(t, k, op.tenant, Digest(op.next.refreshToken.value));
    UniqueAnswer(t, op.tenant, op.next.refreshToken.value, k);
  }

  lemma HandsOverIn(s: State, op: Op)
    requires op.Save? && op.next.refreshToken.Some?
    ensures var t, k := Step(s, op), GrantKey(op.tenant, op.next.id);
            && k in t.grants && t.grants[k].data.plain == op.next
            && t.grants[k].refreshTokenHash == Some(Digest(op.next.refreshToken.value))
  {
  }

  lemma UniqueAnswer(s: State, tenant: TenantID, token: Token, k: GrantKey)
    requires Inv(s) && AnswersTo(s, k, tenant, Digest(token))
    ensures FindByHash(s, tenant, Digest(token)) == Some(s.grants[k].data.plain)
    ensures HashKey(tenant, Digest(token)) !in s.superseded
  {
    assert forall j :: j in s.grants ==> SoundRow(s, j);
    assert forall j :: AnswersTo(s, j, tenant, Digest(token)) ==>
        SameToken(s.grants[j].data.plain, s.grants[k].data.plain);
    assert forall h :: h in s.superseded ==> SoundRecord(s, h);
  }

  /** A record never outlives what it is about, and never accuses the wrong grant: in every
      reachable state each record is the retirement of one token, in one tenant, and its
      grant is stored, also between the two deletes of a revoke. */
  lemma RecordsAreTrue(start: State, ops: seq<Op>, h: HashKey, tenant: TenantID, narrow: Narrow)
    requires Fresh(start) && Admissible(start, ops)
    ensures var s := Run(start, ops);
            && (h in s.superseded ==>
                  && GrantKey(h.tenant, s.superseded[h].grant) in s.grants
                  && (forall other :: other in s.superseded && other.digest == h.digest ==> other == h))
            && var between := HistoryDropped(s, tenant, Selected(s, tenant, narrow));
               (h in between.superseded ==>
                  && GrantKey(h.tenant, between.superseded[h].grant) in DeleteState(s, tenant, narrow).grants)
  {
    FreshIsSound(start);
    RunKeeps(start, ops);
    var s := Run(start, ops);
    DeleteKeeps(s, tenant, narrow);
    assert h in s.superseded ==> SoundRecord(s, h);
    assert forall other :: other in s.superseded ==> SoundRecord(s, other);
    var t := DeleteState(s, tenant, narrow);
    assert h in t.superseded ==> SoundRecord(t, h);
  }

  // ----- the columns and the sealed grants ---------------------------------

  /** What opening every grant of one tenant and comparing the plain token would find. */
  predicate HoldsToken(s: State, k: GrantKey, tenant: TenantID, token: Token) {
    k in s.grants && k.tenant == tenant && s.grants[k].data.plain.refreshToken == Some(token)
  }

  predicate HoldsCode(s: State, k: GrantKey, tenant: TenantID, code: Token) {
    k in s.grants && k.tenant == tenant && s.grants[k].data.plain.authCode == Some(code)
  }

  /** In every reachable state the lookup by digest answers what a scan of the opened grants
      answers, for refresh tokens and for codes, and at most one grant holds a refresh token. */
  lemma LookupIsAScan(start: State, ops: seq<Op>, tenant: TenantID, token: Token, k: GrantKey)
    requires Fresh(start) && Admissible(start, ops)
    ensures var s := Run(start, ops);
            && (AnswersTo(s, k, tenant, Digest(token)) <==> HoldsToken(s, k, tenant, token))
            && (AnswersToCode(s, k, tenant, Digest(token)) <==> HoldsCode(s, k, tenant, token))
            && (HoldsToken(s, k, tenant, token) ==>
                 FindByHash(s, tenant, Digest(token)) == Some(s.grants[k].data.plain))
            && (FindByHash(s, tenant, Digest(token)).None? <==> forall j :: !HoldsToken(s, j, tenant, token))
            && (forall j: GrantKey, m: GrantKey ::
                  HoldsToken(s, j, j.tenant, token) && HoldsToken(s, m, m.tenant, token) ==> j == m)
  {
    FreshIsSound(start);
    RunKeeps(start, ops);
    var s := Run(start, ops);
    assert forall j :: j in s.grants ==> SoundRow(s, j);
    assert forall j :: AnswersTo(s, j, tenant, Digest(token)) <==> HoldsToken(s, j, tenant, token);
    assert forall j: GrantKey, m: GrantKey :: HoldsToken(s, j, j.tenant, token) && HoldsToken(s, m, m.tenant, token) ==>
      SameToken(s.grants[j].data.plain, s.grants[m].data.plain);
  }

  // ----- the history drains ------------------------------------------------

  function Swept(s: State, tenant: TenantID): nat {
    if |Expired(s, tenant)| < PRUNE_BATCH then |Expired(s, tenant)| else PRUNE_BATCH
  }

  /** One rotation adds one record and sweeps at most a batch of the expired ones. */
  lemma RotationResizes(s: State, tenant: TenantID, next: Grant, swept: set<HashKey>)
    requires Inv(s) && Enabled(s, Save(tenant, next, swept))
    ensures var t := SaveStep(s, tenant, next, swept);
            |t.superseded| == if Rotation(s, tenant, next).None? then |s.superseded|
                              else |s.superseded| + 1 - Swept(BeforeSweep(s, tenant, next), tenant)
  {
  }

  /** Nothing of this tenant expires in one step that was not expired before it. */
  ghost predicate Still(s: State, op: Op, tenant: TenantID) {
    match op
    case Tick(_) => Expired(Step(s, op), tenant) == Expired(s, tenant)
    case Save(home, next, _) => Expired(BeforeSweep(s, home, next), tenant) == Expired(s, tenant)
    case _ => true
  }

  ghost predicate AllStill(s: State, ops: seq<Op>, tenant: TenantID) {
    ops == [] || (AllStill(s, ops[..|ops| - 1], tenant) && Still(Run(s, ops[..|ops| - 1]), ops[|ops| - 1], tenant))
  }

  ghost predicate Rotates(s: State, op: Op, tenant: TenantID) {
    op.Save? && op.tenant == tenant && Rotation(s, tenant, op.next).Some?
  }

  ghost function Rotations(s: State, ops: seq<Op>, tenant: TenantID): nat {
    if ops == [] then 0
    else
      var init, last := ops[..|ops| - 1], ops[|ops| - 1];
      Rotations(s, init, tenant) + if Rotates(Run(s, init), last, tenant) then 1 else 0
  }

  /** A backlog after so many full batches. */
  function Remaining(backlog: nat, rotations: nat): nat {
    if backlog < PRUNE_BATCH * rotations then 0 else backlog - PRUNE_BATCH * rotations
  }

  lemma StepDrains(s: State, op: Op, tenant: TenantID)
    requires Enabled(s, op) && Still(s, op, tenant)
    ensures |Expired(Step(s, op), tenant)|
            <= if Rotates(s, op, tenant) then |Expired(s, tenant)| - Swept(s, tenant) else |Expired(s, tenant)|
  {
    var t := Step(s, op);
    if Rotates(s, op, tenant) {
      assert Expired(t, tenant) == Expired(s, tenant) - op.swept;
    } else {
      if op.Save? { assert Expired(t, tenant) <= Expired(BeforeSweep(s, op.tenant, op.next), tenant); }
      assert Expired(t, tenant) <= Expired(s, tenant);
      SubsetSize(Expired(t, tenant), Expired(s, tenant));
    }
  }

  /** While nothing further expires, every rotation takes a full batch off the backlog, until
      it is gone: `ceil(E / PRUNE_BATCH)` rotations clear a backlog of E. What else runs in
      between only helps. */
  lemma {:induction false} BacklogDrains(s: State, ops: seq<Op>, tenant: TenantID)
    requires Admissible(s, ops) && AllStill(s, ops, tenant)
    ensures |Expired(Run(s, ops), tenant)| <= Remaining(|Expired(s, tenant)|, Rotations(s, ops, tenant))
    ensures Rotations(s, ops, tenant) >= (|Expired(s, tenant)| + PRUNE_BATCH - 1) / PRUNE_BATCH ==>
              Expired(Run(s, ops), tenant) == {}
  {
    if ops != [] {
      BacklogDrains(s, ops[..|ops| - 1], tenant);
      StepDrains(Run(s, ops[..|ops| - 1]), ops[|ops| - 1], tenant);
    }
  }
}
