/** What a factor upgrade proves and writes, and what the audit trail holds of it. */
module SessionAudit {
  import opened Basics
  import opened SessionModel
  import opened SessionRuns
  import opened SessionChain

  /** What one proved factor makes of a session: that factor at this moment and no other, a
      full lifetime from now, and everything else but the person as it was. */
  predicate Upgraded(before: LoginSession, after: LoginSession, factor: string, now: Instant) {
    && after.factors == before.factors[factor := now]
    && after.expiresAt == now + FULL_LIFETIME
    && KeyOf(after) == KeyOf(before) && after.createdAt == before.createdAt
    && after.wrongCodes == before.wrongCodes && after.federation == before.federation
  }

  /** An upgrade that answered a token: the session behind the presented token was upgraded,
      and by a proof. A password counts for a local session only if the hash of its own
      person matched, and for a directory session only if the directory named a person. */
  lemma UpgradeProves(s: State, op: Op, id: SessionID, next: Token)
    requires Inv(s) && Enabled(s, op) && Upgrades(op) && Apply(s, op).1 == Opened(id, next)
    ensures var k := RowKey(op.tenant, id);
            && k in s.rows && k in Step(s, op).rows && ResolvesTo(s, op.tenant, op.token, k)
            && var before, after := s.rows[k].data.plain, Step(s, op).rows[k].data.plain;
               && Upgraded(before, after, if op.Password? then FACTOR_PASSWORD else op.factor, s.now)
               && (op.Password? && before.federation.None? ==>
                     op.check == Hash(true) && before.user.Some? && after.user == before.user
                     && (before.email != "" ==> after.email == before.email))
               && (op.Password? && before.federation.Some? ==>
                     op.check.Bind? && op.check.person.Some? && after.user == op.check.person)
               && (op.Complete? ==>
                    after.user == op.bind && (before.user.Some? ==> before.user == op.bind)
                      && after.email == before.email)
  {
    hide Inv, Later;
    Lookup(s, op.tenant, op.token);
    var r := Refilled(s, op.tenant, Digest(op.token));
    var live := FindRow(r, op.tenant, Digest(op.token)).value;
    match op
    case Password(_, token, check, _, _) =>
      var proof := Prove(live, check);
      RotatedRow(r, WithPassword(live, proof.person, proof.email, s.now), token);
    case Complete(_, token, user, factor, _) =>
      RotatedRow(r, WithFactor(live, user, factor, s.now), token);
  }

  /** The refusals of the password step that are audited. */
  const REFUSALS: set<Failure> :=
    {BadCredentials, FederationDisabled, FederationUnavailable, FederationMisconfigured, TooManyProofs}

  /** The rows one call leaves in the trail, by what it answered. */
  ghost predicate Records(s: State, op: Op, added: seq<AuditRow>) {
    var answer := Apply(s, op).1;
    if Upgrades(op) && answer.Opened? then added == [AuditRow(RowKey(op.tenant, answer.id), LoginSucceeded)]
    else if op.Logout? && answer == Done then |added| == 1 && added[0].event == LogoutSucceeded
      && ResolvesTo(s, op.tenant, op.token, added[0].key)
    else if op.FailCode? && answer == Counted(true) then
      |added| == 1 && added[0].event == LoginFailed(BadSecondFactor) && ResolvesTo(s, op.tenant, op.token, added[0].key)
    else if op.Password? && answer.Failed? && answer.why in REFUSALS then
      |added| == 1 && added[0].event.LoginFailed? && added[0].event.reason != BadSecondFactor
        && ResolvesTo(s, op.tenant, op.token, added[0].key)
    else added == []
  }

  ghost predicate Trails(s: State, op: Op) {
    exists added :: Step(s, op).trail == s.trail + added && Records(s, op, added)
  }

  lemma UpgradeTrails(s: State, op: Op)
    requires Inv(s) && Enabled(s, op) && Upgrades(op)
    ensures Trails(s, op)
  {
    hide Inv, Later, CachedFind, FindRow, Refilled, Saved;
    Lookup(s, op.tenant, op.token);
    Refills(s, op.tenant, op.token);
    var added := Step(s, op).trail[|s.trail|..];
    assert Step(s, op).trail == s.trail + added;
    assert Records(s, op, added);
  }

  lemma EndTrails(s: State, op: Op)
    requires Inv(s) && Enabled(s, op) && (op.Logout? || op.FailCode?)
    ensures Trails(s, op)
  {
    hide Inv, Later, CachedFind, FindRow, Refilled, Saved;
    Lookup(s, op.tenant, op.token);
    Refills(s, op.tenant, op.token);
    SavedTrail(Refilled(s, op.tenant, Digest(op.token)));
    var added := Step(s, op).trail[|s.trail|..];
    assert Step(s, op).trail == s.trail + added;
    assert Records(s, op, added);
  }

  lemma Refills(s: State, tenant: TenantID, token: Token)
    ensures var r := Refilled(s, tenant, Digest(token)); r.trail == s.trail && r.now == s.now && r.rows == s.rows
  {
  }

  lemma SavedTrail(s: State)
    ensures forall live, hash, prev :: Saved(s, live, hash, prev).trail == s.trail
  {
  }

  /** A call leaves one row in the trail exactly when it answers that it upgraded, refused or
      ended a sign-in, about the session behind the presented token. A call whose transaction
      was taken back leaves none. */
  lemma TrailFollowsAnswers(s: State, op: Op)
    requires Inv(s) && Enabled(s, op)
    ensures exists added :: Step(s, op).trail == s.trail + added && Records(s, op, added)
  {
    hide Inv;
    if Upgrades(op) {
      UpgradeTrails(s, op);
    } else if op.Logout? || op.FailCode? {
      EndTrails(s, op);
    } else {
      assert Step(s, op).trail == s.trail + [];
      assert Records(s, op, []);
    }
  }

  // ----- over whole runs ---------------------------------------------------

  ghost predicate Carries(s: State, k: RowKey, factor: string) {
    k in s.rows && factor in s.rows[k].data.plain.factors
  }

  /** This call answered that it upgraded the session, under this factor. */
  ghost predicate UpgradesTo(s: State, op: Op, k: RowKey, factor: string) {
    && Upgrades(op) && Apply(s, op).1.Opened? && RowKey(op.tenant, Apply(s, op).1.id) == k
    && factor == if op.Password? then FACTOR_PASSWORD else op.factor
  }

  lemma RotationCarries(
    s: State, tenant: TenantID, token: Token, live: LoginSession, gained: string, fate: Fate, k: RowKey,
    factor: string)
    requires Inv(s) && FindRow(s, tenant, Digest(token)).Some?
    requires KeyOf(live) == KeyOf(FindRow(s, tenant, Digest(token)).value)
    requires factor in live.factors ==> factor == gained || factor in FindRow(s, tenant, Digest(token)).value.factors
    ensures Carries(Rotated(s, live, token, fate).0, k, factor) ==>
              Carries(s, k, factor) || (Rotated(s, live, token, fate).1.Opened? && k == KeyOf(live) && factor == gained)
  {
    hide Inv;
    var j := FoundRow(s, tenant, token);
  }

  lemma UpgradeCarries(s: State, op: Op, k: RowKey, factor: string)
    requires Inv(s) && Enabled(s, op) && Upgrades(op)
    ensures Carries(Step(s, op), k, factor) ==> Carries(s, k, factor) || UpgradesTo(s, op, k, factor)
  {
    hide Inv, Later, Rotated, CachedFind, FindRow, Refilled;
    Lookup(s, op.tenant, op.token);
    var r := Refilled(s, op.tenant, Digest(op.token));
    if FindRow(r, op.tenant, Digest(op.token)).Some? {
      var live := FindRow(r, op.tenant, Digest(op.token)).value;
      match op
      case Password(_, token, check, _, fate) =>
        var proof := Prove(live, check);
        if proof.Proved? {
          var next := WithPassword(live, proof.person, proof.email, s.now);
          RotationCarries(r, op.tenant, token, next, FACTOR_PASSWORD, fate, k, factor);
          RotationNames(r, next, token, fate);
        }
      case Complete(_, token, user, gained, fate) =>
        var next := WithFactor(live, user, gained, s.now);
        RotationCarries(r, op.tenant, token, next, gained, fate, k, factor);
        RotationNames(r, next, token, fate);
    }
  }

  lemma RotationNames(s: State, live: LoginSession, token: Token, fate: Fate)
    ensures Rotated(s, live, token, fate).1.Opened? ==> Rotated(s, live, token, fate).1.id == live.id
  {
  }

  /** A session gains a factor by an answered upgrade under that factor, and in no other way. */
  lemma FactorIsGained(s: State, op: Op, k: RowKey, factor: string)
    requires Inv(s) && Enabled(s, op)
    ensures Carries(Step(s, op), k, factor) ==> Carries(s, k, factor) || UpgradesTo(s, op, k, factor)
  {
    hide Inv, Later, PasswordStep, CompleteStep;
    if Upgrades(op) {
      UpgradeCarries(s, op, k, factor);
    } else if op.Find? || op.Logout? || op.FailCode? {
      Lookup(s, op.tenant, op.token);
    }
  }

  /** Call `i` of the run upgraded the session under this factor. */
  ghost predicate UpgradedAt(ops: seq<Op>, i: nat, k: RowKey, factor: string) {
    i < |ops| && UpgradesTo(Run(FRESH, ops[..i]), ops[i], k, factor)
  }

  /** Every factor a session carries was recorded by an upgrade of the run that answered. */
  lemma {:induction false} FactorWasProved(ops: seq<Op>, k: RowKey, factor: string) returns (i: nat)
    requires Admissible(FRESH, ops) && Carries(Run(FRESH, ops), k, factor)
    ensures UpgradedAt(ops, i, k, factor) && Admissible(FRESH, ops[..i]) && Enabled(Run(FRESH, ops[..i]), ops[i])
    ensures k in Run(FRESH, ops[..i]).rows
  {
    var init, last := ops[..|ops| - 1], ops[|ops| - 1];
    FreshIsSound();
    RunKeeps(FRESH, init);
    var s := Run(FRESH, init);
    hide Inv, Later, Step;
    FactorIsGained(s, last, k, factor);
    if Carries(s, k, factor) {
      i := FactorWasProved(init, k, factor);
      assert ops[..i] == init[..i];
    } else {
      i := |ops| - 1;
      UpgradeProves(s, last, k.id, Apply(s, last).1.token);
    }
  }

  /** The password of a session was proved by call `i`: for a local session the hash of the
      person the session still names matched, for a directory session the directory named a
      person. */
  ghost predicate PasswordProvedAt(ops: seq<Op>, i: nat, k: RowKey, now: LoginSession) {
    && i < |ops| && ops[i].Password? && UpgradedAt(ops, i, k, FACTOR_PASSWORD)
    && (now.federation.None? ==> ops[i].check == Hash(true) && now.user.Some?)
    && (now.federation.Some? ==> ops[i].check.Bind? && ops[i].check.person.Some?)
    && k in Run(FRESH, ops[..i]).rows
    && Run(FRESH, ops[..i]).rows[k].data.plain.federation == now.federation
    && (now.federation.None? ==> Run(FRESH, ops[..i]).rows[k].data.plain.user == now.user)
  }

  /** In every reachable state a session that carries the password proved it, in some call of
      the run, as the very person it names. */
  lemma PasswordWasProved(ops: seq<Op>, k: RowKey)
    requires Admissible(FRESH, ops) && Carries(Run(FRESH, ops), k, FACTOR_PASSWORD)
    ensures exists i :: PasswordProvedAt(ops, i, k, Run(FRESH, ops).rows[k].data.plain)
  {
    var i := FactorWasProved(ops, k, FACTOR_PASSWORD);
    var s := Run(FRESH, ops[..i]);
    FreshIsSound();
    RunKeeps(FRESH, ops[..i]);
    UpgradeProves(s, ops[i], k.id, Apply(s, ops[i]).1.token);
    SplitRun(ops, i);
    RunKeeps(s, ops[i..]);
    hide Inv, Step, Apply;
    assert Follows(s.rows[k].data.plain, Run(s, ops[i..]).rows[k].data.plain);
    assert PasswordProvedAt(ops, i, k, Run(FRESH, ops).rows[k].data.plain);
  }

  /** A run is its first part and then the rest. */
  lemma {:induction false} SplitRun(ops: seq<Op>, i: nat)
    requires i <= |ops| && Admissible(FRESH, ops)
    ensures Run(FRESH, ops) == Run(Run(FRESH, ops[..i]), ops[i..])
    ensures Admissible(Run(FRESH, ops[..i]), ops[i..])
  {
    hide Step, Enabled;
    if i == |ops| {
      assert ops[..i] == ops;
    } else {
      var init := ops[..|ops| - 1];
      SplitRun(init, i);
      assert init[..i] == ops[..i] && ops[i..][..|ops[i..]| - 1] == init[i..];
    }
  }

  // ----- the trail counts the answers --------------------------------------

  function Entries(s: State, k: RowKey, event: Event): nat {
    multiset(s.trail)[AuditRow(k, event)]
  }

  const COUNTED: set<Event> := {LoginSucceeded, LogoutSucceeded, LoginFailed(BadSecondFactor)}

  /** This call answered what the event says, about this session. */
  ghost predicate AnswersTo(s: State, op: Op, k: RowKey, event: Event) {
    match event
    case LoginSucceeded => Upgrades(op) && Apply(s, op).1.Opened? && RowKey(op.tenant, Apply(s, op).1.id) == k
    case LogoutSucceeded => op.Logout? && Apply(s, op).1 == Done && ResolvesTo(s, op.tenant, op.token, k)
    case LoginFailed(_) => op.FailCode? && Apply(s, op).1 == Counted(true) && ResolvesTo(s, op.tenant, op.token, k)
  }

  ghost function Answered(s: State, ops: seq<Op>, k: RowKey, event: Event): nat {
    if ops == [] then 0
    else
      var init, last := ops[..|ops| - 1], ops[|ops| - 1];
      Answered(s, init, k, event) + if AnswersTo(Run(s, init), last, k, event) then 1 else 0
  }

  lemma StepCounts(s: State, op: Op, k: RowKey, event: Event)
    requires Inv(s) && Enabled(s, op) && event in COUNTED
    ensures Entries(Step(s, op), k, event) == Entries(s, k, event) + if AnswersTo(s, op, k, event) then 1 else 0
  {
    TrailFollowsAnswers(s, op);
    var added :| Step(s, op).trail == s.trail + added && Records(s, op, added);
    hide Inv, Apply, Step, ResolvesTo;
    assert |added| == 1 ==> added == [added[0]];
  }

  /** The trail is the books of a run: for every session the rows of a success, of a logout
      and of an ending on wrong codes are as many as the calls that answered it. */
  lemma {:induction false} TrailCountsAnswers(ops: seq<Op>, k: RowKey, event: Event)
    requires Admissible(FRESH, ops) && event in COUNTED
    ensures Entries(Run(FRESH, ops), k, event) == Answered(FRESH, ops, k, event)
  {
    if ops != [] {
      var init := ops[..|ops| - 1];
      TrailCountsAnswers(init, k, event);
      FreshIsSound();
      RunKeeps(FRESH, init);
      StepCounts(Run(FRESH, init), ops[|ops| - 1], k, event);
    }
  }
}
