/** What a login session that carries the passkey factor says about the person it names. */
module SignInTheorems {
  import opened Basics
  import opened SignInModel
  import opened SignInRuns
  import S = SessionModel
  import P = PasskeyModel
  import Runs = SessionRuns
  import Chain = SessionChain
  import Audit = SessionAudit
  import PasskeyTheorems
  import Enrol = PasskeyEnrol

  // ----- what signs a session in -------------------------------------------

  /** A device of the person, live in this state. */
  predicate Owns(s: State, tenant: TenantID, id: P.CredID, person: UserID) {
    P.OwnedLive(s.passkeys, P.CredKey(tenant, id), person)
  }

  /** The device of an enrolment landed for this person: one more than the person held. */
  predicate LandsFor(s: P.State, t: P.State, reg: P.Registration, person: UserID) {
    && reg.row.user == person && !P.LiveAt(s, reg.key) && P.OwnedLive(t, reg.key, person)
    && P.Held(t, reg.key.tenant, person) == P.Held(s, reg.key.tenant, person) + 1
  }

  /** This call signed the session in as the person it names, which had proved a password: a
      live device of that person was asserted, or the device of an enrolment that ran on this
      session landed for that person. */
  ghost predicate SignsIn(s: State, op: Op, k: S.RowKey, person: UserID) {
    && ProvedFor(s, k, person) && Apply(s, op).1.SignedIn?
    && match op
       case ChallengeFinish(tenant, token, proved, _, _, _) =>
         && k.tenant == tenant && Chain.ResolvesTo(s.sessions, tenant, token, k)
         && proved.Some? && Owns(s, tenant, proved.value.0, person) && Owns(Step(s, op), tenant, proved.value.0, person)
       case EnrolWrite(id, _, _) =>
         && id in s.waiting && id in s.passkeys.claimed
         && Chain.ResolvesTo(s.sessions, k.tenant, s.waiting[id], k)
         && s.passkeys.claimed[id].holder == P.SignIn(k.tenant, k.id)
         && LandsFor(s.passkeys, Step(s, op).passkeys, s.passkeys.claimed[id], person)
       case _ => false
  }

  // ----- one call ----------------------------------------------------------

  /** Whom a session that just gained the factor names. */
  ghost predicate Gains(s: State, op: Op, k: S.RowKey) {
    exists person: UserID :: SignsIn(s, op, k, person) && k in Step(s, op).sessions.rows
                     && Step(s, op).sessions.rows[k].data.plain.user == Some(person)
  }

  ghost predicate GainsOnly(s: State, op: Op, k: S.RowKey) {
    Audit.Carries(Step(s, op).sessions, k, S.FACTOR_PASSKEY) ==>
      Audit.Carries(s.sessions, k, S.FACTOR_PASSKEY) || Gains(s, op, k)
  }

  lemma AssertionHolds(
    p: P.State, tenant: TenantID, who: Principal, proved: Option<(P.CredID, string)>, deleted: bool, row: Fate)
    ensures var (t, answer) := P.Apply(p, Assertion(tenant, who, proved, deleted, row));
            !answer.Refused? ==>
              && proved.Some? && P.OwnedLive(p, P.CredKey(tenant, proved.value.0), who.user)
              && P.OwnedLive(t, P.CredKey(tenant, proved.value.0), who.user)
  {
  }

  lemma ChallengeGains(s: State, op: Op, k: S.RowKey)
    requires Inv(s) && Enabled(s, op) && op.ChallengeFinish?
    ensures GainsOnly(s, op, k)
  {
    hide Runs.Inv, Runs.Later, Guard, Closed, P.Apply, P.Step, AllBacked;
    GuardReads(s, op.tenant, op.token);
    var (r, guard) := Guard(s, op.tenant, op.token);
    if guard.Ok? {
      var who := guard.value;
      var written := P.Apply(r.passkeys, Assertion(op.tenant, who, op.proved, op.deleted, op.row));
      var undone := P.Step(r.passkeys, Assertion(op.tenant, who, op.proved, op.deleted, AuditFailed));
      AssertionHolds(r.passkeys, op.tenant, who, op.proved, op.deleted, op.row);
      ClosesAs(r, op.tenant, op.token, who.user, written, undone, op.upgrade);
      ClosingGains(r, op.tenant, op.token, who.user, written, undone, op.upgrade, k);
      if Audit.Carries(Step(s, op).sessions, k, S.FACTOR_PASSKEY)
         && !Audit.Carries(s.sessions, k, S.FACTOR_PASSKEY) {
        assert SignsIn(s, op, k, who.user);
      }
    }
  }

  lemma EnrolmentLands(s: P.State, id: P.RegID, row: Fate)
    requires id in s.claimed && s.claimed[id].row.Live()
    ensures !P.Apply(s, P.Writing(id, row)).1.Refused? ==>
              LandsFor(s, P.Step(s, P.Writing(id, row)), s.claimed[id], s.claimed[id].row.user)
  {
    var reg := s.claimed[id];
    var mid := s.(claimed := s.claimed - {id}, fair := s.fair - {id});
    assert P.LiveOf(mid, reg.key.tenant, reg.row.user) == P.LiveOf(s, reg.key.tenant, reg.row.user);
    PasskeyTheorems.LandingCounts(mid, reg, row, reg.key.tenant, reg.row.user);
  }

  lemma BackedSession(s: State, id: P.RegID, k: S.RowKey)
    requires Inv(s) && id in s.waiting && id in s.passkeys.claimed
    requires Chain.ResolvesTo(s.sessions, k.tenant, s.waiting[id], k)
    ensures var reg := s.passkeys.claimed[id];
            && reg.holder == P.SignIn(k.tenant, k.id) && k in s.sessions.rows
            && S.FACTOR_PASSWORD in s.sessions.rows[k].data.plain.factors
            && s.sessions.rows[k].data.plain.user.Some?
  {
    assert Backs(s, id);
    var found := Runs.FoundRow(s.sessions, k.tenant, s.waiting[id]);
  }

  lemma EnrolmentGains(s: State, op: Op, k: S.RowKey)
    requires Inv(s) && Enabled(s, op) && op.EnrolWrite?
    ensures GainsOnly(s, op, k)
  {
    var id := op.reg;
    if id in s.waiting && id in s.passkeys.claimed {
      assert Backs(s, id);
      hide Runs.Inv, Runs.Later, Closed, P.Apply, P.Step, AllBacked, LandsFor;
      var r, reg := s.(waiting := s.waiting - {id}), s.passkeys.claimed[id];
      var written := P.Apply(s.passkeys, P.Writing(id, op.row));
      var undone := P.Step(s.passkeys, P.Writing(id, AuditFailed));
      EnrolmentLands(s.passkeys, id, op.row);
      ClosesAs(r, reg.key.tenant, s.waiting[id], reg.row.user, written, undone, op.upgrade);
      ClosingGains(r, reg.key.tenant, s.waiting[id], reg.row.user, written, undone, op.upgrade, k);
      if Audit.Carries(Step(s, op).sessions, k, S.FACTOR_PASSKEY)
         && !Audit.Carries(s.sessions, k, S.FACTOR_PASSKEY) {
        BackedSession(s, id, k);
        StepOf(s.passkeys, P.Writing(id, op.row));
        assert SignsIn(s, op, k, reg.row.user);
      }
    }
  }

  lemma StepOf(p: P.State, act: P.Op)
    ensures P.Step(p, act) == P.Apply(p, act).0
  {
  }

  lemma StepGains(s: State, op: Op, k: S.RowKey)
    requires Inv(s) && Enabled(s, op)
    ensures GainsOnly(s, op, k)
  {
    hide Runs.Inv, Runs.Later, Guard, Closed, P.Apply, P.Step, S.Step, S.Apply, Gains;
    match op
    case Session(call) =>
      assert |S.FACTOR_PASSKEY| == 8 && |S.FACTOR_PASSWORD| == 3;
      Audit.FactorIsGained(s.sessions, call, k, S.FACTOR_PASSKEY);
    case Portal(act) =>
    case EnrolStart(tenant, token, _, _, _) => GuardReads(s, tenant, token);
    case EnrolClaim(tenant, token, _, _, _) => GuardReads(s, tenant, token);
    case ChallengeStart(tenant, token, _, _) => GuardReads(s, tenant, token);
    case EnrolWrite(_, _, _) => EnrolmentGains(s, op, k);
    case ChallengeFinish(_, _, _, _, _, _) => ChallengeGains(s, op, k);
  }

  // ----- over whole runs ---------------------------------------------------

  /** Call `j` of the run claimed this registration. */
  ghost predicate ClaimedAt(ops: seq<Op>, j: nat, id: P.RegID, reg: P.Registration) {
    j < |ops| && Claims(Run(FRESH, ops[..j]), ops[j], id, reg)
  }

  /** Whatever is in flight was claimed by some call of the run, and stands as claimed. */
  lemma {:induction false} InFlightWasClaimed(ops: seq<Op>, id: P.RegID) returns (j: nat)
    requires Admissible(FRESH, ops) && id in Run(FRESH, ops).waiting
    ensures id in Run(FRESH, ops).passkeys.claimed && ClaimedAt(ops, j, id, Run(FRESH, ops).passkeys.claimed[id])
  {
    var init, last := ops[..|ops| - 1], ops[|ops| - 1];
    RunKeeps(init);
    RunKeeps(ops);
    var s := Run(FRESH, init);
    StepKeeps(s, last);
    hide Step, Claims, Runs.Inv, Runs.Later, Enabled;
    assert InFlight(s, last, id);
    if Claims(s, last, id, Step(s, last).passkeys.claimed[id]) {
      j := |ops| - 1;
    } else {
      j := InFlightWasClaimed(init, id);
      assert ops[..j] == init[..j];
    }
  }

  /** Call `i` of the run signed the session in as this person, with a passkey. An enrolment
      that did so passed its guards in an earlier call. */
  ghost predicate SignedInAt(ops: seq<Op>, i: nat, k: S.RowKey, person: UserID) {
    && i < |ops| && SignsIn(Run(FRESH, ops[..i]), ops[i], k, person)
    && (ops[i].EnrolWrite? ==>
          exists j: nat :: j < i && ClaimedAt(ops, j, ops[i].reg, Run(FRESH, ops[..i]).passkeys.claimed[ops[i].reg]))
  }

  ghost predicate Earned(ops: seq<Op>, k: S.RowKey, now: S.LoginSession) {
    exists i: nat, person: UserID :: SignedInAt(ops, i, k, person)
      && (now.federation.None? ==> now.user == Some(person))
  }

  lemma FollowsOn(s: S.State, t: S.State, k: S.RowKey)
    requires Runs.Later(s, t)
    ensures k in s.rows && k in t.rows ==> Runs.Follows(s.rows[k].data.plain, t.rows[k].data.plain)
  {
  }

  lemma SignedInStays(ops: seq<Op>, i: nat, k: S.RowKey, person: UserID)
    requires ops != [] && SignedInAt(ops[..|ops| - 1], i, k, person)
    ensures SignedInAt(ops, i, k, person)
  {
    hide Claims, Run, Apply, Step, LandsFor, Owns, ProvedFor;
    var init := ops[..|ops| - 1];
    assert ops[..i] == init[..i];
    if ops[i].EnrolWrite? {
      var reg := Run(FRESH, ops[..i]).passkeys.claimed[ops[i].reg];
      var j: nat :| j < i && ClaimedAt(init, j, ops[i].reg, reg);
      assert ops[..j] == init[..j];
      assert ClaimedAt(ops, j, ops[i].reg, reg);
    }
  }

  lemma EarnedStays(ops: seq<Op>, k: S.RowKey, before: S.LoginSession, now: S.LoginSession)
    requires ops != [] && Earned(ops[..|ops| - 1], k, before) && Runs.Follows(before, now)
    ensures Earned(ops, k, now)
  {
    hide SignedInAt;
    var i: nat, person: UserID :| SignedInAt(ops[..|ops| - 1], i, k, person)
      && (before.federation.None? ==> before.user == Some(person));
    SignedInStays(ops, i, k, person);
  }

  /** The last call of the run signed the session in. */
  lemma SignedInLast(ops: seq<Op>, k: S.RowKey, person: UserID)
    requires Admissible(FRESH, ops) && ops != []
    requires SignsIn(Run(FRESH, ops[..|ops| - 1]), ops[|ops| - 1], k, person)
    ensures SignedInAt(ops, |ops| - 1, k, person)
  {
    var init, last := ops[..|ops| - 1], ops[|ops| - 1];
    if last.EnrolWrite? {
      var j := InFlightWasClaimed(init, last.reg);
      hide Claims, Run;
      assert ops[..j] == init[..j];
      assert ClaimedAt(ops, j, last.reg, Run(FRESH, init).passkeys.claimed[last.reg]);
    }
  }

  /** In every reachable state a login session carries the passkey factor only if some call of
      the run signed it in as the person it names, which had proved a password by then: a live
      device of that very person was asserted, or a device of that person landed in that call,
      for an enrolment on this session whose guards had read that the person held no factor. */
  lemma {:induction false} PasskeyIsEarned(ops: seq<Op>, k: S.RowKey)
    requires Admissible(FRESH, ops) && Audit.Carries(Run(FRESH, ops).sessions, k, S.FACTOR_PASSKEY)
    ensures Earned(ops, k, Run(FRESH, ops).sessions.rows[k].data.plain)
  {
    var init, last := ops[..|ops| - 1], ops[|ops| - 1];
    RunKeeps(init);
    var s := Run(FRESH, init);
    StepKeeps(s, last);
    StepGains(s, last, k);
    FollowsOn(s.sessions, Step(s, last).sessions, k);
    hide Runs.Inv, Runs.Later, Step, Apply, SignsIn, SignedInAt, Enabled, Runs.Follows, AllBacked;
    if Audit.Carries(s.sessions, k, S.FACTOR_PASSKEY) {
      PasskeyIsEarned(init, k);
      EarnedStays(ops, k, s.sessions.rows[k].data.plain, Step(s, last).sessions.rows[k].data.plain);
    } else {
      var person: UserID :| SignsIn(s, last, k, person)
        && Step(s, last).sessions.rows[k].data.plain.user == Some(person);
      SignedInLast(ops, k, person);
    }
  }

  /** So no session carries a passkey without the password. */
  lemma {:induction false} PasskeyImpliesPassword(ops: seq<Op>, k: S.RowKey)
    requires Admissible(FRESH, ops) && Audit.Carries(Run(FRESH, ops).sessions, k, S.FACTOR_PASSKEY)
    ensures Audit.Carries(Run(FRESH, ops).sessions, k, S.FACTOR_PASSWORD)
  {
    var init, last := ops[..|ops| - 1], ops[|ops| - 1];
    RunKeeps(init);
    var s := Run(FRESH, init);
    StepKeeps(s, last);
    StepGains(s, last, k);
    FollowsOn(s.sessions, Step(s, last).sessions, k);
    hide Runs.Inv, Runs.Later, Step, Apply, Enabled, AllBacked;
    if Audit.Carries(s.sessions, k, S.FACTOR_PASSKEY) { PasskeyImpliesPassword(init, k); }
  }

  // ----- when it was the first factor --------------------------------------

  lemma {:induction false} ActsPrefix(ops: seq<Op>, n: nat)
    requires n <= |ops|
    ensures |Acts(ops)| == |ops| && Acts(ops[..n]) == Acts(ops)[..n]
  {
    if n == |ops| {
      assert ops[..n] == ops;
      if ops != [] { ActsPrefix(ops[..|ops| - 1], |ops| - 1); }
      assert Acts(ops)[..n] == Acts(ops);
    } else {
      ActsPrefix(ops[..|ops| - 1], n);
      assert ops[..|ops| - 1][..n] == ops[..n];
    }
  }

  lemma {:induction false} SplitActs(s: P.State, acts: seq<P.Op>, n: nat)
    requires n <= |acts|
    ensures P.Run(s, acts) == P.Run(P.Run(s, acts[..n]), acts[n..])
  {
    hide P.Step;
    if n == |acts| {
      assert acts[..n] == acts;
    } else {
      SplitActs(s, acts[..|acts| - 1], n);
      assert acts[..|acts| - 1][..n] == acts[..n];
      assert acts[n..][..|acts[n..]| - 1] == acts[..|acts| - 1][n..];
    }
  }

  /** The passkey calls between the claim at `j` and the write at `i`. */
  ghost function Between(ops: seq<Op>, j: nat, i: nat): seq<P.Op>
    requires j < i <= |ops|
  {
    ActsPrefix(ops[..i], j + 1);
    Acts(ops[..i])[j + 1..]
  }

  lemma SinceClaim(ops: seq<Op>, j: nat, i: nat)
    requires j < i <= |ops|
    ensures P.Run(Run(FRESH, ops[..j + 1]).passkeys, Between(ops, j, i)) == Run(FRESH, ops[..i]).passkeys
    ensures PasskeyTheorems.SoundClaims(Run(FRESH, ops[..j + 1]).passkeys)
  {
    hide Step, P.Step;
    PasskeysRun(ops[..i]);
    PasskeysRun(ops[..j + 1]);
    ActsPrefix(ops[..i], j + 1);
    assert ops[..i][..j + 1] == ops[..j + 1];
    SplitActs(P.FRESH, Acts(ops[..i]), j + 1);
    PasskeyTheorems.LandingsAreRemovals(P.FRESH, Acts(ops[..j + 1]), P.CredKey(0, 0));
  }

  lemma LastStep(ops: seq<Op>, n: nat)
    requires n < |ops|
    ensures Run(FRESH, ops[..n + 1]) == Step(Run(FRESH, ops[..n]), ops[n])
  {
    assert ops[..n + 1][..n] == ops[..n];
  }

  lemma ClaimHoldsNone(s: State, op: Op, id: P.RegID, reg: P.Registration)
    requires Claims(s, op, id, reg)
    ensures P.Held(Step(s, op).passkeys, op.tenant, reg.row.user) == 0
  {
    StepProjects(s, op);
    hide Guard;
    Enrol.OthersHold(s.passkeys, PasskeyAct(s, op), op.tenant, reg.row.user);
  }

  /** An enrolment that signed a session in gave its person a first device if and only if, since
      its guards were read, as many devices were removed from that person as landed for it. */
  lemma FirstFactorIff(ops: seq<Op>, j: nat, i: nat, k: S.RowKey, person: UserID)
    requires Admissible(FRESH, ops) && SignedInAt(ops, i, k, person) && ops[i].EnrolWrite?
    requires j < i && ClaimedAt(ops, j, ops[i].reg, Run(FRESH, ops[..i]).passkeys.claimed[ops[i].reg])
    ensures var since, mid := Run(FRESH, ops[..j + 1]).passkeys, Between(ops, j, i);
            P.Held(Run(FRESH, ops[..i + 1]).passkeys, k.tenant, person) == 1
            <==> Enrol.Gained(since, mid, k.tenant, person) == Enrol.Lost(since, mid, k.tenant, person)
  {
    hide Step, Apply, Run, P.Step, P.Run, P.Held, ProvedFor, Between;
    LastStep(ops, j);
    LastStep(ops, i);
    ClaimHoldsNone(Run(FRESH, ops[..j]), ops[j], ops[i].reg, Run(FRESH, ops[..i]).passkeys.claimed[ops[i].reg]);
    SinceClaim(ops, j, i);
    Enrol.HoldingsBalance(Run(FRESH, ops[..j + 1]).passkeys, Between(ops, j, i), k.tenant, person);
  }
}
