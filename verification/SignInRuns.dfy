/** What every run over both stores keeps: each call does one passkey call and at most two
    session calls, and an enrolment between its guards and its write stays tied to the session
    it runs on. */
module SignInRuns {
  import opened Basics
  import opened SignInModel
  import S = SessionModel
  import P = PasskeyModel
  import Runs = SessionRuns
  import Chain = SessionChain
  import Audit = SessionAudit
  import Cap = PasskeyCap

  // ----- an enrolment in flight --------------------------------------------

  /** The login session an enrolment runs on. */
  function SessionOf(reg: P.Registration): S.RowKey
    requires reg.holder.SignIn?
  {
    S.RowKey(reg.holder.tenant, reg.holder.session)
  }

  /** A session that still answers to the token of an enrolment in flight is the one the
      enrolment runs on. It names somebody and proved a password. */
  ghost predicate Backs(s: State, id: P.RegID)
    requires id in s.waiting && id in s.passkeys.claimed
  {
    var reg, token := s.passkeys.claimed[id], s.waiting[id];
    && id < s.passkeys.nextReg && reg.row.Live()
    && reg.holder.SignIn? && reg.key.tenant == reg.holder.tenant
    && token in s.sessions.disclosed
    && forall k :: k in s.sessions.rows && s.sessions.rows[k].state == S.Active
                   && s.sessions.rows[k].tokenHash == Digest(token) ==>
                     && k == SessionOf(reg)
                     && S.FACTOR_PASSWORD in s.sessions.rows[k].data.plain.factors
                     && s.sessions.rows[k].data.plain.user.Some?
  }

  ghost predicate AllBacked(s: State) {
    forall id :: id in s.waiting ==> id in s.passkeys.claimed && Backs(s, id)
  }

  ghost predicate Inv(s: State) {
    Runs.Inv(s.sessions) && AllBacked(s)
  }

  /** The session names this person, and proved a password. */
  predicate ProvedFor(s: State, k: S.RowKey, person: UserID) {
    && k in s.sessions.rows
    && S.FACTOR_PASSWORD in s.sessions.rows[k].data.plain.factors
    && s.sessions.rows[k].data.plain.user == Some(person)
  }

  /** This call passed both guards of an enrolment and claimed: the session behind its token had
      proved a password as this person, who held no factor of either kind. */
  ghost predicate Claims(s: State, op: Op, id: P.RegID, reg: P.Registration) {
    && op.EnrolClaim? && Apply(s, op).1 == Claimed && id == s.passkeys.nextReg
    && reg.holder.SignIn? && reg.holder.tenant == op.tenant && reg.row.Live()
    && Chain.ResolvesTo(s.sessions, op.tenant, op.token, SessionOf(reg)) && ProvedFor(s, SessionOf(reg), reg.row.user)
    && !op.authenticator && P.Held(s.passkeys, op.tenant, reg.row.user) == 0
    && op.made.Some? && reg.key == P.CredKey(op.tenant, op.made.value.id)
  }

  // ----- the guard ---------------------------------------------------------

  /** What the guard lets through: a live session with a proved password, read as it stands. */
  lemma GuardReads(s: State, tenant: TenantID, token: Token)
    requires Runs.Inv(s.sessions) && S.Known(s.sessions, token)
    ensures var (r, who) := Guard(s, tenant, token);
            && Runs.Inv(r.sessions) && Runs.Later(s.sessions, r.sessions)
            && r == s.(sessions := s.sessions.(cache := r.sessions.cache))
            && (who.Ok? ==>
                  var k := S.RowKey(tenant, who.value.session);
                  && Chain.ResolvesTo(s.sessions, tenant, token, k) && Chain.ResolvesTo(r.sessions, tenant, token, k)
                  && k in s.sessions.rows
                  && S.FACTOR_PASSWORD in s.sessions.rows[k].data.plain.factors
                  && s.sessions.rows[k].data.plain.user == Some(who.value.user))
  {
    hide Runs.Inv, Runs.Later;
    Runs.Lookup(s.sessions, tenant, token);
  }

  /** What the last statement of the transaction leaves. */
  lemma ClosingGains(
    r: State, tenant: TenantID, token: Token, user: UserID, written: (P.State, P.Answer), undone: P.State, fate: Fate,
    k: S.RowKey)
    requires Runs.Inv(r.sessions) && S.Known(r.sessions, token)
    ensures var (t, answer) := Closed(r, tenant, token, user, written, undone, fate);
            && (answer.SignedIn? ==> !written.1.Refused?)
            && (Audit.Carries(t.sessions, k, S.FACTOR_PASSKEY) ==>
                  || Audit.Carries(r.sessions, k, S.FACTOR_PASSKEY)
                  || (answer.SignedIn? && k.tenant == tenant && Chain.ResolvesTo(r.sessions, tenant, token, k)
                      && k in r.sessions.rows
                      && (r.sessions.rows[k].data.plain.user.Some? ==> r.sessions.rows[k].data.plain.user == Some(user))
                      && t.sessions.rows[k].data.plain.user == Some(user)))
  {
    hide Runs.Inv, Runs.Later, S.CompleteStep;
    assert |S.FACTOR_PASSKEY| == 8 && |S.FACTOR_PASSWORD| == 3;
    var call := S.Complete(tenant, token, Some(user), S.FACTOR_PASSKEY, fate);
    if !written.1.Refused? {
      Audit.FactorIsGained(r.sessions, call, k, S.FACTOR_PASSKEY);
      var answer := S.Apply(r.sessions, call).1;
      if answer.Opened? { Audit.UpgradeProves(r.sessions, call, answer.id, answer.token); }
    }
  }

  // ----- enrolments in flight stay backed ----------------------------------

  lemma BackingStays(s: State, t: State, id: P.RegID)
    requires Runs.Inv(s.sessions) && Runs.Later(s.sessions, t.sessions)
    requires id in s.waiting && id in s.passkeys.claimed && Backs(s, id)
    requires id in t.waiting && t.waiting[id] == s.waiting[id]
    requires id in t.passkeys.claimed && t.passkeys.claimed[id] == s.passkeys.claimed[id]
    requires s.passkeys.nextReg <= t.passkeys.nextReg
    ensures Backs(t, id)
  {
    var token := s.waiting[id];
    forall k | k in t.sessions.rows && t.sessions.rows[k].state == S.Active
               && t.sessions.rows[k].tokenHash == Digest(token)
      ensures k == SessionOf(s.passkeys.claimed[id])
      ensures S.FACTOR_PASSWORD in t.sessions.rows[k].data.plain.factors
      ensures t.sessions.rows[k].data.plain.user.Some?
    {
      assert token < s.sessions.nextToken;
      assert Runs.Kept(s.sessions, t.sessions, k);
      assert Runs.Follows(s.sessions.rows[k].data.plain, t.sessions.rows[k].data.plain);
    }
  }

  /** A passkey call leaves every registration in flight but the one it writes. */
  lemma ClaimRemains(s: P.State, act: P.Op)
    ensures s.nextReg <= P.Step(s, act).nextReg
    ensures forall id :: id in s.claimed && id < s.nextReg && !(act.Writing? && act.reg == id) ==>
                           id in P.Step(s, act).claimed && P.Step(s, act).claimed[id] == s.claimed[id]
  {
    hide P.PlanFor, P.Lands, P.Held;
  }

  /** The one passkey call of a call. A call that makes none lets no time pass. */
  ghost function PasskeyAct(s: State, op: Op): P.Op {
    match op
    case Session(_) => P.Tick(0)
    case Portal(act) => act
    case EnrolStart(tenant, token, authenticator, allowed, stored) => (
      match Guard(s, tenant, token).1
      case Err(_) => P.Tick(0)
      case Ok(who) => P.EnrolStart(tenant, who.user, who.session, authenticator, allowed, stored))
    case EnrolClaim(tenant, token, authenticator, made, deleted) => (
      match Guard(s, tenant, token).1
      case Err(_) => P.Tick(0)
      case Ok(who) => P.EnrolClaim(tenant, who.user, who.session, authenticator, made, deleted))
    case EnrolWrite(id, row, _) =>
      if id !in s.waiting || id !in s.passkeys.claimed then P.Tick(0)
      else P.Writing(id, Stood(s, op, P.Apply(s.passkeys, P.Writing(id, row)).1, row))
    case ChallengeStart(tenant, token, allowed, stored) => (
      match Guard(s, tenant, token).1
      case Err(_) => P.Tick(0)
      case Ok(who) => P.ChallengeStart(tenant, who.user, who.session, allowed, stored))
    case ChallengeFinish(tenant, token, proved, deleted, row, _) => (
      match Guard(s, tenant, token).1
      case Err(_) => P.Tick(0)
      case Ok(who) =>
        var written := P.Apply(s.passkeys, Assertion(tenant, who, proved, deleted, row)).1;
        Assertion(tenant, who, proved, deleted, Stood(s, op, written, row)))
  }

  function Assertion(
    tenant: TenantID, who: Principal, proved: Option<(P.CredID, string)>, deleted: bool, fate: Fate): P.Op {
    P.ChallengeFinish(tenant, who.user, who.session, proved, deleted, fate)
  }

  /** How the passkey half of a transaction ended: a completion that failed takes it back. */
  ghost function Stood(s: State, op: Op, written: P.Answer, row: Fate): Fate {
    if Apply(s, op).1.SignedIn? || written.Refused? then row else AuditFailed
  }

  lemma ClosesAs(
    r: State, tenant: TenantID, token: Token, user: UserID, written: (P.State, P.Answer), undone: P.State, fate: Fate)
    ensures var (t, answer) := Closed(r, tenant, token, user, written, undone, fate);
            && t.passkeys == (if answer.SignedIn? || written.1.Refused? then written.0 else undone)
            && t.waiting == r.waiting
  {
    hide S.CompleteStep;
  }

  lemma GuardIsAside(s: State, tenant: TenantID, token: Token)
    ensures var r := Guard(s, tenant, token).0; r.passkeys == s.passkeys && r.waiting == s.waiting
  {
    hide S.FindStep;
  }

  /** Each call does one passkey call to the passkeys. */
  lemma StepProjects(s: State, op: Op)
    ensures Step(s, op).passkeys == P.Step(s.passkeys, PasskeyAct(s, op))
    ensures !op.EnrolClaim? && !op.EnrolWrite? ==> Step(s, op).waiting == s.waiting
    ensures op.EnrolWrite? && op.reg in s.passkeys.claimed ==> Step(s, op).waiting == s.waiting - {op.reg}
  {
    hide Closed, P.Apply, Guard;
    IdleTick(s.passkeys);
    match op
    case Session(_) =>
    case Portal(_) =>
    case EnrolStart(tenant, token, _, _, _) => GuardIsAside(s, tenant, token);
    case EnrolClaim(tenant, token, _, _, _) => GuardIsAside(s, tenant, token);
    case ChallengeStart(tenant, token, _, _) => GuardIsAside(s, tenant, token);
    case EnrolWrite(id, row, upgrade) =>
      if id in s.waiting && id in s.passkeys.claimed {
        var reg := s.passkeys.claimed[id];
        ClosesAs(s.(waiting := s.waiting - {id}), reg.key.tenant, s.waiting[id], reg.row.user,
                 P.Apply(s.passkeys, P.Writing(id, row)), P.Step(s.passkeys, P.Writing(id, AuditFailed)), upgrade);
      }
    case ChallengeFinish(tenant, token, proved, deleted, row, upgrade) =>
      GuardIsAside(s, tenant, token);
      var (r, who) := Guard(s, tenant, token);
      if who.Ok? {
        var act := Assertion(tenant, who.value, proved, deleted, row);
        ClosesAs(r, tenant, token, who.value.user, P.Apply(s.passkeys, act),
                 P.Step(s.passkeys, Assertion(tenant, who.value, proved, deleted, AuditFailed)), upgrade);
      }
  }

  lemma IdleTick(s: P.State)
    ensures P.Step(s, P.Tick(0)) == s
  {
  }

  /** The session calls of a call, in their order. */
  ghost function SessionCalls(s: State, op: Op): seq<S.Op> {
    match op
    case Session(call) => [call]
    case Portal(_) => []
    case EnrolStart(tenant, token, _, _, _) => [S.Find(tenant, token)]
    case EnrolClaim(tenant, token, _, _, _) => [S.Find(tenant, token)]
    case ChallengeStart(tenant, token, _, _) => [S.Find(tenant, token)]
    case EnrolWrite(id, row, upgrade) =>
      if id !in s.waiting || id !in s.passkeys.claimed || P.Apply(s.passkeys, P.Writing(id, row)).1.Refused? then []
      else
        var reg := s.passkeys.claimed[id];
        [S.Complete(reg.key.tenant, s.waiting[id], Some(reg.row.user), S.FACTOR_PASSKEY, upgrade)]
    case ChallengeFinish(tenant, token, proved, deleted, row, upgrade) =>
      var who := Guard(s, tenant, token).1;
      [S.Find(tenant, token)] +
      if who.Err? then []
      else if P.Apply(s.passkeys, Assertion(tenant, who.value, proved, deleted, row)).1.Refused? then []
      else [S.Complete(tenant, token, Some(who.value.user), S.FACTOR_PASSKEY, upgrade)]
  }

  lemma Finds(s: State, tenant: TenantID, token: Token)
    ensures Guard(s, tenant, token).0.sessions == S.Step(s.sessions, S.Find(tenant, token))
  {
  }

  lemma ClosesOn(
    r: State, tenant: TenantID, token: Token, user: UserID, written: (P.State, P.Answer), undone: P.State, fate: Fate)
    ensures Closed(r, tenant, token, user, written, undone, fate).0.sessions
            == (if written.1.Refused? then r.sessions
                else S.Step(r.sessions, S.Complete(tenant, token, Some(user), S.FACTOR_PASSKEY, fate)))
  {
    hide S.CompleteStep;
  }

  lemma RunOne(s: S.State, call: S.Op)
    ensures S.Run(s, [call]) == S.Step(s, call) && (S.Admissible(s, [call]) <==> S.Enabled(s, call))
  {
    assert [call][..0] == [];
  }

  lemma RunTwo(s: S.State, one: S.Op, two: S.Op)
    ensures S.Run(s, [one] + [two]) == S.Step(S.Step(s, one), two)
    ensures S.Admissible(s, [one] + [two]) <==> S.Enabled(s, one) && S.Enabled(S.Step(s, one), two)
  {
    RunOne(s, one);
    assert ([one] + [two])[..1] == [one];
  }

  /** Each call does admissible session calls to the sessions. */
  lemma StepCalls(s: State, op: Op)
    requires Inv(s) && Enabled(s, op)
    ensures S.Admissible(s.sessions, SessionCalls(s, op))
    ensures Step(s, op).sessions == S.Run(s.sessions, SessionCalls(s, op))
  {
    assert |S.FACTOR_PASSKEY| == 8 && |S.FACTOR_PASSWORD| == 3;
    hide Closed, P.Apply, Guard, S.Step, S.Run, S.Admissible, Runs.Inv;
    match op
    case Session(call) => RunOne(s.sessions, call);
    case Portal(_) => RunNone(s.sessions);
    case EnrolStart(tenant, token, _, _, _) => FindCalls(s, tenant, token);
    case EnrolClaim(tenant, token, _, _, _) => FindCalls(s, tenant, token);
    case ChallengeStart(tenant, token, _, _) => FindCalls(s, tenant, token);
    case EnrolWrite(id, row, upgrade) =>
      RunNone(s.sessions);
      if id in s.waiting && id in s.passkeys.claimed {
        var reg := s.passkeys.claimed[id];
        ClosesOn(s.(waiting := s.waiting - {id}), reg.key.tenant, s.waiting[id], reg.row.user,
                 P.Apply(s.passkeys, P.Writing(id, row)), P.Step(s.passkeys, P.Writing(id, AuditFailed)), upgrade);
        assert Backs(s, id);
        RunOne(s.sessions, S.Complete(reg.key.tenant, s.waiting[id], Some(reg.row.user), S.FACTOR_PASSKEY, upgrade));
      }
    case ChallengeFinish(tenant, token, proved, deleted, row, upgrade) =>
      FindCalls(s, tenant, token);
      GuardIsAside(s, tenant, token);
      var (r, who) := Guard(s, tenant, token);
      if who.Ok? {
        var act := Assertion(tenant, who.value, proved, deleted, row);
        ClosesOn(r, tenant, token, who.value.user, P.Apply(s.passkeys, act),
                 P.Step(s.passkeys, Assertion(tenant, who.value, proved, deleted, AuditFailed)), upgrade);
        RunTwo(s.sessions, S.Find(tenant, token),
          S.Complete(tenant, token, Some(who.value.user), S.FACTOR_PASSKEY, upgrade));
      }
  }

  lemma RunNone(s: S.State)
    ensures S.Run(s, []) == s && S.Admissible(s, [])
  {
  }

  lemma FindCalls(s: State, tenant: TenantID, token: Token)
    requires Runs.Inv(s.sessions) && S.Known(s.sessions, token)
    ensures var find := S.Find(tenant, token);
            && S.Run(s.sessions, [find]) == Guard(s, tenant, token).0.sessions && S.Admissible(s.sessions, [find])
            && S.Enabled(s.sessions, find) && S.Known(Guard(s, tenant, token).0.sessions, token)
            && S.Step(s.sessions, find) == Guard(s, tenant, token).0.sessions
  {
    Finds(s, tenant, token);
    RunOne(s.sessions, S.Find(tenant, token));
    Runs.Lookup(s.sessions, tenant, token);
    hide Runs.Inv, Runs.Later;
  }

  // ----- every call keeps the invariant ------------------------------------

  lemma SessionsKeep(s: State, op: Op)
    requires Inv(s) && Enabled(s, op)
    ensures Runs.Inv(Step(s, op).sessions) && Runs.Later(s.sessions, Step(s, op).sessions)
  {
    hide Runs.Inv, Runs.Later, Step, SessionCalls;
    StepCalls(s, op);
    Runs.RunKeeps(s.sessions, SessionCalls(s, op));
  }

  /** An enrolment that claims is backed by the session behind its token. */
  lemma ClaimIsBacked(s: State, op: Op)
    requires Inv(s) && Enabled(s, op) && op.EnrolClaim?
    ensures var t, id := Step(s, op), s.passkeys.nextReg;
            if Apply(s, op).1 != Claimed then t.waiting == s.waiting
            else
              && t.waiting == s.waiting[id := op.token] && id in t.passkeys.claimed
              && Claims(s, op, id, t.passkeys.claimed[id]) && Backs(t, id)
  {
    GuardReads(s, op.tenant, op.token);
    GuardIsAside(s, op.tenant, op.token);
    var (r, who) := Guard(s, op.tenant, op.token);
    hide Guard, Runs.Inv, Runs.Later, P.Apply, P.Held, Chain.ResolvesTo, AllBacked, Backs;
    if Apply(s, op).1 == Claimed {
      ClaimRecords(s.passkeys, op.tenant, who.value, op.authenticator, op.made, op.deleted);
      ClaimBacks(s, Step(s, op), s.passkeys.nextReg, op.tenant, op.token);
    }
  }

  /** What is claimed on the session behind a token is backed by it. */
  lemma ClaimBacks(s: State, t: State, id: P.RegID, tenant: TenantID, token: Token)
    requires Runs.Inv(s.sessions) && t.sessions == s.sessions.(cache := t.sessions.cache)
    requires id in t.waiting && t.waiting[id] == token
    requires id in t.passkeys.claimed && id < t.passkeys.nextReg
    requires var reg := t.passkeys.claimed[id];
             && reg.row.Live() && reg.holder.SignIn? && reg.key.tenant == reg.holder.tenant == tenant
             && Chain.ResolvesTo(s.sessions, tenant, token, SessionOf(reg))
             && ProvedFor(s, SessionOf(reg), reg.row.user)
    ensures Backs(t, id)
  {
    TokenIsKnown(s.sessions, tenant, token);
    SameSession(s.sessions, tenant, token, SessionOf(t.passkeys.claimed[id]));
    hide Runs.Inv, Chain.ResolvesTo;
  }

  lemma ClaimRecords(
    s: P.State, tenant: TenantID, who: Principal, authenticator: bool, made: Option<P.Made>, deleted: bool)
    ensures var (t, claim) := P.Apply(s, P.EnrolClaim(tenant, who.user, who.session, authenticator, made, deleted));
            !claim.Refused? ==>
              && claim == P.Claimed && !authenticator && P.Held(s, tenant, who.user) == 0 && made.Some?
              && t.nextReg == s.nextReg + 1 && s.nextReg in t.claimed
              && var reg := t.claimed[s.nextReg];
                 && reg.holder == P.SignIn(tenant, who.session) && reg.key == P.CredKey(tenant, made.value.id)
                 && reg.row.user == who.user && reg.row.Live()
  {
  }

  lemma TokenIsKnown(s: S.State, tenant: TenantID, token: Token)
    requires Runs.Inv(s) && Chain.Resolves(s, tenant, token)
    ensures token in s.disclosed
  {
    var k := Runs.FoundRow(s, tenant, token);
  }

  lemma SameSession(s: S.State, tenant: TenantID, token: Token, k: S.RowKey)
    requires Runs.Inv(s) && Chain.ResolvesTo(s, tenant, token, k)
    ensures forall j :: j in s.rows && s.rows[j].tokenHash == Digest(token) ==> j == k
  {
    var found := Runs.FoundRow(s, tenant, token);
  }

  /** What is in flight after a call was in flight before, unchanged, or was claimed by it. */
  ghost predicate InFlight(s: State, op: Op, id: P.RegID)
    requires id in Step(s, op).passkeys.claimed
  {
    || (id in s.waiting && id in s.passkeys.claimed && s.passkeys.claimed[id] == Step(s, op).passkeys.claimed[id])
    || Claims(s, op, id, Step(s, op).passkeys.claimed[id])
  }

  lemma StepKeeps(s: State, op: Op)
    requires Inv(s) && Enabled(s, op)
    ensures Inv(Step(s, op)) && Runs.Later(s.sessions, Step(s, op).sessions)
    ensures forall id :: id in Step(s, op).waiting ==> InFlight(s, op, id)
  {
    SessionsKeep(s, op);
    StepProjects(s, op);
    if op.EnrolClaim? { ClaimIsBacked(s, op); }
    var t, act := Step(s, op), PasskeyAct(s, op);
    ClaimRemains(s.passkeys, act);
    forall id | id in t.waiting
      ensures id in t.passkeys.claimed && Backs(t, id) && InFlight(s, op, id)
    {
      if id in s.waiting {
        assert Backs(s, id);
        OthersWrite(s, op, id);
        hide Apply, Step, Backs, Runs.Inv, Runs.Later, PasskeyAct, Claims;
        BackingStays(s, t, id);
      }
    }
  }

  /** No call but its own write takes an enrolment out of flight. */
  lemma OthersWrite(s: State, op: Op, id: P.RegID)
    requires Inv(s) && Enabled(s, op) && id in s.waiting && id in Step(s, op).waiting
    ensures PasskeyAct(s, op).Writing? ==> PasskeyAct(s, op).reg != id
    ensures id < s.passkeys.nextReg && Step(s, op).waiting[id] == s.waiting[id]
  {
    assert Backs(s, id);
    StepProjects(s, op);
    if op.EnrolClaim? { ClaimIsBacked(s, op); }
    hide Step, Apply, Guard;
  }

  lemma {:induction false} RunKeeps(ops: seq<Op>)
    requires Admissible(FRESH, ops)
    ensures Inv(Run(FRESH, ops))
  {
    if ops == [] {
      Chain.FreshIsSound();
    } else {
      RunKeeps(ops[..|ops| - 1]);
      StepKeeps(Run(FRESH, ops[..|ops| - 1]), ops[|ops| - 1]);
    }
  }

  // ----- a run over both stores is a run over each -------------------------

  ghost function Acts(ops: seq<Op>): seq<P.Op> {
    if ops == [] then []
    else
      var init, last := ops[..|ops| - 1], ops[|ops| - 1];
      Acts(init) + [PasskeyAct(Run(FRESH, init), last)]
  }

  ghost function Calls(ops: seq<Op>): seq<S.Op> {
    if ops == [] then []
    else
      var init, last := ops[..|ops| - 1], ops[|ops| - 1];
      Calls(init) + SessionCalls(Run(FRESH, init), last)
  }

  /** Whatever holds in every run of passkey calls holds of the passkeys here. */
  lemma {:induction false} PasskeysRun(ops: seq<Op>)
    ensures P.Run(P.FRESH, Acts(ops)) == Run(FRESH, ops).passkeys
  {
    if ops != [] {
      var init, last := ops[..|ops| - 1], ops[|ops| - 1];
      PasskeysRun(init);
      StepProjects(Run(FRESH, init), last);
      Cap.RunMore(Acts(init), PasskeyAct(Run(FRESH, init), last));
    }
  }

  lemma {:induction false} RunOn(s: S.State, ops: seq<S.Op>, more: seq<S.Op>)
    requires S.Admissible(s, ops) && S.Admissible(S.Run(s, ops), more)
    ensures S.Run(s, ops + more) == S.Run(S.Run(s, ops), more) && S.Admissible(s, ops + more)
  {
    hide S.Step, S.Enabled;
    if more == [] {
      assert ops + more == ops;
    } else {
      RunOn(s, ops, more[..|more| - 1]);
      assert (ops + more)[..|ops + more| - 1] == ops + more[..|more| - 1];
    }
  }

  /** Whatever holds in every admissible run of session calls holds of the sessions here. */
  lemma {:induction false} SessionsRun(ops: seq<Op>)
    requires Admissible(FRESH, ops)
    ensures S.Admissible(S.FRESH, Calls(ops)) && S.Run(S.FRESH, Calls(ops)) == Run(FRESH, ops).sessions
  {
    if ops != [] {
      var init, last := ops[..|ops| - 1], ops[|ops| - 1];
      SessionsRun(init);
      RunKeeps(init);
      StepCalls(Run(FRESH, init), last);
      RunOn(S.FRESH, Calls(init), SessionCalls(Run(FRESH, init), last));
    }
  }
}
