/** The passkey half of a sign-in: the challenge and the enrolment run on a login session that
    proved a password, and record the factor on it in the transaction that writes the row. The
    guards of an enrolment run before that transaction opens, so its finish is two steps. */
module SignInModel {
  import opened Basics
  import S = SessionModel
  import P = PasskeyModel

  /** `waiting` holds, for each enrolment between its guards and its write, the token of the
      request: the passkey half of the state holds the registration. */
  datatype State = State(sessions: S.State, passkeys: P.State, waiting: map<P.RegID, Token>)

  datatype Answer =
    | Started
    | Claimed
    | SignedIn(token: Token)
    | Refused(why: P.Failure)
    | NoSession(reason: S.Failure)
    | PasswordNotProved

  /** What one token lets its holder run a ceremony as. */
  datatype Principal = Principal(user: UserID, session: S.SessionID)

  function ProvedAs(live: S.LoginSession): Option<Principal> {
    if S.FACTOR_PASSWORD in live.factors && live.user.Some? then Some(Principal(live.user.value, live.id)) else None
  }

  /** The guard of every address of the ceremony. */
  ghost function Guard(s: State, tenant: TenantID, token: Token): (State, Result<Principal, Answer>) {
    var (read, found) := S.FindStep(s.sessions, tenant, token);
    (s.(sessions := read),
     if !found.Found? then Err(NoSession(S.NotFound))
     else match ProvedAs(found.live) case None => Err(PasswordNotProved) case Some(who) => Ok(who))
  }

  function Begun(s: State, began: (P.State, P.Answer)): (State, Answer) {
    (s.(passkeys := began.0), if began.1.Refused? then Refused(began.1.why) else Started)
  }

  ghost function EnrolStartStep(
    s: State, tenant: TenantID, token: Token, authenticator: bool, allowed: bool, stored: bool): (State, Answer) {
    var (r, who) := Guard(s, tenant, token);
    match who
    case Err(answer) => (r, answer)
    case Ok(p) => Begun(r, P.Apply(r.passkeys, P.EnrolStart(tenant, p.user, p.session, authenticator, allowed, stored)))
  }

  ghost function ChallengeStartStep(
    s: State, tenant: TenantID, token: Token, allowed: bool, stored: bool): (State, Answer) {
    var (r, who) := Guard(s, tenant, token);
    match who
    case Err(answer) => (r, answer)
    case Ok(p) => Begun(r, P.Apply(r.passkeys, P.ChallengeStart(tenant, p.user, p.session, allowed, stored)))
  }

  /** The last statement of the transaction: the factor is recorded on the session. When it is
      not, the row goes back to what it was, as if its audit row had been refused. */
  ghost function Closed(
    r: State, tenant: TenantID, token: Token, user: UserID, written: (P.State, P.Answer), undone: P.State, fate: Fate)
    : (State, Answer) {
    if written.1.Refused? then (r.(passkeys := written.0), Refused(written.1.why))
    else
      var (done, answer) := S.CompleteStep(r.sessions, tenant, token, Some(user), S.FACTOR_PASSKEY, fate);
      match answer
      case Opened(_, rotated) => (r.(sessions := done, passkeys := written.0), SignedIn(rotated))
      case Failed(why) => (r.(sessions := done, passkeys := undone), NoSession(why))
      case _ => (r.(sessions := done, passkeys := undone), NoSession(S.NotFound))
  }

  /** The first half of an enrolment's finish: both guards, the challenge and the claim. */
  ghost function EnrolClaimStep(
    s: State, tenant: TenantID, token: Token, authenticator: bool, made: Option<P.Made>, deleted: bool)
    : (State, Answer)
  {
    var (r, who) := Guard(s, tenant, token);
    match who
    case Err(answer) => (r, answer)
    case Ok(p) =>
      var (t, claim) := P.Apply(r.passkeys, P.EnrolClaim(tenant, p.user, p.session, authenticator, made, deleted));
      if claim.Refused? then (r.(passkeys := t), Refused(claim.why))
      else (r.(passkeys := t, waiting := r.waiting[r.passkeys.nextReg := token]), Claimed)
  }

  /** The second half: the row, its audit row and the completion, on one transaction. `row` is
      how the writes of the passkey module end, `upgrade` how the session's do. */
  ghost function EnrolWriteStep(s: State, id: P.RegID, row: Fate, upgrade: Fate): (State, Answer) {
    if id !in s.waiting || id !in s.passkeys.claimed then (s, Refused(P.NotFound))
    else
      var reg := s.passkeys.claimed[id];
      Closed(s.(waiting := s.waiting - {id}), reg.key.tenant, s.waiting[id], reg.row.user,
             P.Apply(s.passkeys, P.Writing(id, row)), P.Step(s.passkeys, P.Writing(id, AuditFailed)), upgrade)
  }

  ghost function ChallengeFinishStep(
    s: State, tenant: TenantID, token: Token, proved: Option<(P.CredID, string)>, deleted: bool, row: Fate,
      upgrade: Fate): (State, Answer)
  {
    var (r, who) := Guard(s, tenant, token);
    match who
    case Err(answer) => (r, answer)
    case Ok(p) =>
      Closed(r, tenant, token, p.user,
             P.Apply(r.passkeys, P.ChallengeFinish(tenant, p.user, p.session, proved, deleted, row)),
             P.Step(r.passkeys, P.ChallengeFinish(tenant, p.user, p.session, proved, deleted, AuditFailed)),
             upgrade)
  }

  // ----- runs --------------------------------------------------------------

  datatype Op =
    | Session(call: S.Op)
    | Portal(act: P.Op)
    | EnrolStart(tenant: TenantID, token: Token, authenticator: bool, allowed: bool, stored: bool)
    | EnrolClaim(tenant: TenantID, token: Token, authenticator: bool, made: Option<P.Made>, deleted: bool)
    | EnrolWrite(reg: P.RegID, row: Fate, upgrade: Fate)
    | ChallengeStart(tenant: TenantID, token: Token, allowed: bool, stored: bool)
    | ChallengeFinish(
      tenant: TenantID, token: Token, proved: Option<(P.CredID, string)>, deleted: bool, row: Fate, upgrade: Fate)

  ghost function Apply(s: State, op: Op): (State, Answer) {
    match op
    case Session(call) => (s.(sessions := S.Step(s.sessions, call)), Started)
    case Portal(act) => (s.(passkeys := P.Step(s.passkeys, act)), Started)
    case EnrolStart(tenant, token, authenticator, allowed, stored) => EnrolStartStep(s, tenant, token,
      authenticator, allowed, stored)
    case EnrolClaim(tenant, token, authenticator, made, deleted) =>
      EnrolClaimStep(s, tenant, token, authenticator, made, deleted)
    case EnrolWrite(reg, row, upgrade) => EnrolWriteStep(s, reg, row, upgrade)
    case ChallengeStart(tenant, token, allowed, stored) => ChallengeStartStep(s, tenant, token, allowed, stored)
    case ChallengeFinish(tenant, token, proved, deleted, row, upgrade) =>
      ChallengeFinishStep(s, tenant, token, proved, deleted, row, upgrade)
  }

  ghost function Step(s: State, op: Op): State {
    Apply(s, op).0
  }

  /** What the portal does to the passkeys. */
  predicate OfPortal(s: P.State, act: P.Op) {
    && !act.EnrolStart? && !act.EnrolFinish? && !act.EnrolClaim? && !act.ChallengeStart? && !act.ChallengeFinish?
    && (act.Writing? && act.reg in s.claimed ==> s.claimed[act.reg].holder.Person?)
  }

  /** Only these ceremonies record a passkey, and nothing else answers for a sign-in. */
  predicate Enabled(s: State, op: Op) {
    match op
    case Session(call) => S.Enabled(s.sessions, call) && (call.Complete? ==> call.factor != S.FACTOR_PASSKEY)
    case Portal(act) => OfPortal(s.passkeys, act)
    case EnrolStart(_, token, _, _, _) => S.Known(s.sessions, token)
    case EnrolClaim(_, token, _, _, _) => S.Known(s.sessions, token)
    case EnrolWrite(_, _, _) => true
    case ChallengeStart(_, token, _, _) => S.Known(s.sessions, token)
    case ChallengeFinish(_, token, _, _, _, _) => S.Known(s.sessions, token)
  }

  const FRESH := State(S.FRESH, P.FRESH, map[])

  ghost function Run(s: State, ops: seq<Op>): State {
    if ops == [] then s else Step(Run(s, ops[..|ops| - 1]), ops[|ops| - 1])
  }

  ghost predicate Admissible(s: State, ops: seq<Op>) {
    ops == [] ||
    (Admissible(s, ops[..|ops| - 1]) && Enabled(Run(s, ops[..|ops| - 1]), ops[|ops| - 1]))
  }
}
