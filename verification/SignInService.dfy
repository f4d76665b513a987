/** The sign-in half of the passkey module over both stores: the guard that reads the login
    session, and the finishes that record the factor on it in the same transaction. */
module SignInService {
  import opened Basics
  import opened SignInModel
  import opened SignInRuns
  import S = SessionModel
  import P = PasskeyModel
  import Runs = SessionRuns
  import Service = SessionService
  import Store = PasskeyService

  class SignIns {
    const sessions: Service.Sessions
    const passkeys: Store.Passkeys
    ghost var waiting: map<P.RegID, Token>

    ghost function View(): State
      reads this, sessions, passkeys
    {
      State(sessions.View(), passkeys.View(), waiting)
    }

    ghost predicate Valid()
      reads this, sessions
    {
      Runs.Inv(sessions.View())
    }

    constructor (sessions: Service.Sessions, passkeys: Store.Passkeys)
      ensures this.sessions == sessions && this.passkeys == passkeys && waiting == map[]
    {
      this.sessions, this.passkeys, waiting := sessions, passkeys, map[];
    }

    /** Refuses a session that proved no password, or that names nobody. */
    method ReadPrincipal(tenant: TenantID, token: Token) returns (who: Result<Principal, Answer>)
      requires Valid() && S.Known(sessions.View(), token)
      modifies sessions`cache
      ensures Valid() && (View(), who) == Guard(old(View()), tenant, token)
      ensures S.Known(sessions.View(), token) && (who.Err? ==> who.error != Claimed)
    {
      var found := sessions.Find(tenant, token);
      if !found.Found? { return Err(NoSession(S.NotFound)); }
      if S.FACTOR_PASSWORD !in found.live.factors || found.live.user.None? { return Err(PasswordNotProved); }
      return Ok(Principal(found.live.user.value, found.live.id));
    }

    method LoginEnrolStart(
      tenant: TenantID, token: Token, authenticator: bool, allowed: bool, stored: bool) returns (answer: Answer)
      requires Valid() && S.Known(sessions.View(), token)
      modifies sessions`cache, passkeys`ceremonies, passkeys`used, passkeys`fair
      ensures Valid()
      ensures (View(), answer) == Apply(old(View()), EnrolStart(tenant, token, authenticator, allowed, stored))
    {
      hide Guard, P.Apply, Runs.Inv;
      var who := ReadPrincipal(tenant, token);
      if who.Err? { return who.error; }
      var began := passkeys.LoginEnrolStart(tenant, who.value.user, who.value.session, authenticator, allowed, stored);
      return if began.Refused? then Refused(began.why) else Started;
    }

    method LoginStart(tenant: TenantID, token: Token, allowed: bool, stored: bool) returns (answer: Answer)
      requires Valid() && S.Known(sessions.View(), token)
      modifies sessions`cache, passkeys`ceremonies, passkeys`used, passkeys`fair
      ensures Valid()
      ensures (View(), answer) == Apply(old(View()), ChallengeStart(tenant, token, allowed, stored))
    {
      hide Guard, P.Apply, Runs.Inv;
      var who := ReadPrincipal(tenant, token);
      if who.Err? { return who.error; }
      var began := passkeys.LoginStart(tenant, who.value.user, who.value.session, allowed, stored);
      return if began.Refused? then Refused(began.why) else Started;
    }

    /** The completion is the last statement of the transaction. When it fails, the row of the
        passkey goes back to what it was. */
    method Close(
      tenant: TenantID, token: Token, user: UserID, landed: P.Answer, before: map<P.CredKey, P.Credential>,
      upgrade: Fate, ghost p: P.State)
      returns (answer: Answer)
      requires Valid() && S.Known(sessions.View(), token) && !landed.Refused?
      modifies sessions, passkeys`rows
      ensures Valid()
      ensures var written := old(passkeys.View());
              (View(), answer)
              == Closed(old(View()).(passkeys := p), tenant, token, user, (written, landed),
                written.(rows := before), upgrade)
    {
      hide Runs.Inv, S.CompleteStep;
      var upgraded := sessions.Complete(tenant, token, Some(user), S.FACTOR_PASSKEY, upgrade);
      match upgraded
      case Opened(_, rotated) => return SignedIn(rotated);
      case Failed(why) =>
        passkeys.rows := before;
        return NoSession(why);
      case _ =>
        passkeys.rows := before;
        return NoSession(S.NotFound);
    }

    /** The finish of an enrolment up to its write: both guards, the challenge and the claim. */
    method EnrolUpToWrite(
      tenant: TenantID, token: Token, authenticator: bool, made: Option<P.Made>, deleted: bool)
      returns (claim: Result<P.Registration, Answer>)
      requires Valid() && S.Known(sessions.View(), token)
      modifies sessions`cache, passkeys`ceremonies, passkeys`used, passkeys`fair, passkeys`claimed, passkeys`nextReg
      modifies this`waiting
      ensures Valid() && S.Known(sessions.View(), token)
      ensures var (t, answer) := Apply(old(View()), EnrolClaim(tenant, token, authenticator, made, deleted));
              && View() == t && (answer == Claimed <==> claim.Ok?)
              && (claim.Err? ==> claim.error == answer)
              && (claim.Ok? ==>
                    var id := old(passkeys.nextReg);
                    && id in passkeys.claimed && passkeys.claimed[id] == claim.value
                    && id in waiting && waiting[id] == token
                    && Unspent(claim.value.row) && claim.value.key.tenant == tenant)
    {
      hide Guard, Runs.Inv;
      var who := ReadPrincipal(tenant, token);
      if who.Err? { return Err(who.error); }
      ClaimsCleanly(passkeys.View(), tenant, who.value, authenticator, made, deleted);
      hide P.Apply;
      ghost var id := passkeys.nextReg;
      var reg := passkeys.LoginEnrolClaim(
        tenant, who.value.user, who.value.session, authenticator, made, deleted);
      if reg.Err? { return Err(Refused(reg.error.why)); }
      waiting := waiting[id := token];
      return Ok(reg.value);
    }

    /** The transaction of an enrolment, whatever other calls did since its claim. */
    method EnrolWriteAndComplete(reg: P.Registration, token: Token, row: Fate, upgrade: Fate, ghost id: P.RegID)
      returns (answer: Answer)
      requires Valid() && S.Known(sessions.View(), token) && Unspent(reg.row)
      requires id in passkeys.claimed && passkeys.claimed[id] == reg && id in waiting && waiting[id] == token
      modifies sessions, passkeys`rows, passkeys`claimed, passkeys`fair, this`waiting
      ensures Valid()
      ensures (View(), answer) == Apply(old(View()), EnrolWrite(id, row, upgrade))
    {
      hide Guard, Closed, P.Apply, Runs.Inv, S.CompleteStep;
      var before := passkeys.rows;
      ghost var p := passkeys.View();
      UndoneWrite(p, id, row);
      waiting := waiting - {id};
      var landed := passkeys.RegisterWrite(reg, row, id);
      if landed.Refused? {
        RefusalCloses(
          View().(passkeys := p), reg.key.tenant, token, reg.row.user, (passkeys.View(), landed), upgrade);
        return Refused(landed.why);
      }
      answer := Close(reg.key.tenant, token, reg.row.user, landed, before, upgrade, p);
    }

    /** The finish of an enrolment with nothing between its halves. */
    method LoginEnrolFinish(
      tenant: TenantID, token: Token, authenticator: bool, made: Option<P.Made>, deleted: bool, row: Fate,
        upgrade: Fate)
      returns (answer: Answer)
      requires Valid() && S.Known(sessions.View(), token)
      modifies sessions, passkeys, this`waiting
      ensures Valid()
      ensures var (t, first) := Apply(old(View()), EnrolClaim(tenant, token, authenticator, made, deleted));
              (View(), answer)
              == if first != Claimed then (t, first) else Apply(t, EnrolWrite(old(passkeys.nextReg), row, upgrade))
    {
      hide Guard, Closed, P.Apply, Runs.Inv, Apply;
      ghost var id := passkeys.nextReg;
      var claim := EnrolUpToWrite(tenant, token, authenticator, made, deleted);
      if claim.Err? { return claim.error; }
      answer := EnrolWriteAndComplete(claim.value, token, row, upgrade, id);
    }

    method LoginFinish(
      tenant: TenantID, token: Token, proved: Option<(P.CredID, string)>, deleted: bool, row: Fate, upgrade: Fate)
      returns (answer: Answer)
      requires Valid() && S.Known(sessions.View(), token)
      modifies sessions, passkeys`rows, passkeys`ceremonies, passkeys`used, passkeys`fair
      ensures Valid()
      ensures (View(), answer) == Apply(old(View()), ChallengeFinish(tenant, token, proved, deleted, row, upgrade))
    {
      hide Guard, Closed, P.Apply, Runs.Inv, S.CompleteStep;
      var who := ReadPrincipal(tenant, token);
      if who.Err? { return who.error; }
      var before := passkeys.rows;
      ghost var p := passkeys.View();
      UndoneAssertion(p, tenant, who.value, proved, deleted, row);
      var landed := passkeys.LoginFinish(tenant, who.value.user, who.value.session, proved, deleted, row);
      if landed.Refused? {
        RefusalCloses(
          View().(passkeys := p), tenant, token, who.value.user, (passkeys.View(), landed), upgrade);
        return Refused(landed.why);
      }
      answer := Close(tenant, token, who.value.user, landed, before, upgrade, p);
    }
  }

  /** What was refused completes nothing. */
  lemma RefusalCloses(r: State, tenant: TenantID, token: Token, user: UserID, written: (P.State, P.Answer), fate: Fate)
    requires written.1.Refused?
    ensures forall undone ::
              Closed(r, tenant, token, user, written, undone, fate)
              == (r.(passkeys := written.0), Refused(written.1.why))
  {
  }

  /** A row that a registration writes: never used, and not removed. */
  predicate Unspent(row: P.Credential) {
    row.lastUsedAt == None && row.deletedAt == None
  }

  lemma ClaimsCleanly(
    p: P.State, tenant: TenantID, who: Principal, authenticator: bool, made: Option<P.Made>, deleted: bool)
    ensures var (t, claim) := P.Apply(p, P.EnrolClaim(tenant, who.user, who.session, authenticator, made, deleted));
            if claim.Refused? then claim != P.Claimed
            else
              && claim == P.Claimed && p.nextReg in t.claimed
              && Unspent(t.claimed[p.nextReg].row) && t.claimed[p.nextReg].key.tenant == tenant
  {
  }

  /** An enrolment whose row is taken back is one whose audit row was refused. */
  lemma UndoneWrite(p: P.State, id: P.RegID, row: Fate)
    ensures var (t, answer) := P.Apply(p, P.Writing(id, row));
            !answer.Refused? ==> t.(rows := p.rows) == P.Step(p, P.Writing(id, AuditFailed))
  {
  }

  lemma UndoneAssertion(
    p: P.State, tenant: TenantID, who: Principal, proved: Option<(P.CredID, string)>, deleted: bool, row: Fate)
    ensures var (t, answer) := P.Apply(p, P.ChallengeFinish(tenant, who.user, who.session, proved, deleted, row));
            !answer.Refused? ==>
              t.(rows := p.rows)
                == P.Step(p, P.ChallengeFinish(tenant, who.user, who.session, proved, deleted, AuditFailed))
  {
  }
}
