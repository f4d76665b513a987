/** What a passkey ceremony at sign-in must achieve, over both stores. */
module SignInOutcomes {
  import opened Basics
  import opened SignInModel
  import opened SignInRuns
  import S = SessionModel
  import P = PasskeyModel
  import Runs = SessionRuns
  import Chain = SessionChain
  import Sessions = SessionOutcomes
  import Passkeys = PasskeyOutcomes

  /** The live session behind the token, which proved a password as this person. */
  ghost predicate PasswordProved(s: State, tenant: TenantID, token: Token, live: S.LoginSession, person: UserID) {
    && S.Known(s.sessions, token) && Sessions.Answers(s.sessions, tenant, token, live)
    && "pwd" in live.factors && live.user == Some(person)
  }

  // ----- the guard ---------------------------------------------------------

  /** The guard lets exactly a session through that proved a password and names somebody. */
  lemma GuardIsExact(s: State, tenant: TenantID, token: Token)
    requires Runs.Inv(s.sessions) && S.Known(s.sessions, token)
    ensures var who := Guard(s, tenant, token).1;
            && (who == Err(NoSession(S.NotFound)) <==> !Chain.Resolves(s.sessions, tenant, token))
            && (forall live :: Sessions.Answers(s.sessions, tenant, token, live) ==>
                  if "pwd" in live.factors && live.user.Some?
                  then who == Ok(Principal(live.user.value, live.id)) else who == Err(PasswordNotProved))
  {
    Runs.Lookup(s.sessions, tenant, token);
    hide Runs.Inv, Runs.Later, S.CachedFind, S.FindRow, S.Refilled;
  }

  /** A session that may not run a ceremony starts none, finishes none and moves no row. */
  lemma GuardRefuses(s: State, op: Op)
    requires Runs.Inv(s.sessions) && Enabled(s, op)
    requires op.EnrolStart? || op.EnrolClaim? || op.ChallengeStart? || op.ChallengeFinish?
    requires Guard(s, op.tenant, op.token).1.Err?
    ensures Apply(s, op).1 == Guard(s, op.tenant, op.token).1.error
    ensures Step(s, op).passkeys == s.passkeys && Step(s, op).sessions.rows == s.sessions.rows
  {
    GuardReads(s, op.tenant, op.token);
    hide Guard, Runs.Inv, Runs.Later;
  }

  // ----- the last statement of the transaction -----------------------------

  /** The completion of a session that names this person commits if and only if its own writes do.
      It hands out a token the session answers to with the passkey factor. */
  lemma ClosingAchieves(
    r: State, tenant: TenantID, token: Token, live: S.LoginSession, person: UserID, written: (P.State, P.Answer),
    undone: P.State, fate: Fate)
    requires Runs.Inv(r.sessions) && S.Known(r.sessions, token) && Sessions.Answers(r.sessions, tenant, token, live)
    requires live.user == Some(person) && !written.1.Refused?
    ensures var (t, answer) := Closed(r, tenant, token, person, written, undone, fate);
            && (answer.SignedIn? <==> fate == Committed)
            && t.passkeys == (if fate == Committed then written.0 else undone)
            && (answer.SignedIn? ==> Sessions.Answers(t.sessions, tenant, answer.token, SignedIn(live, r.sessions.now)))
            && (!answer.SignedIn? ==> t.sessions.rows == r.sessions.rows)
  {
    PasskeyIsNoPassword();
    Sessions.CompletionAchieves(r.sessions, tenant, token, live, Some(person), S.FACTOR_PASSKEY, fate);
    hide Runs.Inv, S.CompleteStep, S.FindRow;
  }

  lemma PasskeyIsNoPassword()
    ensures S.FACTOR_PASSKEY == "webauthn" && S.FACTOR_PASSWORD == "pwd" && "webauthn" != "pwd"
  {
    assert |"webauthn"| == 8 && |"pwd"| == 3;
  }

  /** The session after a passkey was recorded on it. */
  function SignedIn(live: S.LoginSession, now: Instant): S.LoginSession {
    live.(factors := live.factors["webauthn" := now], expiresAt := now + 43_200_000)
  }

  // ----- the challenge -----------------------------------------------------

  /** A challenge signs in if and only if its ceremony is open, the assertion was verified, the
      device is the person's and live, and both halves of the transaction commit. Otherwise
      neither the device nor the session moved. */
  lemma ChallengeSignsIn(
    s: State, tenant: TenantID, token: Token, live: S.LoginSession, person: UserID,
    proved: Option<(P.CredID, string)>, deleted: bool, row: Fate, upgrade: Fate)
    requires Runs.Inv(s.sessions) && PasswordProved(s, tenant, token, live, person)
    ensures var (t, answer) := Apply(s, ChallengeFinish(tenant, token, proved, deleted, row, upgrade));
            && (answer.SignedIn? <==>
                  && Passkeys.Answerable(s.passkeys, P.SignIn(tenant, live.id)) && proved.Some?
                  && Passkeys.Owned(s.passkeys, P.CredKey(tenant, proved.value.0), person)
                  && row == Committed && upgrade == Committed)
            && (answer.SignedIn? ==>
                  && Sessions.Answers(t.sessions, tenant, answer.token, SignedIn(live, s.sessions.now))
                  && var key := P.CredKey(tenant, proved.value.0);
                     key in t.passkeys.rows && t.passkeys.rows[key].record == proved.value.1)
            && (!answer.SignedIn? ==> t.passkeys.rows == s.passkeys.rows && t.sessions.rows == s.sessions.rows)
  {
    GuardIsExact(s, tenant, token);
    GuardReads(s, tenant, token);
    hide Guard, Closed, P.Apply, P.Step, Runs.Inv, Runs.Later, S.FindRow;
    var (r, who) := Guard(s, tenant, token);
    SameAnswer(s, r, tenant, token, live);
    ChallengeCloses(r, tenant, token, live, person, proved, deleted, row, upgrade);
  }

  /** The same, from the state the guard left. */
  lemma ChallengeCloses(
    r: State, tenant: TenantID, token: Token, live: S.LoginSession, person: UserID,
    proved: Option<(P.CredID, string)>, deleted: bool, row: Fate, upgrade: Fate)
    requires Runs.Inv(r.sessions) && S.Known(r.sessions, token) && Sessions.Answers(r.sessions, tenant, token, live)
    requires live.user == Some(person)
    ensures var act := Assertion(tenant, Principal(person, live.id), proved, deleted, row);
            var undone := Assertion(tenant, Principal(person, live.id), proved, deleted, AuditFailed);
            var (t, answer) :=
              Closed(r, tenant, token, person, P.Apply(r.passkeys, act), P.Step(r.passkeys, undone), upgrade);
            && (answer.SignedIn? <==>
                  && Passkeys.Answerable(r.passkeys, P.SignIn(tenant, live.id)) && proved.Some?
                  && Passkeys.Owned(r.passkeys, P.CredKey(tenant, proved.value.0), person)
                  && row == Committed && upgrade == Committed)
            && (answer.SignedIn? ==>
                  && Sessions.Answers(t.sessions, tenant, answer.token, SignedIn(live, r.sessions.now))
                  && var key := P.CredKey(tenant, proved.value.0);
                     key in t.passkeys.rows && t.passkeys.rows[key].record == proved.value.1)
            && (!answer.SignedIn? ==> t.passkeys.rows == r.passkeys.rows && t.sessions.rows == r.sessions.rows)
  {
    hide Closed, P.Apply, P.Step, Runs.Inv, S.FindRow;
    var act := Assertion(tenant, Principal(person, live.id), proved, deleted, row);
    var undone := Assertion(tenant, Principal(person, live.id), proved, deleted, AuditFailed);
    Passkeys.AssertionAchieves(r.passkeys, tenant, person, live.id, proved, deleted, row);
    Passkeys.AssertionAchieves(r.passkeys, tenant, person, live.id, proved, deleted, AuditFailed);
    StepIsApply(r.passkeys, undone);
    if !P.Apply(r.passkeys, act).1.Refused? {
      ClosingAchieves(r, tenant, token, live, person, P.Apply(r.passkeys, act), P.Step(r.passkeys, undone), upgrade);
    } else {
      RefusedCloses(r, tenant, token, person, P.Apply(r.passkeys, act), P.Step(r.passkeys, undone), upgrade);
    }
  }

  lemma StepIsApply(p: P.State, act: P.Op)
    ensures P.Step(p, act) == P.Apply(p, act).0
  {
  }

  lemma RefusedCloses(
    r: State, tenant: TenantID, token: Token, person: UserID, written: (P.State, P.Answer), undone: P.State, fate: Fate)
    requires written.1.Refused?
    ensures Closed(r, tenant, token, person, written, undone, fate)
            == (r.(passkeys := written.0), Refused(written.1.why))
  {
  }

  /** A read that refilled the cache answers as before. */
  lemma SameAnswer(s: State, r: State, tenant: TenantID, token: Token, live: S.LoginSession)
    requires Runs.Inv(s.sessions) && Runs.Inv(r.sessions) && S.Known(s.sessions, token)
    requires r == s.(sessions := s.sessions.(cache := r.sessions.cache))
    requires Sessions.Answers(s.sessions, tenant, token, live)
    ensures S.Known(r.sessions, token) && Sessions.Answers(r.sessions, tenant, token, live)
  {
    var k := Runs.FoundRow(s.sessions, tenant, token);
    Sessions.RowAnswers(r.sessions, k, token);
  }

  // ----- the enrolment -----------------------------------------------------

  /** The first half of an enrolment claims if and only if the person holds no factor, the ceremony
      is open, the answer was verified and nobody's live row holds the device. It waits for its
      transaction under the token it came with. */
  lemma EnrolmentClaims(
    s: State, tenant: TenantID, token: Token, live: S.LoginSession, person: UserID, authenticator: bool,
    made: Option<P.Made>, deleted: bool)
    requires Runs.Inv(s.sessions) && PasswordProved(s, tenant, token, live, person)
    ensures var (t, answer) := Apply(s, EnrolClaim(tenant, token, authenticator, made, deleted));
            && (answer == Refused(P.FactorAlreadyHeld) <==> authenticator || P.Held(s.passkeys, tenant, person) > 0)
            && (answer == Claimed <==>
                  && !authenticator && P.Held(s.passkeys, tenant, person) == 0
                  && Passkeys.Answerable(s.passkeys, P.SignIn(tenant, live.id)) && made.Some?
                  && !Passkeys.Taken(s.passkeys, P.CredKey(tenant, made.value.id)))
            && (answer == Claimed ==>
                  && t.waiting == s.waiting[s.passkeys.nextReg := token] && s.passkeys.nextReg in t.passkeys.claimed
                  && t.passkeys.claimed[s.passkeys.nextReg].row.user == person)
            && t.passkeys.rows == s.passkeys.rows && t.sessions.rows == s.sessions.rows
  {
    GuardIsExact(s, tenant, token);
    GuardReads(s, tenant, token);
    hide Guard, Runs.Inv, Runs.Later, S.FindRow, P.Held, P.ClaimStep;
    Passkeys.ClaimAchieves(s.passkeys, P.SignIn(tenant, live.id), person, made, deleted);
    ClaimRefusals(s.passkeys, P.SignIn(tenant, live.id), person, made, deleted);
  }

  lemma ClaimRefusals(s: P.State, holder: P.Holder, user: UserID, made: Option<P.Made>, deleted: bool)
    ensures var answer := P.ClaimStep(s, holder, user, made, deleted).1;
            answer != P.Claimed ==> answer.Refused? && answer.why != P.FactorAlreadyHeld
  {
  }

  /** The second half signs in if and only if the table is still as its plan found it, the session
      still answers to the token it came with, and both halves of the transaction commit. */
  lemma EnrolmentSignsIn(s: State, id: P.RegID, row: Fate, upgrade: Fate)
    requires Inv(s) && id in s.waiting && id in s.passkeys.claimed
    requires s.passkeys.claimed[id].holder.SignIn?
    ensures var reg, token := s.passkeys.claimed[id], s.waiting[id];
            var (t, answer) := Apply(s, EnrolWrite(id, row, upgrade));
            var lands := if reg.plan == P.Insert then reg.key !in s.passkeys.rows
                         else reg.key in s.passkeys.rows && s.passkeys.rows[reg.key].deletedAt.Some?;
            && (answer.SignedIn? <==>
                  && lands && row == Committed && upgrade == Committed
                  && Chain.Resolves(s.sessions, reg.key.tenant, token)
                  && S.FindRow(s.sessions, reg.key.tenant, Digest(token)).value.user == Some(reg.row.user))
            && (answer.SignedIn? ==>
                  && t.passkeys.rows == s.passkeys.rows[reg.key := reg.row]
                  && Sessions.Answers(t.sessions, reg.key.tenant, answer.token,
                       SignedIn(S.FindRow(s.sessions, reg.key.tenant, Digest(token)).value, s.sessions.now)))
            && (!answer.SignedIn? ==> t.passkeys.rows == s.passkeys.rows && t.sessions.rows == s.sessions.rows)
            && id !in t.waiting
  {
    var reg, token, r := s.passkeys.claimed[id], s.waiting[id], s.(waiting := s.waiting - {id});
    var written := P.Apply(s.passkeys, P.Writing(id, row));
    var undone := P.Step(s.passkeys, P.Writing(id, AuditFailed));
    assert Backs(s, id);
    Passkeys.WritingAchieves(s.passkeys, id, row);
    Passkeys.WritingAchieves(s.passkeys, id, AuditFailed);
    WritingRefusals(s.passkeys, id, row);
    StepIsApply(s.passkeys, P.Writing(id, AuditFailed));
    hide Closed, P.Apply, P.Step, Runs.Inv, S.FindRow;
    if written.1.Refused? {
      RefusedCloses(r, reg.key.tenant, token, reg.row.user, written, undone, upgrade);
    } else if Chain.Resolves(s.sessions, reg.key.tenant, token) {
      var live := S.FindRow(s.sessions, reg.key.tenant, Digest(token)).value;
      WaitingNames(s, id, live);
      if live.user == Some(reg.row.user) {
        ClosingAchieves(r, reg.key.tenant, token, live, reg.row.user, written, undone, upgrade);
      } else {
        ClosingRefuses(r, reg.key.tenant, token, reg.row.user, written, undone, upgrade);
      }
    } else {
      ClosingRefuses(r, reg.key.tenant, token, reg.row.user, written, undone, upgrade);
    }
    ClosesAs(r, reg.key.tenant, token, reg.row.user, written, undone, upgrade);
  }

  lemma WritingRefusals(s: P.State, id: P.RegID, row: Fate)
    requires id in s.claimed
    ensures P.Apply(s, P.Writing(id, row)).1 == P.Registered || P.Apply(s, P.Writing(id, row)).1.Refused?
  {
  }

  /** A session that still answers to the token of an enrolment in flight names somebody. */
  lemma WaitingNames(s: State, id: P.RegID, live: S.LoginSession)
    requires Inv(s) && id in s.waiting && id in s.passkeys.claimed
    requires Sessions.Answers(s.sessions, s.passkeys.claimed[id].key.tenant, s.waiting[id], live)
    ensures live.user.Some?
  {
    assert Backs(s, id);
    var k := Runs.FoundRow(s.sessions, s.passkeys.claimed[id].key.tenant, s.waiting[id]);
  }

  /** A session that is gone, or names somebody else, takes the device of the transaction back. */
  lemma ClosingRefuses(
    r: State, tenant: TenantID, token: Token, person: UserID, written: (P.State, P.Answer), undone: P.State, fate: Fate)
    requires Runs.Inv(r.sessions) && S.Known(r.sessions, token) && !written.1.Refused?
    requires Chain.Resolves(r.sessions, tenant, token) ==>
               var live := S.FindRow(r.sessions, tenant, Digest(token)).value;
               live.user.Some? && live.user != Some(person)
    ensures var (t, answer) := Closed(r, tenant, token, person, written, undone, fate);
            !answer.SignedIn? && t.passkeys == undone && t.sessions.rows == r.sessions.rows
  {
    Runs.Lookup(r.sessions, tenant, token);
    hide Runs.Inv, Runs.Later, S.FindRow, S.CachedFind, S.Refilled, S.Rotated;
  }
}
