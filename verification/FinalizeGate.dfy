/** What a person still owes after the password, and what that makes of the finalize
    gate. One function answers the password step, the gate, and the enrolment guard. */
module FinalizeGate {
  import opened Basics
  import opened SessionModel
  import opened SessionService

  /** What the database says about one account: the live passkeys, the active
      authenticator, and whether the policy of its organization demands a factor. */
  datatype Account = Account(passkey: bool, authenticator: bool, required: bool)

  function PendingSteps(person: Option<UserID>, account: Account): (steps: seq<string>)
    ensures steps != [] <==> person.Some? && (account.passkey || account.authenticator || account.required)
  {
    if person.None? then []
    else
      var challenges :=
        (if account.passkey then [STEP_CHALLENGE_PASSKEY] else [])
        + (if account.authenticator then [STEP_CHALLENGE_OTP] else []);
      if challenges != [] then challenges
      else if !account.required then []
      else [STEP_ENROL_PASSKEY, STEP_ENROL_OTP]
  }

  /** The guard of the sign-in enrolment reads the steps, and never the two tables. */
  predicate HoldsFactor(person: Option<UserID>, account: Account) {
    exists step <- PendingSteps(person, account) :: IsChallengeStep(step)
  }

  lemma EnrolStepsAreNotChallenges()
    ensures !IsChallengeStep(STEP_ENROL_PASSKEY) && !IsChallengeStep(STEP_ENROL_OTP)
  {
  }

  /** Reading the steps finds exactly the factors the tables hold. */
  lemma StepsNameTheFactors(person: UserID, account: Account)
    ensures HoldsFactor(Some(person), account) <==> account.passkey || account.authenticator
  {
    EnrolStepsAreNotChallenges();
    var steps := PendingSteps(Some(person), account);
    if account.passkey {
      assert STEP_CHALLENGE_PASSKEY in steps;
    } else if account.authenticator {
      assert STEP_CHALLENGE_OTP in steps;
    }
  }

  /** What is owed, step by step: a challenge of each kind that is held, the passkey first; and
      both enrolments, the passkey first again, exactly when nothing is held and the policy
      demands a factor. */
  lemma StepsAreExact(person: UserID, account: Account)
    ensures var steps := PendingSteps(Some(person), account);
            && ("webauthn" in steps <==> account.passkey)
            && ("otp" in steps <==> account.authenticator)
            && ("webauthn_enroll" in steps <==> account.required && !account.passkey && !account.authenticator)
            && ("otp_enroll" in steps <==> account.required && !account.passkey && !account.authenticator)
            && (forall step <- steps :: step in {"webauthn", "otp", "webauthn_enroll", "otp_enroll"})
            && |steps| <= 2 && (|steps| == 2 ==> steps[0] in {"webauthn", "webauthn_enroll"} && steps[1] != steps[0])
    ensures PendingSteps(None, account) == []
  {
    assert |"webauthn"| == 8 && |"otp"| == 3 && |"webauthn_enroll"| == 15 && |"otp_enroll"| == 10;
  }

  /** The gate and the account together. A person who holds a factor must have proved a
      second factor in this sign-in. A person who holds none passes unless the policy
      demands one, and then nothing the session carries but a scan opens the gate. */
  lemma GateOfAnAccount(live: LoginSession, person: UserID, account: Account)
    requires live.user == Some(person)
    ensures PassesGate(live, Some(PendingSteps(live.user, account))) <==>
            && live.factors != map[]
            && (|| FACTOR_SCAN in live.factors
                || (if account.passkey || account.authenticator then live.ProvedSecondFactor()
                    else !account.required))
  {
    EnrolStepsAreNotChallenges();
    var steps := PendingSteps(live.user, account);
    if !account.passkey && !account.authenticator && account.required {
      assert steps[0] == STEP_ENROL_PASSKEY && steps[0] in steps;
    } else {
      assert forall step <- steps :: IsChallengeStep(step);
    }
  }

  /** An enrolment that lands turns the step owed into the challenge the proved passkey
      meets, so a sign-in that was stuck on the demand passes. */
  lemma EnrolmentOpensTheGate(live: LoginSession, person: UserID, account: Account, at: Instant)
    requires live.user == Some(person) && FACTOR_SCAN !in live.factors
    requires account.required && !account.passkey && !account.authenticator
    ensures !PassesGate(live, Some(PendingSteps(live.user, account)))
    ensures PassesGate(WithFactor(live, live.user, FACTOR_PASSKEY, at),
                       Some(PendingSteps(live.user, account.(passkey := true))))
  {
    GateOfAnAccount(live, person, account);
    assert FACTOR_PASSKEY in WithFactor(live, live.user, FACTOR_PASSKEY, at).factors;
    GateOfAnAccount(WithFactor(live, live.user, FACTOR_PASSKEY, at), person, account.(passkey := true));
  }
}
