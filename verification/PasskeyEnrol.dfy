/** When a passkey enrolled at sign-in is the first factor of its person. The guard that
    refuses a held factor reads before the transaction of the registration opens, so a device
    may land between the guard and the write. */
module PasskeyEnrol {
  import opened Basics
  import opened PasskeyModel
  import opened PasskeyTheorems
  import opened PasskeyCap

  // ----- what a person holds, over any run ---------------------------------

  /** This call landed a device for the person. */
  predicate Gains(s: State, op: Op, tenant: TenantID, user: UserID) {
    && Apply(s, op).1 == Registered
    && match op
       case PortalFinish(home, who, _, _, _) => home == tenant && who == user
       case EnrolFinish(home, who, _, _, _, _, _) => home == tenant && who == user
       case Writing(id, _) => id in s.claimed && s.claimed[id].key.tenant == tenant && s.claimed[id].row.user == user
       case _ => false
  }

  /** This call removed a device of the person. */
  predicate Loses(s: State, op: Op, tenant: TenantID, user: UserID) {
    op.Remove? && Apply(s, op).1 == Removed && op.key.tenant == tenant && op.user == user
  }

  function Gained(s: State, ops: seq<Op>, tenant: TenantID, user: UserID): nat {
    if ops == [] then 0
    else
      var init, last := ops[..|ops| - 1], ops[|ops| - 1];
      Gained(s, init, tenant, user) + if Gains(Run(s, init), last, tenant, user) then 1 else 0
  }

  function Lost(s: State, ops: seq<Op>, tenant: TenantID, user: UserID): nat {
    if ops == [] then 0
    else
      var init, last := ops[..|ops| - 1], ops[|ops| - 1];
      Lost(s, init, tenant, user) + if Loses(Run(s, init), last, tenant, user) then 1 else 0
  }

  lemma WriteHolds(s: State, id: RegID, fate: Fate, tenant: TenantID, user: UserID)
    requires SoundClaims(s)
    ensures Held(WriteStep(s, id, fate).0, tenant, user)
            == Held(s, tenant, user) + if Gains(s, Writing(id, fate), tenant, user) then 1 else 0
  {
    if id in s.claimed {
      var mid := s.(claimed := s.claimed - {id}, fair := s.fair - {id});
      assert LiveOf(mid, tenant, user) == LiveOf(s, tenant, user);
      LandingCounts(mid, s.claimed[id], fate, tenant, user);
    }
  }

  lemma RemovalHolds(s: State, key: CredKey, user: UserID, fate: Fate, tenant: TenantID, who: UserID)
    ensures var (t, answer) := RemoveStep(s, key, user, fate);
            Held(s, tenant, who)
            == Held(t, tenant, who) + if answer == Removed && key.tenant == tenant && user == who then 1 else 0
  {
    var (t, answer) := RemoveStep(s, key, user, fate);
    if answer == Removed && key.tenant == tenant && user == who {
      assert LiveOf(s, tenant, who) == LiveOf(t, tenant, who) + {key};
    } else {
      assert LiveOf(s, tenant, who) == LiveOf(t, tenant, who);
    }
  }

  /** Whatever neither lands nor removes leaves the devices of everybody. */
  lemma OthersHold(s: State, op: Op, tenant: TenantID, user: UserID)
    requires !op.PortalFinish? && !op.EnrolFinish? && !op.Writing? && !op.Remove?
    ensures Held(Step(s, op), tenant, user) == Held(s, tenant, user)
  {
    assert LiveOf(Step(s, op), tenant, user) == LiveOf(s, tenant, user);
  }

  lemma StepHolds(s: State, op: Op, tenant: TenantID, user: UserID)
    requires SoundClaims(s)
    ensures Held(Step(s, op), tenant, user) + (if Loses(s, op, tenant, user) then 1 else 0)
            == Held(s, tenant, user) + if Gains(s, op, tenant, user) then 1 else 0
  {
    hide FinishStep, WriteStep, RemoveStep;
    match op
    case PortalFinish(home, who, made, deleted, fate) =>
      FinishCounts(s, Person(home, who), who, made, deleted, fate, tenant, user);
    case EnrolFinish(home, who, session, authenticator, made, deleted, fate) =>
      FinishCounts(s, SignIn(home, session), who, made, deleted, fate, tenant, user);
    case Writing(id, fate) => WriteHolds(s, id, fate, tenant, user);
    case Remove(key, who, fate) => RemovalHolds(s, key, who, fate, tenant, user);
    case _ => OthersHold(s, op, tenant, user);
  }

  /** Over any interleaving, what a person holds at the end is what it held at the start, with
      every device that landed for it and without every one that was removed. */
  lemma {:induction false} HoldingsBalance(s: State, ops: seq<Op>, tenant: TenantID, user: UserID)
    requires SoundClaims(s)
    ensures Held(Run(s, ops), tenant, user) + Lost(s, ops, tenant, user)
            == Held(s, tenant, user) + Gained(s, ops, tenant, user)
  {
    if ops != [] {
      var init, last := ops[..|ops| - 1], ops[|ops| - 1];
      HoldingsBalance(s, init, tenant, user);
      LandingsAreRemovals(s, init, CredKey(0, 0));
      StepHolds(Run(s, init), last, tenant, user);
    }
  }

  // ----- the first factor --------------------------------------------------

  /** The write of a registration that a sign-in started. */
  predicate WritesEnrolment(s: State, op: Op) {
    op.Writing? && op.reg in s.claimed && s.claimed[op.reg].holder.SignIn?
  }

  /** An enrolment that lands leaves its person holding one device if and only if the person
      held none just before the write. */
  lemma LandsAsFirstIff(s: State, op: Op)
    requires SoundClaims(s) && WritesEnrolment(s, op) && Apply(s, op).1 == Registered
    ensures var tenant, user := s.claimed[op.reg].key.tenant, s.claimed[op.reg].row.user;
            && Held(Step(s, op), tenant, user) == Held(s, tenant, user) + 1
            && (Held(Step(s, op), tenant, user) == 1 <==> Held(s, tenant, user) == 0)
  {
    WriteHolds(s, op.reg, op.fate, s.claimed[op.reg].key.tenant, s.claimed[op.reg].row.user);
  }

  /** Claims in flight after a step were in flight before it, or are new. */
  ghost predicate Stands(s: State, t: State) {
    && s.nextReg <= t.nextReg
    && forall id :: id < s.nextReg && id in t.claimed ==> id in s.claimed && t.claimed[id] == s.claimed[id]
  }

  lemma FinishStands(s: State, holder: Holder, user: UserID, made: Option<Made>, deleted: bool, fate: Fate)
    ensures Stands(s, FinishStep(s, holder, user, made, deleted, fate).0)
  {
    hide PlanFor, Lands;
  }

  lemma ClaimStands(s: State, holder: Holder, user: UserID, made: Option<Made>, deleted: bool)
    ensures Stands(s, ClaimStep(s, holder, user, made, deleted).0)
  {
    hide PlanFor;
  }

  lemma StepStands(s: State, op: Op)
    ensures Stands(s, Step(s, op))
  {
    hide PlanFor, Lands, Held, FinishStep, ClaimStep;
    match op
    case PortalFinish(tenant, user, made, deleted, fate) =>
      FinishStands(s, Person(tenant, user), user, made, deleted, fate);
    case EnrolFinish(tenant, user, session, _, made, deleted, fate) =>
      FinishStands(s, SignIn(tenant, session), user, made, deleted, fate);
    case PortalClaim(tenant, user, made, deleted) => ClaimStands(s, Person(tenant, user), user, made, deleted);
    case EnrolClaim(tenant, user, session, _, made, deleted) =>
      ClaimStands(s, SignIn(tenant, session), user, made, deleted);
    case _ =>
  }

  /** A registration in flight is what its claim decided, until it is written. */
  lemma {:induction false} ClaimsStand(s: State, ops: seq<Op>, id: RegID)
    requires id < s.nextReg
    ensures s.nextReg <= Run(s, ops).nextReg
    ensures id in Run(s, ops).claimed ==> id in s.claimed && Run(s, ops).claimed[id] == s.claimed[id]
  {
    hide Step;
    if ops != [] {
      ClaimsStand(s, ops[..|ops| - 1], id);
      StepStands(Run(s, ops[..|ops| - 1]), ops[|ops| - 1]);
    }
  }

  /** An enrolment that claimed when its person held no factor and lands after any run of other
      calls: it is the first device of that person if and only if as many devices were removed
      from the person since the claim as landed for it. */
  lemma EnrolmentIsTheFirstIff(s: State, claim: Op, ops: seq<Op>, fate: Fate)
    requires SoundClaims(s) && claim.EnrolClaim? && Apply(s, claim).1 == Claimed
    requires s.nextReg in Run(Step(s, claim), ops).claimed
    requires Apply(Run(Step(s, claim), ops), Writing(s.nextReg, fate)).1 == Registered
    ensures !HoldsFactor(s, claim.tenant, claim.user, claim.authenticator)
    ensures var gained, lost := Gained(Step(s, claim), ops, claim.tenant, claim.user),
                                Lost(Step(s, claim), ops, claim.tenant, claim.user);
            var t := Run(Step(s, claim), ops);
            && LiveAt(Step(t, Writing(s.nextReg, fate)), CredKey(claim.tenant, claim.made.value.id))
            && Held(Step(t, Writing(s.nextReg, fate)), claim.tenant, claim.user) + lost == 1 + gained
            && (Held(Step(t, Writing(s.nextReg, fate)), claim.tenant, claim.user) == 1 <==> gained == lost)
  {
    var u := Step(s, claim);
    ClaimedIs(s, claim);
    OthersHold(s, claim, claim.tenant, claim.user);
    hide Step, Apply, Held, LiveAt;
    HoldingsBalance(u, ops, claim.tenant, claim.user);
    ClaimsStand(u, ops, s.nextReg);
    LandingsAreRemovals(u, ops, CredKey(0, 0));
    var t := Run(u, ops);
    LandsAsFirstIff(t, Writing(s.nextReg, fate));
    LandsLive(t, s.nextReg, fate);
  }

  /** What an enrolment that claimed is about to write. */
  lemma ClaimedIs(s: State, claim: Op)
    requires SoundClaims(s) && claim.EnrolClaim? && Apply(s, claim).1 == Claimed
    ensures !HoldsFactor(s, claim.tenant, claim.user, claim.authenticator) && claim.made.Some?
    ensures var u := Step(s, claim);
            && SoundClaims(u) && u.nextReg == s.nextReg + 1 && s.nextReg in u.claimed
            && u.claimed[s.nextReg].holder.SignIn? && u.claimed[s.nextReg].row.user == claim.user
            && u.claimed[s.nextReg].key == CredKey(claim.tenant, claim.made.value.id)
  {
    hide Held;
  }

  lemma LandsLive(s: State, id: RegID, fate: Fate)
    requires SoundClaims(s) && id in s.claimed && Apply(s, Writing(id, fate)).1 == Registered
    ensures LiveAt(Step(s, Writing(id, fate)), s.claimed[id].key)
  {
  }

  // ----- two sign-ins at once ----------------------------------------------

  /** Two sign-ins of one person that holds no factor. Both pass the guard before either
      writes, and the first one writes. */
  const TWO_SIGN_INS: seq<Op> := [
    EnrolStart(0, 7, 1, false, true, true),
    EnrolClaim(0, 7, 1, false, Some(Device(1)), true),
    EnrolStart(0, 7, 2, false, true, true),
    EnrolClaim(0, 7, 2, false, Some(Device(2)), true),
    Writing(0, Committed)]

  /** The enrolment of the second lands although its person holds a factor by then. */
  lemma SecondFactorLands()
    ensures var s := Run(FRESH, TWO_SIGN_INS);
            && Held(s, 0, 7) == 1 && WritesEnrolment(s, Writing(1, Committed))
            && Apply(s, Writing(1, Committed)).1 == Registered && Held(Step(s, Writing(1, Committed)), 0, 7) == 2
  {
    assert Settled(2, 1) == TWO_SIGN_INS by {
      assert Queued(1) == Queued(0) + TWO_SIGN_INS[..2];
      assert Queued(2) == Queued(1) + TWO_SIGN_INS[2..4];
      assert Settled(2, 0) == Queued(2);
    }
    EnrolmentsPileUp(2, 1);
    var s := Run(FRESH, TWO_SIGN_INS);
    hide Settled, Queued, Run;
    LandOne(s, 2, QueuedReg(1));
  }
}
