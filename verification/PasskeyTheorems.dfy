/** The main results about passkey rows and challenges: a device lands once between two
    removals, a live row keeps its owner, and the answers a holder gave are paid for by the
    challenges it started. */
module PasskeyTheorems {
  import opened Basics
  import opened PasskeyModel

  // ----- one device, many registrations ------------------------------------

  /** This call answered that the device is registered. */
  function LandsOn(s: State, op: Op): Option<CredKey> {
    if Apply(s, op).1 != Registered then None
    else
      match op
      case PortalFinish(tenant, _, made, _, _) => if made.Some? then Some(CredKey(tenant, made.value.id)) else None
      case EnrolFinish(tenant, _, _, _, made, _, _) => if made.Some? then Some(CredKey(tenant, made.value.id)) else None
      case Writing(reg, _) => if reg in s.claimed then Some(s.claimed[reg].key) else None
      case _ => None
  }

  function RemovesFrom(s: State, op: Op): Option<CredKey> {
    if op.Remove? && Apply(s, op).1 == Removed then Some(op.key) else None
  }

  function Landings(s: State, ops: seq<Op>, key: CredKey): nat {
    if ops == [] then 0
    else
      var init, last := ops[..|ops| - 1], ops[|ops| - 1];
      Landings(s, init, key) + if LandsOn(Run(s, init), last) == Some(key) then 1 else 0
  }

  function Removals(s: State, ops: seq<Op>, key: CredKey): nat {
    if ops == [] then 0
    else
      var init, last := ops[..|ops| - 1], ops[|ops| - 1];
      Removals(s, init, key) + if RemovesFrom(Run(s, init), last) == Some(key) then 1 else 0
  }

  function Living(s: State, key: CredKey): nat {
    if LiveAt(s, key) then 1 else 0
  }

  /** What the claims that are still to be written plan. Every plan writes a live row. */
  predicate SoundClaims(s: State) {
    forall id :: id in s.claimed ==> s.claimed[id].row.Live()
  }

  /** A live row keeps its owner, its RP ID and its birthday. */
  predicate SameDevice(s: State, t: State, key: CredKey)
    requires key in s.rows && key in t.rows
  {
    s.rows[key].user == t.rows[key].user && s.rows[key].rpID == t.rows[key].rpID
      && s.rows[key].createdAt == t.rows[key].createdAt
  }

  /** What one step does to one device, given what it answered. */
  ghost predicate Balances(s: State, t: State, landed: bool, removed: bool, key: CredKey) {
    && SoundClaims(t) && (key in s.rows ==> key in t.rows)
    && (landed ==> !LiveAt(s, key) && LiveAt(t, key))
    && (removed ==> LiveAt(s, key) && !LiveAt(t, key))
    && (!landed && !removed ==>
          && (LiveAt(s, key) <==> LiveAt(t, key))
          && (LiveAt(s, key) ==> SameDevice(s, t, key)))
  }

  lemma FinishBalances(
    s: State, holder: Holder, user: UserID, made: Option<Made>, deleted: bool, fate: Fate, key: CredKey)
    requires SoundClaims(s)
    ensures var (t, answer) := FinishStep(s, holder, user, made, deleted, fate);
            && (answer == Registered ==> made.Some?)
            && Balances(s, t, answer == Registered && CredKey(holder.tenant, made.value.id) == key, false, key)
  {
  }

  lemma WriteBalances(s: State, id: RegID, fate: Fate, key: CredKey)
    requires SoundClaims(s)
    ensures var (t, answer) := WriteStep(s, id, fate);
            && (answer == Registered ==> id in s.claimed)
            && Balances(s, t, answer == Registered && s.claimed[id].key == key, false, key)
  {
  }

  lemma ClaimsBalance(s: State, holder: Holder, user: UserID, made: Option<Made>, deleted: bool, key: CredKey)
    requires SoundClaims(s)
    ensures var (t, answer) := ClaimStep(s, holder, user, made, deleted);
            answer != Registered && answer != Removed && Balances(s, t, false, false, key)
  {
  }

  lemma StepBalances(s: State, op: Op, key: CredKey)
    requires SoundClaims(s)
    ensures Balances(s, Step(s, op), LandsOn(s, op) == Some(key), RemovesFrom(s, op) == Some(key), key)
  {
    hide FinishStep, WriteStep, ClaimStep, Landed;
    match op
    case PortalFinish(tenant, user, made, deleted, fate) =>
      FinishBalances(s, Person(tenant, user), user, made, deleted, fate, key);
    case EnrolFinish(tenant, user, session, authenticator, made, deleted, fate) =>
      FinishBalances(s, SignIn(tenant, session), user, made, deleted, fate, key);
    case PortalClaim(tenant, user, made, deleted) => ClaimsBalance(s, Person(tenant, user), user, made, deleted, key);
    case EnrolClaim(tenant, user, session, _, made, deleted) => ClaimsBalance(s, SignIn(tenant, session), user,
      made, deleted, key);
    case Writing(reg, fate) => WriteBalances(s, reg, fate, key);
    case _ =>
  }

  /** Over any interleaving of registrations split between the read and the write, with
      removals, renames and write-backs between, every landing of a device is paid for by a
      removal, but for the row that is live at the end. */
  lemma {:induction false} LandingsAreRemovals(s: State, ops: seq<Op>, key: CredKey)
    requires SoundClaims(s)
    ensures SoundClaims(Run(s, ops))
    ensures Landings(s, ops, key) + Living(s, key) == Removals(s, ops, key) + Living(Run(s, ops), key)
  {
    if ops != [] {
      LandingsAreRemovals(s, ops[..|ops| - 1], key);
      StepBalances(Run(s, ops[..|ops| - 1]), ops[|ops| - 1], key);
    }
  }

  /** Of any number of registrations that race on one device, at most one lands unless a
      removal separates them, and none does while the device is live. */
  lemma AtMostOneLands(s: State, ops: seq<Op>, key: CredKey)
    requires SoundClaims(s) && Removals(s, ops, key) == 0
    ensures Landings(s, ops, key) <= 1
    ensures LiveAt(s, key) ==> Landings(s, ops, key) == 0
  {
    LandingsAreRemovals(s, ops, key);
  }

  /** A live row belongs to one person under one RP ID until somebody removes it. */
  lemma {:induction false} OwnerIsKept(s: State, ops: seq<Op>, key: CredKey)
    requires SoundClaims(s) && LiveAt(s, key) && Removals(s, ops, key) == 0
    ensures LiveAt(Run(s, ops), key) && SameDevice(s, Run(s, ops), key)
  {
    if ops != [] {
      var init, last := ops[..|ops| - 1], ops[|ops| - 1];
      OwnerIsKept(s, init, key);
      LandingsAreRemovals(s, init, key);
      StepBalances(Run(s, init), last, key);
    }
  }

  // ----- the cap -----------------------------------------------------------

  /** A landing adds one device to its owner, and none to anybody else. */
  lemma LandingCounts(s: State, reg: Registration, fate: Fate, tenant: TenantID, user: UserID)
    requires reg.row.Live()
    ensures var t := Landed(s, reg, fate).0;
            Held(t, tenant, user)
            == Held(s, tenant, user)
               + if Landed(s, reg, fate).1 == Registered && reg.key.tenant == tenant
                 && reg.row.user == user then 1 else 0
  {
    var t := Landed(s, reg, fate).0;
    if Landed(s, reg, fate).1 == Registered && reg.key.tenant == tenant && reg.row.user == user {
      assert LiveOf(t, tenant, user) == LiveOf(s, tenant, user) + {reg.key};
    } else {
      assert LiveOf(t, tenant, user) == LiveOf(s, tenant, user);
    }
  }

  lemma FinishCounts(
    s: State, holder: Holder, who: UserID, made: Option<Made>, deleted: bool, fate: Fate, tenant: TenantID,
    user: UserID)
    ensures var (t, answer) := FinishStep(s, holder, who, made, deleted, fate);
            && Held(t, tenant, user)
               == Held(s, tenant, user) + (if answer == Registered && holder.tenant == tenant
                 && who == user then 1 else 0)
            && (answer == Registered ==> Open(s, holder))
            && t.ceremonies == if Open(s, holder) && deleted then s.ceremonies - {holder} else s.ceremonies
  {
    var u := Consumed(s, holder, deleted);
    assert LiveOf(u, tenant, user) == LiveOf(s, tenant, user);
    if Open(s, holder) && made.Some? {
      var key := CredKey(holder.tenant, made.value.id);
      var plan := PlanFor(u, key);
      if plan.Some? { LandingCounts(u, Registration(plan.value, key, NewRow(made.value, who, u.now), holder),
        fate, tenant, user); }
    }
  }

  /** Everything but a finish only ever lowers what a person holds. */
  lemma OthersNeverAdd(s: State, op: Op, tenant: TenantID, user: UserID)
    requires !op.Split() && !op.PortalFinish? && !op.EnrolFinish?
    ensures Held(Step(s, op), tenant, user) <= Held(s, tenant, user)
  {
    assert LiveOf(Step(s, op), tenant, user) <= LiveOf(s, tenant, user);
    SubsetSize(LiveOf(Step(s, op), tenant, user), LiveOf(s, tenant, user));
  }

  /** An enrolment whose guard, claim and write run with nothing between them is the first factor
      of its account. PasskeyEnrol says what becomes of the others. */
  lemma EnrolmentIsTheFirst(s: State, op: Op)
    requires op.EnrolFinish? && Apply(s, op).1 == Registered
    ensures Held(s, op.tenant, op.user) == 0 && !op.authenticator && Held(Step(s, op), op.tenant, op.user) == 1
  {
    FinishCounts(s, SignIn(op.tenant, op.session), op.user, op.made, op.deleted, op.fate, op.tenant, op.user);
  }

  // ----- challenges answer once --------------------------------------------

  function HolderOf(op: Op): Option<Holder> {
    match op
    case PortalStart(tenant, user, _, _) => Some(Person(tenant, user))
    case PortalFinish(tenant, user, _, _, _) => Some(Person(tenant, user))
    case EnrolStart(tenant, _, session, _, _, _) => Some(SignIn(tenant, session))
    case EnrolFinish(tenant, _, session, _, _, _, _) => Some(SignIn(tenant, session))
    case ChallengeStart(tenant, _, session, _, _) => Some(SignIn(tenant, session))
    case ChallengeFinish(tenant, _, session, _, _, _) => Some(SignIn(tenant, session))
    case PortalClaim(tenant, user, _, _) => Some(Person(tenant, user))
    case EnrolClaim(tenant, _, session, _, _, _) => Some(SignIn(tenant, session))
    case _ => None
  }

  predicate Finishes(op: Op) {
    op.PortalFinish? || op.EnrolFinish? || op.ChallengeFinish? || op.PortalClaim? || op.EnrolClaim?
  }

  /** The challenge was taken, however the ceremony ended. */
  predicate Takes(s: State, op: Op, holder: Holder) {
    Finishes(op) && HolderOf(op) == Some(holder)
      && Apply(s, op).1 !in {Refused(ChallengeExpired), Refused(FactorAlreadyHeld)}
  }

  predicate Stores(s: State, op: Op, holder: Holder) {
    HolderOf(op) == Some(holder) && Apply(s, op).1 == Started
  }

  function Taken(s: State, ops: seq<Op>, holder: Holder): nat {
    if ops == [] then 0
    else Taken(s, ops[..|ops| - 1], holder) + if Takes(Run(s, ops[..|ops| - 1]), ops[|ops| - 1], holder) then 1 else 0
  }

  function StoredCount(s: State, ops: seq<Op>, holder: Holder): nat {
    if ops == [] then 0
    else StoredCount(s, ops[..|ops| - 1], holder) + if Stores(Run(s, ops[..|ops| - 1]), ops[|ops| - 1], holder)
      then 1 else 0
  }

  /** How many of those answers left the challenge behind, because the cache did not delete it. */
  function KeptCount(s: State, ops: seq<Op>, holder: Holder): nat {
    if ops == [] then 0
    else
      var init, last := ops[..|ops| - 1], ops[|ops| - 1];
      KeptCount(s, init, holder) + if Takes(Run(s, init), last, holder) && !last.deleted then 1 else 0
  }

  lemma StepTakes(s: State, op: Op, holder: Holder)
    ensures var t := Step(s, op);
            && (Takes(s, op, holder) ==> holder in s.ceremonies && (holder in t.ceremonies ==> !op.deleted))
            && (Stores(s, op, holder) ==> !Takes(s, op, holder))
            && (holder in t.ceremonies && holder !in s.ceremonies ==> Stores(s, op, holder))
  {
  }

  /** In every run the answers a holder gave are paid for by the challenges it started and by
      the deletes that failed, with what is still stored left over. */
  lemma {:induction false} AnswersArePaidFor(ops: seq<Op>, holder: Holder)
    ensures Taken(FRESH, ops, holder) + (if holder in Run(FRESH, ops).ceremonies then 1 else 0)
            <= StoredCount(FRESH, ops, holder) + KeptCount(FRESH, ops, holder)
  {
    if ops != [] {
      var init, last := ops[..|ops| - 1], ops[|ops| - 1];
      AnswersArePaidFor(init, holder);
      StepTakes(Run(FRESH, init), last, holder);
    }
  }

  lemma {:induction false} NothingKept(s: State, ops: seq<Op>, holder: Holder)
    requires forall op <- ops :: Finishes(op) ==> op.deleted
    ensures KeptCount(s, ops, holder) == 0
  {
    if ops != [] {
      var init, last := ops[..|ops| - 1], ops[|ops| - 1];
      assert last in ops && forall op <- init :: op in ops;
      NothingKept(s, init, holder);
    }
  }

  /** So while the cache deletes what it is told to, a challenge answers at most one ceremony:
      no holder ever finishes more often than it started, whichever way each ceremony ended. */
  lemma OneAnswerPerChallenge(ops: seq<Op>, holder: Holder)
    requires forall op <- ops :: Finishes(op) ==> op.deleted
    ensures Taken(FRESH, ops, holder) + (if holder in Run(FRESH, ops).ceremonies then 1
            else 0) <= StoredCount(FRESH, ops, holder)
  {
    AnswersArePaidFor(ops, holder);
    NothingKept(FRESH, ops, holder);
  }
}
