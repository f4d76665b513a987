/** Passkeys: one-shot ceremonies in a cache, and rows that a removal marks and a later
    registration may take back. A registration reads the row of its device before its
    transaction opens, so two of them interleave between the read and the write. */
module PasskeyModel {
  import opened Basics

  type SessionID = nat
  type CredID = nat

  const MAX_PASSKEYS: nat := 10
  const CEREMONY_TTL: nat := 5 * 60 * 1000

  /** One row, under the primary key. A removed row keeps its key. */
  datatype Credential = Credential(
    user: UserID,
    rpID: string,
    record: string,
    name: string,
    createdAt: Instant,
    lastUsedAt: Option<Instant>,
    deletedAt: Option<Instant>)
  {
    predicate Live() {
      deletedAt.None?
    }
  }

  datatype CredKey = CredKey(tenant: TenantID, id: CredID)

  /** Who one ceremony belongs to: the person in the portal, or one sign-in. */
  datatype Holder = Person(tenant: TenantID, user: UserID) | SignIn(tenant: TenantID, session: SessionID)

  /** What the library made of a browser's answer. */
  datatype Made = Made(id: CredID, rpID: string, record: string, name: string)

  /** What the claim decided to write. */
  datatype Plan = Insert | Revive
  datatype Registration = Registration(plan: Plan, key: CredKey, row: Credential, holder: Holder)

  type RegID = nat

  /** `ceremonies` maps each holder to the deadline of the challenge stored for it, and
      `claimed` holds the registrations between the read of their row and the write.

      The last two fields are bookkeeping, and no call reads them. `used` holds whose stored
      challenge was answered before, because the cache did not delete it. `fair` holds the
      registrations that answered an unused challenge which no later start has replaced. */
  datatype State = State(
    now: Instant,
    rows: map<CredKey, Credential>,
    ceremonies: map<Holder, Instant>,
    claimed: map<RegID, Registration>,
    nextReg: RegID,
    used: set<Holder>,
    fair: set<RegID>)

  datatype Failure =
    | TooManyPasskeys | NoPasskey | Unavailable | ChallengeExpired | Rejected | DuplicateDevice | NotFound
    | FactorAlreadyHeld | StorageFailed | AuditRefused

  datatype Answer = Started | Claimed | Registered | Verified | Removed | Done | Refused(why: Failure)

  // ----- the rows ----------------------------------------------------------

  predicate LiveAt(s: State, key: CredKey) {
    key in s.rows && s.rows[key].Live()
  }

  function LiveOf(s: State, tenant: TenantID, user: UserID): set<CredKey> {
    set key | key in s.rows && key.tenant == tenant && s.rows[key].user == user && s.rows[key].Live()
  }

  function Held(s: State, tenant: TenantID, user: UserID): nat {
    |LiveOf(s, tenant, user)|
  }

  /** The live row of one person, which is what a rename, a touch and a removal narrow to. */
  predicate OwnedLive(s: State, key: CredKey, user: UserID) {
    LiveAt(s, key) && s.rows[key].user == user
  }

  /** Where the claim of a registration goes: a free id is inserted, the id of a removed row
      is taken back, and a live id is refused. */
  function PlanFor(s: State, key: CredKey): Option<Plan> {
    if key !in s.rows then Some(Insert)
    else if s.rows[key].Live() then None
    else Some(Revive)
  }

  predicate Lands(s: State, reg: Registration) {
    match reg.plan
    case Insert => reg.key !in s.rows
    case Revive => reg.key in s.rows && !s.rows[reg.key].Live()
  }

  /** The write of a registration, on its transaction with the audit row and what follows. */
  function Landed(s: State, reg: Registration, fate: Fate): (State, Answer) {
    if fate == WriteFailed then (s, Refused(StorageFailed))
    else if !Lands(s, reg) then (s, Refused(DuplicateDevice))
    else if fate == AuditFailed then (s, Refused(AuditRefused))
    else (s.(rows := s.rows[reg.key := reg.row]), Registered)
  }

  function NewRow(made: Made, user: UserID, now: Instant): Credential {
    Credential(user, made.rpID, made.record, made.name, now, None, None)
  }

  // ----- the ceremonies ----------------------------------------------------

  predicate Open(s: State, holder: Holder) {
    holder in s.ceremonies && s.now < s.ceremonies[holder]
  }

  /** A start, after the origin and the budget were accepted. */
  function StartStep(s: State, holder: Holder, user: UserID, allowed: bool, stored: bool): (State, Answer) {
    if !allowed then (s, Refused(Unavailable))
    else if Held(s, holder.tenant, user) >= MAX_PASSKEYS then (s, Refused(TooManyPasskeys))
    else StoreStep(s, holder, stored)
  }

  function ClaimsOf(s: State, holder: Holder): set<RegID> {
    set id | id in s.claimed && s.claimed[id].holder == holder
  }

  /** A start replaces whatever challenge the holder had. */
  function StoreStep(s: State, holder: Holder, stored: bool): (State, Answer) {
    if !stored then (s, Refused(Unavailable))
    else
      (s.(ceremonies := s.ceremonies[holder := s.now + CEREMONY_TTL],
          used := s.used - {holder}, fair := s.fair - ClaimsOf(s, holder)), Started)
  }

  /** The challenge is read and then deleted. A delete that fails refuses nothing. */
  function Consumed(s: State, holder: Holder, deleted: bool): State {
    if deleted then s.(ceremonies := s.ceremonies - {holder}, used := s.used - {holder})
    else s.(used := s.used + {holder})
  }

  // ----- a registration in two steps ---------------------------------------

  /** The first half: the challenge is taken, the answer verified, and the row of the device
      read. What follows is decided here and written later. */
  function ClaimStep(s: State, holder: Holder, user: UserID, made: Option<Made>, deleted: bool): (State, Answer) {
    if !Open(s, holder) then (s, Refused(ChallengeExpired))
    else
      var t := Consumed(s, holder, deleted);
      if made.None? then (t, Refused(Rejected))
      else
        var key := CredKey(holder.tenant, made.value.id);
        match PlanFor(t, key)
        case None => (t, Refused(DuplicateDevice))
        case Some(plan) =>
          (t.(claimed := t.claimed[t.nextReg := Registration(plan, key, NewRow(made.value, user, t.now), holder)],
              nextReg := t.nextReg + 1,
              fair := if holder in s.used then t.fair else t.fair + {t.nextReg}),
           Claimed)
  }

  /** The second half: the write, on its transaction. */
  function WriteStep(s: State, id: RegID, fate: Fate): (State, Answer) {
    if id !in s.claimed then (s, Refused(NotFound))
    else Landed(s.(claimed := s.claimed - {id}, fair := s.fair - {id}), s.claimed[id], fate)
  }

  // ----- the calls ---------------------------------------------------------

  /** A whole registration: consume, verify, claim, write, with nothing in between. */
  function FinishStep(
    s: State, holder: Holder, user: UserID, made: Option<Made>, deleted: bool, fate: Fate): (State, Answer) {
    if !Open(s, holder) then (s, Refused(ChallengeExpired))
    else
      var t := Consumed(s, holder, deleted);
      if made.None? then (t, Refused(Rejected))
      else
        var key := CredKey(holder.tenant, made.value.id);
        match PlanFor(t, key)
        case None => (t, Refused(DuplicateDevice))
        case Some(plan) => Landed(t, Registration(plan, key, NewRow(made.value, user, t.now), holder), fate)
  }

  /** The account holds a second factor: a live passkey, or an authenticator. */
  predicate HoldsFactor(s: State, tenant: TenantID, user: UserID, authenticator: bool) {
    Held(s, tenant, user) > 0 || authenticator
  }

  /** An assertion that was verified writes the row back, if it is still the person's. */
  function AssertStep(
    s: State, holder: Holder, user: UserID, proved: Option<(CredID, string)>, deleted: bool, fate: Fate)
    : (State, Answer) {
    if !Open(s, holder) then (s, Refused(ChallengeExpired))
    else
      var t := Consumed(s, holder, deleted);
      if proved.None? then (t, Refused(Rejected))
      else
        var key := CredKey(holder.tenant, proved.value.0);
        if fate == WriteFailed then (t, Refused(StorageFailed))
        else if !OwnedLive(t, key, user) then (t, Refused(NotFound))
        else if fate == AuditFailed then (t, Refused(StorageFailed))
        else (t.(rows := t.rows[key := t.rows[key].(record := proved.value.1, lastUsedAt := Some(t.now))]), Verified)
  }

  function RenameStep(s: State, key: CredKey, user: UserID, name: string, written: bool): (State, Answer) {
    if !written then (s, Refused(StorageFailed))
    else if !OwnedLive(s, key, user) then (s, Refused(NotFound))
    else (s.(rows := s.rows[key := s.rows[key].(name := name)]), Done)
  }

  function RemoveStep(s: State, key: CredKey, user: UserID, fate: Fate): (State, Answer) {
    if fate == WriteFailed then (s, Refused(StorageFailed))
    else if !OwnedLive(s, key, user) then (s, Refused(NotFound))
    else if fate == AuditFailed then (s, Refused(AuditRefused))
    else (s.(rows := s.rows[key := s.rows[key].(deletedAt := Some(s.now))]), Removed)
  }

  // ----- runs --------------------------------------------------------------

  datatype Op =
    | Tick(span: nat)
    | PortalStart(tenant: TenantID, user: UserID, allowed: bool, stored: bool)
    | PortalFinish(tenant: TenantID, user: UserID, made: Option<Made>, deleted: bool, fate: Fate)
    | EnrolStart(tenant: TenantID, user: UserID, session: SessionID, authenticator: bool, allowed: bool, stored: bool)
    | EnrolFinish(
      tenant: TenantID, user: UserID, session: SessionID, authenticator: bool, made: Option<Made>, deleted: bool,
      fate: Fate)
    | ChallengeStart(tenant: TenantID, user: UserID, session: SessionID, allowed: bool, stored: bool)
    | ChallengeFinish(
      tenant: TenantID, user: UserID, session: SessionID, proved: Option<(CredID, string)>, deleted: bool, fate: Fate)
    | PortalClaim(tenant: TenantID, user: UserID, made: Option<Made>, deleted: bool)
    | EnrolClaim(
      tenant: TenantID, user: UserID, session: SessionID, authenticator: bool, made: Option<Made>, deleted: bool)
    | Writing(reg: RegID, fate: Fate)
    | Rename(key: CredKey, user: UserID, name: string, written: bool)
    | Remove(key: CredKey, user: UserID, fate: Fate)
  {
    predicate Split() {
      PortalClaim? || EnrolClaim? || Writing?
    }
  }

  function Apply(s: State, op: Op): (State, Answer) {
    match op
    case Tick(span) => (s.(now := s.now + span), Done)
    case PortalStart(tenant, user, allowed, stored) => StartStep(s, Person(tenant, user), user, allowed, stored)
    case PortalFinish(tenant, user, made, deleted, fate) => FinishStep(s, Person(tenant, user), user, made,
      deleted, fate)
    case EnrolStart(tenant, user, session, authenticator, allowed, stored) =>
      if HoldsFactor(s, tenant, user, authenticator) then (s, Refused(FactorAlreadyHeld))
      else StartStep(s, SignIn(tenant, session), user, allowed, stored)
    case EnrolFinish(tenant, user, session, authenticator, made, deleted, fate) =>
      if HoldsFactor(s, tenant, user, authenticator) then (s, Refused(FactorAlreadyHeld))
      else FinishStep(s, SignIn(tenant, session), user, made, deleted, fate)
    case ChallengeStart(tenant, user, session, allowed, stored) =>
      if !allowed then (s, Refused(Unavailable))
      else if Held(s, tenant, user) == 0 then (s, Refused(NoPasskey))
      else StoreStep(s, SignIn(tenant, session), stored)
    case ChallengeFinish(tenant, user, session, proved, deleted, fate) =>
      AssertStep(s, SignIn(tenant, session), user, proved, deleted, fate)
    case PortalClaim(tenant, user, made, deleted) => ClaimStep(s, Person(tenant, user), user, made, deleted)
    case EnrolClaim(tenant, user, session, authenticator, made, deleted) =>
      if HoldsFactor(s, tenant, user, authenticator) then (s, Refused(FactorAlreadyHeld))
      else ClaimStep(s, SignIn(tenant, session), user, made, deleted)
    case Writing(reg, fate) => WriteStep(s, reg, fate)
    case Rename(key, user, name, written) => RenameStep(s, key, user, name, written)
    case Remove(key, user, fate) => RemoveStep(s, key, user, fate)
  }

  function Step(s: State, op: Op): State {
    Apply(s, op).0
  }

  function Run(s: State, ops: seq<Op>): State {
    if ops == [] then s else Step(Run(s, ops[..|ops| - 1]), ops[|ops| - 1])
  }

  const FRESH := State(0, map[], map[], map[], 0, {}, {})
}
