/** What a login session is, and what each call of the session service does to the
    table, to the cache and to the audit trail.

    The functions here are the specification: one call, one step, over immutable
    values. SessionService holds the layered code that is proved to take these
    steps, and SessionRuns what every run of them keeps. */
module SessionModel {
  import opened Basics

  // ----- constants ---------------------------------------------------------

  const FACTOR_PASSWORD := "pwd"
  const FACTOR_SCAN := "vc"
  const FACTOR_OTP := "otp"
  const FACTOR_PASSKEY := "webauthn"

  const STEP_CHALLENGE_OTP := "otp"
  const STEP_ENROL_OTP := "otp_enroll"
  const STEP_CHALLENGE_PASSKEY := FACTOR_PASSKEY
  const STEP_ENROL_PASSKEY := "webauthn_enroll"

  const PARTIAL_LIFETIME: nat := 10 * 60 * 1000
  const FULL_LIFETIME: nat := 12 * 60 * 60 * 1000
  const MAX_WRONG_CODES: nat := 5

  // ----- entities ----------------------------------------------------------

  type SessionID = nat
  type FederationID = nat

  datatype LoginSession = LoginSession(
    id: SessionID,
    tenant: TenantID,
    user: Option<UserID>,
    email: string,
    federation: Option<FederationID>,
    wrongCodes: nat,
    factors: map<string, Instant>,
    createdAt: Instant,
    expiresAt: Instant)
  {
    predicate Authenticated() {
      factors != map[]
    }

    /** Whether this session answered one pending step. */
    predicate Meets(step: string) {
      IsChallengeStep(step) && ProvedSecondFactor()
    }

    predicate ProvedSecondFactor() {
      FACTOR_OTP in factors || FACTOR_PASSKEY in factors
    }
  }

  predicate IsChallengeStep(step: string) {
    step == STEP_CHALLENGE_OTP || step == STEP_CHALLENGE_PASSKEY
  }

  /** The sealed blob. Sealing and opening are inverses. */
  datatype Sealed = Sealed(plain: LoginSession)

  datatype RowState = Active | Terminated

  datatype Row = Row(
    user: Option<UserID>,
    state: RowState,
    tokenHash: Digest,
    data: Sealed,
    expiresAt: Instant)

  datatype RowKey = RowKey(tenant: TenantID, id: SessionID)

  /** The key of one cache entry. The tenant is part of it. */
  datatype Slot = Slot(tenant: TenantID, digest: Digest)

  /** A cache entry is visible until its deadline. */
  datatype Entry = Entry(blob: Sealed, deadline: Instant)

  datatype Reason =
    | WrongPassword | NoLocalPerson | DisabledDirectory | SilentDirectory | MisconfiguredDirectory
    | SpentProofs | BadSecondFactor
  datatype Event = LoginSucceeded | LoginFailed(reason: Reason) | LogoutSucceeded
  datatype AuditRow = AuditRow(key: RowKey, event: Event)

  /** Everything a call can read or write. `disclosed` holds the tokens that were
      handed to somebody: it is bookkeeping, and no call reads it. */
  datatype State = State(
    now: Instant,
    rows: map<RowKey, Row>,
    cache: map<Slot, Entry>,
    trail: seq<AuditRow>,
    nextToken: Token,
    nextID: SessionID,
    disclosed: set<Token>)

  datatype Failure =
    | NotFound | NotAuthenticated | InsufficientFactors | SubjectBound | NoSuchSession
    | BadCredentials | FederationDisabled | FederationUnavailable | FederationMisconfigured | TooManyProofs
    | StorageFailed | AuditRefused

  datatype Answer =
    | Opened(id: SessionID, token: Token)
    | Found(live: LoginSession)
    | Counted(ended: bool)
    | Revoked(keys: set<RowKey>)
    | Done
    | Failed(why: Failure)

  // ----- the table ---------------------------------------------------------

  function KeyOf(live: LoginSession): RowKey {
    RowKey(live.tenant, live.id)
  }

  function Seal(live: LoginSession, hash: Digest): Row {
    Row(live.user, Active, hash, Sealed(live), live.expiresAt)
  }

  /** The row at `k` is the live session the digest credentials. */
  predicate Credentials(s: State, k: RowKey, tenant: TenantID, hash: Digest) {
    && k in s.rows && k.tenant == tenant
    && s.rows[k].tokenHash == hash
    && LiveRow(s, k)
  }

  predicate LiveRow(s: State, k: RowKey) {
    k in s.rows && s.rows[k].state == Active && s.rows[k].expiresAt > s.now
  }

  /** What the table answers for one digest. */
  ghost function FindRow(s: State, tenant: TenantID, hash: Digest): Option<LoginSession> {
    if exists k :: Credentials(s, k, tenant, hash) then
      var k :| Credentials(s, k, tenant, hash);
      Some(s.rows[k].data.plain)
    else
      None
  }

  // ----- the cache ---------------------------------------------------------

  predicate VisibleIn(s: State, slot: Slot) {
    slot in s.cache && s.now < s.cache[slot].deadline
  }

  /** The entry a save or a refill leaves. A session with no time left is not cached. */
  function Cached(s: State, slot: Slot, live: LoginSession): State {
    if live.expiresAt <= s.now then s
    else s.(cache := s.cache[slot := Entry(Sealed(live), live.expiresAt)])
  }

  function Dropped(s: State, slot: Slot): State {
    s.(cache := s.cache - {slot})
  }

  /** What a read through the cache answers. */
  ghost function CachedFind(s: State, tenant: TenantID, hash: Digest): Option<LoginSession> {
    var slot := Slot(tenant, hash);
    if VisibleIn(s, slot) then Some(s.cache[slot].blob.plain) else FindRow(s, tenant, hash)
  }

  /** The state that read leaves: a miss that finds a row refills the cache. */
  ghost function Refilled(s: State, tenant: TenantID, hash: Digest): State {
    var slot := Slot(tenant, hash);
    if VisibleIn(s, slot) then s
    else match FindRow(s, tenant, hash)
      case None => s
      case Some(live) => Cached(s, slot, live)
  }

  // ----- one write under a new digest --------------------------------------

  /** The row and the cache after one save that keeps or replaces the digest. */
  function Saved(s: State, live: LoginSession, hash: Digest, prev: Option<Digest>): State {
    var stored := s.(rows := s.rows[KeyOf(live) := Seal(live, hash)]);
    var dropped :=
      if prev.Some? && prev.value != hash then Dropped(stored, Slot(live.tenant, prev.value)) else stored;
    Cached(dropped, Slot(live.tenant, hash), live)
  }

  /** One factor upgrade: a new token is minted, the session is saved under it, and
      the audit row closes the transaction. A transaction that fails takes the row
      back, and leaves the cache as the save left it. */
  function Rotated(s: State, live: LoginSession, spent: Token, fate: Fate): (State, Answer) {
    var minted := s.(nextToken := s.nextToken + 1);
    var saved := Saved(minted, live, Digest(s.nextToken), Some(Digest(spent)));
    match fate
    case WriteFailed => (minted, Failed(StorageFailed))
    case AuditFailed => (minted.(cache := saved.cache), Failed(AuditRefused))
    case Committed =>
      (saved.(trail := s.trail + [AuditRow(KeyOf(live), LoginSucceeded)],
              disclosed := s.disclosed + {s.nextToken}),
       Opened(live.id, s.nextToken))
  }

  /** One session ended: the row is marked, its cache entry is dropped, and the audit
      row closes the transaction. */
  function Ended(s: State, k: RowKey, record: seq<AuditRow>, fate: Fate): State
    requires k in s.rows
  {
    var row := s.rows[k];
    var dropped := Dropped(s, Slot(k.tenant, row.tokenHash));
    match fate
    case WriteFailed => s
    case AuditFailed => dropped
    case Committed =>
      dropped.(rows := s.rows[k := row.(state := Terminated)],
               trail := s.trail + record)
  }

  function FateAnswer(fate: Fate, good: Answer): Answer {
    match fate
    case Committed => good
    case AuditFailed => Failed(AuditRefused)
    case WriteFailed => Failed(StorageFailed)
  }

  function EndStep(s: State, k: RowKey, record: seq<AuditRow>, fate: Fate, good: Answer): (State, Answer) {
    if !LiveRow(s, k) then (s, Failed(NotFound))
    else (Ended(s, k, record, fate), FateAnswer(fate, good))
  }

  // ----- the calls ---------------------------------------------------------

  function OpenStep(
    s: State, tenant: TenantID, user: Option<UserID>, email: string,
    federation: Option<FederationID>, written: bool): (State, Answer)
  {
    var live := LoginSession(s.nextID, tenant, user, email, federation, 0, map[], s.now, s.now + PARTIAL_LIFETIME);
    var minted := s.(nextToken := s.nextToken + 1, nextID := s.nextID + 1);
    if !written then (minted, Failed(StorageFailed))
    else
      (Saved(minted, live, Digest(s.nextToken), None).(disclosed := s.disclosed + {s.nextToken}),
       Opened(live.id, s.nextToken))
  }

  /** What the password step learns from outside: whether the stored hash of the
      named person matches, or what the directory answers to the bind. */
  datatype Check =
    | Hash(matches: bool)
    | HashUnread
    | Bind(person: Option<UserID>, email: string)
    | BindRefused(why: Failure)

  datatype Proof = Proved(person: Option<UserID>, email: string) | Refused(reason: Reason, why: Failure) | Broken

  /** Whether a password proves the session, and who it carries on as. A session that
      names nobody is compared against the decoy hash, which nothing matches. */
  function Prove(live: LoginSession, check: Check): Proof {
    match live.federation
    case None => (
      match check
      case HashUnread => if live.user.None? then Refused(WrongPassword, BadCredentials) else Broken
      case Hash(true) =>
        if live.user.Some? then Proved(live.user, live.email) else Refused(WrongPassword, BadCredentials)
      case _ => Refused(WrongPassword, BadCredentials))
    case Some(_) => (
      match check
      case Bind(Some(person), email) => Proved(Some(person), email)
      case Bind(None, _) => Refused(NoLocalPerson, BadCredentials)
      case BindRefused(FederationDisabled) => Refused(DisabledDirectory, FederationDisabled)
      case BindRefused(FederationUnavailable) => Refused(SilentDirectory, FederationUnavailable)
      case BindRefused(FederationMisconfigured) => Refused(MisconfiguredDirectory, FederationMisconfigured)
      case BindRefused(TooManyProofs) => Refused(SpentProofs, TooManyProofs)
      case _ => Refused(WrongPassword, BadCredentials))
  }

  /** The session one proved password leaves. */
  function WithPassword(live: LoginSession, person: Option<UserID>, email: string, now: Instant): LoginSession {
    live.(email := if live.user != person || live.email == "" then email else live.email,
          user := person,
          factors := live.factors[FACTOR_PASSWORD := now],
          expiresAt := now + FULL_LIFETIME)
  }

  ghost function PasswordStep(
    s: State, tenant: TenantID, token: Token, check: Check, stepsRead: bool, fate: Fate): (State, Answer)
  {
    var r := Refilled(s, tenant, Digest(token));
    match CachedFind(s, tenant, Digest(token))
    case None => (r, Failed(NotFound))
    case Some(live) =>
      match Prove(live, check)
      case Broken => (r, Failed(StorageFailed))
      case Refused(reason, why) =>
        if fate == Committed
        then (r.(trail := r.trail + [AuditRow(KeyOf(live), LoginFailed(reason))]), Failed(why))
        else (r, Failed(AuditRefused))
      case Proved(person, email) =>
        if !stepsRead then (r, Failed(StorageFailed))
        else Rotated(r, WithPassword(live, person, email, s.now), token, fate)
  }

  function WithFactor(live: LoginSession, user: Option<UserID>, factor: string, now: Instant): LoginSession {
    live.(user := user, factors := live.factors[factor := now], expiresAt := now + FULL_LIFETIME)
  }

  ghost function CompleteStep(
    s: State, tenant: TenantID, token: Token, user: Option<UserID>, factor: string, fate: Fate): (State, Answer)
  {
    var r := Refilled(s, tenant, Digest(token));
    match CachedFind(s, tenant, Digest(token))
    case None => (r, Failed(NotFound))
    case Some(live) =>
      if live.user.Some? && live.user != user then (r, Failed(SubjectBound))
      else Rotated(r, WithFactor(live, user, factor, s.now), token, fate)
  }

  ghost function FailCodeStep(s: State, tenant: TenantID, token: Token, fate: Fate): (State, Answer) {
    var r := Refilled(s, tenant, Digest(token));
    match CachedFind(s, tenant, Digest(token))
    case None => (r, Failed(NotFound))
    case Some(live) =>
      var counted := live.(wrongCodes := live.wrongCodes + 1);
      if counted.wrongCodes < MAX_WRONG_CODES then
        if fate == WriteFailed then (r, Failed(StorageFailed))
        else (Saved(r, counted, Digest(token), Some(Digest(token))), Counted(false))
      else EndStep(r, RowKey(tenant, live.id), [AuditRow(KeyOf(live), LoginFailed(BadSecondFactor))], fate,
        Counted(true))
  }

  ghost function FindStep(s: State, tenant: TenantID, token: Token): (State, Answer) {
    (Refilled(s, tenant, Digest(token)),
     match CachedFind(s, tenant, Digest(token)) case None => Failed(NotFound) case Some(live) => Found(live))
  }

  ghost function LogoutStep(s: State, tenant: TenantID, token: Token, fate: Fate): (State, Answer) {
    var r := Refilled(s, tenant, Digest(token));
    match CachedFind(s, tenant, Digest(token))
    case None => (r, Failed(NotFound))
    case Some(live) =>
      EndStep(r, RowKey(tenant, live.id), [AuditRow(KeyOf(live), LogoutSucceeded)], fate, Done)
  }

  /** One session ended by its id, on the transaction of the logout request. Whatever fails
      later in that request takes the row back, after its cache entry was dropped. */
  function TerminateStep(s: State, k: RowKey, fate: Fate): (State, Answer) {
    EndStep(s, k, [], fate, Done)
  }

  /** The rows one revoke names. An owner narrows the delete to what that person holds. */
  function Named(s: State, k: RowKey, owner: Option<UserID>): set<RowKey> {
    if k in s.rows && (owner.Some? ==> s.rows[k].user == owner) then {k} else {}
  }

  function HeldBy(s: State, tenant: TenantID, user: UserID, except: Option<SessionID>): set<RowKey> {
    set k | k in s.rows && k.tenant == tenant && s.rows[k].user == Some(user)
            && (except.Some? ==> k.id != except.value)
  }

  function SlotsOf(s: State, keys: set<RowKey>): set<Slot> {
    set k | k in keys && k in s.rows :: Slot(k.tenant, s.rows[k].tokenHash)
  }

  /** Rows hard deleted with their cache entries. A transaction that fails afterwards
      brings the rows back, and not the entries. */
  function Deleted(s: State, keys: set<RowKey>, fate: Fate): State {
    match fate
    case WriteFailed => s
    case AuditFailed => s.(cache := s.cache - SlotsOf(s, keys))
    case Committed => s.(rows := s.rows - keys, cache := s.cache - SlotsOf(s, keys))
  }

  function DeleteStep(s: State, k: RowKey, owner: Option<UserID>, fate: Fate): (State, Answer) {
    var keys := Named(s, k, owner);
    if keys == {} then (s, Failed(NoSuchSession))
    else (Deleted(s, keys, fate), FateAnswer(fate, Revoked(keys)))
  }

  function DeleteUserStep(
    s: State, tenant: TenantID, user: UserID, except: Option<SessionID>, fate: Fate): (State, Answer)
  {
    var keys := HeldBy(s, tenant, user, except);
    (Deleted(s, keys, fate), FateAnswer(fate, Revoked(keys)))
  }

  // ----- runs --------------------------------------------------------------

  datatype Op =
    | Tick(span: nat)
    | Open(tenant: TenantID, user: Option<UserID>, email: string, federation: Option<FederationID>, written: bool)
    | Password(tenant: TenantID, token: Token, check: Check, stepsRead: bool, fate: Fate)
    | Complete(tenant: TenantID, token: Token, bind: Option<UserID>, factor: string, fate: Fate)
    | FailCode(tenant: TenantID, token: Token, fate: Fate)
    | Find(tenant: TenantID, token: Token)
    | Logout(tenant: TenantID, token: Token, fate: Fate)
    | Terminate(key: RowKey, fate: Fate)
    | Delete(key: RowKey, owner: Option<UserID>, fate: Fate)
    | DeleteUser(tenant: TenantID, person: UserID, except: Option<SessionID>, fate: Fate)

  ghost function Apply(s: State, op: Op): (State, Answer) {
    match op
    case Tick(span) => (s.(now := s.now + span), Done)
    case Open(tenant, user, email, federation, written) => OpenStep(s, tenant, user, email, federation, written)
    case Password(tenant, token, check, stepsRead, fate) => PasswordStep(s, tenant, token, check, stepsRead, fate)
    case Complete(tenant, token, user, factor, fate) => CompleteStep(s, tenant, token, user, factor, fate)
    case FailCode(tenant, token, fate) => FailCodeStep(s, tenant, token, fate)
    case Find(tenant, token) => FindStep(s, tenant, token)
    case Logout(tenant, token, fate) => LogoutStep(s, tenant, token, fate)
    case Terminate(key, fate) => TerminateStep(s, key, fate)
    case Delete(key, owner, fate) => DeleteStep(s, key, owner, fate)
    case DeleteUser(tenant, person, except, fate) => DeleteUserStep(s, tenant, person, except, fate)
  }

  ghost function Step(s: State, op: Op): State {
    Apply(s, op).0
  }

  /** A caller presents a token it was given, or guesses one nobody was given and the
      mint has not produced. A minted token that was never handed out is not presented. */
  predicate Known(s: State, token: Token) {
    token in s.disclosed || s.nextToken <= token
  }

  /** A completion never names the password: its callers spell the other three factors. */
  predicate Enabled(s: State, op: Op) {
    && (op.Complete? ==> op.factor != FACTOR_PASSWORD)
    && (op.Password? || op.Complete? || op.FailCode? || op.Find? || op.Logout? ==> Known(s, op.token))
  }

  const FRESH := State(0, map[], map[], [], 0, 0, {})

  ghost function Run(s: State, ops: seq<Op>): State {
    if ops == [] then s else Step(Run(s, ops[..|ops| - 1]), ops[|ops| - 1])
  }

  ghost predicate Admissible(s: State, ops: seq<Op>) {
    ops == [] ||
    (Admissible(s, ops[..|ops| - 1]) && Enabled(Run(s, ops[..|ops| - 1]), ops[|ops| - 1]))
  }
}
