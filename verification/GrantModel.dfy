/** The grants of the protocol engine, and the digests of the refresh tokens that
    rotation replaced. The functions specify what one call of the store does. */
module GrantModel {
  import opened Basics

  type GrantID = nat
  type ClientID = nat
  type SessionID = nat

  /** Thirty days bound a superseded digest whose grant carried no deadline. */
  const FALLBACK_LIFETIME: nat := 30 * 24 * 60 * 60 * 1000

  /** One sweep removes at most this many expired records. */
  const PRUNE_BATCH: nat := 200

  /** One grant, as the engine knows it. The moments are seconds, and zero means none. */
  datatype Grant = Grant(
    id: GrantID,
    client: ClientID,
    subject: Option<UserID>,
    session: Option<SessionID>,
    authCode: Option<Token>,
    authCodeExpiresAt: nat,
    refreshToken: Option<Token>,
    refreshExpiresAt: nat,
    revokedAt: nat)
  {
    predicate Live() {
      revokedAt == 0
    }
  }

  datatype SealedGrant = SealedGrant(plain: Grant)

  /** The stored row: the sealed grant, and the columns extracted from it. */
  datatype GrantRow = GrantRow(
    client: ClientID,
    subject: Option<UserID>,
    session: Option<SessionID>,
    authCodeHash: Option<Digest>,
    refreshTokenHash: Option<Digest>,
    data: SealedGrant,
    expiresAt: Option<Instant>)

  datatype GrantKey = GrantKey(tenant: TenantID, id: GrantID)
  datatype HashKey = HashKey(tenant: TenantID, digest: Digest)

  /** One superseded digest: whose it was, and when the token itself would have died. */
  datatype Superseded = Superseded(grant: GrantID, expiresAt: Instant)

  /** The history of one token that a rotation took away. */
  datatype Retirement = Retirement(tenant: TenantID, record: Superseded)

  /** The two tables. `retired` remembers every rotation that ever happened, and
      `nextToken` and `nextID` bound what was ever used: no call reads them. */
  datatype State = State(
    now: Instant,
    grants: map<GrantKey, GrantRow>,
    superseded: map<HashKey, Superseded>,
    retired: map<Token, Retirement>,
    nextToken: Token,
    nextID: GrantID)

  datatype Answer =
    | Saved
    | Found(grant: Grant)
    | NotFound
    | Reuse(id: GrantID, owner: Option<Grant>)
    | Deleted(count: nat)
    | Unavailable

  // ----- values ------------------------------------------------------------

  function DigestOf(value: Option<Token>): Option<Digest> {
    match value case None => None case Some(token) => Some(Digest(token))
  }

  function Later(a: nat, b: nat): nat {
    if a > b then a else b
  }

  function UnixTime(secs: nat): Option<Instant> {
    if secs == 0 then None else Some(secs * 1000)
  }

  function SealGrant(grant: Grant): GrantRow {
    GrantRow(grant.client, grant.subject, grant.session,
             DigestOf(grant.authCode), DigestOf(grant.refreshToken),
             SealedGrant(grant),
             UnixTime(Later(grant.refreshExpiresAt, grant.authCodeExpiresAt)))
  }

  function Deadline(prev: Grant, now: Instant): Instant {
    match UnixTime(prev.refreshExpiresAt) case Some(at) => at case None => now + FALLBACK_LIFETIME
  }

  /** What one save retains: the token it replaces, if it replaces one. */
  function Supersede(prev: Grant, next: Grant, now: Instant): Option<(Token, Superseded)> {
    if prev.refreshToken.None? || prev.refreshToken == next.refreshToken then None
    else Some((prev.refreshToken.value, Superseded(prev.id, Deadline(prev, now))))
  }

  // ----- lookups -----------------------------------------------------------

  function Stored(s: State, k: GrantKey): Option<Grant> {
    if k in s.grants then Some(s.grants[k].data.plain) else None
  }

  predicate AnswersTo(s: State, k: GrantKey, tenant: TenantID, hash: Digest) {
    k in s.grants && k.tenant == tenant && s.grants[k].refreshTokenHash == Some(hash)
  }

  predicate AnswersToCode(s: State, k: GrantKey, tenant: TenantID, hash: Digest) {
    k in s.grants && k.tenant == tenant && s.grants[k].authCodeHash == Some(hash)
  }

  /** The grant one refresh token digest names, read by the indexed column. */
  ghost function FindByHash(s: State, tenant: TenantID, hash: Digest): Option<Grant> {
    if exists k :: AnswersTo(s, k, tenant, hash) then
      var k :| AnswersTo(s, k, tenant, hash);
      Some(s.grants[k].data.plain)
    else None
  }

  // ----- saving ------------------------------------------------------------

  function Retained(s: State, tenant: TenantID, token: Token, record: Superseded): State {
    s.(superseded := s.superseded[HashKey(tenant, Digest(token)) := record],
       retired := s.retired[token := Retirement(tenant, record)])
  }

  /** The records of one tenant whose deadline passed. */
  function Expired(s: State, tenant: TenantID): set<HashKey> {
    set h | h in s.superseded && h.tenant == tenant && s.superseded[h].expiresAt < s.now
  }

  /** A batch the database may choose: any expired records, as many as the limit takes. */
  ghost predicate Batch(s: State, tenant: TenantID, swept: set<HashKey>) {
    && swept <= Expired(s, tenant)
    && |swept| == if |Expired(s, tenant)| < PRUNE_BATCH then |Expired(s, tenant)| else PRUNE_BATCH
  }

  /** The rotation one save amounts to, if it is one. */
  function Rotation(s: State, tenant: TenantID, next: Grant): Option<(Token, Superseded)> {
    match Stored(s, GrantKey(tenant, next.id))
    case None => None
    case Some(prev) => Supersede(prev, next, s.now)
  }

  function BeforeSweep(s: State, tenant: TenantID, next: Grant): State {
    match Rotation(s, tenant, next)
    case None => s
    case Some((token, record)) => Retained(s, tenant, token, record)
  }

  function SaveStep(s: State, tenant: TenantID, next: Grant, swept: set<HashKey>): State {
    var r := BeforeSweep(s, tenant, next);
    r.(superseded := if Rotation(s, tenant, next).Some? then r.superseded - swept else r.superseded,
       grants := s.grants[GrantKey(tenant, next.id) := SealGrant(next)],
       nextToken := if next.refreshToken.Some? then Later(s.nextToken, next.refreshToken.value + 1) else s.nextToken,
       nextID := Later(s.nextID, next.id + 1))
  }

  /** What a save may write: the grant the engine just read, under its own token, none,
      or one never used before, and never a revocation undone. A grant nobody stored
      carries an id nobody used. */
  predicate Writable(s: State, tenant: TenantID, next: Grant) {
    match Stored(s, GrantKey(tenant, next.id))
    case None => s.nextID <= next.id && NeverUsed(s, next.refreshToken)
    case Some(prev) =>
      && (next.refreshToken == prev.refreshToken || NeverUsed(s, next.refreshToken))
      && (!prev.Live() ==> !next.Live())
  }

  predicate NeverUsed(s: State, token: Option<Token>) {
    token.Some? ==> s.nextToken <= token.value
  }

  // ----- presenting a token ------------------------------------------------

  function OfGrant(s: State, tenant: TenantID, ids: set<GrantID>): set<HashKey> {
    set h | h in s.superseded && h.tenant == tenant && s.superseded[h].grant in ids
  }

  /** One grant revoked after a replay. Its history goes with it. */
  function RevokedState(s: State, tenant: TenantID, id: GrantID): State {
    var k := GrantKey(tenant, id);
    match Stored(s, k)
    case None => s
    case Some(grant) =>
      var stamped := grant.(revokedAt := s.now / 1000);
      s.(grants := if grant.Live() then s.grants[k := SealGrant(stamped)] else s.grants,
         superseded := s.superseded - OfGrant(s, tenant, {id}))
  }

  /** Which statement of a replay fails, if one does: the stamp on the grant, the delete of
      its history, or the audit row that names it. */
  datatype Fault = NoFault | StampFails | DropFails | RecordFails

  /** What a replay writes, statement by statement, and what it answers. */
  function Replayed(s: State, tenant: TenantID, id: GrantID, fault: Fault): (State, Answer) {
    var k := GrantKey(tenant, id);
    var reuse := if fault == RecordFails then Unavailable else Reuse(id, Stored(s, k));
    match Stored(s, k)
    case None => (s, reuse)
    case Some(grant) =>
      if fault == StampFails && grant.Live() then (s, Unavailable)
      else if fault == DropFails then (RevokedState(s, tenant, id).(superseded := s.superseded), Unavailable)
      else (RevokedState(s, tenant, id), reuse)
  }

  /** What the read by refresh token does inside a request. The history is read first. */
  ghost function Presented(s: State, tenant: TenantID, token: Token, fault: Fault): (State, Answer) {
    var h := HashKey(tenant, Digest(token));
    if h in s.superseded then Replayed(s, tenant, s.superseded[h].grant, fault)
    else
      (s, match FindByHash(s, tenant, Digest(token)) case None => NotFound case Some(grant) => Found(grant))
  }

  /** The route a request comes in by. Only the token endpoint runs in a transaction of the
      whole request; the routes behind the catch-all do not. */
  datatype Route = TokenEndpoint | CatchAll

  const BAD_REQUEST: nat := 400

  /** The status the answer becomes. A replay and an unknown token are both `invalid_grant`. */
  function Status(answer: Answer): nat {
    match answer
    case Reuse(_, _) => BAD_REQUEST
    case NotFound => BAD_REQUEST
    case Unavailable => 500
    case _ => 200
  }

  /** The request transaction commits only an answer below 400. Without one, every statement
      has committed on its own. */
  predicate Commits(route: Route, answer: Answer) {
    route == CatchAll || Status(answer) < BAD_REQUEST
  }

  ghost function PresentStep(s: State, tenant: TenantID, token: Token, route: Route, fault: Fault): (State, Answer) {
    var (t, answer) := Presented(s, tenant, token, fault);
    (if Commits(route, answer) then t else s, answer)
  }

  // ----- deleting ----------------------------------------------------------

  datatype Narrow =
    | BySession(session: SessionID)
    | BySubject(subject: UserID)
    | BySubjectClient(subject: UserID, client: ClientID)

  predicate Selects(narrow: Narrow, row: GrantRow) {
    match narrow
    case BySession(session) => row.session == Some(session)
    case BySubject(subject) => row.subject == Some(subject)
    case BySubjectClient(subject, client) => row.subject == Some(subject) && row.client == client
  }

  function Selected(s: State, tenant: TenantID, narrow: Narrow): set<GrantID> {
    set k | k in s.grants && k.tenant == tenant && Selects(narrow, s.grants[k]) :: k.id
  }

  function KeysOf(tenant: TenantID, ids: set<GrantID>): set<GrantKey> {
    set id <- ids :: GrantKey(tenant, id)
  }

  /** Between the two deletes: the history is gone, and the grants are still there. */
  function HistoryDropped(s: State, tenant: TenantID, ids: set<GrantID>): State {
    s.(superseded := s.superseded - OfGrant(s, tenant, ids))
  }

  function DeleteState(s: State, tenant: TenantID, narrow: Narrow): State {
    var ids := Selected(s, tenant, narrow);
    HistoryDropped(s, tenant, ids).(grants := s.grants - KeysOf(tenant, ids))
  }

  // ----- runs --------------------------------------------------------------

  datatype Op =
    | Tick(span: nat)
    | Save(tenant: TenantID, next: Grant, swept: set<HashKey>)
    | Present(tenant: TenantID, token: Token, route: Route, fault: Fault)
    | Delete(tenant: TenantID, narrow: Narrow)

  ghost function Step(s: State, op: Op): State {
    match op
    case Tick(span) => s.(now := s.now + span)
    case Save(tenant, next, swept) => SaveStep(s, tenant, next, swept)
    case Present(tenant, token, route, fault) => PresentStep(s, tenant, token, route, fault).0
    case Delete(tenant, narrow) => DeleteState(s, tenant, narrow)
  }

  ghost predicate Enabled(s: State, op: Op) {
    op.Save? ==> Writable(s, op.tenant, op.next) && Batch(BeforeSweep(s, op.tenant, op.next), op.tenant, op.swept)
  }

  ghost function Run(s: State, ops: seq<Op>): State {
    if ops == [] then s else Step(Run(s, ops[..|ops| - 1]), ops[|ops| - 1])
  }

  ghost predicate Admissible(s: State, ops: seq<Op>) {
    ops == [] ||
    (Admissible(s, ops[..|ops| - 1]) && Enabled(Run(s, ops[..|ops| - 1]), ops[|ops| - 1]))
  }

  /** Empty tables, on a clock past the first second of the epoch, so a revocation
      stamp is never the zero that means none. */
  predicate Fresh(s: State) {
    s.grants == map[] && s.superseded == map[] && s.retired == map[] && s.now >= 1000
  }
}
