/** QR Login: a push from the Scan Verifier and a poll from the browser meet on one row.
    A push runs in four steps, and any number of pushes interleave between them. */
module QrModel {
  import opened Basics
  import S = SessionModel

  /** An identifier the Scan Verifier mints. */
  type Ref = nat

  const TRANSACTION_TTL: nat := 90 * 1000
  const STATE_WORD_ACCEPTED := "0"

  datatype TxnState = Pending | Verified | Failed

  datatype Txn = Txn(
    home: S.RowKey,
    verifierSession: Ref,
    presentation: Ref,
    nonceHash: Digest,
    state: TxnState,
    person: Option<UserID>,
    expiresAt: Instant,
    consumedAt: Option<Instant>)

  datatype TxnKey = TxnKey(tenant: TenantID, id: nat)

  /** What one push body says, after parsing. */
  datatype Push = Push(
    session: Option<Ref>,
    presentation: Option<Ref>,
    nonce: Option<Token>,
    username: Option<string>,
    stateWord: Option<string>)
  {
    predicate Usable() {
      session.Some? || presentation.Some?
    }
  }

  datatype Name = Name(tenant: TenantID, username: string)

  /** Where one push stands: it read a row, it claimed it, it knows what to write. */
  datatype Stage =
    | Looked(push: Push, key: TxnKey, row: Txn)
    | Claimed(push: Push, key: TxnKey, row: Txn)
    | Judged(key: TxnKey, person: Option<UserID>)
  {
    predicate Holds(k: TxnKey) {
      !Looked? && key == k
    }
  }

  /** What happened to one transaction, in order. */
  datatype Event =
    | Claim(at: Instant, push: Push)
    | Judgement(known: Option<UserID>, person: Option<UserID>)
    | Result(state: TxnState, person: Option<UserID>)

  type CallbackID = nat

  /** `history` is bookkeeping, and no call reads it. */
  datatype State = State(
    sessions: S.State,
    txns: map<TxnKey, Txn>,
    nextTxn: nat,
    people: map<Name, UserID>,
    inFlight: map<CallbackID, Stage>,
    nextCallback: CallbackID,
    history: map<TxnKey, seq<Event>>)

  datatype Status = StillPending | Authenticated(token: Option<Token>,
    user: Option<UserID>) | Expired | PollFailed(why: S.Failure)

  // ----- starting ----------------------------------------------------------

  /** Both identifiers of the verifier are unique over all tenants. */
  predicate Unique(s: State, verifierSession: Ref, presentation: Ref) {
    forall k :: k in s.txns ==> s.txns[k].verifierSession != verifierSession && s.txns[k].presentation != presentation
  }

  datatype Transaction = Transaction(session: Ref, presentation: Ref)

  /** Opens a login session that names nobody, and records the pair. `asked` is what the
      verifier answered: without a transaction of its own nothing is left behind. */
  function StartStep(
    s: State, tenant: TenantID, nonce: Token, asked: Option<Transaction>, opens: bool, inserts: bool): State {
    if asked.None? then s
    else
      var (live, answer) := S.OpenStep(s.sessions, tenant, None, "", None, opens);
      var t := s.(sessions := live);
      if !answer.Opened? then t
      else if !inserts || !Unique(s, asked.value.session, asked.value.presentation) then t
      else
        var key := TxnKey(tenant, s.nextTxn);
        t.(nextTxn := s.nextTxn + 1,
           txns := s.txns[key := Txn(S.RowKey(tenant, answer.id), asked.value.session, asked.value.presentation,
                                     Digest(nonce), Pending, None, s.sessions.now + TRANSACTION_TTL, None)],
           history := s.history[key := []])
  }

  // ----- the push ----------------------------------------------------------

  /** A push that carries both references is matched on either. */
  predicate Addresses(push: Push, row: Txn) {
    push.session == Some(row.verifierSession) || push.presentation == Some(row.presentation)
  }

  /** The row a push reads. When two rows match, the database picks. */
  predicate Reads(s: State, push: Push, pick: Option<TxnKey>) {
    match pick
    case Some(k) => k in s.txns && Addresses(push, s.txns[k])
    case None => forall k :: k in s.txns ==> !Addresses(push, s.txns[k])
  }

  function LookStep(s: State, push: Push, pick: Option<TxnKey>): State {
    if !push.Usable() || pick.None? || pick.value !in s.txns then s
    else s.(inFlight := s.inFlight[s.nextCallback := Looked(push, pick.value, s.txns[pick.value])],
            nextCallback := s.nextCallback + 1)
  }

  predicate Claimable(s: State, k: TxnKey) {
    && k in s.txns && s.txns[k].consumedAt.None? && s.txns[k].state == Pending
    && s.txns[k].expiresAt > s.sessions.now
  }

  function Happened(s: State, k: TxnKey, e: Event): map<TxnKey, seq<Event>> {
    if k in s.history then s.history[k := s.history[k] + [e]] else s.history
  }

  function Consumed(s: State, k: TxnKey, push: Push): State
    requires k in s.txns
  {
    s.(txns := s.txns[k := s.txns[k].(consumedAt := Some(s.sessions.now))],
       history := Happened(s, k, Claim(s.sessions.now, push)))
  }

  /** The guarded claim. A push that loses it, or whose write fails, ends here. */
  function ClaimStep(s: State, cb: CallbackID, written: bool): State {
    if cb !in s.inFlight || !s.inFlight[cb].Looked? then s
    else
      var (stage, left) := (s.inFlight[cb], s.(inFlight := s.inFlight - {cb}));
      if !written || !Claimable(s, stage.key) then left
      else Consumed(s, stage.key, stage.push).(inFlight := s.inFlight[cb := Claimed(stage.push, stage.key, stage.row)])
  }

  /** What a directory read answers for the presented name. */
  function Known(s: State, tenant: TenantID, push: Push): Option<UserID> {
    if push.username.Some? && Name(tenant, push.username.value) in s.people
    then Some(s.people[Name(tenant, push.username.value)]) else None
  }

  /** The person a push proves, or nobody. */
  function Resolve(row: Txn, push: Push, known: Option<UserID>): Option<UserID> {
    if push.stateWord.Some? && push.stateWord.value != STATE_WORD_ACCEPTED then None
    else if push.nonce.Some? && Digest(push.nonce.value) != row.nonceHash then None
    else if push.username.None? then None
    else known
  }

  function JudgeStep(s: State, cb: CallbackID, read: bool): State {
    if cb !in s.inFlight || !s.inFlight[cb].Claimed? then s
    else
      var stage := s.inFlight[cb];
      var known := if read then Known(s, stage.key.tenant, stage.push) else None;
      var person := Resolve(stage.row, stage.push, known);
      s.(inFlight := s.inFlight[cb := Judged(stage.key, person)],
         history := Happened(s, stage.key, Judgement(known, person)))
  }

  /** The result write is not guarded: the claim before it is. */
  function WithResult(s: State, k: TxnKey, person: Option<UserID>): State
    requires k in s.txns
  {
    var row := s.txns[k];
    var state := if person.Some? then Verified else Failed;
    s.(txns := s.txns[k := row.(state := state, person := if person.Some? then person else row.person)],
       history := Happened(s, k, Result(state, person)))
  }

  function WriteStep(s: State, cb: CallbackID, written: bool): State {
    if cb !in s.inFlight || !s.inFlight[cb].Judged? then s
    else
      var (stage, left) := (s.inFlight[cb], s.(inFlight := s.inFlight - {cb}));
      if !written || stage.key !in s.txns then left
      else WithResult(left, stage.key, stage.person)
  }

  /** One push that nothing interleaves with. */
  function CallbackStep(s: State, push: Push, pick: Option<TxnKey>, claims: bool, read: bool, writes: bool): State {
    var cb := s.nextCallback;
    WriteStep(JudgeStep(ClaimStep(LookStep(s, push, pick), cb, claims), cb, read), cb, writes)
  }

  // ----- the poll ----------------------------------------------------------

  predicate BelongsTo(s: State, k: TxnKey, home: S.RowKey) {
    k in s.txns && s.txns[k].home == home && k.tenant == home.tenant
  }

  ghost predicate Newest(s: State, k: TxnKey, home: S.RowKey) {
    BelongsTo(s, k, home) && forall j :: BelongsTo(s, j, home) ==> j.id <= k.id
  }

  ghost function FindByLoginSession(s: State, home: S.RowKey): Option<Txn> {
    if exists k :: Newest(s, k, home) then
      var k :| Newest(s, k, home);
      Some(s.txns[k])
    else None
  }

  ghost function PollStep(s: State, tenant: TenantID, token: Token, fate: Fate): (State, Status) {
    var (read, found) := S.FindStep(s.sessions, tenant, token);
    var t := s.(sessions := read);
    if !found.Found? then (t, PollFailed(S.NotFound))
    else if S.FACTOR_SCAN in found.live.factors then (t, Authenticated(None, found.live.user))
    else
      match FindByLoginSession(s, S.RowKey(tenant, found.live.id))
      case None => (t, Expired)
      case Some(row) => Answered(t, tenant, token, row, fate)
  }

  ghost function Answered(s: State, tenant: TenantID, token: Token, row: Txn, fate: Fate): (State, Status) {
    match row.state
    case Pending => (s, if row.expiresAt > s.sessions.now then StillPending else Expired)
    case Failed => (s, Expired)
    case Verified =>
      if row.person.None? then (s, Expired)
      else
        var (done, answer) := S.CompleteStep(s.sessions, tenant, token, row.person, S.FACTOR_SCAN, fate);
        (s.(sessions := done),
         match answer
         case Opened(_, rotated) => Authenticated(Some(rotated), row.person)
         case Failed(SubjectBound) => Expired
         case Failed(why) => PollFailed(why)
         case _ => PollFailed(S.NotFound))
  }

  // ----- runs --------------------------------------------------------------

  datatype Op =
    | Session(op: S.Op)
    | Directory(people: map<Name, UserID>)
    | Start(tenant: TenantID, nonce: Token, asked: Option<Transaction>, opens: bool, inserts: bool)
    | Look(push: Push, pick: Option<TxnKey>)
    | Claiming(cb: CallbackID, written: bool)
    | Judging(cb: CallbackID, read: bool)
    | Writing(cb: CallbackID, written: bool)
    | Callback(push: Push, pick: Option<TxnKey>, claims: bool, read: bool, writes: bool)
    | Poll(tenant: TenantID, token: Token, fate: Fate)
  {
    /** A step of a push that others may interleave with. */
    predicate Split() {
      Look? || Claiming? || Judging? || Writing?
    }
  }

  ghost function Step(s: State, op: Op): State {
    match op
    case Session(op) => s.(sessions := S.Step(s.sessions, op))
    case Directory(people) => s.(people := people)
    case Start(tenant, nonce, asked, opens, inserts) => StartStep(s, tenant, nonce, asked, opens, inserts)
    case Look(push, pick) => LookStep(s, push, pick)
    case Claiming(cb, written) => ClaimStep(s, cb, written)
    case Judging(cb, read) => JudgeStep(s, cb, read)
    case Writing(cb, written) => WriteStep(s, cb, written)
    case Callback(push, pick, claims, read, writes) => CallbackStep(s, push, pick, claims, read, writes)
    case Poll(tenant, token, fate) => PollStep(s, tenant, token, fate).0
  }

  /** Only the poll records the scan factor. Everything else about sessions may run. */
  ghost predicate Enabled(s: State, op: Op) {
    match op
    case Session(op) => S.Enabled(s.sessions, op) && (op.Complete? ==> op.factor != S.FACTOR_SCAN)
    case Look(push, pick) => Reads(s, push, pick)
    case Callback(push, pick, _, _, _) => Reads(s, push, pick)
    case Poll(_, token, _) => S.Known(s.sessions, token)
    case _ => true
  }

  const FRESH := State(S.FRESH, map[], 0, map[], map[], 0, map[])

  ghost function Run(s: State, ops: seq<Op>): State {
    if ops == [] then s else Step(Run(s, ops[..|ops| - 1]), ops[|ops| - 1])
  }

  ghost predicate Admissible(s: State, ops: seq<Op>) {
    ops == [] ||
    (Admissible(s, ops[..|ops| - 1]) && Enabled(Run(s, ops[..|ops| - 1]), ops[|ops| - 1]))
  }
}
