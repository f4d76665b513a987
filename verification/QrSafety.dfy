/** What every run of QR Login keeps about the login sessions: the scan factor is only ever
    earned through a verified transaction, and it is handed out once. */
module QrSafety {
  import opened Basics
  import opened QrModel
  import opened QrRuns
  import S = SessionModel
  import Runs = SessionRuns
  import Audit = SessionAudit
  import Chain = SessionChain

  // ----- which session calls can record the scan factor --------------------

  ghost predicate Scanned(s: S.State, home: S.RowKey) {
    home in s.rows && S.FACTOR_SCAN in s.rows[home].data.plain.factors
  }

  /** No call but the completion under the scan factor records it. */
  lemma OthersScanNobody(s: S.State, op: S.Op, home: S.RowKey)
    requires Runs.Inv(s) && S.Enabled(s, op) && (op.Complete? ==> op.factor != S.FACTOR_SCAN)
    ensures Scanned(S.Step(s, op), home) ==> Scanned(s, home)
  {
    hide Runs.Inv, S.Step, S.Apply;
    assert |S.FACTOR_PASSWORD| == 3 && |S.FACTOR_SCAN| == 2;
    Audit.FactorIsGained(s, op, home, S.FACTOR_SCAN);
  }

  // ----- the invariant -----------------------------------------------------

  /** A session that carries the scan factor belongs to the person its verified transaction
      names. */
  ghost predicate Earned(s: State, home: S.RowKey)
    requires home in s.sessions.rows
  {
    exists k :: BelongsTo(s, k, home) && s.txns[k].state == Verified && s.txns[k].person.Some?
                && s.sessions.rows[home].data.plain.user == s.txns[k].person
  }

  ghost predicate ScansAreEarned(s: State) {
    forall home :: Scanned(s.sessions, home) ==> Earned(s, home)
  }

  /** A session with a transaction is proved by no directory, so its person never moves. */
  ghost predicate LocalHomes(s: State) {
    forall k :: k in s.txns && s.txns[k].home in s.sessions.rows ==>
      s.sessions.rows[s.txns[k].home].data.plain.federation.None?
  }

  ghost predicate Inv(s: State) {
    Runs.Inv(s.sessions) && Protocol(s) && ScansAreEarned(s) && LocalHomes(s)
  }

  ghost predicate Later(s: State, t: State) {
    Runs.Later(s.sessions, t.sessions) && After(s, t)
  }

  lemma LaterIsTransitive(s: State, t: State, u: State)
    requires Inv(s) && Inv(t) && Later(s, t) && Later(t, u)
    ensures Later(s, u)
  {
    Runs.LaterIsTransitive(s.sessions, t.sessions, u.sessions);
    AfterIsTransitive(s, t, u);
  }

  /** A step that records no scan factor keeps the earned ones earned. */
  lemma EarnedStaysEarned(s: State, t: State)
    requires Inv(s) && Protocol(t) && Later(s, t)
    requires forall home :: Scanned(t.sessions, home) ==> Scanned(s.sessions, home)
    ensures ScansAreEarned(t)
  {
  }

  lemma HomesStayLocal(s: State, t: State)
    requires Inv(s) && Protocol(t) && Later(s, t)
    requires forall k :: k in t.txns && k !in s.txns && t.txns[k].home in t.sessions.rows ==>
               t.sessions.rows[t.txns[k].home].data.plain.federation.None?
    ensures LocalHomes(t)
  {
  }

  // ----- every step keeps it -----------------------------------------------

  lemma SessionKeeps(s: State, op: S.Op)
    requires Inv(s) && Enabled(s, Session(op))
    ensures var t := Step(s, Session(op)); Inv(t) && Later(s, t)
  {
    var t := Step(s, Session(op));
    Runs.StepKeeps(s.sessions, op);
    assert s.sessions.now <= t.sessions.now && s.sessions.nextID <= t.sessions.nextID;
    hide Runs.Inv, Runs.Later, S.Step;
    ElsewhereKeeps(s, t);
    forall home | Scanned(t.sessions, home)
      ensures Scanned(s.sessions, home)
    {
      OthersScanNobody(s.sessions, op, home);
    }
    EarnedStaysEarned(s, t);
    HomesStayLocal(s, t);
  }

  /** A step that leaves the sessions alone. */
  lemma CallbackSideKeeps(s: State, t: State)
    requires Inv(s) && t.sessions == s.sessions && Protocol(t) && After(s, t) && t.txns.Keys == s.txns.Keys
    ensures Inv(t) && Later(s, t)
  {
  }

  lemma StartKeepsAll(s: State, tenant: TenantID, nonce: Token, asked: Option<Transaction>, opens: bool, inserts: bool)
    requires Inv(s)
    ensures var t := StartStep(s, tenant, nonce, asked, opens, inserts); Inv(t) && Later(s, t)
  {
    hide Runs.Inv, Runs.Later, Protocol, After, S.OpenStep;
    var t := StartStep(s, tenant, nonce, asked, opens, inserts);
    StartKeeps(s, tenant, nonce, asked, opens, inserts);
    Runs.LaterIsReflexive(s.sessions);
    Runs.OpenKeeps(s.sessions, tenant, None, "", None, opens);
    OpenedPlain(s.sessions, tenant, opens);
    EarnedStaysEarned(s, t);
    HomesStayLocal(s, t);
  }

  lemma OpenedPlain(s: S.State, tenant: TenantID, opens: bool)
    ensures var (t, answer) := S.OpenStep(s, tenant, None, "", None, opens);
            && (forall home :: Scanned(t, home) ==> Scanned(s, home))
            && (answer.Opened? ==>
                  && answer.id == s.nextID && S.RowKey(tenant, answer.id) in t.rows
                  && t.rows[S.RowKey(tenant, answer.id)].data.plain.federation.None?)
  {
  }

  // ----- the poll ----------------------------------------------------------

  /** A poll that reads a live session: the session, and its one transaction. */
  lemma PollReads(s: State, tenant: TenantID, token: Token)
    requires Inv(s) && S.Known(s.sessions, token)
    ensures var (read, found) := S.FindStep(s.sessions, tenant, token);
            && Runs.Inv(read) && Runs.Later(s.sessions, read) && read == s.sessions.(cache := read.cache)
            && (found.Found? <==> Chain.Resolves(s.sessions, tenant, token))
            && (found.Found? ==>
                  && found.live == S.FindRow(s.sessions, tenant, Digest(token)).value
                  && S.FindRow(read, tenant, Digest(token)) == Some(found.live)
                  && found.live.tenant == tenant
                  && S.KeyOf(found.live) in s.sessions.rows
                  && s.sessions.rows[S.KeyOf(found.live)].data.plain == found.live)
  {
    hide Runs.Inv, Runs.Later, Protocol;
    Runs.Lookup(s.sessions, tenant, token);
  }

  /** The lookup by login session answers its one transaction. */
  lemma TheTxn(s: State, home: S.RowKey) returns (k: TxnKey)
    requires Protocol(s) && FindByLoginSession(s, home).Some?
    ensures BelongsTo(s, k, home) && FindByLoginSession(s, home) == Some(s.txns[k])
  {
    k :| Newest(s, k, home) && FindByLoginSession(s, home) == Some(s.txns[k]);
  }

  lemma TxnIsFound(s: State, k: TxnKey, home: S.RowKey)
    requires Protocol(s) && BelongsTo(s, k, home)
    ensures FindByLoginSession(s, home) == Some(s.txns[k])
  {
    assert forall j :: BelongsTo(s, j, home) ==> SharesIdentity(s.txns[j], s.txns[k]);
    assert Newest(s, k, home);
  }

  /** The completion moves one row: its person is the one the transaction names. */
  lemma CompletionRow(s: S.State, tenant: TenantID, token: Token, person: Option<UserID>, fate: Fate)
    requires Runs.Inv(s) && S.Known(s, token) && S.FindRow(s, tenant, Digest(token)).Some?
    ensures var live := S.FindRow(s, tenant, Digest(token)).value;
            var (t, answer) := S.CompleteStep(s, tenant, token, person, S.FACTOR_SCAN, fate);
            && (answer == S.Failed(S.SubjectBound) <==> live.user.Some? && live.user != person)
            && (answer.Opened? <==> !(live.user.Some? && live.user != person) && fate == Committed)
            && (answer.Opened? || answer == S.Failed(S.SubjectBound) || answer == S.Failed(S.StorageFailed)
               || answer == S.Failed(S.AuditRefused))
            && (if answer.Opened?
                then t.rows == s.rows[S.KeyOf(live) := S.Seal(S.WithFactor(live, person, S.FACTOR_SCAN, s.now),
                  Digest(s.nextToken))]
                else t.rows == s.rows)
  {
  }

  lemma PollKeeps(s: State, tenant: TenantID, token: Token, fate: Fate)
    requires Inv(s) && S.Known(s.sessions, token)
    ensures var t := PollStep(s, tenant, token, fate).0; Inv(t) && Later(s, t)
  {
    hide Runs.Inv, Runs.Later, Protocol, After, S.CompleteStep, S.FindStep;
    PollReads(s, tenant, token);
    var (read, found) := S.FindStep(s.sessions, tenant, token);
    var mid := s.(sessions := read);
    ReadKeeps(s, mid);
    if found.Found? && S.FACTOR_SCAN !in found.live.factors {
      var home := S.RowKey(tenant, found.live.id);
      if FindByLoginSession(s, home).Some? {
        var k := TheTxn(s, home);
        if s.txns[k].state == Verified && s.txns[k].person.Some? {
          CompletionKeeps(mid, k, tenant, token, fate);
          LaterIsTransitive(s, mid, PollStep(s, tenant, token, fate).0);
        }
      }
    }
  }

  lemma ReadKeeps(s: State, t: State)
    requires Inv(s) && Runs.Inv(t.sessions) && Runs.Later(s.sessions, t.sessions)
    requires t == s.(sessions := s.sessions.(cache := t.sessions.cache))
    ensures Inv(t) && Later(s, t)
  {
    hide Runs.Inv, Runs.Later;
    ElsewhereKeeps(s, t);
    hide Protocol, After;
    EarnedStaysEarned(s, t);
    HomesStayLocal(s, t);
  }

  lemma CompletionKeeps(s: State, k: TxnKey, tenant: TenantID, token: Token, fate: Fate)
    requires Inv(s) && S.Known(s.sessions, token) && Chain.Resolves(s.sessions, tenant, token)
    requires var live := S.FindRow(s.sessions, tenant, Digest(token)).value;
             live.tenant == tenant && BelongsTo(s, k, S.KeyOf(live))
    requires s.txns[k].state == Verified && s.txns[k].person.Some?
    ensures var t := s.(sessions := S.CompleteStep(s.sessions, tenant, token, s.txns[k].person, S.FACTOR_SCAN, fate).0);
            Inv(t) && Later(s, t)
  {
    var person := s.txns[k].person;
    var t := s.(sessions := S.CompleteStep(s.sessions, tenant, token, person, S.FACTOR_SCAN, fate).0);
    Runs.CompleteKeeps(s.sessions, tenant, token, person, S.FACTOR_SCAN, fate);
    CompletionRow(s.sessions, tenant, token, person, fate);
    assert s.sessions.now <= t.sessions.now && s.sessions.nextID <= t.sessions.nextID;
    hide Runs.Inv, S.CompleteStep;
    ElsewhereKeeps(s, t);
    CompletionEarns(s, t, k, S.KeyOf(S.FindRow(s.sessions, tenant, Digest(token)).value));
    HomesStayLocal(s, t);
  }

  /** One row gained the scan factor, under the person its transaction names. */
  lemma CompletionEarns(s: State, t: State, k: TxnKey, home: S.RowKey)
    requires Inv(s) && t == s.(sessions := t.sessions) && BelongsTo(s, k, home)
    requires s.txns[k].state == Verified && s.txns[k].person.Some?
    requires t.sessions.rows == s.sessions.rows
             || (&& home in t.sessions.rows && t.sessions.rows == s.sessions.rows[home := t.sessions.rows[home]]
                 && t.sessions.rows[home].data.plain.user == s.txns[k].person)
    ensures ScansAreEarned(t)
  {
    hide Runs.Inv, Protocol;
    forall other | Scanned(t.sessions, other)
      ensures Earned(t, other)
    {
      if other == home && t.sessions.rows != s.sessions.rows {
        assert BelongsTo(t, k, home);
      } else {
        assert Scanned(s.sessions, other) && Earned(s, other);
        var j :| BelongsTo(s, j, other) && s.txns[j].state == Verified && s.txns[j].person.Some?
                 && s.sessions.rows[other].data.plain.user == s.txns[j].person;
        assert BelongsTo(t, j, other);
      }
    }
  }

  lemma StepKeeps(s: State, op: Op)
    requires Inv(s) && Enabled(s, op)
    ensures Inv(Step(s, op)) && Later(s, Step(s, op))
  {
    hide Runs.Inv, Runs.Later, Protocol, After, ScansAreEarned, LocalHomes, PollStep, StartStep, CallbackStep,
      LookStep, ClaimStep, JudgeStep, WriteStep, Inv, Later;
    match op
    case Session(op) => SessionKeeps(s, op);
    case Directory(people) => DirectoryKeeps(s, people);
    case Start(tenant, nonce, asked, opens, inserts) => StartKeepsAll(s, tenant, nonce, asked, opens, inserts);
    case Poll(tenant, token, fate) => PollKeeps(s, tenant, token, fate);
    case _ => PushKeeps(s, op);
  }

  lemma DirectoryKeeps(s: State, people: map<Name, UserID>)
    requires Inv(s)
    ensures var t := s.(people := people); Inv(t) && Later(s, t)
  {
    hide Runs.Inv, Runs.Later;
    ElsewhereKeeps(s, s.(people := people));
    hide Protocol, After;
    CallbackSideKeeps(s, s.(people := people));
  }

  lemma PushKeeps(s: State, op: Op)
    requires Inv(s) && Enabled(s, op) && (op.Split() || op.Callback?)
    ensures Inv(Step(s, op)) && Later(s, Step(s, op))
  {
    hide Runs.Inv, Runs.Later, Protocol, After, ScansAreEarned, LocalHomes, CallbackStep, LookStep, ClaimStep,
      JudgeStep, WriteStep, Reads, Later, Aside;
    match op
    case Look(push, pick) =>
      LookKeeps(s, push, pick);
      LookIsAside(s, push, pick);
      AsideKeeps(s, LookStep(s, push, pick));
    case Claiming(cb, written) =>
      ClaimKeeps(s, cb, written);
      ClaimIsAside(s, cb, written);
      AsideKeeps(s, ClaimStep(s, cb, written));
    case Judging(cb, read) =>
      JudgeKeeps(s, cb, read);
      JudgeIsAside(s, cb, read);
      AsideKeeps(s, JudgeStep(s, cb, read));
    case Writing(cb, written) =>
      WriteKeeps(s, cb, written);
      WriteIsAside(s, cb, written);
      AsideKeeps(s, WriteStep(s, cb, written));
    case Callback(push, pick, claims, read, writes) =>
      CallbackKeeps(s, push, pick, claims, read, writes);
      CallbackIsAside(s, push, pick, claims, read, writes);
      AsideKeeps(s, CallbackStep(s, push, pick, claims, read, writes));
  }

  /** A push touches neither the sessions nor the set of transactions. */
  ghost predicate Aside(s: State, t: State) {
    t.sessions == s.sessions && t.txns.Keys == s.txns.Keys
  }

  lemma AsideKeeps(s: State, t: State)
    requires Inv(s) && Aside(s, t) && Protocol(t) && After(s, t)
    ensures Inv(t) && Later(s, t)
  {
  }

  lemma LookIsAside(s: State, push: Push, pick: Option<TxnKey>)
    ensures Aside(s, LookStep(s, push, pick))
  {
  }

  lemma ClaimIsAside(s: State, cb: CallbackID, written: bool)
    ensures Aside(s, ClaimStep(s, cb, written))
  {
  }

  lemma JudgeIsAside(s: State, cb: CallbackID, read: bool)
    ensures Aside(s, JudgeStep(s, cb, read))
  {
  }

  lemma WriteIsAside(s: State, cb: CallbackID, written: bool)
    ensures Aside(s, WriteStep(s, cb, written))
  {
  }

  lemma CallbackIsAside(s: State, push: Push, pick: Option<TxnKey>, claims: bool, read: bool, writes: bool)
    ensures Aside(s, CallbackStep(s, push, pick, claims, read, writes))
  {
  }

  lemma {:induction false} RunKeeps(s: State, ops: seq<Op>)
    requires Inv(s) && Admissible(s, ops)
    ensures Inv(Run(s, ops)) && Later(s, Run(s, ops))
  {
    if ops == [] {
      Runs.LaterIsReflexive(s.sessions);
      AfterIsReflexive(s);
    } else {
      var init, last := ops[..|ops| - 1], ops[|ops| - 1];
      RunKeeps(s, init);
      StepKeeps(Run(s, init), last);
      LaterIsTransitive(s, Run(s, init), Run(s, ops));
    }
  }
}
