/** The main results about QR Login. */
module QrTheorems {
  import opened Basics
  import opened QrModel
  import opened QrRuns
  import opened QrSafety
  import S = SessionModel
  import Runs = SessionRuns
  import Chain = SessionChain

  lemma FreshIsSound()
    ensures Inv(FRESH)
  {
  }

  // ----- one claim, one result ---------------------------------------------

  /** Under any interleaving of any number of pushes, a transaction is claimed at most once
      and gets at most one result, and the result is final: it never turns from verified to
      failed or back, whatever runs after. A verified one was claimed before its deadline by
      a push that addresses it, whose state word was absent or accepted, whose nonce was
      absent or its own, and whose name the directory answered with the recorded person. */
  lemma OneClaimOneResult(ops: seq<Op>, after: seq<Op>, k: TxnKey)
    requires Admissible(FRESH, ops) && Admissible(Run(FRESH, ops), after) && k in Run(FRESH, ops).txns
    ensures var s, t := Run(FRESH, ops), Run(Run(FRESH, ops), after);
            && k in s.history && Life(s.txns[k], s.history[k])
            && k in t.txns && k in t.history && Life(t.txns[k], t.history[k]) && s.history[k] <= t.history[k]
            && (s.txns[k].state != Pending ==>
                 t.txns[k].state == s.txns[k].state && t.txns[k].person == s.txns[k].person)
            && (s.txns[k].state == Verified ==>
                  var row, push, at := s.txns[k], s.history[k][0].push, s.history[k][0].at;
                  && row.consumedAt == Some(at) && at < row.expiresAt && Addresses(push, row)
                  && (push.stateWord.None? || push.stateWord.value == STATE_WORD_ACCEPTED)
                  && (push.nonce.None? || Digest(push.nonce.value) == row.nonceHash)
                  && push.username.Some?
                  && row.person.Some? && s.history[k][1].known == row.person)
  {
    FreshIsSound();
    RunKeeps(FRESH, ops);
    RunKeeps(Run(FRESH, ops), after);
    hide Runs.Inv, SoundStages, OneHolder, Distinct;
    var s, t := Run(FRESH, ops), Run(Run(FRESH, ops), after);
    assert SoundTxn(s, k) && TxnMoves(s, t, k) && SoundTxn(t, k);
  }

  /** The directory named this person under this name at some moment of the run. */
  ghost predicate EverNamed(ops: seq<Op>, name: Name, person: UserID) {
    exists i :: 0 <= i <= |ops| && NamedAfter(ops[..i], name, person)
  }

  ghost predicate NamedAfter(ops: seq<Op>, name: Name, person: UserID) {
    name in Run(FRESH, ops).people && Run(FRESH, ops).people[name] == person
  }

  lemma NamedStays(ops: seq<Op>, name: Name, person: UserID)
    requires ops != [] && EverNamed(ops[..|ops| - 1], name, person)
    ensures EverNamed(ops, name, person)
  {
    var init := ops[..|ops| - 1];
    var i :| 0 <= i <= |init| && NamedAfter(init[..i], name, person);
    assert ops[..i] == init[..i];
  }

  lemma NamedNow(ops: seq<Op>, name: Name, person: UserID)
    requires NamedAfter(ops, name, person)
    ensures EverNamed(ops, name, person)
  {
    assert ops[..|ops|] == ops;
  }

  /** A push claimed the transaction, and the directory named somebody for it. */
  predicate JudgedSomebody(h: seq<Event>) {
    |h| >= 2 && h[0].Claim? && h[1].Judgement? && h[1].known.Some?
  }

  ghost predicate JudgedTruly(s: State, k: TxnKey, h: seq<Event>, ops: seq<Op>) {
    JudgedSomebody(h) ==>
      h[0].push.username.Some? && EverNamed(ops, Name(k.tenant, h[0].push.username.value), h[1].known.value)
  }

  /** One step judges at most by what the directory says at that moment. */
  lemma JudgesByDirectory(s: State, cb: CallbackID, read: bool, k: TxnKey)
    requires Protocol(s) && k in s.history
    ensures var t := JudgeStep(s, cb, read);
            && k in t.history
            && (t.history[k] == s.history[k]
                || (&& |s.history[k]| == 1 && |t.history[k]| == 2 && t.history[k][0] == s.history[k][0]
                    && (t.history[k][0].Claim? && t.history[k][1].Judgement? && t.history[k][1].known.Some? ==>
                          && t.history[k][0].push.username.Some?
                          && var name := Name(k.tenant, t.history[k][0].push.username.value);
                             name in s.people && s.people[name] == t.history[k][1].known.value)))
  {
  }

  /** No other step of a push judges. */
  lemma OthersDoNotJudge(s: State, op: Op, k: TxnKey)
    requires Protocol(s) && (op.Look? || op.Claiming? || op.Writing?) && k in s.history
    ensures var h, i := s.history[k], Step(s, op).history[k];
            k in Step(s, op).history && h <= i && (|i| >= 2 ==> |h| >= 2)
  {
    if (op.Claiming? || op.Writing?) && op.cb in s.inFlight {
      assert SoundStage(s, op.cb) && SoundTxn(s, s.inFlight[op.cb].key);
    }
  }

  /** How one step treats the judgement of one transaction. */
  ghost predicate Judges(s: State, t: State, k: TxnKey)
    requires k in s.history
  {
    && k in t.history && s.history[k] <= t.history[k]
    && (JudgedSomebody(t.history[k]) && |s.history[k]| < 2 ==>
          && t.history[k][0].push.username.Some?
          && var name := Name(k.tenant, t.history[k][0].push.username.value);
             name in s.people && s.people[name] == t.history[k][1].known.value)
  }

  lemma StepJudges(s: State, op: Op, k: TxnKey)
    requires Inv(s) && Enabled(s, op) && k in s.history && k in s.txns
    ensures Judges(s, Step(s, op), k)
  {
    hide Runs.Inv, ScansAreEarned, LocalHomes, S.Step, LookStep, ClaimStep, JudgeStep, WriteStep, Protocol,
      PollStep, StartStep, CallbackStep;
    match op
    case Judging(cb, read) => JudgesByDirectory(s, cb, read, k);
    case Callback(push, pick, claims, read, writes) => CallbackJudges(s, push, pick, claims, read, writes, k);
    case Start(tenant, nonce, asked, opens, inserts) => StartJudgesNot(s, op, k);
    case Poll(tenant, token, fate) => PollJudgesNot(s, tenant, token, fate);
    case _ =>
      if op.Split() { OthersDoNotJudge(s, op, k); }
  }

  lemma StartJudgesNot(s: State, op: Op, k: TxnKey)
    requires Protocol(s) && op.Start? && k in s.txns && k in s.history
    ensures k in Step(s, op).history && Step(s, op).history[k] == s.history[k]
  {
    hide S.OpenStep;
    assert SoundTxn(s, k);
  }

  lemma PollJudgesNot(s: State, tenant: TenantID, token: Token, fate: Fate)
    ensures PollStep(s, tenant, token, fate).0.history == s.history
  {
  }

  lemma CallbackJudges(s: State, push: Push, pick: Option<TxnKey>, claims: bool, read: bool, writes: bool, k: TxnKey)
    requires Protocol(s) && Reads(s, push, pick) && k in s.history
    ensures Judges(s, CallbackStep(s, push, pick, claims, read, writes), k)
  {
    hide Protocol, LookStep, ClaimStep, JudgeStep, WriteStep, Judges, Reads;
    var cb := s.nextCallback;
    var t1 := LookStep(s, push, pick);
    var t2 := ClaimStep(t1, cb, claims);
    var t3 := JudgeStep(t2, cb, read);
    CallbackPieces(s, push, pick, claims, read, k);
    PieceJudges(s, Look(push, pick), k);
    PieceJudges(t1, Claiming(cb, claims), k);
    JudgesInTurn(s, t1, t2, k);
    PieceJudges(t2, Judging(cb, read), k);
    JudgesInTurn(s, t2, t3, k);
    PieceJudges(t3, Writing(cb, writes), k);
    JudgesInTurn(s, t3, WriteStep(t3, cb, writes), k);
  }

  lemma PieceJudges(s: State, op: Op, k: TxnKey)
    requires Protocol(s) && op.Split() && k in s.history
    ensures Judges(s, Step(s, op), k) && k in Step(s, op).history
  {
    hide LookStep, ClaimStep, JudgeStep, WriteStep, Protocol, PollStep, StartStep, CallbackStep;
    if op.Judging? { JudgesByDirectory(s, op.cb, op.read, k); } else { OthersDoNotJudge(s, op, k); }
  }

  lemma JudgesInTurn(s: State, t: State, u: State, k: TxnKey)
    requires k in s.history && Judges(s, t, k) && k in t.history && Judges(t, u, k) && s.people == t.people
    ensures Judges(s, u, k) && k in u.history
  {
  }

  lemma CallbackPieces(s: State, push: Push, pick: Option<TxnKey>, claims: bool, read: bool, k: TxnKey)
    requires Protocol(s) && Reads(s, push, pick)
    ensures var t1 := LookStep(s, push, pick);
            var t2 := ClaimStep(t1, s.nextCallback, claims);
            var t3 := JudgeStep(t2, s.nextCallback, read);
            Protocol(t1) && Protocol(t2) && Protocol(t3) && t1.people == t2.people == t3.people == s.people
  {
    hide Protocol, After;
    LookKeeps(s, push, pick);
    ClaimKeeps(LookStep(s, push, pick), s.nextCallback, claims);
    JudgeKeeps(ClaimStep(LookStep(s, push, pick), s.nextCallback, claims), s.nextCallback, read);
  }

  /** Every person a verified transaction records was named by the directory, under the name
      the claiming push carried, at some moment of the run. */
  lemma {:induction false} VerifiedWasNamed(ops: seq<Op>, k: TxnKey)
    requires Admissible(FRESH, ops) && k in Run(FRESH, ops).txns
    ensures var s := Run(FRESH, ops);
            && k in s.history && Life(s.txns[k], s.history[k]) && JudgedTruly(s, k, s.history[k], ops)
            && (s.txns[k].state == Verified ==>
                  EverNamed(ops, Name(k.tenant, s.history[k][0].push.username.value), s.txns[k].person.value))
  {
    FreshIsSound();
    RunKeeps(FRESH, ops);
    var s := Run(FRESH, ops);
    assert SoundTxn(s, k);
    if ops != [] {
      var init, last := ops[..|ops| - 1], ops[|ops| - 1];
      RunKeeps(FRESH, init);
      var r := Run(FRESH, init);
      if k in r.txns {
        VerifiedWasNamed(init, k);
        StepJudges(r, last, k);
        NamedCarries(r, s, k, ops);
      } else {
        NewTxnIsBlank(r, last, k);
      }
    }
  }

  lemma NamedCarries(r: State, s: State, k: TxnKey, ops: seq<Op>)
    requires ops != [] && r == Run(FRESH, ops[..|ops| - 1]) && k in r.history && k in s.history
    requires Judges(r, s, k) && JudgedTruly(r, k, r.history[k], ops[..|ops| - 1])
    ensures JudgedTruly(s, k, s.history[k], ops)
  {
    var h := s.history[k];
    if |h| >= 2 && h[0].Claim? && h[1].Judgement? && h[1].known.Some? {
      if |r.history[k]| < 2 {
        NamedNow(ops[..|ops| - 1], Name(k.tenant, h[0].push.username.value), h[1].known.value);
      }
      NamedStays(ops, Name(k.tenant, h[0].push.username.value), h[1].known.value);
    }
  }

  lemma NewTxnIsBlank(s: State, op: Op, k: TxnKey)
    requires Inv(s) && Enabled(s, op) && k !in s.txns && k in Step(s, op).txns
    ensures k in Step(s, op).history && Step(s, op).history[k] == []
  {
    hide Runs.Inv, S.Step, ScansAreEarned, LocalHomes, Protocol;
    if op.Callback? { CallbackIsAside(s, op.push, op.pick, op.claims, op.read, op.writes); }
  }

  // ----- the scan factor ---------------------------------------------------

  /** In every reachable state a login session carries the scan factor only if a transaction
      of its own is verified and names the very person the session is bound to. */
  lemma ScanIsEarned(ops: seq<Op>, home: S.RowKey)
    requires Admissible(FRESH, ops) && Scanned(Run(FRESH, ops).sessions, home)
    ensures var s := Run(FRESH, ops);
            exists k :: BelongsTo(s, k, home) && s.txns[k].state == Verified && s.txns[k].person.Some?
                        && s.sessions.rows[home].data.plain.user == s.txns[k].person
  {
    FreshIsSound();
    RunKeeps(FRESH, ops);
    hide Runs.Inv, Protocol, LocalHomes, Later, Step;
    assert Earned(Run(FRESH, ops), home);
  }

  /** This poll handed a rotated token out for the session. */
  ghost predicate HandsOut(s: State, op: Op, home: S.RowKey) {
    && op.Poll? && Chain.ResolvesTo(s.sessions, op.tenant, op.token, home)
    && PollStep(s, op.tenant, op.token, op.fate).1.Authenticated?
    && PollStep(s, op.tenant, op.token, op.fate).1.token.Some?
  }

  ghost function HandedOut(s: State, ops: seq<Op>, home: S.RowKey): nat {
    if ops == [] then 0
    else
      var init, last := ops[..|ops| - 1], ops[|ops| - 1];
      HandedOut(s, init, home) + if HandsOut(Run(s, init), last, home) then 1 else 0
  }

  /** The session carries the scan factor, or will never be polled again. */
  ghost predicate Done(s: State, home: S.RowKey) {
    home.id < s.sessions.nextID && (home in s.sessions.rows ==> Scanned(s.sessions, home))
  }

  lemma DoneStaysDone(s: State, t: State, home: S.RowKey)
    requires Inv(s) && Later(s, t) && Done(s, home)
    ensures Done(t, home)
  {
  }

  lemma HandingOutIsDone(s: State, op: Op, home: S.RowKey)
    requires Inv(s) && Enabled(s, op) && HandsOut(s, op, home)
    ensures Done(Step(s, op), home) && !Done(s, home)
  {
    PollAnswers(s, op.tenant, op.token, op.fate);
    var live := S.FindRow(s.sessions, op.tenant, Digest(op.token)).value;
    assert Runs.SoundRow(s.sessions, home);
    StepKeeps(s, op);
  }

  /** At most one poll ever hands a rotated token out for one login session. */
  lemma {:induction false} HandedOutOnce(ops: seq<Op>, home: S.RowKey)
    requires Admissible(FRESH, ops)
    ensures HandedOut(FRESH, ops, home) <= 1
    ensures HandedOut(FRESH, ops, home) == 1 ==> Done(Run(FRESH, ops), home)
  {
    if ops != [] {
      var init, last := ops[..|ops| - 1], ops[|ops| - 1];
      HandedOutOnce(init, home);
      FreshIsSound();
      RunKeeps(FRESH, init);
      var s := Run(FRESH, init);
      hide Inv, Later, Done;
      StepKeeps(s, last);
      if HandsOut(s, last, home) { HandingOutIsDone(s, last, home); }
      if Done(s, home) { DoneStaysDone(s, Step(s, last), home); }
    }
  }

  // ----- what a poll answers -----------------------------------------------

  /** What a poll of one live session answers, by its transaction and nothing else. */
  ghost predicate Answers(s: State, live: S.LoginSession, fate: Fate, status: Status) {
    var row := FindByLoginSession(s, S.KeyOf(live));
    if S.FACTOR_SCAN in live.factors then status == Authenticated(None, live.user)
    else if row.None? || row.value.state == Failed then status == Expired
    else if row.value.state == Pending then
      status == if row.value.expiresAt > s.sessions.now then StillPending else Expired
    else if row.value.person.None? || (live.user.Some? && live.user != row.value.person) then status == Expired
    else if fate == Committed then status == Authenticated(Some(s.sessions.nextToken), row.value.person)
    else status == PollFailed(S.StorageFailed) || status == PollFailed(S.AuditRefused)
  }

  lemma PollAnswers(s: State, tenant: TenantID, token: Token, fate: Fate)
    requires Inv(s) && S.Known(s.sessions, token) && Chain.Resolves(s.sessions, tenant, token)
    ensures var (t, status) := PollStep(s, tenant, token, fate);
            var live := S.FindRow(s.sessions, tenant, Digest(token)).value;
            && Answers(s, live, fate, status)
            && S.KeyOf(live) in s.sessions.rows && s.sessions.rows[S.KeyOf(live)].data.plain == live
            && live.tenant == tenant
            && (if status.Authenticated? && status.token.Some?
                then Scanned(t.sessions, S.KeyOf(live)) && S.FACTOR_SCAN !in live.factors
                else t.sessions.rows == s.sessions.rows)
  {
    hide Runs.Inv, Runs.Later, Protocol, S.CompleteStep, S.FindStep, ScansAreEarned, LocalHomes;
    PollReads(s, tenant, token);
    var (read, found) := S.FindStep(s.sessions, tenant, token);
    var live := found.live;
    var row := FindByLoginSession(s, S.KeyOf(live));
    if S.FACTOR_SCAN !in live.factors && row.Some? && row.value.state == Verified && row.value.person.Some? {
      CompletionRow(read, tenant, token, row.value.person, fate);
      CompletionToken(read, tenant, token, row.value.person, fate);
    }
  }

  lemma CompletionToken(s: S.State, tenant: TenantID, token: Token, person: Option<UserID>, fate: Fate)
    requires Runs.Inv(s) && S.Known(s, token)
    ensures var answer := S.CompleteStep(s, tenant, token, person, S.FACTOR_SCAN, fate).1;
            answer.Opened? ==> answer.token == s.nextToken
  {
  }
}
