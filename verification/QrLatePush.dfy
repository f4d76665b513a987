/** The one way an expired answer of QR Login is not final: a push that claimed in time and
    writes after the deadline. */
module QrLatePush {
  import opened Basics
  import opened QrModel
  import opened QrRuns
  import opened QrSafety
  import opened QrTheorems
  import opened QrFinality
  import S = SessionModel
  import Runs = SessionRuns

  /** A run that gets there: the code is scanned in time, and the push that claimed it is
      slow to write. */
  const SLOW_PUSH: seq<Op> := [
    Directory(map[Name(0, "ada") := 7]),
    Start(0, 99, Some(Transaction(1, 2)), true, true),
    Look(Push(Some(1), None, None, Some("ada"), None), Some(TxnKey(0, 0))),
    Claiming(0, true),
    Judging(0, true),
    Session(S.Tick(TRANSACTION_TTL))]

  /** Expired is not final in this run: the poll answers expired, then authenticated. */
  lemma ExpiredIsNotFinal()
    ensures Admissible(FRESH, SLOW_PUSH)
    ensures var s := Run(FRESH, SLOW_PUSH);
            var (r, one) := PollStep(s, 0, 0, Committed);
            var two := PollStep(WriteStep(r, 0, true), 0, 0, Committed).1;
            one == Expired && two.Authenticated? && two.token.Some? && two.user == Some(7)
  {
    SlowPushRuns();
    FreshIsSound();
    RunKeeps(FRESH, SLOW_PUSH);
    var s, home := Run(FRESH, SLOW_PUSH), S.RowKey(0, 0);
    assert S.Credentials(s.sessions, home, 0, Digest(0));
    var k := Runs.FoundRow(s.sessions, 0, 0);
    hide Run, PollStep, WriteStep, Runs.Inv, Protocol, ScansAreEarned, LocalHomes;
    PollAnswers(s, 0, 0, Committed);
    TxnIsFound(s, TxnKey(0, 0), home);
    StepKeeps(s, Poll(0, 0, Committed));
    ExpiredIsAside(s, 0, 0, Committed);
    StillResolves(s.sessions, PollStep(s, 0, 0, Committed).0.sessions, 0, 0, home);
    LandsNow(PollStep(s, 0, 0, Committed).0, TxnKey(0, 0), 0, 7, 0, home);
  }

  const SCAN := Push(Some(1), None, None, Some("ada"), None)
  const SCANNED_ROW := Txn(S.RowKey(0, 0), 1, 2, Digest(99), Pending, None, TRANSACTION_TTL, None)
  const LIVE := S.LoginSession(0, 0, None, "", None, 0, map[], 0, S.PARTIAL_LIFETIME)
  const SESSIONS := S.State(
    0, map[S.RowKey(0, 0) := S.Seal(LIVE, Digest(0))],
    map[S.Slot(0, Digest(0)) := S.Entry(S.Sealed(LIVE), S.PARTIAL_LIFETIME)], [], 1, 1, {0})

  function Scene(row: Txn, stages: map<CallbackID, Stage>, events: seq<Event>): State {
    State(SESSIONS, map[TxnKey(0, 0) := row], 1, map[Name(0, "ada") := 7], stages, |stages|,
      map[TxnKey(0, 0) := events])
  }

  const LOOKED := Scene(SCANNED_ROW, map[0 := Looked(SCAN, TxnKey(0, 0), SCANNED_ROW)], [])
  const CLAIMED := Scene(SCANNED_ROW.(consumedAt := Some(0)), map[0 := Claimed(SCAN, TxnKey(0, 0), SCANNED_ROW)],
    [Claim(0, SCAN)])
  const JUDGED := Scene(SCANNED_ROW.(consumedAt := Some(0)), map[0 := Judged(TxnKey(0, 0), Some(7))],
                        [Claim(0, SCAN), Judgement(Some(7), Some(7))])

  const NAMED := FRESH.(people := map[Name(0, "ada") := 7])

  lemma Scanning()
    ensures Enabled(FRESH, SLOW_PUSH[0]) && Step(FRESH, SLOW_PUSH[0]) == NAMED
    ensures Enabled(NAMED, SLOW_PUSH[1]) && Step(NAMED, SLOW_PUSH[1]) == Scene(SCANNED_ROW, map[], [])
  {
    FirstSession();
    hide S.OpenStep, PollStep, CallbackStep;
    var t := Step(NAMED, SLOW_PUSH[1]);
    assert t.txns == map[TxnKey(0, 0) := SCANNED_ROW] && t.history == map[TxnKey(0, 0) := []];
  }

  lemma FirstSession()
    ensures S.OpenStep(S.FRESH, 0, None, "", None, true) == (SESSIONS, S.Opened(0, 0))
  {
    var live := S.OpenStep(S.FRESH, 0, None, "", None, true).0;
    assert live.rows == SESSIONS.rows && live.cache == SESSIONS.cache && live.disclosed == SESSIONS.disclosed;
  }

  lemma Pushing()
    ensures var s := Scene(SCANNED_ROW, map[], []); Enabled(s, SLOW_PUSH[2]) && Step(s, SLOW_PUSH[2]) == LOOKED
    ensures Enabled(LOOKED, SLOW_PUSH[3]) && Step(LOOKED, SLOW_PUSH[3]) == CLAIMED
    ensures Enabled(CLAIMED, SLOW_PUSH[4]) && Step(CLAIMED, SLOW_PUSH[4]) == JUDGED
    ensures Enabled(JUDGED, SLOW_PUSH[5])
            && Step(JUDGED, SLOW_PUSH[5]) == JUDGED.(sessions := SESSIONS.(now := TRANSACTION_TTL))
  {
    PushClaims();
    PushIsJudged();
    hide PollStep, StartStep, CallbackStep, ClaimStep, JudgeStep, WriteStep;
  }

  lemma PushClaims()
    ensures ClaimStep(LOOKED, 0, true) == CLAIMED
  {
    assert [] + [Claim(0, SCAN)] == [Claim(0, SCAN)];
    var t := ClaimStep(LOOKED, 0, true);
    assert t.txns == CLAIMED.txns && t.inFlight == CLAIMED.inFlight && t.history == CLAIMED.history;
  }

  lemma PushIsJudged()
    ensures JudgeStep(CLAIMED, 0, true) == JUDGED
  {
    assert [Claim(0, SCAN)] + [Judgement(Some(7), Some(7))] == [Claim(0, SCAN), Judgement(Some(7), Some(7))];
    var t := JudgeStep(CLAIMED, 0, true);
    assert t.inFlight == JUDGED.inFlight && t.history == JUDGED.history;
  }

  lemma Reaches(ops: seq<Op>, i: nat, s: State, t: State)
    requires i < |ops| && Admissible(FRESH, ops[..i]) && Run(FRESH, ops[..i]) == s
    requires Enabled(s, ops[i]) && Step(s, ops[i]) == t
    ensures Admissible(FRESH, ops[..i + 1]) && Run(FRESH, ops[..i + 1]) == t
  {
    assert ops[..i + 1][..i] == ops[..i];
  }

  lemma SlowPushRuns()
    ensures Admissible(FRESH, SLOW_PUSH)
    ensures Run(FRESH, SLOW_PUSH) == JUDGED.(sessions := SESSIONS.(now := TRANSACTION_TTL))
  {
    hide Step, Enabled, Scene;
    Scanning();
    Pushing();
    assert SLOW_PUSH[..0] == [] && SLOW_PUSH[..6] == SLOW_PUSH;
    assert Run(FRESH, []) == FRESH;
    hide Run, Admissible;
    Reaches(SLOW_PUSH, 0, FRESH, NAMED);
    Reaches(SLOW_PUSH, 1, NAMED, Scene(SCANNED_ROW, map[], []));
    Reaches(SLOW_PUSH, 2, Scene(SCANNED_ROW, map[], []), LOOKED);
    Reaches(SLOW_PUSH, 3, LOOKED, CLAIMED);
    Reaches(SLOW_PUSH, 4, CLAIMED, JUDGED);
    Reaches(SLOW_PUSH, 5, JUDGED, JUDGED.(sessions := SESSIONS.(now := TRANSACTION_TTL)));
  }
}
