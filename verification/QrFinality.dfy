/** What successive polls of one login session answer, and exactly when an expired answer is
    final. */
module QrFinality {
  import opened Basics
  import opened QrModel
  import opened QrRuns
  import opened QrSafety
  import opened QrTheorems
  import S = SessionModel
  import Runs = SessionRuns
  import Chain = SessionChain

  // ----- answers are final -------------------------------------------------

  /** Whether the session may still be signed in by a scan: its transaction names somebody it
      could be bound to, or can be claimed, or a push that claimed it may yet prove somebody. */
  ghost predicate MaySignIn(s: State, home: S.RowKey) {
    && home in s.sessions.rows
    && exists k, person: UserID :: BelongsTo(s, k, home) && Prospect(s, k, person) && Fits(s, home, person)
  }

  /** The session names nobody, or this person. */
  ghost predicate Fits(s: State, home: S.RowKey, person: UserID)
    requires home in s.sessions.rows
  {
    s.sessions.rows[home].data.plain.user in {None, Some(person)}
  }

  /** The outcome of the session is decided, one way or the other. */
  ghost predicate Decided(s: State, home: S.RowKey, yes: bool) {
    && home in s.sessions.rows
    && if yes then Scanned(s.sessions, home)
       else
         && !Scanned(s.sessions, home)
         && forall k :: BelongsTo(s, k, home) ==> Lost(s, k, home)
  }

  /** The transaction can no longer sign its session in, and no poll reads it as pending. */
  ghost predicate Lost(s: State, k: TxnKey, home: S.RowKey)
    requires k in s.txns && home in s.sessions.rows
  {
    && (s.txns[k].state != Pending || s.txns[k].expiresAt <= s.sessions.now)
    && forall person: UserID :: Prospect(s, k, person) ==> !Fits(s, home, person)
  }

  lemma LostStaysLost(s: State, t: State, k: TxnKey, home: S.RowKey)
    requires Inv(s) && Inv(t) && Later(s, t) && home in s.sessions.rows && home in t.sessions.rows
    requires BelongsTo(s, k, home) && Lost(s, k, home)
    ensures k in t.txns && Lost(t, k, home)
  {
  }

  lemma DecidedStaysDecided(s: State, t: State, home: S.RowKey, yes: bool)
    requires Inv(s) && Inv(t) && Later(s, t) && Decided(s, home, yes) && home in t.sessions.rows
    ensures Decided(t, home, yes)
  {
    if yes {
      assert Runs.Follows(s.sessions.rows[home].data.plain, t.sessions.rows[home].data.plain);
    } else {
      forall k | BelongsTo(t, k, home)
        ensures Lost(t, k, home)
      {
        OldTxn(s, t, k, home);
        LostStaysLost(s, t, k, home);
      }
      NeverScanned(t, home);
    }
  }

  /** A session never gains a transaction. */
  lemma OldTxn(s: State, t: State, k: TxnKey, home: S.RowKey)
    requires Inv(s) && Later(s, t) && home in s.sessions.rows && BelongsTo(t, k, home)
    ensures BelongsTo(s, k, home)
  {
  }

  lemma NeverScanned(t: State, home: S.RowKey)
    requires Inv(t) && home in t.sessions.rows
    requires forall k :: BelongsTo(t, k, home) ==> Lost(t, k, home)
    ensures !Scanned(t.sessions, home)
  {
    hide Runs.Inv, Protocol;
    forall k | BelongsTo(t, k, home) && t.txns[k].state == Verified && t.txns[k].person.Some?
      ensures t.sessions.rows[home].data.plain.user != t.txns[k].person
    {
      assert Prospect(t, k, t.txns[k].person.value);
    }
    assert forall other :: Scanned(t.sessions, other) ==> Earned(t, other);
  }

  /** A poll that answers authenticated decides, and so does one that answers expired when no
      push may still sign the session in. */
  lemma AnswerDecides(s: State, tenant: TenantID, token: Token, fate: Fate, home: S.RowKey)
    requires Inv(s) && S.Known(s.sessions, token) && Chain.ResolvesTo(s.sessions, tenant, token, home)
    ensures var (t, status) := PollStep(s, tenant, token, fate);
            && (status.Authenticated? && home in t.sessions.rows ==> Decided(t, home, true))
            && (status == Expired && !MaySignIn(s, home) ==> Decided(s, home, false))
  {
    PollAnswers(s, tenant, token, fate);
    hide Runs.Inv, Runs.Later, S.CompleteStep, S.FindStep, PollStep;
    if PollStep(s, tenant, token, fate).1 == Expired && !MaySignIn(s, home) {
      forall k | BelongsTo(s, k, home)
        ensures Lost(s, k, home)
      {
        TxnIsFound(s, k, home);
      }
    }
  }

  /** What a poll of a decided session answers. */
  lemma DecidedAnswers(s: State, tenant: TenantID, token: Token, fate: Fate, home: S.RowKey, yes: bool)
    requires Inv(s) && S.Known(s.sessions, token) && Chain.ResolvesTo(s.sessions, tenant, token, home)
    requires Decided(s, home, yes)
    ensures PollStep(s, tenant, token, fate).1
            == if yes then Authenticated(None, s.sessions.rows[home].data.plain.user) else Expired
  {
    PollAnswers(s, tenant, token, fate);
    hide Runs.Inv, S.CompleteStep, S.FindStep, PollStep;
    if FindByLoginSession(s, home).Some? {
      var k := TheTxn(s, home);
      if s.txns[k].state == Verified && s.txns[k].person.Some? { assert Prospect(s, k, s.txns[k].person.value); }
    }
  }

  /** Two polls of one login session, with anything in between. Once a poll answers
      authenticated, every later one does, and hands out no token. Once a poll answers
      expired while no push may still sign the session in, every later one does. So successive
      answers are pending, repeated, and then one of the two for good. */
  lemma AnswersAreFinal(
    ops: seq<Op>, tenant: TenantID, first: Token, fate: Fate, between: seq<Op>, second: Token, again: Fate,
      home: S.RowKey)
    requires Admissible(FRESH, ops) && Enabled(Run(FRESH, ops), Poll(tenant, first, fate))
    requires Chain.ResolvesTo(Run(FRESH, ops).sessions, tenant, first, home)
    requires Admissible(Step(Run(FRESH, ops), Poll(tenant, first, fate)), between)
    requires var t := Run(Step(Run(FRESH, ops), Poll(tenant, first, fate)), between);
             S.Known(t.sessions, second) && Chain.ResolvesTo(t.sessions, tenant, second, home)
    ensures var s := Run(FRESH, ops);
            var one := PollStep(s, tenant, first, fate).1;
            var two := PollStep(Run(Step(s, Poll(tenant, first, fate)), between), tenant, second, again).1;
            && (one.Authenticated? ==> two.Authenticated? && two.token == None && two.user == one.user)
            && (one == Expired && !MaySignIn(s, home) ==> two == Expired)
  {
    FreshIsSound();
    RunKeeps(FRESH, ops);
    var s := Run(FRESH, ops);
    StepKeeps(s, Poll(tenant, first, fate));
    var r := Step(s, Poll(tenant, first, fate));
    RunKeeps(r, between);
    hide Inv, Later, PollStep, MaySignIn, Run, Admissible;
    FinalAfter(s, r, Run(r, between), tenant, first, fate, second, again, home);
  }

  lemma FinalAfter(
    s: State, r: State, t: State, tenant: TenantID, first: Token, fate: Fate, second: Token, again: Fate,
      home: S.RowKey)
    requires Inv(s) && Inv(r) && Inv(t) && Later(s, r) && Later(r, t)
    requires S.Known(s.sessions, first) && Chain.ResolvesTo(s.sessions, tenant, first, home)
    requires r == PollStep(s, tenant, first, fate).0
    requires S.Known(t.sessions, second) && Chain.ResolvesTo(t.sessions, tenant, second, home)
    ensures var one, two := PollStep(s, tenant, first, fate).1, PollStep(t, tenant, second, again).1;
            && (one.Authenticated? ==> two.Authenticated? && two.token == None && two.user == one.user)
            && (one == Expired && !MaySignIn(s, home) ==> two == Expired)
  {
    hide Inv, Later, PollStep, MaySignIn;
    var one := PollStep(s, tenant, first, fate).1;
    AnswerDecides(s, tenant, first, fate, home);
    SameRow(s, r, tenant, first, home);
    SameRow(r, t, tenant, second, home);
    LaterIsTransitive(s, r, t);
    if one.Authenticated? {
      DecidedStaysDecided(r, t, home, true);
      hide Chain.ResolvesTo;
      DecidedAnswers(t, tenant, second, again, home, true);
      SameUser(s, tenant, first, fate, home);
      ScannedUser(r, t, home);
    } else if one == Expired && !MaySignIn(s, home) {
      hide Decided, Chain.ResolvesTo;
      DecidedStaysDecided(s, t, home, false);
      DecidedAnswers(t, tenant, second, again, home, false);
    }
  }

  /** A row that answers now was there before, unless it is new. */
  lemma SameRow(r: State, t: State, tenant: TenantID, token: Token, home: S.RowKey)
    requires Inv(r) && Inv(t) && Later(r, t)
    ensures Chain.ResolvesTo(t.sessions, tenant, token, home) ==> home in t.sessions.rows
    ensures home in t.sessions.rows && home.id < r.sessions.nextID ==> home in r.sessions.rows
    ensures Chain.ResolvesTo(r.sessions, tenant, token, home) ==> home in r.sessions.rows && home.id < t.sessions.nextID
  {
  }

  lemma SameUser(s: State, tenant: TenantID, token: Token, fate: Fate, home: S.RowKey)
    requires Inv(s) && S.Known(s.sessions, token) && Chain.ResolvesTo(s.sessions, tenant, token, home)
    ensures var (t, status) := PollStep(s, tenant, token, fate);
            status.Authenticated? && home in t.sessions.rows ==> status.user == t.sessions.rows[home].data.plain.user
  {
    hide PollStep, Runs.Inv, Protocol, ScansAreEarned, LocalHomes;
    PollAnswers(s, tenant, token, fate);
    if PollStep(s, tenant, token, fate).1.Authenticated? && PollStep(s, tenant, token, fate).1.token.Some? {
      EarnedUser(s, tenant, token, fate, home);
    }
  }

  /** A session that carries the scan factor keeps its person. */
  lemma ScannedUser(s: State, t: State, home: S.RowKey)
    requires Inv(s) && Later(s, t) && home in s.sessions.rows && home in t.sessions.rows && Scanned(s.sessions, home)
    ensures t.sessions.rows[home].data.plain.user == s.sessions.rows[home].data.plain.user
  {
  }

  /** The person a poll answers with is the one the session is bound to from then on. */
  lemma EarnedUser(s: State, tenant: TenantID, token: Token, fate: Fate, home: S.RowKey)
    requires Inv(s) && S.Known(s.sessions, token) && Chain.ResolvesTo(s.sessions, tenant, token, home)
    requires PollStep(s, tenant, token, fate).1.Authenticated? && PollStep(s, tenant, token, fate).1.token.Some?
    ensures var (t, status) := PollStep(s, tenant, token, fate);
            home in t.sessions.rows ==> t.sessions.rows[home].data.plain.user == status.user
  {
    hide Runs.Inv, Runs.Later, Protocol, S.CompleteStep, S.FindStep, ScansAreEarned, LocalHomes;
    PollReads(s, tenant, token);
    var (read, found) := S.FindStep(s.sessions, tenant, token);
    var row := FindByLoginSession(s, home);
    if row.Some? && row.value.state == Verified && row.value.person.Some? && S.FACTOR_SCAN !in found.live.factors {
      CompletionRow(read, tenant, token, row.value.person, fate);
    }
  }

  predicate Whole(ops: seq<Op>) {
    forall op <- ops :: !op.Split()
  }

  lemma {:induction false} WholeHoldsNothing(ops: seq<Op>)
    requires Whole(ops)
    ensures Run(FRESH, ops).inFlight == map[]
  {
    if ops != [] {
      var init, last := ops[..|ops| - 1], ops[|ops| - 1];
      assert last in ops && forall op <- init :: op in ops;
      WholeHoldsNothing(init);
      hide CallbackStep, S.Step;
      if last.Callback? { WholeLeavesNone(Run(FRESH, init), last.push, last.pick, last.claims, last.read,
        last.writes); }
    }
  }

  /** When pushes are single steps none is ever in flight, and an expired answer is final. */
  lemma WholePushesStraddleNothing(ops: seq<Op>, tenant: TenantID, token: Token, fate: Fate, home: S.RowKey)
    requires Whole(ops) && Admissible(FRESH, ops) && Enabled(Run(FRESH, ops), Poll(tenant, token, fate))
    requires Chain.ResolvesTo(Run(FRESH, ops).sessions, tenant, token, home)
    requires PollStep(Run(FRESH, ops), tenant, token, fate).1 == Expired
    ensures !MaySignIn(Run(FRESH, ops), home)
  {
    FreshIsSound();
    RunKeeps(FRESH, ops);
    WholeHoldsNothing(ops);
    hide Run, PollStep, Admissible;
    ExpiredHopesInFlight(Run(FRESH, ops), tenant, token, fate, home);
  }

  // ----- an expired answer, exactly ----------------------------------------

  /** Behind an expired answer the only prospects are pushes in flight. */
  lemma ExpiredHopesInFlight(s: State, tenant: TenantID, token: Token, fate: Fate, home: S.RowKey)
    requires Inv(s) && S.Known(s.sessions, token) && Chain.ResolvesTo(s.sessions, tenant, token, home)
    requires PollStep(s, tenant, token, fate).1 == Expired
    ensures !Scanned(s.sessions, home) && home.tenant == tenant
    ensures forall k, person: UserID :: BelongsTo(s, k, home) && Prospect(s, k, person) && Fits(s, home, person) ==>
              s.txns[k].state == Pending && s.txns[k].expiresAt <= s.sessions.now
              && exists cb :: cb in s.inFlight && Hopes(s.inFlight[cb], k, person)
  {
    PollAnswers(s, tenant, token, fate);
    hide PollStep, Runs.Inv, Protocol, ScansAreEarned, LocalHomes, Prospect, BelongsTo, Fits, Hopes;
    forall k, person: UserID | BelongsTo(s, k, home) && Prospect(s, k, person) && Fits(s, home, person)
      ensures s.txns[k].state == Pending && s.txns[k].expiresAt <= s.sessions.now
              && exists cb :: cb in s.inFlight && Hopes(s.inFlight[cb], k, person)
    {
      HopeInFlight(s, tenant, token, fate, home, k, person);
    }
  }

  lemma HopeInFlight(
    s: State, tenant: TenantID, token: Token, fate: Fate, home: S.RowKey, k: TxnKey, person: UserID)
    requires Inv(s) && S.Known(s.sessions, token) && Chain.ResolvesTo(s.sessions, tenant, token, home)
    requires PollStep(s, tenant, token, fate).1 == Expired
    requires home in s.sessions.rows && BelongsTo(s, k, home) && Prospect(s, k, person) && Fits(s, home, person)
    ensures s.txns[k].state == Pending && s.txns[k].expiresAt <= s.sessions.now
    ensures exists cb :: cb in s.inFlight && Hopes(s.inFlight[cb], k, person)
  {
    PollAnswers(s, tenant, token, fate);
    hide PollStep, Runs.Inv, Protocol, ScansAreEarned, LocalHomes, Hopes;
    TxnIsFound(s, k, home);
    LifeOf(s, k);
  }

  lemma LifeOf(s: State, k: TxnKey)
    requires Protocol(s) && k in s.txns
    ensures k in s.history && Life(s.txns[k], s.history[k])
  {
    assert SoundTxn(s, k);
  }

  /** What anybody can read off the row: an expired answer over a transaction that nobody
      claimed is final. */
  lemma UnclaimedIsFinal(s: State, tenant: TenantID, token: Token, fate: Fate, home: S.RowKey)
    requires Inv(s) && S.Known(s.sessions, token) && Chain.ResolvesTo(s.sessions, tenant, token, home)
    requires PollStep(s, tenant, token, fate).1 == Expired
    requires var row := FindByLoginSession(s, home);
             row.None? || row.value.state != Pending || row.value.consumedAt.None?
    ensures !MaySignIn(s, home)
  {
    ExpiredHopesInFlight(s, tenant, token, fate, home);
    hide PollStep, Runs.Inv, ScansAreEarned, Chain.ResolvesTo, S.Known;
    assert forall k :: k in s.txns ==> SoundTxn(s, k);
    assert forall cb :: cb in s.inFlight ==> SoundStage(s, cb);
    forall k | BelongsTo(s, k, home)
      ensures FindByLoginSession(s, home) == Some(s.txns[k])
    {
      TxnIsFound(s, k, home);
    }
  }

  /** Every later poll of the session answers expired, whatever runs in between. */
  ghost predicate Final(r: State, home: S.RowKey) {
    forall between: seq<Op>, token: Token, fate: Fate :: ExpiredAfter(r, between, token, fate, home)
  }

  ghost predicate ExpiredAfter(r: State, between: seq<Op>, token: Token, fate: Fate, home: S.RowKey) {
    var t := Run(r, between);
    Admissible(r, between) && S.Known(t.sessions, token) && Chain.ResolvesTo(t.sessions, home.tenant, token, home) ==>
      PollStep(t, home.tenant, token, fate).1 == Expired
  }

  /** An expired answer is final if and only if no push in flight may still sign the session
      in. When one may, the calls that let it are at hand: the directory names the person, the
      push is judged and writes. */
  lemma ExpiredIsFinalIff(ops: seq<Op>, tenant: TenantID, token: Token, fate: Fate, home: S.RowKey)
    requires Admissible(FRESH, ops) && Enabled(Run(FRESH, ops), Poll(tenant, token, fate))
    requires Chain.ResolvesTo(Run(FRESH, ops).sessions, tenant, token, home)
    requires PollStep(Run(FRESH, ops), tenant, token, fate).1 == Expired
    ensures Final(PollStep(Run(FRESH, ops), tenant, token, fate).0, home) <==> !MaySignIn(Run(FRESH, ops), home)
  {
    hide Inv, Later, PollStep, MaySignIn, Run, Admissible, Final, Step;
    FreshIsSound();
    RunKeeps(FRESH, ops);
    var s := Run(FRESH, ops);
    StepKeeps(s, Poll(tenant, token, fate));
    PollIsAStep(s, tenant, token, fate);
    FinalIff(s, PollStep(s, tenant, token, fate).0, tenant, token, fate, home);
  }

  lemma PollIsAStep(s: State, tenant: TenantID, token: Token, fate: Fate)
    ensures Step(s, Poll(tenant, token, fate)) == PollStep(s, tenant, token, fate).0
  {
  }

  lemma FinalIff(s: State, r: State, tenant: TenantID, token: Token, fate: Fate, home: S.RowKey)
    requires Inv(s) && Inv(r) && Later(s, r)
    requires S.Known(s.sessions, token) && Chain.ResolvesTo(s.sessions, tenant, token, home)
    requires r == PollStep(s, tenant, token, fate).0 && PollStep(s, tenant, token, fate).1 == Expired
    ensures Final(r, home) <==> !MaySignIn(s, home)
  {
    hide Inv, Later, PollStep, MaySignIn, Run, Admissible, ExpiredAfter, S.Known, Chain.ResolvesTo;
    ExpiredHopesInFlight(s, tenant, token, fate, home);
    if MaySignIn(s, home) {
      HopeIsFulfilled(s, r, tenant, token, fate, home);
    } else {
      forall between: seq<Op>, second: Token, again: Fate
        ensures ExpiredAfter(r, between, second, again, home)
      {
        ExpiredForGood(s, r, tenant, token, fate, between, second, again, home);
      }
    }
  }

  lemma ExpiredForGood(
    s: State, r: State, tenant: TenantID, first: Token, fate: Fate, between: seq<Op>, second: Token, again: Fate,
      home: S.RowKey)
    requires Inv(s) && Inv(r) && Later(s, r) && !MaySignIn(s, home) && home.tenant == tenant
    requires S.Known(s.sessions, first) && Chain.ResolvesTo(s.sessions, tenant, first, home)
    requires r == PollStep(s, tenant, first, fate).0 && PollStep(s, tenant, first, fate).1 == Expired
    ensures ExpiredAfter(r, between, second, again, home)
  {
    hide Inv, Later, PollStep, MaySignIn, Chain.ResolvesTo, S.Known;
    var t := Run(r, between);
    if Admissible(r, between) && S.Known(t.sessions, second) && Chain.ResolvesTo(t.sessions, tenant, second, home) {
      RunKeeps(r, between);
      FinalAfter(s, r, t, tenant, first, fate, second, again, home);
    }
  }

  lemma HopeIsFulfilled(s: State, r: State, tenant: TenantID, token: Token, fate: Fate, home: S.RowKey)
    requires Inv(s) && Inv(r) && MaySignIn(s, home) && home.tenant == tenant
    requires S.Known(s.sessions, token) && Chain.ResolvesTo(s.sessions, tenant, token, home)
    requires r == PollStep(s, tenant, token, fate).0 && PollStep(s, tenant, token, fate).1 == Expired
    ensures !Final(r, home)
  {
    hide Runs.Inv, Protocol, ScansAreEarned, LocalHomes, PollStep, Run, Admissible, Final;
    ExpiredHopesInFlight(s, tenant, token, fate, home);
    var k, person: UserID :| BelongsTo(s, k, home) && Prospect(s, k, person) && Fits(s, home, person);
    var cb :| cb in s.inFlight && Hopes(s.inFlight[cb], k, person);
    ExpiredIsAside(s, tenant, token, fate);
    StillResolves(s.sessions, r.sessions, tenant, token, home);
    var ops := Fulfilment(r, cb, k, person);
    Fulfilled(r, cb, k, person, token, home);
    NotFinal(r, ops, token, home);
  }

  lemma NotFinal(r: State, ops: seq<Op>, token: Token, home: S.RowKey)
    requires !ExpiredAfter(r, ops, token, Committed, home)
    ensures !Final(r, home)
  {
  }

  /** A poll that answers expired moves nothing but the cache. */
  lemma ExpiredIsAside(s: State, tenant: TenantID, token: Token, fate: Fate)
    requires Inv(s) && S.Known(s.sessions, token)
    requires Chain.Resolves(s.sessions, tenant, token) && PollStep(s, tenant, token, fate).1 == Expired
    ensures var r := PollStep(s, tenant, token, fate).0;
            && r.txns == s.txns && r.inFlight == s.inFlight && r.history == s.history && r.people == s.people
            && r.sessions.rows == s.sessions.rows && r.sessions.now == s.sessions.now
            && s.sessions.disclosed <= r.sessions.disclosed
  {
    PollAnswers(s, tenant, token, fate);
    PollIsAside(s, tenant, token, fate);
  }

  lemma PollIsAside(s: State, tenant: TenantID, token: Token, fate: Fate)
    ensures var t := PollStep(s, tenant, token, fate).0;
            && t.txns == s.txns && t.inFlight == s.inFlight && t.history == s.history && t.people == s.people
            && t.sessions.now == s.sessions.now && s.sessions.disclosed <= t.sessions.disclosed
  {
    hide S.FindStep, S.CompleteStep, FindByLoginSession;
    var read := S.FindStep(s.sessions, tenant, token).0;
    FindIsAside(s.sessions, tenant, token);
    forall person
      ensures var done := S.CompleteStep(read, tenant, token, person, S.FACTOR_SCAN, fate).0;
              done.now == read.now && read.disclosed <= done.disclosed
    {
      CompletionIsAside(read, tenant, token, person, fate);
    }
  }

  lemma FindIsAside(s: S.State, tenant: TenantID, token: Token)
    ensures var t := S.FindStep(s, tenant, token).0; t.now == s.now && s.disclosed == t.disclosed
  {
  }

  lemma CompletionIsAside(s: S.State, tenant: TenantID, token: Token, person: Option<UserID>, fate: Fate)
    ensures var t := S.CompleteStep(s, tenant, token, person, S.FACTOR_SCAN, fate).0;
            t.now == s.now && s.disclosed <= t.disclosed
  {
  }

  lemma SameFind(s: S.State, t: S.State, tenant: TenantID, token: Token)
    requires Runs.Inv(s) && t.rows == s.rows && t.now == s.now
    ensures S.FindRow(s, tenant, Digest(token)) == S.FindRow(t, tenant, Digest(token))
  {
    assert forall j :: S.Credentials(s, j, tenant, Digest(token)) == S.Credentials(t, j, tenant, Digest(token));
  }

  lemma StillResolves(s: S.State, t: S.State, tenant: TenantID, token: Token, home: S.RowKey)
    requires Runs.Inv(s) && t.rows == s.rows && t.now == s.now && s.disclosed <= t.disclosed
    requires Chain.ResolvesTo(s, tenant, token, home)
    ensures Chain.ResolvesTo(t, tenant, token, home) && token in t.disclosed
    ensures S.FindRow(t, tenant, Digest(token)) == S.FindRow(s, tenant, Digest(token))
    ensures home in s.rows && S.FindRow(s, tenant, Digest(token)).value == s.rows[home].data.plain
  {
    SameFind(s, t, tenant, token);
    var k := Runs.FoundRow(s, tenant, token);
  }

  // ----- how a push in flight lands ----------------------------------------

  /** The calls that let a push record a person it may still prove. */
  function Fulfilment(s: State, cb: CallbackID, k: TxnKey, person: UserID): seq<Op>
    requires cb in s.inFlight && Hopes(s.inFlight[cb], k, person)
  {
    match s.inFlight[cb]
    case Claimed(push, _, _) => [Directory(s.people[Name(k.tenant, push.username.value) := person]),
      Judging(cb, true), Writing(cb, true)]
    case _ => [Writing(cb, true)]
  }

  lemma Fulfilled(s: State, cb: CallbackID, k: TxnKey, person: UserID, token: Token, home: S.RowKey)
    requires Inv(s) && BelongsTo(s, k, home) && cb in s.inFlight && Hopes(s.inFlight[cb], k, person)
    requires s.txns[k].state == Pending && !Scanned(s.sessions, home)
    requires token in s.sessions.disclosed && Chain.ResolvesTo(s.sessions, k.tenant, token, home)
    requires home in s.sessions.rows && Fits(s, home, person)
    ensures !ExpiredAfter(s, Fulfilment(s, cb, k, person), token, Committed, home)
  {
    hide Inv, PollStep, WriteStep, Chain.ResolvesTo;
    if s.inFlight[cb].Judged? {
      LandsNow(s, k, cb, person, token, home);
      RunOne(s, Writing(cb, true));
    } else {
      var push := s.inFlight[cb].push;
      var named := Directory(s.people[Name(k.tenant, push.username.value) := person]);
      StepKeeps(s, named);
      var t := Step(s, named);
      StepKeeps(t, Judging(cb, true));
      JudgedFor(t, cb, k, person);
      var u := Step(t, Judging(cb, true));
      LandsNow(u, k, cb, person, token, home);
      RunThree(s, named, Judging(cb, true), Writing(cb, true));
    }
  }

  lemma RunOne(s: State, op: Op)
    ensures Run(s, [op]) == Step(s, op) && (Admissible(s, [op]) <==> Enabled(s, op))
  {
    assert [op][..0] == [];
  }

  lemma RunThree(s: State, a: Op, b: Op, c: Op)
    ensures Run(s, [a, b, c]) == Step(Step(Step(s, a), b), c)
    ensures Enabled(s, a) && Enabled(Step(s, a), b) && Enabled(Step(Step(s, a), b), c) ==> Admissible(s, [a, b, c])
  {
    assert [a, b, c][..2] == [a, b] && [a, b][..1] == [a];
    RunOne(s, a);
    hide Step, Enabled;
  }

  /** The judgement of a claimed push, once the directory names the person. */
  lemma JudgedFor(s: State, cb: CallbackID, k: TxnKey, person: UserID)
    requires cb in s.inFlight && s.inFlight[cb].Claimed? && Hopes(s.inFlight[cb], k, person)
    requires var name := Name(k.tenant, s.inFlight[cb].push.username.value);
             name in s.people && s.people[name] == person
    ensures var t := JudgeStep(s, cb, true);
            cb in t.inFlight && t.inFlight[cb] == Judged(k, Some(person)) && t.sessions == s.sessions
              && t.txns == s.txns
  {
  }

  /** A push that proved a person writes, and the next poll signs in. */
  lemma LandsNow(s: State, k: TxnKey, cb: CallbackID, person: UserID, token: Token, home: S.RowKey)
    requires Inv(s) && BelongsTo(s, k, home) && cb in s.inFlight && s.inFlight[cb] == Judged(k, Some(person))
    requires !Scanned(s.sessions, home) && token in s.sessions.disclosed
    requires Chain.ResolvesTo(s.sessions, k.tenant, token, home) && home in s.sessions.rows && Fits(s, home, person)
    ensures var t := WriteStep(s, cb, true);
            && token in t.sessions.disclosed && Chain.ResolvesTo(t.sessions, k.tenant, token, home)
            && var two := PollStep(t, k.tenant, token, Committed).1;
               two.Authenticated? && two.token.Some? && two.user == Some(person)
  {
    hide PollStep, WriteStep, Runs.Inv, Protocol, ScansAreEarned, LocalHomes;
    LandsLate(s, k, cb, person);
    StepKeeps(s, Writing(cb, true));
    var t := WriteStep(s, cb, true);
    TxnIsFound(t, k, home);
    PollAnswers(t, k.tenant, token, Committed);
  }

  lemma LandsLate(s: State, k: TxnKey, cb: CallbackID, person: UserID)
    requires cb in s.inFlight && s.inFlight[cb] == Judged(k, Some(person)) && k in s.txns
    ensures var t := WriteStep(s, cb, true);
            && t.sessions == s.sessions && k in t.txns && t.txns[k].home == s.txns[k].home
            && t.txns[k].state == Verified && t.txns[k].person == Some(person)
  {
  }
}
