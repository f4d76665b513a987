/** What each call of the session service must achieve: when it has to answer, what it has to
    leave behind, and which refusal each cause becomes. */
module SessionOutcomes {
  import opened Basics
  import opened SessionModel
  import opened SessionRuns
  import opened SessionChain
  import opened SessionAudit
  import opened SessionBudget

  // ----- looking a session up ----------------------------------------------

  /** The live session one token answers, as the table holds it. */
  ghost predicate Answers(s: State, tenant: TenantID, token: Token, live: LoginSession) {
    FindRow(s, tenant, Digest(token)) == Some(live)
  }

  /** A token answers a session if and only if some row of the tenant holds its digest, is active
      and has time left, and that session is what the row holds. */
  lemma AnswersTheActiveRow(s: State, tenant: TenantID, token: Token, live: LoginSession)
    requires Inv(s)
    ensures Answers(s, tenant, token, live) <==>
              exists k :: k in s.rows && k.tenant == tenant && s.rows[k].tokenHash == Digest(token)
                          && s.rows[k].state == Active && s.now < s.rows[k].expiresAt && s.rows[k].data.plain == live
  {
    if Answers(s, tenant, token, live) { var k := FoundRow(s, tenant, token); }
    if k :| k in s.rows && k.tenant == tenant && s.rows[k].tokenHash == Digest(token)
            && s.rows[k].state == Active && s.now < s.rows[k].expiresAt && s.rows[k].data.plain == live {
      RowAnswers(s, k, token);
    }
  }

  /** A row that is live under a digest is what its token answers. */
  lemma RowAnswers(s: State, k: RowKey, token: Token)
    requires Inv(s) && LiveRow(s, k) && s.rows[k].tokenHash == Digest(token)
    ensures Answers(s, k.tenant, token, s.rows[k].data.plain) && ResolvesTo(s, k.tenant, token, k)
  {
    assert Credentials(s, k, k.tenant, Digest(token));
    var found := FoundRow(s, k.tenant, token);
  }

  /** A token that answers no live session is refused as such by every call, which leaves the
      table and the trail alone. */
  lemma UnknownTokenIsRefused(s: State, op: Op)
    requires Inv(s) && Enabled(s, op)
    requires op.Password? || op.Complete? || op.FailCode? || op.Find? || op.Logout?
    requires !Resolves(s, op.tenant, op.token)
    ensures Apply(s, op).1 == Failed(NotFound) && Step(s, op).rows == s.rows && Step(s, op).trail == s.trail
  {
    hide Inv, Later, Rotated, Saved;
    Lookup(s, op.tenant, op.token);
  }

  // ----- opening -----------------------------------------------------------

  /** A session that opens answers to a token nobody held, carries no factor, and lives for ten
      minutes. */
  lemma OpenAchieves(
    s: State, tenant: TenantID, user: Option<UserID>, email: string, federation: Option<FederationID>, written: bool)
    requires Inv(s)
    ensures var (t, answer) := Apply(s, Open(tenant, user, email, federation, written));
            if !written then answer == Failed(StorageFailed) && t.rows == s.rows && t.disclosed == s.disclosed
            else
              && answer.Opened? && answer.token !in s.disclosed && t.disclosed == s.disclosed + {answer.token}
              && RowKey(tenant, answer.id) !in s.rows
              && Answers(t, tenant, answer.token,
                   LoginSession(answer.id, tenant, user, email, federation, 0, map[], s.now, s.now + 600_000))
              && t.rows == s.rows[RowKey(tenant, answer.id) := t.rows[RowKey(tenant, answer.id)]]
  {
    OpenKeeps(s, tenant, user, email, federation, written);
    var (t, answer) := Apply(s, Open(tenant, user, email, federation, written));
    if written {
      UnusedID(s, RowKey(tenant, answer.id));
      RowAnswers(t, RowKey(tenant, answer.id), answer.token);
    }
  }

  // ----- the password ------------------------------------------------------

  /** The password of a local session is right when the hash of the person it names matches,
      and that of a directory session when the directory names a person. */
  predicate RightPassword(live: LoginSession, check: Check) {
    if live.federation.None? then live.user.Some? && check == Hash(true)
    else check.Bind? && check.person.Some?
  }

  /** The database could not say what the hash of the named person is. */
  predicate Unreadable(live: LoginSession, check: Check) {
    live.federation.None? && live.user.Some? && check.HashUnread?
  }

  /** What a refused password says to the caller and to the audit trail. */
  function RefusalOf(live: LoginSession, check: Check): (Failure, Reason) {
    if live.federation.None? then (BadCredentials, WrongPassword)
    else if check.Bind? then (BadCredentials, NoLocalPerson)
    else if check == BindRefused(FederationDisabled) then (FederationDisabled, DisabledDirectory)
    else if check == BindRefused(FederationUnavailable) then (FederationUnavailable, SilentDirectory)
    else if check == BindRefused(FederationMisconfigured) then (FederationMisconfigured, MisconfiguredDirectory)
    else if check == BindRefused(TooManyProofs) then (TooManyProofs, SpentProofs)
    else (BadCredentials, WrongPassword)
  }

  /** A right password answers a token if and only if the steps could be read and the upgrade
      committed. The session then answers to that token for twelve hours and carries the
      password. */
  lemma RightPasswordAchieves(
    s: State, tenant: TenantID, token: Token, live: LoginSession, check: Check, stepsRead: bool, fate: Fate)
    requires Inv(s) && Known(s, token) && Answers(s, tenant, token, live) && RightPassword(live, check)
    ensures var (t, answer) := Apply(s, Password(tenant, token, check, stepsRead, fate));
            && (answer.Opened? <==> stepsRead && fate == Committed)
            && (answer.Opened? ==>
                  && answer.id == live.id && answer.token in t.disclosed && answer.token !in s.disclosed
                  && (exists after ::
                       && Answers(t, tenant, answer.token, after) && after.expiresAt == s.now + 43_200_000
                       && after.factors == live.factors["pwd" := s.now]
                       && after.user == (if live.federation.None? then live.user else check.person)
                       && after.email == (if live.federation.Some? && (live.email == "" || live.user != check.person)
                                          then check.email else live.email)))
            && (!answer.Opened? ==> answer.Failed? && answer.why in {StorageFailed, AuditRefused} && t.rows == s.rows)
  {
    hide Inv, Later, FindRow, CachedFind, Refilled, Rotated;
    var op := Password(tenant, token, check, stepsRead, fate);
    Lookup(s, tenant, token);
    var r, proof := Refilled(s, tenant, Digest(token)), Prove(live, check);
    var after := WithPassword(live, proof.person, proof.email, s.now);
    RotationAnswers(r, after, token, fate);
    if stepsRead && fate == Committed {
      UpgradeAnswers(s, op, live);
      assert Answers(Step(s, op), tenant, Apply(s, op).1.token, after);
    }
  }

  /** What one rotation answers, and what it leaves of the session it was given. */
  lemma RotationAnswers(s: State, live: LoginSession, token: Token, fate: Fate)
    ensures var (t, answer) := Rotated(s, live, token, fate);
            if fate == Committed
            then
              && answer == Opened(live.id, s.nextToken) && s.nextToken in t.disclosed
              && KeyOf(live) in t.rows && t.rows[KeyOf(live)].data.plain == live
            else answer.Failed? && answer.why in {StorageFailed, AuditRefused} && t.rows == s.rows
  {
  }

  /** The session an answered upgrade leaves is what its token answers. */
  lemma UpgradeAnswers(s: State, op: Op, live: LoginSession)
    requires Inv(s) && Enabled(s, op) && Upgrades(op) && Answers(s, op.tenant, op.token, live)
    requires Apply(s, op).1.Opened?
    ensures var (t, answer) := Apply(s, op);
            var k := RowKey(op.tenant, answer.id);
            && k in t.rows && Answers(t, op.tenant, answer.token, t.rows[k].data.plain)
            && answer.token == s.nextToken && answer.token !in s.disclosed && answer.token in t.disclosed
            && answer.id == live.id && live.tenant == op.tenant
  {
    UpgradeToken(s, op, live);
    Unminted(s);
    hide Inv, Later, Apply, Step;
    var t, answer := Step(s, op), Apply(s, op).1;
    UpgradeRow(s, op, answer.id, answer.token);
    StepKeeps(s, op);
    RowAnswers(t, RowKey(op.tenant, answer.id), answer.token);
  }

  lemma UpgradeToken(s: State, op: Op, live: LoginSession)
    requires Inv(s) && Enabled(s, op) && Upgrades(op) && Answers(s, op.tenant, op.token, live)
    requires Apply(s, op).1.Opened?
    ensures Apply(s, op).1 == Opened(live.id, s.nextToken) && live.tenant == op.tenant
    ensures s.nextToken in Step(s, op).disclosed
  {
    hide Inv, Later, FindRow, CachedFind, Refilled, Rotated;
    Lookup(s, op.tenant, op.token);
    var r := Refilled(s, op.tenant, Digest(op.token));
    match op
    case Password(_, token, check, _, fate) =>
      var proof := Prove(live, check);
      RotationAnswers(r, WithPassword(live, proof.person, proof.email, s.now), token, fate);
    case Complete(_, token, user, factor, fate) =>
      RotationAnswers(r, WithFactor(live, user, factor, s.now), token, fate);
  }

  lemma Unminted(s: State)
    requires Inv(s)
    ensures s.nextToken !in s.disclosed
  {
  }

  /** A wrong password is refused under the name of its cause and leaves one audit row that says
      so. When that row cannot be written, the refusal of the write is answered. */
  lemma WrongPasswordIsRefused(
    s: State, tenant: TenantID, token: Token, live: LoginSession, check: Check, stepsRead: bool, fate: Fate)
    requires Inv(s) && Known(s, token) && Answers(s, tenant, token, live)
    requires !RightPassword(live, check) && !Unreadable(live, check)
    ensures var (t, answer) := Apply(s, Password(tenant, token, check, stepsRead, fate));
            var (why, reason) := RefusalOf(live, check);
            && t.rows == s.rows
            && (if fate == Committed
                then answer == Failed(why) && t.trail == s.trail + [AuditRow(KeyOf(live), LoginFailed(reason))]
                else answer == Failed(AuditRefused) && t.trail == s.trail)
  {
    hide Inv, Later, FindRow, CachedFind, Refilled, Rotated;
    Lookup(s, tenant, token);
  }

  /** A hash that cannot be read is no refusal: nothing is audited and nothing is counted. */
  lemma UnreadHashIsNoRefusal(
    s: State, tenant: TenantID, token: Token, live: LoginSession, check: Check, stepsRead: bool, fate: Fate)
    requires Inv(s) && Known(s, token) && Answers(s, tenant, token, live) && Unreadable(live, check)
    ensures var (t, answer) := Apply(s, Password(tenant, token, check, stepsRead, fate));
            answer == Failed(StorageFailed) && t.rows == s.rows && t.trail == s.trail
  {
    hide Inv, Later, FindRow, CachedFind, Refilled, Rotated;
    Lookup(s, tenant, token);
  }

  // ----- any other factor --------------------------------------------------

  /** A completion is refused if and only if the session names somebody else. Otherwise it
      answers a token if and only if it committed, and the session carries the factor and names
      the person. */
  lemma CompletionAchieves(
    s: State, tenant: TenantID, token: Token, live: LoginSession, bind: Option<UserID>, factor: string, fate: Fate)
    requires Inv(s) && Known(s, token) && Answers(s, tenant, token, live) && factor != FACTOR_PASSWORD
    ensures var (t, answer) := Apply(s, Complete(tenant, token, bind, factor, fate));
            && (answer == Failed(SubjectBound) <==> live.user.Some? && live.user != bind)
            && (answer.Opened? <==> fate == Committed && (live.user.None? || live.user == bind))
            && (answer.Opened? ==> Answers(t, tenant, answer.token,
                   live.(user := bind, factors := live.factors[factor := s.now], expiresAt := s.now + 43_200_000)))
            && (!answer.Opened? ==> answer.Failed? && t.rows == s.rows)
  {
    hide Inv, Later, FindRow, CachedFind, Refilled, Rotated;
    var op := Complete(tenant, token, bind, factor, fate);
    Lookup(s, tenant, token);
    var r := Refilled(s, tenant, Digest(token));
    RotationAnswers(r, WithFactor(live, bind, factor, s.now), token, fate);
    if fate == Committed && (live.user.None? || live.user == bind) { UpgradeAnswers(s, op, live); }
  }

  // ----- wrong codes -------------------------------------------------------

  /** A wrong code whose write commits is counted under the same token while fewer than four were
      counted before. The fifth ends the session and leaves the one audit row that says why. */
  lemma WrongCodeAchieves(s: State, tenant: TenantID, token: Token, live: LoginSession, fate: Fate)
    requires Inv(s) && Known(s, token) && Answers(s, tenant, token, live) && fate == Committed
    ensures var (t, answer) := Apply(s, FailCode(tenant, token, fate));
            if live.wrongCodes < 4
            then
              && answer == Counted(false) && t.trail == s.trail
              && Answers(t, tenant, token, live.(wrongCodes := live.wrongCodes + 1))
            else
              && answer == Counted(true) && Over(t, KeyOf(live)) && !Resolves(t, tenant, token)
              && t.trail == s.trail + [AuditRow(KeyOf(live), LoginFailed(BadSecondFactor))]
  {
    HeldID(s, KeyOf(live));
    hide Inv, Later, FindRow, CachedFind, Refilled, Saved, Ended;
    if live.wrongCodes < 4 {
      CountedRow(s, tenant, token, live);
      FailCodeKeeps(s, tenant, token, fate);
      RowAnswers(Step(s, FailCode(tenant, token, fate)), KeyOf(live), token);
    } else {
      Lookup(s, tenant, token);
      EndedRow(s, tenant, token, live, [AuditRow(KeyOf(live), LoginFailed(BadSecondFactor))]);
    }
  }

  lemma CountedRow(s: State, tenant: TenantID, token: Token, live: LoginSession)
    requires Inv(s) && Known(s, token) && Answers(s, tenant, token, live) && live.wrongCodes < 4
    ensures var (t, answer) := Apply(s, FailCode(tenant, token, Committed));
            && answer == Counted(false) && t.trail == s.trail && LiveRow(t, KeyOf(live)) && live.tenant == tenant
            && t.rows[KeyOf(live)].tokenHash == Digest(token)
            && t.rows[KeyOf(live)].data.plain == live.(wrongCodes := live.wrongCodes + 1)
  {
    Lookup(s, tenant, token);
    LiveForLong(s, tenant, token, live);
    hide Inv, Later, FindRow, CachedFind, Refilled;
  }

  lemma LiveForLong(s: State, tenant: TenantID, token: Token, live: LoginSession)
    requires Inv(s) && Answers(s, tenant, token, live)
    ensures live.expiresAt > s.now && LiveRow(s, KeyOf(live)) && live.tenant == tenant
    ensures s.rows[KeyOf(live)].tokenHash == Digest(token) && s.rows[KeyOf(live)].data.plain == live
  {
    var k := FoundRow(s, tenant, token);
    assert SoundRow(s, k);
  }

  /** A session marked as ended answers to no token of its own. */
  lemma EndedRow(s: State, tenant: TenantID, token: Token, live: LoginSession, record: seq<AuditRow>)
    requires Inv(s) && Known(s, token) && Answers(s, tenant, token, live)
    ensures var (t, answer) := EndStep(Refilled(s, tenant, Digest(token)), KeyOf(live), record, Committed, Done);
            && answer == Done && KeyOf(live) in t.rows && t.rows[KeyOf(live)].state == Terminated
            && !Resolves(t, tenant, token) && t.trail == s.trail + record && t.nextID == s.nextID
  {
    LiveForLong(s, tenant, token, live);
    Lookup(s, tenant, token);
    var r := Refilled(s, tenant, Digest(token));
    assert OneRowPerToken(r);
    var t := Ended(r, KeyOf(live), record, Committed);
    assert forall k :: Credentials(t, k, tenant, Digest(token)) ==> k == KeyOf(live);
  }

  /** A wrong code that is sent while the session is live, and whose write commits. */
  ghost predicate Guesses(s: State, op: Op, k: RowKey) {
    op.FailCode? && op.fate == Committed && ResolvesTo(s, op.tenant, op.token, k)
  }

  ghost function Guessed(s: State, ops: seq<Op>, k: RowKey): nat {
    if ops == [] then 0
    else
      var init, last := ops[..|ops| - 1], ops[|ops| - 1];
      Guessed(s, init, k) + if Guesses(Run(s, init), last, k) then 1 else 0
  }

  lemma {:induction false} EveryGuessCounts(ops: seq<Op>, k: RowKey)
    requires Admissible(FRESH, ops)
    ensures Guessed(FRESH, ops, k) <= WrongCodes(FRESH, ops, k)
  {
    if ops != [] {
      var init, last := ops[..|ops| - 1], ops[|ops| - 1];
      EveryGuessCounts(init, k);
      FreshIsSound();
      RunKeeps(FRESH, init);
      hide Inv, Later, Apply, Step;
      var s := Run(FRESH, init);
      if Guesses(s, last, k) {
        WrongCodeAchieves(s, last.tenant, last.token, FindRow(s, last.tenant, Digest(last.token)).value, Committed);
      }
    }
  }

  /** Whatever tokens they were sent under and whatever ran in between: five wrong codes that a
      live session took end it for good, and no session ever takes a sixth. */
  lemma FiveGuessesEnd(ops: seq<Op>, k: RowKey)
    requires Admissible(FRESH, ops)
    ensures Guessed(FRESH, ops, k) <= 5
    ensures Guessed(FRESH, ops, k) == 5 ==> Over(Run(FRESH, ops), k)
  {
    EveryGuessCounts(ops, k);
    AtMostFiveWrongCodes(ops, k);
  }

  // ----- ending ------------------------------------------------------------

  /** A logout of a live session that commits ends it, and leaves one row that says so. One that
      does not commit leaves the session as it was. */
  lemma LogoutAchieves(s: State, tenant: TenantID, token: Token, live: LoginSession, fate: Fate)
    requires Inv(s) && Known(s, token) && Answers(s, tenant, token, live)
    ensures var (t, answer) := Apply(s, Logout(tenant, token, fate));
            && (answer == Done <==> fate == Committed)
            && (answer == Done ==>
                  && Over(t, KeyOf(live)) && !Resolves(t, tenant, token)
                  && t.trail == s.trail + [AuditRow(KeyOf(live), LogoutSucceeded)])
            && (answer != Done ==> answer.Failed? && t.rows == s.rows && t.trail == s.trail)
  {
    Lookup(s, tenant, token);
    HeldID(s, KeyOf(live));
    LiveForLong(s, tenant, token, live);
    EndedRow(s, tenant, token, live, [AuditRow(KeyOf(live), LogoutSucceeded)]);
    hide Inv, Later, FindRow, CachedFind, Refilled, Cached;
  }

  /** An end by id ends a live session, and refuses everything else as not found. */
  lemma TerminationAchieves(s: State, k: RowKey, fate: Fate)
    requires Inv(s)
    ensures var (t, answer) := Apply(s, Terminate(k, fate));
            && (answer == Failed(NotFound) <==> !LiveRow(s, k))
            && (answer == Done <==> LiveRow(s, k) && fate == Committed)
            && (answer == Done ==> Over(t, k) && t.rows == s.rows[k := s.rows[k].(state := Terminated)])
            && (answer != Done ==> t.rows == s.rows) && t.trail == s.trail
  {
    HeldID(s, k);
    hide Inv, Later;
  }

  /** A hard delete answers that it revoked a session if and only if the row is there and is the
      owner's, where one is named, and the delete committed. The state of the row is not asked. */
  lemma DeletionAchieves(s: State, k: RowKey, owner: Option<UserID>, fate: Fate)
    requires Inv(s)
    ensures var (t, answer) := Apply(s, Delete(k, owner, fate));
            var mine := k in s.rows && (owner.None? || s.rows[k].data.plain.user == owner);
            && (answer == Failed(NoSuchSession) <==> !mine)
            && (answer == Revoked({k}) <==> mine && fate == Committed)
            && t.rows == (if mine && fate == Committed then s.rows - {k} else s.rows)
  {
    assert k in s.rows ==> SoundRow(s, k);
    hide Inv, Later;
  }

  /** A sign-out of all but one session takes every row of the person but the spared one, live or
      not, and no other. */
  lemma UserDeletionAchieves(s: State, tenant: TenantID, person: UserID, except: Option<SessionID>, k: RowKey)
    requires Inv(s)
    ensures var (t, answer) := Apply(s, DeleteUser(tenant, person, except, Committed));
            var mine := k in s.rows && k.tenant == tenant && s.rows[k].data.plain.user == Some(person)
                        && except != Some(k.id);
            && answer.Revoked? && (k in answer.keys <==> mine)
            && (k in t.rows <==> k in s.rows && !mine) && (k in t.rows ==> t.rows[k] == s.rows[k])
  {
    assert k in s.rows ==> SoundRow(s, k);
    hide Inv, Later;
  }

  // ----- the cache ---------------------------------------------------------

  /** The cache holds what this token answers, until the session expires. */
  ghost predicate Warm(s: State, tenant: TenantID, token: Token) {
    var slot := Slot(tenant, Digest(token));
    && VisibleIn(s, slot) && Answers(s, tenant, token, s.cache[slot].blob.plain)
    && s.cache[slot].deadline == s.cache[slot].blob.plain.expiresAt
  }

  /** An entry whose deadline has not passed answers the read, which then asks the table nothing
      and writes nothing. */
  lemma EntryAnswers(s: State, tenant: TenantID, token: Token)
    requires Slot(tenant, Digest(token)) in s.cache && s.now < s.cache[Slot(tenant, Digest(token))].deadline
    ensures Apply(s, Find(tenant, token)) == (s, Found(s.cache[Slot(tenant, Digest(token))].blob.plain))
  {
  }

  lemma WarmWhenVisible(s: State, tenant: TenantID, token: Token)
    requires Inv(s) && token in s.disclosed && VisibleIn(s, Slot(tenant, Digest(token)))
    ensures Warm(s, tenant, token)
  {
    var slot := Slot(tenant, Digest(token));
    assert Backed(s, slot);
    var k := RowKey(tenant, s.cache[slot].blob.plain.id);
    assert SoundRow(s, k);
    RowAnswers(s, k, token);
  }

  /** A session that was opened or upgraded is cached under its new token, and one that was
      upgraded no longer under the token it spent. */
  lemma AnsweredIsWarm(s: State, op: Op)
    requires Inv(s) && Enabled(s, op) && (op.Open? || Upgrades(op)) && Apply(s, op).1.Opened?
    ensures Warm(Step(s, op), op.tenant, Apply(s, op).1.token)
    ensures Upgrades(op) ==> Slot(op.tenant, Digest(op.token)) !in Step(s, op).cache
  {
    StepKeeps(s, op);
    CachedNow(s, op);
    hide Apply, Step, Inv, Later;
    WarmWhenVisible(Step(s, op), op.tenant, Apply(s, op).1.token);
  }

  lemma CachedNow(s: State, op: Op)
    requires Inv(s) && Enabled(s, op) && (op.Open? || Upgrades(op)) && Apply(s, op).1.Opened?
    ensures var (t, answer) := Apply(s, op);
            VisibleIn(t, Slot(op.tenant, Digest(answer.token))) && answer.token in t.disclosed
    ensures Upgrades(op) ==> Slot(op.tenant, Digest(op.token)) !in Step(s, op).cache
  {
    if Upgrades(op) {
      Lookup(s, op.tenant, op.token);
      var r := Refilled(s, op.tenant, Digest(op.token));
      var live := FindRow(r, op.tenant, Digest(op.token)).value;
      UpgradeAnswers(s, op, live);
      hide Inv, Later, FindRow, CachedFind, Refilled;
    }
  }

  /** A read that found a session leaves it cached. */
  lemma ReadIsWarm(s: State, tenant: TenantID, token: Token)
    requires Inv(s) && Known(s, token) && Resolves(s, tenant, token)
    ensures var (t, answer) := Apply(s, Find(tenant, token));
            Warm(t, tenant, token) && answer.Found? && Answers(s, tenant, token, answer.live)
  {
    var live := FindRow(s, tenant, Digest(token)).value;
    Lookup(s, tenant, token);
    LiveForLong(s, tenant, token, live);
    TokenWasHandedOut(s, tenant, token);
    var r := Refilled(s, tenant, Digest(token));
    assert VisibleIn(r, Slot(tenant, Digest(token)));
    WarmWhenVisible(r, tenant, token);
  }

  lemma TokenWasHandedOut(s: State, tenant: TenantID, token: Token)
    requires Inv(s) && Resolves(s, tenant, token)
    ensures token in s.disclosed
  {
    var k := FoundRow(s, tenant, token);
  }

  /** A session that ended is not cached under the token it had. */
  lemma EndedIsCold(s: State, op: Op, k: RowKey)
    requires Inv(s) && Enabled(s, op) && Ends(s, op, k) && k in s.rows
    ensures Slot(k.tenant, s.rows[k].tokenHash) !in Step(s, op).cache
  {
    if op.Logout? || op.FailCode? {
      var found := FoundRow(s, op.tenant, op.token);
      Lookup(s, op.tenant, op.token);
      hide Inv, Later, FindRow, CachedFind, Refilled;
    }
  }

  /** The call meant to end this session, and its write went through before its transaction was
      taken back. */
  ghost predicate TakenBack(s: State, op: Op, k: RowKey) {
    && k in s.rows
    && match op
       case Logout(tenant, token, fate) => fate == AuditFailed && ResolvesTo(s, tenant, token, k)
       case FailCode(tenant, token, fate) =>
         fate == AuditFailed && ResolvesTo(s, tenant, token, k) && s.rows[k].data.plain.wrongCodes >= 4
       case Terminate(key, fate) => fate == AuditFailed && key == k && LiveRow(s, k)
       case Delete(key, owner, fate) => fate == AuditFailed && key == k && (owner.Some? ==> s.rows[k].user == owner)
       case DeleteUser(tenant, person, except, fate) =>
         fate == AuditFailed && k.tenant == tenant && s.rows[k].user == Some(person) && except != Some(k.id)
       case _ => false
  }

  /** A transaction that is taken back brings every row and the trail back, and leaves the session
      out of the cache. */
  lemma TakenBackIsCold(s: State, op: Op, k: RowKey)
    requires Inv(s) && Enabled(s, op) && TakenBack(s, op, k)
    ensures var (t, answer) := Apply(s, op);
            && answer == Failed(AuditRefused) && t.rows == s.rows && t.trail == s.trail
            && Slot(k.tenant, s.rows[k].tokenHash) !in t.cache
  {
    if op.Logout? || op.FailCode? {
      var found := FoundRow(s, op.tenant, op.token);
      Lookup(s, op.tenant, op.token);
      hide Inv, Later, FindRow, CachedFind, Refilled;
    }
  }
}
