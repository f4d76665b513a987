/** What a start, a whole push and the polls around them must achieve. */
module QrOutcomes {
  import opened Basics
  import opened QrModel
  import opened QrRuns
  import opened QrSafety
  import opened QrTheorems
  import opened QrFinality
  import S = SessionModel
  import Runs = SessionRuns
  import Chain = SessionChain

  // ----- a start -----------------------------------------------------------

  /** A start for which the verifier minted a transaction, whose session opened and whose row was
      written records a pending transaction of that session for ninety seconds. The session names
      nobody and answers to a token nobody held. Without a transaction nothing is left behind. */
  lemma StartAchieves(s: State, tenant: TenantID, nonce: Token, asked: Option<Transaction>, opens: bool, inserts: bool)
    requires Inv(s)
    ensures var t := Step(s, Start(tenant, nonce, asked, opens, inserts));
            var k := TxnKey(tenant, s.nextTxn);
            && (asked.None? ==> t == s)
            && (k in t.txns <==>
                  && asked.Some? && opens && inserts
                  && forall j :: j in s.txns ==> s.txns[j].verifierSession != asked.value.session
                                                 && s.txns[j].presentation != asked.value.presentation)
            && (forall j :: j != k ==> (j in t.txns <==> j in s.txns) && (j in s.txns ==> t.txns[j] == s.txns[j]))
            && (k in t.txns ==>
                  && t.txns[k] == Txn(S.RowKey(tenant, s.sessions.nextID), asked.value.session,
                       asked.value.presentation, Digest(nonce), Pending, None, s.sessions.now + 90_000, None)
                  && t.txns[k].home !in s.sessions.rows && t.txns[k].home in t.sessions.rows
                  && t.sessions.rows[t.txns[k].home].data.plain.user.None?
                  && t.sessions.rows[t.txns[k].home].data.plain.factors == map[]
                  && Chain.ResolvesTo(t.sessions, tenant, s.sessions.nextToken, t.txns[k].home)
                  && s.sessions.nextToken in t.sessions.disclosed)
  {
    var k := TxnKey(tenant, s.nextTxn);
    assert k in s.txns ==> SoundTxn(s, k);
    Runs.UnusedID(s.sessions, S.RowKey(tenant, s.sessions.nextID));
    if asked.Some? && opens { StartedSession(s, tenant, nonce, asked, opens, inserts); }
    hide Inv, Runs.Inv, Protocol, Chain.ResolvesTo;
  }

  lemma StartedSession(
    s: State, tenant: TenantID, nonce: Token, asked: Option<Transaction>, opens: bool, inserts: bool)
    requires Runs.Inv(s.sessions) && asked.Some? && opens
    ensures var t := StartStep(s, tenant, nonce, asked, opens, inserts).sessions;
            var home := S.RowKey(tenant, s.sessions.nextID);
            && home in t.rows && t.rows[home].data.plain.user.None? && t.rows[home].data.plain.factors == map[]
            && Chain.ResolvesTo(t, tenant, s.sessions.nextToken, home) && s.sessions.nextToken in t.disclosed
  {
    Runs.OpenKeeps(s.sessions, tenant, None, "", None, opens);
    var t := S.OpenStep(s.sessions, tenant, None, "", None, opens).0;
    assert S.Credentials(t, S.RowKey(tenant, s.sessions.nextID), tenant, Digest(s.sessions.nextToken));
    var k := Runs.FoundRow(t, tenant, s.sessions.nextToken);
  }

  // ----- a whole push ------------------------------------------------------

  /** A push that nothing interleaves with is its four steps, one after the other. */
  lemma WholeIsFourSteps(s: State, push: Push, pick: Option<TxnKey>, claims: bool, read: bool, writes: bool)
    ensures var cb := s.nextCallback;
            Step(s, Callback(push, pick, claims, read, writes))
            == Run(s, [Look(push, pick), Claiming(cb, claims), Judging(cb, read), QrModel.Writing(cb, writes)])
  {
    var cb := s.nextCallback;
    hide LookStep, ClaimStep, JudgeStep, WriteStep;
    RunFour(s, Look(push, pick), Claiming(cb, claims), Judging(cb, read), QrModel.Writing(cb, writes));
  }

  lemma RunFour(s: State, a: Op, b: Op, c: Op, d: Op)
    ensures Run(s, [a, b, c, d]) == Step(Step(Step(Step(s, a), b), c), d)
  {
    hide Step;
    assert [a, b, c, d][..3] == [a, b, c];
    RunThree(s, a, b, c);
  }

  /** A push finds the transaction that either of its references names, and no other. */
  lemma PushFindsItsTransaction(s: State, push: Push, pick: Option<TxnKey>, k: TxnKey)
    requires Protocol(s) && k in s.txns
    requires push.session == Some(s.txns[k].verifierSession) || push.presentation == Some(s.txns[k].presentation)
    requires push.session.None? || push.presentation.None?
             || (push.session == Some(s.txns[k].verifierSession) && push.presentation == Some(s.txns[k].presentation))
    ensures Enabled(s, Callback(push, pick, true, true, true)) <==> pick == Some(k)
    ensures push.Usable()
  {
    hide SoundTxns, SoundStages, OneHolder;
    assert forall j :: j in s.txns && j != k ==> !SharesIdentity(s.txns[j], s.txns[k]);
  }

  /** A transaction nobody claimed, still pending before its deadline. */
  predicate Waits(s: State, k: TxnKey) {
    && k in s.txns && s.txns[k].consumedAt.None? && s.txns[k].state == Pending
    && s.sessions.now < s.txns[k].expiresAt
  }

  /** The person a push proves for a transaction: the verifier accepted it or said nothing, its
      nonce is absent or the transaction's own, and the directory of the tenant names that person
      for the pushed name. */
  ghost predicate ProvesPerson(s: State, push: Push, k: TxnKey, person: UserID)
    requires k in s.txns
  {
    && (push.stateWord.None? || push.stateWord == Some("0"))
    && (push.nonce.None? || Digest(push.nonce.value) == s.txns[k].nonceHash)
    && push.username.Some? && Name(k.tenant, push.username.value) in s.people
    && s.people[Name(k.tenant, push.username.value)] == person
  }

  /** A whole push over a transaction that can be claimed, with every write done, decides it: the
      transaction is verified for exactly the person the push proves, and failed if it proves
      nobody. It is claimed at this moment, and nothing else moves. */
  lemma PushDecides(s: State, push: Push, k: TxnKey)
    requires Protocol(s) && Waits(s, k) && push.Usable()
    ensures var t := Step(s, Callback(push, Some(k), true, true, true));
            && t.txns.Keys == s.txns.Keys && t.sessions == s.sessions && t.inFlight == s.inFlight
            && (forall j :: j in s.txns && j != k ==> t.txns[j] == s.txns[j])
            && t.txns[k] == s.txns[k].(state := t.txns[k].state, person := t.txns[k].person,
                                       consumedAt := Some(s.sessions.now))
            && (forall person: UserID ::
                  t.txns[k].state == Verified && t.txns[k].person == Some(person) <==>
                    ProvesPerson(s, push, k, person))
            && (if exists person: UserID :: ProvesPerson(s, push, k, person) then t.txns[k].state == Verified
                else t.txns[k].state == Failed && t.txns[k].person.None?)
  {
    hide Resolve, Known, ProvesPerson, CallbackStep;
    PushLeaves(s, push, k);
    ResolvedIsProved(s, push, k);
    hide Protocol, Claimable;
    var person := Resolve(s.txns[k], push, Known(s, k.tenant, push));
    if person.Some? { assert ProvesPerson(s, push, k, person.value); }
  }

  /** What the four steps of a push leave, by the person it resolves to. */
  lemma PushLeaves(s: State, push: Push, k: TxnKey)
    requires Protocol(s) && Claimable(s, k) && push.Usable()
    ensures var t, person := CallbackStep(s, push, Some(k), true, true, true),
                             Resolve(s.txns[k], push, Known(s, k.tenant, push));
            && s.txns[k].person.None? && t.sessions == s.sessions && t.inFlight == s.inFlight
            && t.txns == s.txns[k := s.txns[k].(consumedAt := Some(s.sessions.now), person := person,
                                               state := if person.Some? then Verified else Failed)]
  {
    UnclaimedRow(s, k);
    FreshCallback(s);
    FourStepsLeave(s, push, k);
    hide Protocol;
  }

  lemma FourStepsLeave(s: State, push: Push, k: TxnKey)
    requires Claimable(s, k) && push.Usable() && s.nextCallback !in s.inFlight && s.txns[k].person.None?
    ensures var t, person := CallbackStep(s, push, Some(k), true, true, true),
                             Resolve(s.txns[k], push, Known(s, k.tenant, push));
            && t.sessions == s.sessions && t.inFlight == s.inFlight
            && t.txns == s.txns[k := s.txns[k].(consumedAt := Some(s.sessions.now), person := person,
                                               state := if person.Some? then Verified else Failed)]
  {
    hide LookStep, ClaimStep, JudgeStep, WriteStep, Resolve, Known;
    PushClaims(s, push, k);
    PushResolves(s, push, k, true);
    var cb, person := s.nextCallback, Resolve(s.txns[k], push, Known(s, k.tenant, push));
    var mid := ClaimStep(LookStep(s, push, Some(k)), cb, true);
    hide Claimable;
    assert JudgeStep(mid, cb, true).inFlight == mid.inFlight[cb := Judged(k, person)];
    PushWrites(mid, cb, k, true, person);
    assert mid.inFlight - {cb} == s.inFlight;
  }

  lemma UnclaimedRow(s: State, k: TxnKey)
    requires Protocol(s) && k in s.txns && s.txns[k].state == Pending
    ensures s.txns[k].person.None?
  {
    assert SoundTxn(s, k);
  }

  lemma ResolvedIsProved(s: State, push: Push, k: TxnKey)
    requires k in s.txns
    ensures forall person: UserID ::
              Resolve(s.txns[k], push, Known(s, k.tenant, push)) == Some(person) <==> ProvesPerson(s, push, k, person)
  {
  }

  /** The claim of a push that read the row as it is. */
  lemma PushClaims(s: State, push: Push, k: TxnKey)
    requires Claimable(s, k) && push.Usable() && s.nextCallback !in s.inFlight
    ensures var t := ClaimStep(LookStep(s, push, Some(k)), s.nextCallback, true);
            && t.txns == s.txns[k := s.txns[k].(consumedAt := Some(s.sessions.now))]
            && t.inFlight == s.inFlight[s.nextCallback := Claimed(push, k, s.txns[k])]
            && t.sessions == s.sessions && t.people == s.people
  {
  }

  lemma PushResolves(s: State, push: Push, k: TxnKey, read: bool)
    requires Claimable(s, k) && push.Usable() && s.nextCallback !in s.inFlight
    ensures var mid := ClaimStep(LookStep(s, push, Some(k)), s.nextCallback, true);
            var known := if read then Known(s, k.tenant, push) else None;
            var t := JudgeStep(mid, s.nextCallback, read);
            && t.txns == mid.txns && t.sessions == s.sessions
            && t.inFlight == s.inFlight[s.nextCallback := Judged(k, Resolve(s.txns[k], push, known))]
  {
    hide LookStep, ClaimStep, Known, Resolve;
    PushClaims(s, push, k);
    var mid := ClaimStep(LookStep(s, push, Some(k)), s.nextCallback, true);
    SameNames(s, mid, k.tenant, push);
  }

  lemma SameNames(s: State, t: State, tenant: TenantID, push: Push)
    requires s.people == t.people
    ensures Known(s, tenant, push) == Known(t, tenant, push)
  {
  }

  /** The result of a push, from its judgement. */
  lemma PushWrites(mid: State, cb: CallbackID, k: TxnKey, read: bool, person: Option<UserID>)
    requires k in mid.txns && cb in mid.inFlight
    requires JudgeStep(mid, cb, read).inFlight == mid.inFlight[cb := Judged(k, person)]
    requires JudgeStep(mid, cb, read).txns == mid.txns
    ensures var t := WriteStep(JudgeStep(mid, cb, read), cb, true);
            && t.txns == mid.txns[k := mid.txns[k].(state := if person.Some? then Verified else Failed,
                                                   person := if person.Some? then person else mid.txns[k].person)]
            && t.inFlight == mid.inFlight - {cb} && t.sessions == JudgeStep(mid, cb, read).sessions
  {
    hide JudgeStep;
  }

  /** A push over a transaction that cannot be claimed, or that loses its claim, changes none. */
  lemma LatePushChangesNothing(s: State, push: Push, pick: Option<TxnKey>, claims: bool, read: bool, writes: bool)
    requires Protocol(s) && (pick.None? || !claims || !Waits(s, pick.value))
    ensures Step(s, Callback(push, pick, claims, read, writes)).txns == s.txns
  {
    FreshCallback(s);
    hide Protocol;
    var cb := s.nextCallback;
    var looked := LookStep(s, push, pick);
    var left := ClaimStep(looked, cb, claims);
    assert looked.txns == s.txns;
    assert left.txns == s.txns && cb !in left.inFlight;
    hide LookStep, ClaimStep;
  }

  /** A directory that could not be read fails the transaction, and a result that was not written
      leaves it claimed and pending for good. */
  lemma UnfinishedPush(s: State, push: Push, k: TxnKey, read: bool, writes: bool)
    requires Protocol(s) && Waits(s, k) && push.Usable() && !(read && writes)
    ensures var t := Step(s, Callback(push, Some(k), true, read, writes));
            && k in t.txns && t.txns[k].consumedAt == Some(s.sessions.now) && t.txns[k].person.None?
            && t.txns[k].state == (if writes then Failed else Pending)
  {
    FreshCallback(s);
    assert SoundTxn(s, k);
    hide Protocol;
  }

  /** So the next poll of the session signs in as the person the push proved, if the session is
      bound to nobody else, and hands out a token. */
  lemma PushSignsIn(s: State, push: Push, k: TxnKey, person: UserID, token: Token)
    requires Inv(s) && Waits(s, k) && push.Usable() && Enabled(s, Callback(push, Some(k), true, true, true))
    requires ProvesPerson(s, push, k, person)
    requires s.txns[k].home in s.sessions.rows && Fits(s, s.txns[k].home, person)
    requires !Scanned(s.sessions, s.txns[k].home) && token in s.sessions.disclosed
    requires Chain.ResolvesTo(s.sessions, k.tenant, token, s.txns[k].home)
    ensures var (t, status) := PollStep(Step(s, Callback(push, Some(k), true, true, true)), k.tenant, token, Committed);
            && status.Authenticated? && status.token.Some? && status.user == Some(person)
            && Scanned(t.sessions, s.txns[k].home)
  {
    hide PollStep, Step, Runs.Inv, Protocol, ScansAreEarned, LocalHomes, CallbackStep;
    var op := Callback(push, Some(k), true, true, true);
    PushDecides(s, push, k);
    StepKeeps(s, op);
    var t, home := Step(s, op), s.txns[k].home;
    BelongsHome(s, k);
    TxnIsFound(t, k, home);
    PollAnswers(t, k.tenant, token, Committed);
  }

  lemma BelongsHome(s: State, k: TxnKey)
    requires Protocol(s) && k in s.txns
    ensures BelongsTo(s, k, s.txns[k].home)
  {
    assert SoundTxn(s, k);
  }
}
