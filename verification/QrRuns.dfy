/** What every interleaving of pushes keeps: a transaction is claimed once, judged once, and
    gets one result, whatever runs between the steps. */
module QrRuns {
  import opened Basics
  import opened QrModel
  import S = SessionModel
  import Runs = SessionRuns

  // ----- the invariant of the transactions ---------------------------------

  /** The whole life of one transaction: nothing, or a claim made before the deadline by a
      push that addresses it, then one judgement of that push, then one result. */
  ghost predicate Life(row: Txn, h: seq<Event>) {
    && |h| <= 3
    && (if |h| == 0 then row.consumedAt.None?
        else
          && h[0].Claim? && row.consumedAt == Some(h[0].at)
          && h[0].at < row.expiresAt && Addresses(h[0].push, row))
    && (|h| >= 2 ==> h[1].Judgement? && h[1].person == Resolve(row, h[0].push, h[1].known))
    && (if |h| < 3 then row.state == Pending && row.person.None?
        else
          && h[2].Result? && h[2].person == h[1].person == row.person
          && row.state == (if row.person.Some? then Verified else Failed))
  }

  ghost predicate SoundTxn(s: State, k: TxnKey)
    requires k in s.txns
  {
    && k.id < s.nextTxn && k in s.history && Life(s.txns[k], s.history[k])
    && s.txns[k].home.tenant == k.tenant && s.txns[k].home.id < s.sessions.nextID
  }

  ghost predicate SoundTxns(s: State) {
    forall k :: k in s.txns ==> SoundTxn(s, k)
  }

  /** What no write ever changes about a transaction. */
  ghost predicate SameIdentity(a: Txn, b: Txn) {
    && a.home == b.home && a.verifierSession == b.verifierSession && a.presentation == b.presentation
    && a.nonceHash == b.nonceHash && a.expiresAt == b.expiresAt
  }

  /** A push in flight knows the transaction it read, and after the claim it is the one
      push that writes to it. */
  ghost predicate SoundStage(s: State, cb: CallbackID)
    requires cb in s.inFlight
  {
    var stage := s.inFlight[cb];
    && cb < s.nextCallback && stage.key in s.txns && stage.key in s.history
    && (stage.Judged? || (SameIdentity(stage.row, s.txns[stage.key]) && Addresses(stage.push, stage.row)))
    && (stage.Claimed? ==>
         |s.history[stage.key]| == 1 && s.history[stage.key][0].Claim? && s.history[stage.key][0].push == stage.push)
    && (stage.Judged? ==>
         |s.history[stage.key]| == 2 && s.history[stage.key][1].Judgement?
           && s.history[stage.key][1].person == stage.person)
  }

  ghost predicate SoundStages(s: State) {
    forall cb :: cb in s.inFlight ==> SoundStage(s, cb)
  }

  ghost predicate OneHolder(s: State) {
    forall a, b, k :: a in s.inFlight && b in s.inFlight && s.inFlight[a].Holds(k) && s.inFlight[b].Holds(k) ==> a == b
  }

  ghost predicate Distinct(s: State) {
    forall j, k :: j in s.txns && k in s.txns && SharesIdentity(s.txns[j], s.txns[k]) ==> j == k
  }

  /** No two transactions share a login session, or an identifier of the verifier. */
  ghost predicate SharesIdentity(a: Txn, b: Txn) {
    a.home == b.home || a.verifierSession == b.verifierSession || a.presentation == b.presentation
  }

  ghost predicate Protocol(s: State) {
    SoundTxns(s) && SoundStages(s) && OneHolder(s) && Distinct(s)
  }

  // ----- one transaction over time -----------------------------------------

  /** A push between its claim and its write. */
  ghost predicate Settled(s: State, k: TxnKey) {
    forall cb :: cb in s.inFlight ==> !s.inFlight[cb].Holds(k)
  }

  /** A claiming push that some directory answer would make prove a person. */
  predicate MayProve(row: Txn, push: Push) {
    && (push.stateWord.None? || push.stateWord.value == STATE_WORD_ACCEPTED)
    && (push.nonce.None? || Digest(push.nonce.value) == row.nonceHash)
    && push.username.Some?
  }

  /** A push in flight that may still record this person on the transaction. */
  predicate Hopes(stage: Stage, k: TxnKey, person: UserID) {
    match stage
    case Looked(_, _, _) => false
    case Claimed(push, key, row) => key == k && MayProve(row, push)
    case Judged(key, proved) => key == k && proved == Some(person)
  }

  /** The transaction names this person, or may still come to. */
  ghost predicate Prospect(s: State, k: TxnKey, person: UserID) {
    && k in s.txns
    && (|| (s.txns[k].state == Verified && s.txns[k].person == Some(person))
        || Claimable(s, k)
        || exists cb :: cb in s.inFlight && Hopes(s.inFlight[cb], k, person))
  }

  ghost predicate Narrows(s: State, t: State, k: TxnKey) {
    forall person: UserID :: Prospect(t, k, person) ==> Prospect(s, k, person)
  }

  /** How one transaction may move: its past is final, and so is a result, and nobody whom it
      can no longer name becomes somebody it can. */
  ghost predicate TxnMoves(s: State, t: State, k: TxnKey)
    requires k in s.txns && k in s.history
  {
    && k in t.txns && k in t.history && SameIdentity(s.txns[k], t.txns[k])
    && s.history[k] <= t.history[k]
    && (s.txns[k].state != Pending ==> t.txns[k].state == s.txns[k].state && t.txns[k].person == s.txns[k].person)
    && Narrows(s, t, k)
  }

  ghost predicate After(s: State, t: State) {
    && s.sessions.now <= t.sessions.now && s.sessions.nextID <= t.sessions.nextID && s.nextTxn <= t.nextTxn
    && (forall k :: k in s.txns && k in s.history ==> TxnMoves(s, t, k))
    && (forall k :: k in t.txns && k !in s.txns ==> s.nextTxn <= k.id && s.sessions.nextID <= t.txns[k].home.id)
  }

  lemma AfterIsReflexive(s: State)
    ensures After(s, s)
  {
  }

  lemma AfterIsTransitive(s: State, t: State, u: State)
    requires Protocol(s) && Protocol(t) && After(s, t) && After(t, u)
    ensures After(s, u)
  {
  }

  // ----- every step keeps both ---------------------------------------------

  /** A step that leaves the transactions and the pushes alone. */
  lemma ElsewhereKeeps(s: State, t: State)
    requires Protocol(s) && t == s.(sessions := t.sessions, people := t.people)
    requires s.sessions.now <= t.sessions.now && s.sessions.nextID <= t.sessions.nextID
    ensures Protocol(t) && After(s, t)
  {
  }

  /** A step of one push, which may write the one transaction that it alone holds. */
  ghost predicate Touches(s: State, t: State, cb: CallbackID, key: TxnKey) {
    && t == s.(txns := t.txns, inFlight := t.inFlight, nextCallback := t.nextCallback, history := t.history)
    && s.nextCallback <= t.nextCallback
    && key in s.txns && key in s.history && key in t.txns && key in t.history
    && t.txns == s.txns[key := t.txns[key]] && t.history == s.history[key := t.history[key]]
    && (forall other :: other != cb ==> (other in t.inFlight <==> other in s.inFlight))
    && (forall other :: other in t.inFlight && other != cb ==> t.inFlight[other] == s.inFlight[other])
    && (cb in s.inFlight ==> s.inFlight[cb].key == key)
    && (cb in t.inFlight ==> t.inFlight[cb].key == key)
    && (|| (t.txns[key] == s.txns[key] && t.history[key] == s.history[key]
       && !(cb in t.inFlight && t.inFlight[cb].Holds(key)))
        || NobodyElse(s, cb, key))
  }

  ghost predicate NobodyElse(s: State, cb: CallbackID, key: TxnKey) {
    forall other :: other in s.inFlight && other != cb ==> !s.inFlight[other].Holds(key)
  }

  lemma TouchKeeps(s: State, t: State, cb: CallbackID, key: TxnKey)
    requires Protocol(s) && Touches(s, t, cb, key)
    requires SoundTxn(t, key) && TxnMoves(s, t, key) && (cb in t.inFlight ==> SoundStage(t, cb))
    ensures Protocol(t) && After(s, t)
  {
    hide Life, TxnMoves, Addresses, Resolve, Claimable;
    forall k | k in t.txns
      ensures SoundTxn(t, k)
    {
      if k != key { assert SoundTxn(s, k); }
    }
    TouchKeepsStages(s, t, cb, key);
    forall k | k in s.txns && k in s.history
      ensures TxnMoves(s, t, k)
    {
      if k != key { OtherMoves(s, t, cb, key, k); }
    }
    assert Distinct(t) by { TouchKeepsIdentity(s, t, cb, key); }
    assert OneHolder(t);
  }

  lemma TouchKeepsIdentity(s: State, t: State, cb: CallbackID, key: TxnKey)
    requires Distinct(s) && Touches(s, t, cb, key) && TxnMoves(s, t, key)
    ensures Distinct(t)
  {
  }

  lemma TouchKeepsStages(s: State, t: State, cb: CallbackID, key: TxnKey)
    requires SoundStages(s) && Touches(s, t, cb, key)
    requires TxnMoves(s, t, key) && (cb in t.inFlight ==> SoundStage(t, cb))
    ensures SoundStages(t)
  {
  }

  lemma OtherMoves(s: State, t: State, cb: CallbackID, key: TxnKey, k: TxnKey)
    requires Touches(s, t, cb, key) && k != key && k in s.txns && k in s.history
    ensures TxnMoves(s, t, k)
  {
  }

  /** What the invariant says about one push in flight. */
  lemma Inside(s: State, cb: CallbackID)
    requires Protocol(s) && cb in s.inFlight
    ensures SoundStage(s, cb) && SoundTxn(s, s.inFlight[cb].key)
    ensures s.inFlight[cb].Looked? || NobodyElse(s, cb, s.inFlight[cb].key)
    ensures |s.history[s.inFlight[cb].key]| == 0 ==> NobodyElse(s, cb, s.inFlight[cb].key)
  {
  }

  lemma LookKeeps(s: State, push: Push, pick: Option<TxnKey>)
    requires Protocol(s) && Reads(s, push, pick)
    ensures var t := LookStep(s, push, pick); Protocol(t) && After(s, t)
  {
    var t := LookStep(s, push, pick);
    if t == s {
      AfterIsReflexive(s);
    } else {
      var key := pick.value;
      assert SoundTxn(s, key);
      FreshCallback(s);
      hide Protocol, After, SoundTxn, SoundStage, Touches, TxnMoves, LookStep;
      LookTouches(s, push, pick);
      TouchKeeps(s, t, s.nextCallback, key);
    }
  }

  lemma LookTouches(s: State, push: Push, pick: Option<TxnKey>)
    requires push.Usable() && pick.Some? && Reads(s, push, pick) && s.nextCallback !in s.inFlight
             && SoundTxn(s, pick.value)
    ensures var t, cb, key := LookStep(s, push, pick), s.nextCallback, pick.value;
            Touches(s, t, cb, key) && SoundTxn(t, key) && TxnMoves(s, t, key) && SoundStage(t, cb)
  {
    hide Life;
    var t, key := LookStep(s, push, pick), pick.value;
    assert t.txns == s.txns[key := t.txns[key]] && t.history == s.history[key := t.history[key]];
  }

  lemma FreshCallback(s: State)
    requires Protocol(s)
    ensures s.nextCallback !in s.inFlight
  {
  }

  lemma ClaimKeeps(s: State, cb: CallbackID, written: bool)
    requires Protocol(s)
    ensures var t := ClaimStep(s, cb, written); Protocol(t) && After(s, t)
  {
    var t := ClaimStep(s, cb, written);
    if cb in s.inFlight && s.inFlight[cb].Looked? {
      Inside(s, cb);
      ClaimTouches(s, cb, written);
      hide Protocol, After, SoundTxn, SoundStage, Touches, TxnMoves, ClaimStep;
      TouchKeeps(s, t, cb, s.inFlight[cb].key);
    } else {
      AfterIsReflexive(s);
    }
  }

  lemma ClaimTouches(s: State, cb: CallbackID, written: bool)
    requires cb in s.inFlight && s.inFlight[cb].Looked?
    requires SoundStage(s, cb) && SoundTxn(s, s.inFlight[cb].key)
    requires |s.history[s.inFlight[cb].key]| == 0 ==> NobodyElse(s, cb, s.inFlight[cb].key)
    ensures var t, key := ClaimStep(s, cb, written), s.inFlight[cb].key;
            && Touches(s, t, cb, key) && SoundTxn(t, key) && TxnMoves(s, t, key)
               && (cb in t.inFlight ==> SoundStage(t, cb))
  {
  }

  lemma JudgeKeeps(s: State, cb: CallbackID, read: bool)
    requires Protocol(s)
    ensures var t := JudgeStep(s, cb, read); Protocol(t) && After(s, t)
  {
    var t := JudgeStep(s, cb, read);
    if cb in s.inFlight && s.inFlight[cb].Claimed? {
      Inside(s, cb);
      JudgeTouches(s, cb, read);
      hide Protocol, After, SoundTxn, SoundStage, Touches, TxnMoves, JudgeStep;
      TouchKeeps(s, t, cb, s.inFlight[cb].key);
    } else {
      AfterIsReflexive(s);
    }
  }

  lemma JudgeTouches(s: State, cb: CallbackID, read: bool)
    requires cb in s.inFlight && s.inFlight[cb].Claimed?
    requires SoundStage(s, cb) && SoundTxn(s, s.inFlight[cb].key) && NobodyElse(s, cb, s.inFlight[cb].key)
    ensures var t, key := JudgeStep(s, cb, read), s.inFlight[cb].key;
            && Touches(s, t, cb, key) && SoundTxn(t, key) && TxnMoves(s, t, key) && SoundStage(t, cb)
  {
  }

  lemma WriteKeeps(s: State, cb: CallbackID, written: bool)
    requires Protocol(s)
    ensures var t := WriteStep(s, cb, written); Protocol(t) && After(s, t)
  {
    var t := WriteStep(s, cb, written);
    if cb in s.inFlight && s.inFlight[cb].Judged? {
      Inside(s, cb);
      WriteTouches(s, cb, written);
      hide Protocol, After, SoundTxn, SoundStage, Touches, TxnMoves, WriteStep;
      TouchKeeps(s, t, cb, s.inFlight[cb].key);
    } else {
      AfterIsReflexive(s);
    }
  }

  lemma WriteTouches(s: State, cb: CallbackID, written: bool)
    requires cb in s.inFlight && s.inFlight[cb].Judged?
    requires SoundStage(s, cb) && SoundTxn(s, s.inFlight[cb].key) && NobodyElse(s, cb, s.inFlight[cb].key)
    ensures var t, key := WriteStep(s, cb, written), s.inFlight[cb].key;
            && Touches(s, t, cb, key) && SoundTxn(t, key) && TxnMoves(s, t, key) && cb !in t.inFlight
  {
  }

  lemma StartKeeps(s: State, tenant: TenantID, nonce: Token, asked: Option<Transaction>, opens: bool, inserts: bool)
    requires Protocol(s) && Runs.Inv(s.sessions)
    ensures var t := StartStep(s, tenant, nonce, asked, opens, inserts); Protocol(t) && After(s, t)
  {
    hide Runs.Inv;
    var t := StartStep(s, tenant, nonce, asked, opens, inserts);
    var live := S.OpenStep(s.sessions, tenant, None, "", None, opens).0;
    ElsewhereKeeps(s, s.(sessions := live));
    if t.txns != s.txns {
      InsertKeeps(s, t, TxnKey(tenant, s.nextTxn));
    }
  }

  lemma InsertKeeps(s: State, t: State, key: TxnKey)
    requires Protocol(s) && key.id == s.nextTxn && key in t.txns
    requires t == s.(sessions := t.sessions, txns := s.txns[key := t.txns[key]], nextTxn := s.nextTxn + 1,
             history := s.history[key := []])
    requires t.sessions.now == s.sessions.now && t.sessions.nextID == s.sessions.nextID + 1
    requires t.txns[key].home == S.RowKey(key.tenant, s.sessions.nextID) && Life(t.txns[key], [])
    requires Unique(s, t.txns[key].verifierSession, t.txns[key].presentation)
    ensures Protocol(t) && After(s, t)
  {
    assert key !in s.txns;
    assert forall k :: k in s.txns ==> SoundTxn(s, k);
    assert forall k :: k in t.txns ==> SoundTxn(t, k);
    assert forall cb :: cb in s.inFlight ==> SoundStage(s, cb) && SoundStage(t, cb);
    forall k | k in s.txns && k in s.history
      ensures TxnMoves(s, t, k)
    {
      assert t.inFlight == s.inFlight;
    }
  }

  lemma CallbackKeeps(s: State, push: Push, pick: Option<TxnKey>, claims: bool, read: bool, writes: bool)
    requires Protocol(s) && Reads(s, push, pick)
    ensures var t := CallbackStep(s, push, pick, claims, read, writes); Protocol(t) && After(s, t)
  {
    hide Protocol, After, LookStep, ClaimStep, JudgeStep, WriteStep, Reads;
    var cb := s.nextCallback;
    var t1 := LookStep(s, push, pick);
    var t2 := ClaimStep(t1, cb, claims);
    var t3 := JudgeStep(t2, cb, read);
    var t4 := WriteStep(t3, cb, writes);
    LookKeeps(s, push, pick);
    ClaimKeeps(t1, cb, claims);
    JudgeKeeps(t2, cb, read);
    WriteKeeps(t3, cb, writes);
    AfterIsTransitive(s, t1, t2);
    AfterIsTransitive(s, t2, t3);
    AfterIsTransitive(s, t3, t4);
  }

  /** A push that nothing interleaves with leaves no push in flight. */
  lemma WholeLeavesNone(s: State, push: Push, pick: Option<TxnKey>, claims: bool, read: bool, writes: bool)
    requires s.inFlight == map[]
    ensures CallbackStep(s, push, pick, claims, read, writes).inFlight == map[]
  {
  }
}
