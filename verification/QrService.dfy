/** The code of QR Login: the repository of the transactions, the push of the verifier and
    the poll of the browser. Each method is proved to take the step QrModel specifies. */
module QrService {
  import opened Basics
  import opened QrModel
  import opened QrRuns
  import QrSafety
  import S = SessionModel
  import Runs = SessionRuns
  import Service = SessionService

  datatype PushAnswer = Accepted | Unusable | Broken

  class QrLogins {
    const sessions: Service.Sessions
    var txns: map<TxnKey, Txn>
    var nextTxn: nat
    var people: map<Name, UserID>
    ghost var inFlight: map<CallbackID, Stage>
    ghost var nextCallback: CallbackID
    ghost var history: map<TxnKey, seq<Event>>

    ghost function View(): State
      reads this, sessions
    {
      State(sessions.View(), txns, nextTxn, people, inFlight, nextCallback, history)
    }

    ghost predicate Valid()
      reads this, sessions
    {
      QrSafety.Inv(View())
    }

    constructor (sessions: Service.Sessions)
      requires sessions.View() == S.FRESH
      ensures Valid() && View() == FRESH && this.sessions == sessions
    {
      this.sessions := sessions;
      txns, nextTxn, people, inFlight, nextCallback, history := map[], 0, map[], map[], 0, map[];
    }

    // ----- the repository --------------------------------------------------

    /** Never an upsert: a reference that is taken is refused. */
    method Insert(key: TxnKey, row: Txn, written: bool) returns (ok: bool)
      modifies this`txns
      ensures ok == (written && Unique(old(View()), row.verifierSession, row.presentation))
      ensures txns == if ok then old(txns)[key := row] else old(txns)
    {
      if !written || exists k ::
           k in txns && (txns[k].verifierSession == row.verifierSession || txns[k].presentation == row.presentation)
      {
        return false;
      }
      txns := txns[key := row];
      return true;
    }

    method FindByVerifierRef(push: Push) returns (found: Option<(TxnKey, Txn)>)
      ensures push.Usable() ==> Reads(View(), push, if found.Some? then Some(found.value.0) else None)
      ensures found.Some? ==> push.Usable() && found.value.0 in txns && txns[found.value.0] == found.value.1
    {
      if !push.Usable() { return None; }
      if k :|
        k in txns && (push.session == Some(txns[k].verifierSession) || push.presentation == Some(txns[k].presentation))
      {
        return Some((k, txns[k]));
      }
      return None;
    }

    /** One guarded update. Unknown, late, and already claimed collapse into one answer. */
    method Consume(key: TxnKey, push: Push, written: bool) returns (claimed: Option<bool>)
      modifies this`txns, this`history
      ensures claimed.None? <==> !written
      ensures claimed.Some? ==> claimed.value == Claimable(old(View()), key)
      ensures claimed == Some(true) ==> key in txns
      ensures View() == if claimed == Some(true) then Consumed(old(View()), key, push) else old(View())
    {
      if !written { return None; }
      if key !in txns || txns[key].consumedAt.Some? || txns[key].state != Pending
        || txns[key].expiresAt <= sessions.now {
        return Some(false);
      }
      history := Happened(View(), key, Claim(sessions.now, push));
      txns := txns[key := txns[key].(consumedAt := Some(sessions.now))];
      return Some(true);
    }

    method SetResult(key: TxnKey, person: Option<UserID>, written: bool) returns (ok: bool)
      modifies this`txns, this`history
      ensures ok == written
      ensures View() == if written && key in old(txns) then WithResult(old(View()), key, person) else old(View())
    {
      if !written { return false; }
      if key in txns {
        history := Happened(View(), key, Result(if person.Some? then Verified else Failed, person));
        var row := txns[key];
        row := row.(state := if person.Some? then Verified else Failed);
        if person.Some? { row := row.(person := person); }
        txns := txns[key := row];
      }
      return true;
    }

    method FindByLoginSession(tenant: TenantID, session: S.SessionID) returns (found: Option<Txn>)
      requires Protocol(View())
      ensures found == QrModel.FindByLoginSession(View(), S.RowKey(tenant, session))
    {
      var home := S.RowKey(tenant, session);
      var mine := set k | k in txns && k.tenant == tenant && txns[k].home == home;
      if mine == {} {
        assert forall k :: BelongsTo(View(), k, home) ==> k in mine;
        return None;
      }
      var newest :| newest in mine;
      var todo := mine - {newest};
      while todo != {}
        invariant newest in mine && todo <= mine && forall k :: k in mine - todo ==> k.id <= newest.id
        decreases todo
      {
        var k :| k in todo;
        if k.id > newest.id { newest := k; }
        todo := todo - {k};
      }
      assert forall k :: BelongsTo(View(), k, home) ==> k in mine;
      assert BelongsTo(View(), newest, home);
      QrSafety.TxnIsFound(View(), newest, home);
      return Some(txns[newest]);
    }

    // ----- the service -----------------------------------------------------

    method Start(tenant: TenantID, nonce: Token, asked: Option<Transaction>, opens: bool, inserts: bool)
      returns (answer: S.Answer)
      requires Valid()
      modifies this, sessions
      ensures Valid()
      ensures View() == StartStep(old(View()), tenant, nonce, asked, opens, inserts)
      ensures answer.Opened? <==> nextTxn > old(nextTxn)
    {
      hide QrSafety.Inv, Runs.Inv, Runs.Later, QrSafety.Later, S.OpenStep;
      StartKeepsValid(View(), tenant, nonce, asked, opens, inserts);
      if asked.None? { return S.Failed(S.StorageFailed); }
      answer := sessions.Open(tenant, None, "", None, opens);
      if answer.Opened? {
        answer := Record(tenant, nonce, asked.value, answer, inserts);
      }
    }

    /** The row of a started transaction, under the session that was just opened. */
    method Record(
      tenant: TenantID, nonce: Token, asked: Transaction, live: S.Answer, written: bool) returns (answer: S.Answer)
      requires live.Opened?
      modifies this
      ensures var key := TxnKey(tenant, old(nextTxn));
              if written && Unique(old(View()), asked.session, asked.presentation)
              then
                && answer == live
                && View() == old(View()).(nextTxn := old(nextTxn) + 1, history := old(history)[key := []],
                                          txns := old(txns)[key := Txn(S.RowKey(tenant, live.id), asked.session,
                                            asked.presentation,
                                                                       Digest(nonce), Pending, None,
                                                                         sessions.now + TRANSACTION_TTL, None)])
              else answer == S.Failed(S.StorageFailed) && View() == old(View())
    {
      var key := TxnKey(tenant, nextTxn);
      var row := Txn(S.RowKey(tenant, live.id), asked.session, asked.presentation,
                     Digest(nonce), Pending, None, sessions.now + TRANSACTION_TTL, None);
      var ok := Insert(key, row, written);
      if !ok { return S.Failed(S.StorageFailed); }
      nextTxn := nextTxn + 1;
      history := history[key := []];
      return live;
    }

    /** One push. Nothing after the parse is told to the verifier but a broken database. */
    method Callback(
      push: Push, claims: bool, read: bool, writes: bool) returns (answer: PushAnswer, ghost pick: Option<TxnKey>)
      requires Valid()
      modifies this`txns, this`inFlight, this`nextCallback, this`history
      ensures Valid()
      ensures push.Usable() ==> Reads(old(View()), push, pick)
      ensures View() == CallbackStep(old(View()), push, pick, claims, read, writes)
      ensures answer == Unusable <==> !push.Usable()
    {
      hide QrSafety.Inv, Runs.Inv, QrSafety.Later, LookStep, ClaimStep, JudgeStep, WriteStep, Reads, Consumed,
        Claimable;
      ghost var s, cb := View(), nextCallback;
      pick := None;
      IdlePush(s, push, claims, read, writes);
      if !push.Usable() { return Unusable, None; }
      var found := FindByVerifierRef(push);
      if found.None? { return Accepted, None; }
      var (key, row) := found.value;
      pick := Some(key);
      PushKeepsValid(s, push, key, claims, read, writes);
      inFlight := inFlight[cb := Looked(push, key, row)];
      nextCallback := nextCallback + 1;
      Looks(s, push, key);
      ghost var t := View();
      var claimed := Consume(key, push, claims);
      Claims(t, cb, claims);
      if claimed != Some(true) {
        inFlight := inFlight - {cb};
        GoneStaysGone(View(), cb, read, writes);
        return if claimed.None? then Broken else Accepted, pick;
      }
      inFlight := inFlight[cb := Claimed(push, key, row)];
      answer := Settle(cb, push, key, row, read, writes);
    }

    /** What a push does after it won the claim. */
    method Settle(
      ghost cb: CallbackID, push: Push, key: TxnKey, row: Txn, read: bool, writes: bool) returns (answer: PushAnswer)
      requires cb in inFlight && inFlight[cb] == Claimed(push, key, row) && key in txns
      modifies this`txns, this`inFlight, this`history
      ensures View() == WriteStep(JudgeStep(old(View()), cb, read), cb, writes)
      ensures answer != Unusable
    {
      var known := FindUser(key.tenant, push, read);
      var person := Resolve(row, push, known);
      history := Happened(View(), key, Judgement(known, person));
      inFlight := inFlight[cb := Judged(key, person)];
      assert View() == JudgeStep(old(View()), cb, read);
      inFlight := inFlight - {cb};
      var ok := SetResult(key, person, writes);
      return if !ok && person.Some? then Broken else Accepted;
    }

    method FindUser(tenant: TenantID, push: Push, read: bool) returns (known: Option<UserID>)
      ensures known == if read then Known(View(), tenant, push) else None
    {
      if !read || push.username.None? { return None; }
      var name := Name(tenant, push.username.value);
      return if name in people then Some(people[name]) else None;
    }

    method Poll(tenant: TenantID, token: Token, fate: Fate) returns (status: Status)
      requires Valid() && S.Known(sessions.View(), token)
      modifies sessions
      ensures Valid()
      ensures (View(), status) == PollStep(old(View()), tenant, token, fate)
    {
      QrSafety.PollKeeps(View(), tenant, token, fate);
      QrSafety.PollReads(View(), tenant, token);
      hide QrSafety.Inv, Runs.Inv, Runs.Later, QrSafety.Later, S.CompleteStep, S.FindStep;
      var found := sessions.Find(tenant, token);
      if !found.Found? { return PollFailed(S.NotFound); }
      if S.FACTOR_SCAN in found.live.factors { return Authenticated(None, found.live.user); }
      SameTransactions(old(View()), View(), S.RowKey(tenant, found.live.id));
      var row := FindByLoginSession(tenant, found.live.id);
      if row.None? { return Expired; }
      status := AnswerFor(tenant, token, row.value, fate);
    }

    /** What a poll answers for the transaction of its session. */
    method AnswerFor(tenant: TenantID, token: Token, row: Txn, fate: Fate) returns (status: Status)
      requires Runs.Inv(sessions.View()) && S.Known(sessions.View(), token)
      modifies sessions
      ensures (View(), status) == Answered(old(View()), tenant, token, row, fate)
    {
      hide Runs.Inv;
      match row.state
      case Pending => return if row.expiresAt > sessions.now then StillPending else Expired;
      case Failed => return Expired;
      case Verified => status := CompleteWith(tenant, token, row, fate);
    }

    method CompleteWith(tenant: TenantID, token: Token, row: Txn, fate: Fate) returns (status: Status)
      requires Runs.Inv(sessions.View()) && S.Known(sessions.View(), token) && row.state == Verified
      modifies sessions
      ensures (View(), status) == Answered(old(View()), tenant, token, row, fate)
    {
      hide Runs.Inv, S.CompleteStep;
      if row.person.None? { return Expired; }
      var done := sessions.Complete(tenant, token, row.person, S.FACTOR_SCAN, fate);
      match done
      case Opened(_, rotated) => return Authenticated(Some(rotated), row.person);
      case Failed(SubjectBound) => return Expired;
      case Failed(why) => return PollFailed(why);
      case _ => return PollFailed(S.NotFound);
    }
  }

  lemma StartKeepsValid(
    s: State, tenant: TenantID, nonce: Token, asked: Option<Transaction>, opens: bool, inserts: bool)
    requires QrSafety.Inv(s)
    ensures Runs.Inv(s.sessions) && QrSafety.Inv(StartStep(s, tenant, nonce, asked, opens, inserts))
    ensures S.OpenStep(s.sessions, tenant, None, "", None, opens).0.now == s.sessions.now
  {
    QrSafety.StartKeepsAll(s, tenant, nonce, asked, opens, inserts);
  }

  lemma IdlePush(s: State, push: Push, claims: bool, read: bool, writes: bool)
    requires QrSafety.Inv(s)
    ensures CallbackStep(s, push, None, claims, read, writes) == s
  {
  }

  lemma PushKeepsValid(s: State, push: Push, key: TxnKey, claims: bool, read: bool, writes: bool)
    requires QrSafety.Inv(s) && Reads(s, push, Some(key))
    ensures QrSafety.Inv(CallbackStep(s, push, Some(key), claims, read, writes))
  {
    hide QrSafety.Inv, QrSafety.Later, CallbackStep;
    QrSafety.PushKeeps(s, QrModel.Callback(push, Some(key), claims, read, writes));
  }

  lemma Looks(s: State, push: Push, key: TxnKey)
    requires push.Usable() && key in s.txns
    ensures LookStep(s, push, Some(key))
            == s.(inFlight := s.inFlight[s.nextCallback := Looked(push, key, s.txns[key])],
              nextCallback := s.nextCallback + 1)
  {
  }

  lemma Claims(s: State, cb: CallbackID, written: bool)
    requires cb in s.inFlight && s.inFlight[cb].Looked?
    ensures var stage := s.inFlight[cb];
            ClaimStep(s, cb, written)
            == if !written || !Claimable(s, stage.key) then s.(inFlight := s.inFlight - {cb})
               else Consumed(s, stage.key,
                 stage.push).(inFlight := s.inFlight[cb := Claimed(stage.push, stage.key, stage.row)])
  {
  }

  lemma GoneStaysGone(s: State, cb: CallbackID, read: bool, writes: bool)
    requires cb !in s.inFlight
    ensures WriteStep(JudgeStep(s, cb, read), cb, writes) == s
  {
  }

  /** The lookup by login session reads the transactions alone. */
  lemma SameTransactions(s: State, t: State, home: S.RowKey)
    requires QrSafety.Inv(s) && t == s.(sessions := s.sessions.(cache := t.sessions.cache))
    ensures Protocol(t) && QrModel.FindByLoginSession(t, home) == QrModel.FindByLoginSession(s, home)
  {
    ElsewhereKeeps(s, t);
    assert forall k :: BelongsTo(s, k, home) <==> BelongsTo(t, k, home);
    assert forall k :: Newest(s, k, home) <==> Newest(t, k, home);
    if QrModel.FindByLoginSession(s, home).Some? {
      var k := QrSafety.TheTxn(s, home);
      QrSafety.TxnIsFound(t, k, home);
    }
  }
}
