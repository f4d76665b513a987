/** The main results about login sessions: the cache never lies to anybody who holds a
    token, the tokens of one session form a chain with one live link, and a session that
    ended stays ended. */
module SessionChain {
  import opened Basics
  import opened SessionModel
  import opened SessionRuns

  ghost predicate Resolves(s: State, tenant: TenantID, token: Token) {
    FindRow(s, tenant, Digest(token)).Some?
  }

  /** The session one token credentials. */
  ghost predicate ResolvesTo(s: State, tenant: TenantID, token: Token, k: RowKey) {
    Resolves(s, tenant, token) && KeyOf(FindRow(s, tenant, Digest(token)).value) == k
  }

  // ----- the cache ---------------------------------------------------------

  lemma FreshIsSound()
    ensures Inv(FRESH)
  {
  }

  /** In every run in which any transaction may be taken back, a read through the cache
      differs from a read of the table for exactly the tokens that were minted, never
      handed out, and still cached. Nobody can present one. */
  lemma CacheLiesOnlyToNobody(ops: seq<Op>, tenant: TenantID, token: Token)
    requires Admissible(FRESH, ops)
    ensures var s := Run(FRESH, ops);
            && (Known(s, token) ==> CachedFind(s, tenant, Digest(token)) == FindRow(s, tenant, Digest(token)))
            && (CachedFind(s, tenant, Digest(token)) != FindRow(s, tenant, Digest(token))
                <==> !Known(s, token) && VisibleIn(s, Slot(tenant, Digest(token))))
  {
    RunKeeps(FRESH, ops);
    var s := Run(FRESH, ops);
    if Known(s, token) {
      LookupAgrees(s, tenant, token);
    } else if Resolves(s, tenant, token) {
      var k := FoundRow(s, tenant, token);
    }
  }

  // ----- the chain ---------------------------------------------------------

  /** A token that was handed out and does not resolve never resolves again. */
  lemma DeadStaysDead(s: State, ops: seq<Op>, tenant: TenantID, token: Token)
    requires Inv(s) && Admissible(s, ops)
    requires token in s.disclosed && !Resolves(s, tenant, token)
    ensures !Resolves(Run(s, ops), tenant, token)
  {
    RunKeeps(s, ops);
    var t := Run(s, ops);
    if Resolves(t, tenant, token) {
      var k := FoundRow(t, tenant, token);
      assert Kept(s, t, k);
      assert Credentials(s, k, tenant, Digest(token));
    }
  }

  /** At any moment one session answers to at most one token. */
  lemma OneLiveLink(s: State, tenant: TenantID, one: Token, two: Token, k: RowKey)
    requires Inv(s) && ResolvesTo(s, tenant, one, k) && ResolvesTo(s, tenant, two, k)
    ensures one == two
  {
  }

  predicate Upgrades(op: Op) {
    op.Password? || op.Complete?
  }

  /** What a committed rotation leaves in the table. */
  lemma RotatedRow(s: State, live: LoginSession, spent: Token)
    requires Inv(s) && FindRow(s, live.tenant, Digest(spent)).Some?
    requires KeyOf(FindRow(s, live.tenant, Digest(spent)).value) == KeyOf(live)
    requires live.expiresAt > s.now
    ensures var t := Rotated(s, live, spent, Committed).0;
            && KeyOf(live) in t.rows && t.rows[KeyOf(live)] == Seal(live, Digest(s.nextToken))
            && t.now == s.now && s.nextToken in t.disclosed && spent != s.nextToken
  {
  }

  lemma UpgradeRow(s: State, op: Op, id: SessionID, next: Token)
    requires Inv(s) && Enabled(s, op) && Upgrades(op)
    requires Apply(s, op).1 == Opened(id, next)
    ensures var t, k := Step(s, op), RowKey(op.tenant, id);
            && ResolvesTo(s, op.tenant, op.token, k)
            && LiveRow(t, k) && t.rows[k].tokenHash == Digest(next) && KeyOf(t.rows[k].data.plain) == k
            && next != op.token
  {
    hide Inv, Later;
    Lookup(s, op.tenant, op.token);
    var r := Refilled(s, op.tenant, Digest(op.token));
    var live := FindRow(r, op.tenant, Digest(op.token)).value;
    match op
    case Password(_, token, check, _, _) =>
      var proof := Prove(live, check);
      RotatedRow(r, WithPassword(live, proof.person, proof.email, s.now), token);
    case Complete(_, token, user, factor, _) =>
      RotatedRow(r, WithFactor(live, user, factor, s.now), token);
  }

  /** A factor upgrade moves the session to the token it returns. The presented token
      resolves nowhere from then on, whatever else runs. */
  lemma UpgradeMovesTheLink(s: State, op: Op, id: SessionID, next: Token, after: seq<Op>, tenant: TenantID)
    requires Inv(s) && Enabled(s, op) && Upgrades(op)
    requires Apply(s, op).1 == Opened(id, next)
    requires Admissible(Step(s, op), after)
    ensures ResolvesTo(s, op.tenant, op.token, RowKey(op.tenant, id))
    ensures ResolvesTo(Step(s, op), op.tenant, next, RowKey(op.tenant, id))
    ensures !Resolves(Run(Step(s, op), after), tenant, op.token)
  {
    UpgradeRow(s, op, id, next);
    StepKeeps(s, op);
    var t, k := Step(s, op), RowKey(op.tenant, id);
    assert Credentials(t, k, op.tenant, Digest(next));
    var j := FoundRow(t, op.tenant, next);
    assert t.rows[j].tokenHash == t.rows[k].tokenHash;
    var m := FoundRow(s, op.tenant, op.token);
    SpentIsDead(s, t, op.tenant, op.token, tenant, k);
    DeadStaysDead(t, after, tenant, op.token);
  }

  lemma SpentIsDead(s: State, t: State, home: TenantID, spent: Token, tenant: TenantID, k: RowKey)
    requires Inv(s) && Inv(t) && Later(s, t) && ResolvesTo(s, home, spent, k)
    requires k in t.rows && t.rows[k].tokenHash != Digest(spent)
    ensures spent in t.disclosed && !Resolves(t, tenant, spent)
  {
  }

  // ----- the end of a session ----------------------------------------------

  /** The session is terminated, or its row is gone. */
  predicate Over(s: State, k: RowKey) {
    k.id < s.nextID && (k in s.rows ==> s.rows[k].state == Terminated)
  }

  /** A session that ended stays ended, although every save writes the active state:
      no token of it, old or new, ever resolves. */
  lemma OverForGood(s: State, ops: seq<Op>, k: RowKey, tenant: TenantID, token: Token)
    requires Inv(s) && Over(s, k) && Admissible(s, ops)
    ensures Over(Run(s, ops), k)
    ensures !ResolvesTo(Run(s, ops), tenant, token, k)
  {
    RunKeeps(s, ops);
    if Resolves(Run(s, ops), tenant, token) {
      var j := FoundRow(Run(s, ops), tenant, token);
    }
  }

  /** The calls that end sessions, by what they answer. */
  ghost predicate Ends(s: State, op: Op, k: RowKey) {
    match op
    case Logout(tenant, token, _) => Apply(s, op).1 == Done && ResolvesTo(s, tenant, token, k)
    case FailCode(tenant, token, _) => Apply(s, op).1 == Counted(true) && ResolvesTo(s, tenant, token, k)
    case Terminate(key, _) => Apply(s, op).1 == Done && k == key
    case Delete(_, _, _) => Apply(s, op).1.Revoked? && k in Apply(s, op).1.keys
    case DeleteUser(_, _, _, _) => Apply(s, op).1.Revoked? && k in Apply(s, op).1.keys
    case _ => false
  }

  lemma EndingEnds(s: State, op: Op, k: RowKey)
    requires Inv(s) && Enabled(s, op) && Ends(s, op, k)
    ensures Over(Step(s, op), k)
  {
    hide Inv, Later;
    if op.Logout? || op.FailCode? {
      Lookup(s, op.tenant, op.token);
    }
    StepKeeps(s, op);
    HeldID(s, k);
    IDsGrow(s, Step(s, op));
  }

  lemma HeldID(s: State, k: RowKey)
    requires Inv(s)
    ensures k in s.rows ==> k.id < s.nextID
  {
  }

  lemma IDsGrow(s: State, t: State)
    requires Later(s, t)
    ensures s.nextID <= t.nextID
  {
  }

  // ----- what a session never loses ----------------------------------------

  /** Over any run a session keeps its factors and its count of wrong codes, names somebody
      once it did, and keeps that person if no directory proves it. */
  lemma SessionNeverLoses(s: State, ops: seq<Op>, k: RowKey)
    requires Inv(s) && Admissible(s, ops)
    requires k in s.rows && k in Run(s, ops).rows
    ensures var before, after := s.rows[k].data.plain, Run(s, ops).rows[k].data.plain;
            && before.factors.Keys <= after.factors.Keys
            && before.wrongCodes <= after.wrongCodes
            && (before.user.Some? ==> after.user.Some?)
            && (before.federation.None? && before.user.Some? ==> after.user == before.user)
  {
    RunKeeps(s, ops);
  }
}
