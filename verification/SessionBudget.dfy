/** The wrong-code cap: one sign-in takes at most five wrong second-factor codes, and
    the fifth ends it with its one audit row. */
module SessionBudget {
  import opened Basics
  import opened SessionModel
  import opened SessionRuns
  import opened SessionChain

  /** Whether this call counted a wrong code against the session. */
  ghost predicate CountsAgainst(s: State, op: Op, k: RowKey) {
    op.FailCode? && Apply(s, op).1.Counted? && ResolvesTo(s, op.tenant, op.token, k)
  }

  /** How many calls of one run counted a wrong code against the session. */
  ghost function WrongCodes(s: State, ops: seq<Op>, k: RowKey): nat {
    if ops == [] then 0
    else
      var init, last := ops[..|ops| - 1], ops[|ops| - 1];
      WrongCodes(s, init, k) + (if CountsAgainst(Run(s, init), last, k) then 1 else 0)
  }

  /** How often the trail says the session ended on wrong codes. */
  ghost function Endings(s: State, k: RowKey): nat {
    multiset(s.trail)[AuditRow(k, LoginFailed(BadSecondFactor))]
  }

  ghost predicate ActiveRow(s: State, k: RowKey) {
    k in s.rows && s.rows[k].state == Active
  }

  /** The books agree after `count` wrong codes: an active session carries the count and
      is under the cap, and the trail holds one ending exactly when the cap was reached. */
  ghost predicate Ledger(s: State, k: RowKey, count: nat) {
    && (ActiveRow(s, k) ==> s.rows[k].data.plain.wrongCodes == count < MAX_WRONG_CODES)
    && count <= MAX_WRONG_CODES
    && Endings(s, k) == (if count == MAX_WRONG_CODES then 1 else 0)
    && (s.nextID <= k.id ==> count == 0)
  }

  /** The call leaves the count of the session, and its endings in the trail, alone. */
  ghost predicate Quiet(s: State, t: State, k: RowKey) {
    && Endings(t, k) == Endings(s, k) && s.nextID <= t.nextID
    && (ActiveRow(t, k) ==>
          || (ActiveRow(s, k) && t.rows[k].data.plain.wrongCodes == s.rows[k].data.plain.wrongCodes)
          || (s.nextID <= k.id && t.rows[k].data.plain.wrongCodes == 0))
  }

  lemma RotationIsQuiet(s: State, tenant: TenantID, token: Token, live: LoginSession, fate: Fate, k: RowKey)
    requires Inv(s) && FindRow(s, tenant, Digest(token)).Some?
    requires KeyOf(live) == KeyOf(FindRow(s, tenant, Digest(token)).value)
    requires live.wrongCodes == FindRow(s, tenant, Digest(token)).value.wrongCodes
    ensures Quiet(s, Rotated(s, live, token, fate).0, k)
  {
  }

  lemma UpgradeIsQuiet(s: State, op: Op, k: RowKey)
    requires Inv(s) && Enabled(s, op) && Upgrades(op)
    ensures Quiet(s, Step(s, op), k)
  {
    hide Inv, Later, Rotated, CachedFind, FindRow, Refilled;
    Lookup(s, op.tenant, op.token);
    var r := Refilled(s, op.tenant, Digest(op.token));
    if FindRow(r, op.tenant, Digest(op.token)).Some? {
      var live := FindRow(r, op.tenant, Digest(op.token)).value;
      match op
      case Password(_, token, check, _, fate) =>
        var proof := Prove(live, check);
        if proof.Proved? {
          RotationIsQuiet(r, op.tenant, token, WithPassword(live, proof.person, proof.email, s.now), fate, k);
        }
      case Complete(_, token, user, factor, fate) =>
        RotationIsQuiet(r, op.tenant, token, WithFactor(live, user, factor, s.now), fate, k);
    }
  }

  lemma EndsAreQuiet(s: State, op: Op, k: RowKey)
    requires Inv(s) && Enabled(s, op) && (op.Find? || op.Logout?)
    ensures Quiet(s, Step(s, op), k)
  {
    hide Inv, Later, PasswordStep, CompleteStep, FailCodeStep;
    Lookup(s, op.tenant, op.token);
  }

  lemma OthersAreQuiet(s: State, op: Op, k: RowKey)
    requires Inv(s) && Enabled(s, op) && !op.FailCode?
    ensures Quiet(s, Step(s, op), k)
  {
    hide Inv, Later, PasswordStep, CompleteStep, FailCodeStep, FindStep, LogoutStep;
    if Upgrades(op) {
      UpgradeIsQuiet(s, op, k);
    } else if op.Find? || op.Logout? {
      EndsAreQuiet(s, op, k);
    }
  }

  /** One wrong code moves the books of its own session by one, and no other. */
  lemma WrongCodeMoves(s: State, op: Op, k: RowKey, count: nat)
    requires Inv(s) && Enabled(s, op) && op.FailCode? && Ledger(s, k, count)
    ensures Ledger(Step(s, op), k, count + if CountsAgainst(s, op, k) then 1 else 0)
  {
    hide Inv, Later;
    Lookup(s, op.tenant, op.token);
    HeldID(s, k);
  }

  lemma {:induction false} LedgerHolds(ops: seq<Op>, k: RowKey)
    requires Admissible(FRESH, ops)
    ensures Ledger(Run(FRESH, ops), k, WrongCodes(FRESH, ops, k))
  {
    if ops != [] {
      var init, last := ops[..|ops| - 1], ops[|ops| - 1];
      LedgerHolds(init, k);
      RunKeeps(FRESH, init);
      var s := Run(FRESH, init);
      if last.FailCode? {
        WrongCodeMoves(s, last, k, WrongCodes(FRESH, init, k));
      } else {
        OthersAreQuiet(s, last, k);
      }
    }
  }

  /** At most five wrong codes are ever counted against one session. The session carries
      their number while it lives, whatever rotations run in between, and the fifth ends
      it for good and leaves the one audit row that says so. */
  lemma AtMostFiveWrongCodes(ops: seq<Op>, k: RowKey)
    requires Admissible(FRESH, ops)
    ensures var s, count := Run(FRESH, ops), WrongCodes(FRESH, ops, k);
            && count <= MAX_WRONG_CODES
            && (ActiveRow(s, k) ==> s.rows[k].data.plain.wrongCodes == count)
            && Endings(s, k) <= 1
            && (count == MAX_WRONG_CODES <==> Endings(s, k) == 1)
            && (count == MAX_WRONG_CODES ==> Over(s, k))
  {
    LedgerHolds(ops, k);
  }
}
