/** The code of the passkey ceremonies and of the repository behind them. Each method is
    proved to take the step PasskeyModel specifies. */
module PasskeyService {
  import opened Basics
  import opened PasskeyModel

  class Passkeys {
    var now: Instant
    var rows: map<CredKey, Credential>
    var ceremonies: map<Holder, Instant>
    ghost var claimed: map<RegID, Registration>
    ghost var nextReg: RegID
    ghost var used: set<Holder>
    ghost var fair: set<RegID>

    ghost function View(): State
      reads this
    {
      State(now, rows, ceremonies, claimed, nextReg, used, fair)
    }

    constructor ()
      ensures View() == FRESH
    {
      now, rows, ceremonies, claimed, nextReg, used, fair := 0, map[], map[], map[], 0, {}, {};
    }

    // ----- the repository --------------------------------------------------

    /** How many live rows one person holds. */
    method CountLive(tenant: TenantID, user: UserID) returns (held: nat)
      ensures held == Held(View(), tenant, user)
    {
      var live := set key | key in rows && key.tenant == tenant && rows[key].user == user && rows[key].deletedAt.None?;
      assert live == LiveOf(View(), tenant, user);
      return |live|;
    }

    /** Reads one row by its device, removed rows included. */
    method FindByCredential(key: CredKey) returns (found: Option<Credential>)
      ensures found == if key in rows then Some(rows[key]) else None
    {
      return if key in rows then Some(rows[key]) else None;
    }

    method InsertRow(key: CredKey, row: Credential, written: bool) returns (answer: Answer)
      modifies this`rows
      ensures rows == if written && key !in old(rows) then old(rows)[key := row] else old(rows)
      ensures answer == if !written then Refused(StorageFailed)
              else if key in old(rows) then Refused(DuplicateDevice) else Done
    {
      if !written { return Refused(StorageFailed); }
      if key in rows { return Refused(DuplicateDevice); }
      rows := rows[key := row];
      return Done;
    }

    /** Takes a removed row back. The guard is the delete mark. */
    method ReviveRow(key: CredKey, row: Credential, written: bool) returns (answer: Answer)
      requires row.lastUsedAt == None && row.deletedAt == None
      modifies this`rows
      ensures rows == if written && key in old(rows) && !old(rows)[key].Live() then old(rows)[key := row] else old(rows)
      ensures answer == if !written then Refused(StorageFailed)
                        else if key !in old(rows) || old(rows)[key].Live() then Refused(DuplicateDevice) else Done
    {
      if !written { return Refused(StorageFailed); }
      if key !in rows || rows[key].deletedAt.None? { return Refused(DuplicateDevice); }
      rows := rows[key := rows[key].(user := row.user, rpID := row.rpID, record := row.record, name := row.name,
                                     createdAt := row.createdAt, lastUsedAt := None, deletedAt := None)];
      return Done;
    }

    method Touch(key: CredKey, user: UserID, record: string, written: bool) returns (answer: Answer)
      modifies this`rows
      ensures answer == if !written then Refused(StorageFailed)
              else if !OwnedLive(old(View()), key, user) then Refused(NotFound) else Done
      ensures rows == if answer == Done
              then old(rows)[key := old(rows)[key].(record := record, lastUsedAt := Some(now))] else old(rows)
    {
      if !written { return Refused(StorageFailed); }
      if key !in rows || rows[key].user != user || rows[key].deletedAt.Some? { return Refused(NotFound); }
      rows := rows[key := rows[key].(record := record, lastUsedAt := Some(now))];
      return Done;
    }

    method Rename(key: CredKey, user: UserID, name: string, written: bool) returns (answer: Answer)
      modifies this`rows
      ensures (View(), answer) == RenameStep(old(View()), key, user, name, written)
    {
      if !written { return Refused(StorageFailed); }
      if key !in rows || rows[key].user != user || rows[key].deletedAt.Some? { return Refused(NotFound); }
      rows := rows[key := rows[key].(name := name)];
      return Done;
    }

    method Delete(key: CredKey, user: UserID, written: bool) returns (answer: Answer)
      modifies this`rows
      ensures (View(), answer) == RemoveStep(old(View()), key, user, if written then Committed else WriteFailed)
    {
      if !written { return Refused(StorageFailed); }
      if key !in rows || rows[key].user != user || rows[key].deletedAt.Some? { return Refused(NotFound); }
      rows := rows[key := rows[key].(deletedAt := Some(now))];
      return Removed;
    }

    // ----- the ceremonies --------------------------------------------------

    method Store(holder: Holder, stored: bool) returns (answer: Answer)
      modifies this`ceremonies, this`used, this`fair
      ensures (View(), answer) == StoreStep(old(View()), holder, stored)
    {
      if !stored { return Refused(Unavailable); }
      ceremonies := ceremonies[holder := now + CEREMONY_TTL];
      used, fair := used - {holder}, fair - ClaimsOf(View(), holder);
      return Started;
    }

    method Consume(holder: Holder, deleted: bool) returns (found: bool)
      modifies this`ceremonies, this`used, this`fair
      ensures found == Open(old(View()), holder)
      ensures View() == if found then Consumed(old(View()), holder, deleted) else old(View())
    {
      if holder !in ceremonies || ceremonies[holder] <= now { return false; }
      used := if deleted then used - {holder} else used + {holder};
      if deleted { ceremonies := ceremonies - {holder}; }
      return true;
    }

    // ----- the registration ------------------------------------------------

    method RegisterStart(holder: Holder, user: UserID, allowed: bool, stored: bool) returns (answer: Answer)
      modifies this`ceremonies, this`used, this`fair
      ensures (View(), answer) == StartStep(old(View()), holder, user, allowed, stored)
    {
      if !allowed { return Refused(Unavailable); }
      var held := CountLive(holder.tenant, user);
      if held >= MAX_PASSKEYS { return Refused(TooManyPasskeys); }
      answer := Store(holder, stored);
    }

    /** Decides how one proved device reaches the table, before the transaction opens. */
    method Claim(key: CredKey) returns (plan: Option<Plan>)
      ensures plan == PlanFor(View(), key)
    {
      var held := FindByCredential(key);
      if held.None? { return Some(Insert); }
      if held.value.deletedAt.None? { return None; }
      return Some(Revive);
    }

    /** The transaction of a registration: the row, the audit row, and what follows. */
    method Write(reg: Registration, fate: Fate) returns (answer: Answer)
      requires reg.row.lastUsedAt == None && reg.row.deletedAt == None
      modifies this`rows
      ensures (View(), answer) == Landed(old(View()), reg, fate)
    {
      var before := rows;
      match reg.plan {
        case Insert => answer := InsertRow(reg.key, reg.row, fate != WriteFailed);
        case Revive => answer := ReviveRow(reg.key, reg.row, fate != WriteFailed);
      }
      if answer != Done { return; }
      if fate == AuditFailed {
        rows := before;
        return Refused(AuditRefused);
      }
      return Registered;
    }

    /** A registration up to the write: what the transaction is going to write, or a refusal. */
    method RegisterClaim(
      holder: Holder, user: UserID, made: Option<Made>, deleted: bool) returns (claim: Result<Registration, Answer>)
      modifies this`ceremonies, this`used, this`fair, this`claimed, this`nextReg
      ensures var (t, answer) := ClaimStep(old(View()), holder, user, made, deleted);
              View() == t && claim == if answer == Claimed then Ok(t.claimed[old(nextReg)]) else Err(answer)
    {
      var found := Consume(holder, deleted);
      if !found { return Err(Refused(ChallengeExpired)); }
      if made.None? { return Err(Refused(Rejected)); }
      var key := CredKey(holder.tenant, made.value.id);
      var plan := Claim(key);
      if plan.None? { return Err(Refused(DuplicateDevice)); }
      var reg := Registration(plan.value, key, NewRow(made.value, user, now), holder);
      fair := if holder in old(used) then fair else fair + {nextReg};
      claimed, nextReg := claimed[nextReg := reg], nextReg + 1;
      return Ok(reg);
    }

    /** The rest of a registration, whatever other calls did since its claim. */
    method RegisterWrite(reg: Registration, fate: Fate, ghost id: RegID) returns (answer: Answer)
      requires reg.row.lastUsedAt == None && reg.row.deletedAt == None
      requires id in claimed && claimed[id] == reg
      modifies this`rows, this`claimed, this`fair
      ensures (View(), answer) == Apply(old(View()), Writing(id, fate))
    {
      claimed, fair := claimed - {id}, fair - {id};
      answer := Write(reg, fate);
    }

    /** The two halves with nothing in between, so that nothing is left in flight. */
    method RegisterFinish(
      holder: Holder, user: UserID, made: Option<Made>, deleted: bool, fate: Fate) returns (answer: Answer)
      modifies this
      ensures (View(), answer) == FinishStep(old(View()), holder, user, made, deleted, fate)
    {
      ghost var id := nextReg;
      var claim := RegisterClaim(holder, user, made, deleted);
      if claim.Err? { return claim.error; }
      answer := RegisterWrite(claim.value, fate, id);
      claimed, nextReg, fair := old(claimed), id, old(fair);
    }

    // ----- the calls -------------------------------------------------------

    method AccountRegisterStart(tenant: TenantID, user: UserID, allowed: bool, stored: bool) returns (answer: Answer)
      modifies this`ceremonies, this`used, this`fair
      ensures (View(), answer) == Apply(old(View()), PortalStart(tenant, user, allowed, stored))
    {
      answer := RegisterStart(Person(tenant, user), user, allowed, stored);
    }

    method AccountRegisterFinish(
      tenant: TenantID, user: UserID, made: Option<Made>, deleted: bool, fate: Fate) returns (answer: Answer)
      modifies this
      ensures (View(), answer) == Apply(old(View()), PortalFinish(tenant, user, made, deleted, fate))
    {
      answer := RegisterFinish(Person(tenant, user), user, made, deleted, fate);
    }

    /** Refuses the sign-in enrolment of an account that holds a factor of either kind. */
    method RefuseHeldFactor(tenant: TenantID, user: UserID, authenticator: bool) returns (held: bool)
      ensures held == HoldsFactor(View(), tenant, user, authenticator)
    {
      var count := CountLive(tenant, user);
      return count > 0 || authenticator;
    }

    method LoginEnrolStart(
      tenant: TenantID, user: UserID, session: SessionID, authenticator: bool, allowed: bool, stored: bool)
      returns (answer: Answer)
      modifies this`ceremonies, this`used, this`fair
      ensures (View(), answer) == Apply(old(View()), EnrolStart(tenant, user, session, authenticator, allowed, stored))
    {
      var held := RefuseHeldFactor(tenant, user, authenticator);
      if held { return Refused(FactorAlreadyHeld); }
      answer := RegisterStart(SignIn(tenant, session), user, allowed, stored);
    }

    /** The finish up to its write. The guard runs here, before the transaction opens. */
    method LoginEnrolClaim(
      tenant: TenantID, user: UserID, session: SessionID, authenticator: bool, made: Option<Made>, deleted: bool)
      returns (claim: Result<Registration, Answer>)
      modifies this`ceremonies, this`used, this`fair, this`claimed, this`nextReg
      ensures var (t, answer) := Apply(old(View()), EnrolClaim(tenant, user, session, authenticator, made, deleted));
              View() == t && claim == if answer == Claimed then Ok(t.claimed[old(nextReg)]) else Err(answer)
    {
      var held := RefuseHeldFactor(tenant, user, authenticator);
      if held { return Err(Refused(FactorAlreadyHeld)); }
      claim := RegisterClaim(SignIn(tenant, session), user, made, deleted);
    }

    method LoginStart(
      tenant: TenantID, user: UserID, session: SessionID, allowed: bool, stored: bool) returns (answer: Answer)
      modifies this`ceremonies, this`used, this`fair
      ensures (View(), answer) == Apply(old(View()), ChallengeStart(tenant, user, session, allowed, stored))
    {
      if !allowed { return Refused(Unavailable); }
      var held := CountLive(tenant, user);
      if held == 0 { return Refused(NoPasskey); }
      answer := Store(SignIn(tenant, session), stored);
    }

    /** The write-back of an assertion, on its transaction with the session upgrade. */
    method LoginFinish(
      tenant: TenantID, user: UserID, session: SessionID, proved: Option<(CredID, string)>, deleted: bool, fate: Fate)
      returns (answer: Answer)
      modifies this`rows, this`ceremonies, this`used, this`fair
      ensures (View(), answer) == Apply(old(View()), ChallengeFinish(tenant, user, session, proved, deleted, fate))
    {
      var found := Consume(SignIn(tenant, session), deleted);
      if !found { return Refused(ChallengeExpired); }
      if proved.None? { return Refused(Rejected); }
      var before := rows;
      answer := Touch(CredKey(tenant, proved.value.0), user, proved.value.1, fate != WriteFailed);
      if answer != Done { return; }
      if fate == AuditFailed {
        rows := before;
        return Refused(StorageFailed);
      }
      return Verified;
    }

    method AccountRemove(tenant: TenantID, user: UserID, id: CredID, fate: Fate) returns (answer: Answer)
      modifies this`rows
      ensures (View(), answer) == Apply(old(View()), Remove(CredKey(tenant, id), user, fate))
    {
      var before := rows;
      answer := Delete(CredKey(tenant, id), user, fate != WriteFailed);
      if answer != Removed { return; }
      if fate == AuditFailed {
        rows := before;
        return Refused(AuditRefused);
      }
      return Removed;
    }
  }
}
