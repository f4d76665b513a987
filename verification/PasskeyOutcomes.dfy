/** What each passkey call must achieve: when a ceremony starts, when a device lands, and what
    each refusal means. */
module PasskeyOutcomes {
  import opened Basics
  import opened PasskeyModel
  import opened PasskeyTheorems

  /** What a person holds: the rows of the tenant that carry the person and no mark of a removal. */
  lemma HeldAreTheLiveRows(s: State, tenant: TenantID, user: UserID)
    ensures Held(s, tenant, user)
            == |set k | k in s.rows && k.tenant == tenant && s.rows[k].user == user && s.rows[k].deletedAt.None?|
  {
    assert LiveOf(s, tenant, user)
      == set k | k in s.rows && k.tenant == tenant && s.rows[k].user == user && s.rows[k].deletedAt.None?;
  }

  // ----- starting ----------------------------------------------------------

  /** A challenge of this holder is stored for five minutes from now, in place of any other. */
  predicate Challenged(s: State, t: State, holder: Holder) {
    t.ceremonies == s.ceremonies[holder := s.now + 300_000] && Open(t, holder)
  }

  /** A start in the portal stores a challenge if and only if the person holds fewer than ten
      devices, the start was allowed and the cache took it. */
  lemma PortalStartAchieves(s: State, tenant: TenantID, user: UserID, allowed: bool, stored: bool)
    ensures var (t, answer) := Apply(s, PortalStart(tenant, user, allowed, stored));
            && (answer == Started <==> allowed && stored && Held(s, tenant, user) < 10)
            && (answer == Refused(TooManyPasskeys) <==> allowed && Held(s, tenant, user) >= 10)
            && (answer == Started ==> Challenged(s, t, Person(tenant, user)))
            && (answer != Started ==> answer.Refused? && t == s)
            && t.rows == s.rows && t.now == s.now
  {
  }

  /** At sign-in an enrolment starts only for a person who holds no factor of either kind. */
  lemma EnrolStartAchieves(
    s: State, tenant: TenantID, user: UserID, session: SessionID, authenticator: bool, allowed: bool, stored: bool)
    ensures var (t, answer) := Apply(s, EnrolStart(tenant, user, session, authenticator, allowed, stored));
            && (answer == Refused(FactorAlreadyHeld) <==> authenticator || Held(s, tenant, user) > 0)
            && (answer == Started <==> allowed && stored && !authenticator && Held(s, tenant, user) == 0)
            && (answer == Started ==> Challenged(s, t, SignIn(tenant, session)))
            && (answer != Started ==> answer.Refused? && t == s)
            && t.rows == s.rows && t.now == s.now
  {
  }

  /** A challenge at sign-in starts only for a person who holds a device. */
  lemma ChallengeStartAchieves(
    s: State, tenant: TenantID, user: UserID, session: SessionID, allowed: bool, stored: bool)
    ensures var (t, answer) := Apply(s, ChallengeStart(tenant, user, session, allowed, stored));
            && (answer == Refused(NoPasskey) <==> allowed && Held(s, tenant, user) == 0)
            && (answer == Started <==> allowed && stored && Held(s, tenant, user) > 0)
            && (answer == Started ==> Challenged(s, t, SignIn(tenant, session)))
            && (answer != Started ==> answer.Refused? && t == s)
            && t.rows == s.rows && t.now == s.now
  {
  }

  // ----- registering -------------------------------------------------------

  /** Somebody's live row holds this device. */
  predicate Taken(s: State, key: CredKey) {
    key in s.rows && s.rows[key].deletedAt.None?
  }

  /** The device is live, the person's, and as the library made it, under a fresh birthday. */
  predicate IsRegistered(t: State, key: CredKey, user: UserID, made: Made, now: Instant) {
    && key in t.rows && t.rows[key].deletedAt.None? && t.rows[key].user == user
    && t.rows[key].record == made.record && t.rows[key].rpID == made.rpID && t.rows[key].name == made.name
    && t.rows[key].createdAt == now && t.rows[key].lastUsedAt.None?
  }

  /** Whether the challenge of this holder can be answered now. */
  predicate Answerable(s: State, holder: Holder) {
    holder in s.ceremonies && s.now < s.ceremonies[holder]
  }

  /** A whole registration lands if and only if its challenge is open, the answer was verified, no
      live row holds the device and the write committed. A device whose row was removed lands like
      a new one. What is refused leaves every row, and names its cause. */
  lemma RegistrationAchieves(
    s: State, holder: Holder, user: UserID, made: Option<Made>, deleted: bool, fate: Fate)
    ensures var (t, answer) := FinishStep(s, holder, user, made, deleted, fate);
            && (answer == Refused(ChallengeExpired) <==> !Answerable(s, holder))
            && (answer == Refused(Rejected) <==> Answerable(s, holder) && made.None?)
            && (answer == Refused(DuplicateDevice) <==>
                  Answerable(s, holder) && made.Some? && Taken(s, CredKey(holder.tenant, made.value.id)))
            && (answer == Registered <==>
                  && Answerable(s, holder) && made.Some? && !Taken(s, CredKey(holder.tenant, made.value.id))
                  && fate == Committed)
            && (answer == Registered ==>
                  var key := CredKey(holder.tenant, made.value.id);
                  && IsRegistered(t, key, user, made.value, s.now)
                  && (forall j :: j != key ==>
                        (j in t.rows <==> j in s.rows) && (j in s.rows ==> t.rows[j] == s.rows[j])))
            && (answer != Registered ==> answer.Refused? && t.rows == s.rows)
            && (Answerable(s, holder) && deleted ==> holder !in t.ceremonies)
  {
  }

  /** The portal's finish is that registration, for the person who holds the challenge. */
  lemma PortalFinishAchieves(s: State, tenant: TenantID, user: UserID, made: Made, deleted: bool)
    requires Answerable(s, Person(tenant, user)) && !Taken(s, CredKey(tenant, made.id))
    ensures var (t, answer) := Apply(s, PortalFinish(tenant, user, Some(made), deleted, Committed));
            answer == Registered && IsRegistered(t, CredKey(tenant, made.id), user, made, s.now)
  {
    RegistrationAchieves(s, Person(tenant, user), user, Some(made), deleted, Committed);
  }

  /** At sign-in it is that registration for a person who holds no factor, and refused for one who
      does before anything is read. */
  lemma EnrolFinishAchieves(
    s: State, tenant: TenantID, user: UserID, session: SessionID, authenticator: bool, made: Option<Made>,
    deleted: bool, fate: Fate)
    ensures var (t, answer) := Apply(s, EnrolFinish(tenant, user, session, authenticator, made, deleted, fate));
            && (answer == Refused(FactorAlreadyHeld) <==> authenticator || Held(s, tenant, user) > 0)
            && (answer == Refused(FactorAlreadyHeld) ==> t == s)
            && (answer == Registered <==>
                  && !authenticator && Held(s, tenant, user) == 0 && Answerable(s, SignIn(tenant, session))
                  && made.Some? && !Taken(s, CredKey(tenant, made.value.id)) && fate == Committed)
            && (answer == Registered ==> IsRegistered(t, CredKey(tenant, made.value.id), user, made.value, s.now))
  {
    RegistrationAchieves(s, SignIn(tenant, session), user, made, deleted, fate);
  }

  /** The first half of a registration, taken apart: it claims if and only if a whole one would
      reach its write, and plans to insert a new device and to take a removed one back. */
  lemma ClaimAchieves(s: State, holder: Holder, user: UserID, made: Option<Made>, deleted: bool)
    ensures var (t, answer) := ClaimStep(s, holder, user, made, deleted);
            && (answer == Claimed <==>
                  Answerable(s, holder) && made.Some? && !Taken(s, CredKey(holder.tenant, made.value.id)))
            && t.rows == s.rows && t.now == s.now
            && (answer == Claimed ==>
                  && s.nextReg in t.claimed && t.claimed[s.nextReg].holder == holder
                  && var reg, key := t.claimed[s.nextReg], CredKey(holder.tenant, made.value.id);
                     && reg.key == key && (reg.plan == Insert <==> key !in s.rows)
                     && (reg.plan == Revive <==> key in s.rows && s.rows[key].deletedAt.Some?)
                     && reg.row == Credential(user, made.value.rpID, made.value.record, made.value.name, s.now, None,
                          None))
  {
  }

  /** The second half lands if and only if the table is still as the plan found it, new or
      removed, and the write committed. */
  lemma WritingAchieves(s: State, id: RegID, fate: Fate)
    requires id in s.claimed
    ensures var reg := s.claimed[id];
            var (t, answer) := Apply(s, PasskeyModel.Writing(id, fate));
            && (answer == Registered <==>
                  && fate == Committed
                  && (if reg.plan == Insert then reg.key !in s.rows
                      else reg.key in s.rows && s.rows[reg.key].deletedAt.Some?))
            && t.rows == (if answer == Registered then s.rows[reg.key := reg.row] else s.rows)
            && id !in t.claimed
  {
  }

  /** A device that was removed can be registered again, by whoever holds it now. */
  lemma RemovedDeviceReturns(
    s: State, key: CredKey, owner: UserID, span: nat, user: UserID, made: Made, deleted: bool)
    requires key in s.rows && s.rows[key].deletedAt.None? && s.rows[key].user == owner && made.id == key.id
    requires Held(Step(s, Remove(key, owner, Committed)), key.tenant, user) < 10 && span < 300_000
    ensures var gone := Step(s, Remove(key, owner, Committed));
            var started := Step(gone, PortalStart(key.tenant, user, true, true));
            var later := Step(started, Tick(span));
            var (t, answer) := Apply(later, PortalFinish(key.tenant, user, Some(made), deleted, Committed));
            answer == Registered && IsRegistered(t, key, user, made, later.now)
  {
    RemovalAchieves(s, key, owner, Committed);
    var gone := Step(s, Remove(key, owner, Committed));
    PortalStartAchieves(gone, key.tenant, user, true, true);
    var later := Step(Step(gone, PortalStart(key.tenant, user, true, true)), Tick(span));
    hide Held, RemoveStep, StartStep, FinishStep;
    PortalFinishAchieves(later, key.tenant, user, made, deleted);
  }

  // ----- using, renaming, removing -----------------------------------------

  /** The person holds this device. */
  predicate Owned(s: State, key: CredKey, user: UserID) {
    key in s.rows && s.rows[key].deletedAt.None? && s.rows[key].user == user
  }

  /** A write that reaches one row of its owner, and moves nothing else. */
  predicate OnlyMoves(s: State, t: State, key: CredKey) {
    && t.rows.Keys == s.rows.Keys
    && forall j :: j in s.rows && j != key ==> t.rows[j] == s.rows[j]
  }

  /** An assertion signs in if and only if its challenge is open, it was verified, the device is
      the person's and live, and the write committed. The record it proved is stored with the
      moment, and the device stays whose it was. */
  lemma AssertionAchieves(
    s: State, tenant: TenantID, user: UserID, session: SessionID, proved: Option<(CredID, string)>, deleted: bool,
    fate: Fate)
    ensures var (t, answer) := Apply(s, ChallengeFinish(tenant, user, session, proved, deleted, fate));
            var holder := SignIn(tenant, session);
            && (answer == Refused(ChallengeExpired) <==> !Answerable(s, holder))
            && (answer == Refused(Rejected) <==> Answerable(s, holder) && proved.None?)
            && (answer == Verified <==>
                  && Answerable(s, holder) && proved.Some? && Owned(s, CredKey(tenant, proved.value.0), user)
                  && fate == Committed)
            && (answer == Verified ==>
                  var key := CredKey(tenant, proved.value.0);
                  && OnlyMoves(s, t, key)
                  && t.rows[key] == s.rows[key].(record := proved.value.1, lastUsedAt := Some(s.now)))
            && (answer != Verified ==> answer.Refused? && t.rows == s.rows)
            && (Answerable(s, holder) && deleted ==> holder !in t.ceremonies)
  {
  }

  /** A rename reaches a live device of the person and changes its name alone. */
  lemma RenameAchieves(s: State, key: CredKey, user: UserID, name: string, written: bool)
    ensures var (t, answer) := Apply(s, Rename(key, user, name, written));
            && (answer == Done <==> written && Owned(s, key, user))
            && (answer == Refused(NotFound) <==> written && !Owned(s, key, user))
            && (answer == Done ==> OnlyMoves(s, t, key) && t.rows[key] == s.rows[key].(name := name))
            && (answer != Done ==> t == s)
  {
  }

  /** A removal reaches a live device of the person, marks it at this moment, and leaves the
      person holding one less. */
  lemma RemovalAchieves(s: State, key: CredKey, user: UserID, fate: Fate)
    ensures var (t, answer) := Apply(s, Remove(key, user, fate));
            && (answer == Removed <==> Owned(s, key, user) && fate == Committed)
            && (answer == Refused(NotFound) <==> !Owned(s, key, user) && fate != WriteFailed)
            && (answer == Removed ==>
                  && OnlyMoves(s, t, key) && t.rows[key] == s.rows[key].(deletedAt := Some(s.now))
                  && !Taken(t, key) && Held(t, key.tenant, user) == Held(s, key.tenant, user) - 1)
            && (answer != Removed ==> answer.Refused? && t == s)
            && t.now == s.now
  {
    var t := Step(s, Remove(key, user, fate));
    if Owned(s, key, user) && fate == Committed {
      assert LiveOf(s, key.tenant, user) == LiveOf(t, key.tenant, user) + {key};
    }
  }
}
