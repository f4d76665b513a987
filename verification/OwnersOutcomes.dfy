/** What each membership write must achieve: who is admitted, what a write leaves, and which
    refusal each cause becomes. */
module OwnersOutcomes {
  import opened Basics
  import opened OwnersModel
  import opened OwnersTheorems

  // ----- who is admitted ---------------------------------------------------

  /** The person sits on the tenant roster under this role. */
  predicate HoldsInTenant(s: State, user: UserID, role: string) {
    user in s.tenant && role in s.tenant[user]
  }

  predicate HoldsInOrg(s: State, org: OrgID, user: UserID, role: string) {
    Seat(org, user) in s.orgs && role in s.orgs[Seat(org, user)]
  }

  /** The person manages the tenant, or this organization. */
  predicate Manages(s: State, org: OrgID, user: UserID) {
    || HoldsInTenant(s, user, "IAM_OWNER") || HoldsInTenant(s, user, "IAM_ADMIN")
    || HoldsInOrg(s, org, user, "ORG_OWNER") || HoldsInOrg(s, org, user, "ORG_USER_MANAGER")
  }

  /** The person may open the console at all: a manager of the tenant, or of some organization. */
  ghost predicate OpensConsole(s: State, user: UserID) {
    || HoldsInTenant(s, user, "IAM_OWNER") || HoldsInTenant(s, user, "IAM_ADMIN")
    || exists org :: HoldsInOrg(s, org, user, "ORG_OWNER") || HoldsInOrg(s, org, user, "ORG_USER_MANAGER")
  }

  lemma ConsoleIsAdministration(s: State, user: UserID)
    ensures Administers(s, user) <==> OpensConsole(s, user)
  {
    if OpensConsole(s, user) && !TenantManager(s, user) {
      var org :| HoldsInOrg(s, org, user, "ORG_OWNER") || HoldsInOrg(s, org, user, "ORG_USER_MANAGER");
      assert Seat(org, user) in s.orgs && Seat(org, user).user == user && ManagesOrg(s, Seat(org, user).org, user);
    }
    if Administers(s, user) && !TenantManager(s, user) {
      var seat :| seat in s.orgs && seat.user == user && ManagesOrg(s, seat.org, user);
      assert seat == Seat(seat.org, user);
      assert HoldsInOrg(s, seat.org, user, "ORG_OWNER") || HoldsInOrg(s, seat.org, user, "ORG_USER_MANAGER");
    }
  }

  /** A write to the tenant roster is admitted if and only if its actor sits there as IAM_OWNER
      and it confers tenant roles alone. An administrator of the tenant is forbidden, and so is
      anybody else the console opens for. */
  lemma TenantAdmissionIsExact(w: World, s: State, actor: UserID, roles: Roles)
    ensures var answer := Authorize(w, s, actor, None, roles);
            && (answer == Ok(()) <==>
                  HoldsInTenant(s, actor, "IAM_OWNER") && forall role <- roles :: role in {"IAM_OWNER", "IAM_ADMIN"})
            && (answer == Err(NotAdmin) <==> !OpensConsole(s, actor))
            && (answer == Err(Forbidden) <==> OpensConsole(s, actor) && !HoldsInTenant(s, actor, "IAM_OWNER"))
            && (answer == Err(UnknownRole) <==>
                  HoldsInTenant(s, actor, "IAM_OWNER") && exists role <- roles :: role !in {"IAM_OWNER", "IAM_ADMIN"})
  {
    ConsoleIsAdministration(s, actor);
    hide Administers;
  }

  /** A write to the roster of an organization is admitted if and only if its actor manages it or
      the tenant, it confers organization roles alone, only a manager of the tenant or an owner of
      that organization confers ORG_OWNER, and the organization is there. */
  lemma OrgAdmissionIsExact(w: World, s: State, actor: UserID, org: OrgID, roles: Roles)
    ensures var answer := Authorize(w, s, actor, Some(org), roles);
            var known := forall role <- roles :: role in {"ORG_OWNER", "ORG_USER_MANAGER"};
            var confers := "ORG_OWNER" in roles ==>
                             || HoldsInTenant(s, actor, "IAM_OWNER") || HoldsInTenant(s, actor, "IAM_ADMIN")
                             || HoldsInOrg(s, org, actor, "ORG_OWNER");
            && (answer == Ok(()) <==> Manages(s, org, actor) && known && confers && org in w.orgs)
            && (answer == Err(NotAdmin) <==> !OpensConsole(s, actor))
            && (answer == Err(Forbidden) <==> OpensConsole(s, actor) && !Manages(s, org, actor))
            && (answer == Err(UnknownRole) <==> Manages(s, org, actor) && !known)
            && (answer == Err(OwnerGrant) <==> Manages(s, org, actor) && known && !confers)
            && (answer == Err(OrgNotFound) <==> Manages(s, org, actor) && known && confers && org !in w.orgs)
  {
    ConsoleIsAdministration(s, actor);
    if Manages(s, org, actor) {
      assert HoldsInOrg(s, org, actor, "ORG_OWNER") || HoldsInOrg(s, org, actor, "ORG_USER_MANAGER")
        || HoldsInTenant(s, actor, "IAM_OWNER") || HoldsInTenant(s, actor, "IAM_ADMIN");
    }
    hide Administers;
  }

  // ----- what a write leaves -----------------------------------------------

  /** The roles of one seat are these now, and no other seat of either roster moved. */
  predicate SeatBecomes(s: State, t: State, user: UserID, org: Option<OrgID>, roles: Roles) {
    && (org.None? ==>
          && t.orgs == s.orgs && t.tenant.Keys == s.tenant.Keys + {user} && t.tenant[user] == roles
          && forall other :: other in s.tenant && other != user ==> t.tenant[other] == s.tenant[other])
    && (org.Some? ==>
          var seat := Seat(org.value, user);
          && t.tenant == s.tenant && t.orgs.Keys == s.orgs.Keys + {seat} && t.orgs[seat] == roles
          && forall other :: other in s.orgs && other != seat ==> t.orgs[other] == s.orgs[other])
  }

  /** The seat is empty now, and no other seat of either roster moved. */
  predicate SeatEmpties(s: State, t: State, user: UserID, org: Option<OrgID>) {
    && (org.None? ==>
          && t.orgs == s.orgs && t.tenant.Keys == s.tenant.Keys - {user}
          && forall other :: other in t.tenant ==> t.tenant[other] == s.tenant[other])
    && (org.Some? ==>
          && t.tenant == s.tenant && t.orgs.Keys == s.orgs.Keys - {Seat(org.value, user)}
          && forall other :: other in t.orgs ==> t.orgs[other] == s.orgs[other])
  }

  /** A write takes IAM_OWNER from somebody who sits as owner of the tenant. */
  predicate Demotes(s: State, user: UserID, org: Option<OrgID>, roles: Roles) {
    org.None? && HoldsInTenant(s, user, "IAM_OWNER") && "IAM_OWNER" !in roles
  }

  /** What the guard asks of such a write: a second active owner, and another local owner where
      there is one at all. */
  predicate GuardPasses(w: World, s: State, user: UserID, org: Option<OrgID>, roles: Roles) {
    Demotes(s, user, org, roles) ==> |Owners(w, s)| >= 2 && LocalOwners(w, s) != {user}
  }

  /** Who counts as an owner, and who of them the local compare signs in. */
  lemma OwnersAreTheActiveSeats(w: World, s: State, user: UserID)
    ensures user in Owners(w, s) <==> HoldsInTenant(s, user, "IAM_OWNER") && user in w.active
    ensures user in LocalOwners(w, s) <==> HoldsInTenant(s, user, "IAM_OWNER") && user in w.active && user in w.local
  {
  }

  /** A grant is made if and only if it is admitted and commits, whoever sits there already. */
  lemma AddAchieves(w: World, s: State, actor: UserID, user: UserID, org: Option<OrgID>, roles: Roles, fate: Fate)
    ensures var (t, answer) := Apply(w, s, Add(actor, user, org, roles, fate));
            && (answer == Ok(()) <==> Authorize(w, s, actor, org, roles).Ok? && fate == Committed)
            && (answer == Ok(()) ==> SeatBecomes(s, t, user, org, roles))
            && (answer.Err? ==> t == s)
            && (Authorize(w, s, actor, org, roles).Err? ==> answer == Authorize(w, s, actor, org, roles))
  {
    hide Authorize;
  }

  /** A role change is made if and only if it is admitted, the person sits there, the guard passes
      and it commits. A seat of the tenant that holds no role reads as empty. */
  lemma UpdateAchieves(w: World, s: State, actor: UserID, user: UserID, org: Option<OrgID>, roles: Roles, fate: Fate)
    ensures var (t, answer) := Apply(w, s, UpdateRoles(actor, user, org, roles, fate));
            var admitted := Authorize(w, s, actor, org, roles).Ok?;
            var sits := if org.None? then user in s.tenant && s.tenant[user] != [] else Seat(org.value, user) in s.orgs;
            && (answer == Ok(()) <==> admitted && sits && GuardPasses(w, s, user, org, roles) && fate == Committed)
            && (answer == Err(MemberNotFound) <==> admitted && !sits)
            && (answer == Err(LastOwner) <==> admitted && sits && Demotes(s, user, org, roles) && |Owners(w, s)| < 2)
            && (answer == Err(LastLocal) <==>
                  && admitted && sits && Demotes(s, user, org, roles) && |Owners(w, s)| >= 2
                  && LocalOwners(w, s) == {user})
            && (answer == Ok(()) ==> SeatBecomes(s, t, user, org, roles))
            && (answer.Err? ==> t == s)
  {
    AdmissionRefusals(w, s, actor, org, roles);
    hide Authorize, Owners, LocalOwners;
  }

  /** The admission never answers for the guard or for the roster. */
  lemma AdmissionRefusals(w: World, s: State, actor: UserID, org: Option<OrgID>, roles: Roles)
    ensures var answer := Authorize(w, s, actor, org, roles);
            answer.Err? ==> answer.error !in {MemberNotFound, LastOwner, LastLocal, StorageFailed}
  {
    hide Administers, ManagesOrg, Conferrable, MayConfer;
  }

  /** A revoke is made if and only if it is admitted, the guard passes, the person is seated and
      it commits. */
  lemma RemoveAchieves(w: World, s: State, actor: UserID, user: UserID, org: Option<OrgID>, fate: Fate)
    ensures var (t, answer) := Apply(w, s, Remove(actor, user, org, fate));
            var admitted := Authorize(w, s, actor, org, []).Ok?;
            var seated := if org.None? then user in s.tenant else Seat(org.value, user) in s.orgs;
            && (answer == Ok(()) <==> admitted && GuardPasses(w, s, user, org, []) && seated && fate == Committed)
            && (answer == Err(LastOwner) <==> admitted && Demotes(s, user, org, []) && |Owners(w, s)| < 2)
            && (answer == Err(LastLocal) <==>
                  admitted && Demotes(s, user, org, []) && |Owners(w, s)| >= 2 && LocalOwners(w, s) == {user})
            && (answer == Err(MemberNotFound) <==>
                  admitted && GuardPasses(w, s, user, org, []) && !seated && fate != WriteFailed)
            && (answer == Ok(()) ==> SeatEmpties(s, t, user, org))
            && (answer.Err? ==> t == s)
  {
    AdmissionRefusals(w, s, actor, org, []);
    hide Authorize, Owners, LocalOwners;
  }

  // ----- who moves which roster --------------------------------------------

  /** Nobody but an IAM_OWNER moves the tenant roster, and no write to an organization does. */
  lemma OnlyOwnersMoveTheTenant(w: World, s: State, op: Op)
    requires Step(w, s, op).tenant != s.tenant
    ensures HoldsInTenant(s, op.actor, "IAM_OWNER") && op.org.None? && Step(w, s, op).orgs == s.orgs
  {
    TenantAdmissionIsExact(w, s, op.actor, if op.Remove? then [] else op.roles);
    hide Authorize, KeepsAnOwner;
  }

  /** A seat of an organization moves only by a write to that organization, of somebody who
      manages it or the tenant. */
  lemma OnlyManagersMoveAnOrg(w: World, s: State, op: Op, seat: Seat)
    requires var t := Step(w, s, op);
             (seat in t.orgs) != (seat in s.orgs) || (seat in s.orgs && t.orgs[seat] != s.orgs[seat])
    ensures op.org == Some(seat.org) && op.user == seat.user && Manages(s, seat.org, op.actor)
    ensures Step(w, s, op).tenant == s.tenant
  {
    if op.org.Some? { OrgAdmissionIsExact(w, s, op.actor, op.org.value, if op.Remove? then [] else op.roles); }
    hide Authorize, KeepsAnOwner;
  }

  /** No group of people without an IAM_OWNER among them, administrators of the tenant and owners
      of organizations included, ever moves the tenant roster by any run of writes of their own. */
  lemma {:induction false} TenantStandsWithoutOwner(w: World, s: State, ops: seq<Op>, people: set<UserID>)
    requires forall user <- people :: !HoldsInTenant(s, user, "IAM_OWNER")
    requires ActedBy(ops, people)
    ensures Run(w, s, ops).tenant == s.tenant
  {
    if ops != [] {
      var init, last := ops[..|ops| - 1], ops[|ops| - 1];
      assert last in ops && forall op <- init :: op in ops;
      TenantStandsWithoutOwner(w, s, init, people);
      hide Step;
      if Step(w, Run(w, s, init), last).tenant != s.tenant { OnlyOwnersMoveTheTenant(w, Run(w, s, init), last); }
    }
  }
}
