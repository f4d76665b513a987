/** What the owner guard keeps, exactly when it refuses, and who can never rise. */
module OwnersTheorems {
  import opened Basics
  import opened OwnersModel

  // ----- the guard, exactly ------------------------------------------------

  lemma OneLeft(owners: set<UserID>, user: UserID)
    ensures |owners| <= 1 && user in owners ==> owners == {user}
    ensures |owners| <= 1 && user !in owners ==> owners == {} || |owners| == 1
    ensures |owners| > 1 ==> owners - {user} != {}
  {
    if user in owners && |owners| <= 1 {
      assert |owners - {user}| == 0;
      assert owners - {user} == {};
    }
    if |owners| > 1 {
      assert |owners - {user}| >= |owners| - 1;
    }
  }

  /** The guard refuses a write that takes IAM_OWNER from a person exactly when nobody else
      sits as an active owner, or when the person is inactive and one active owner sits, or
      when the person is the only local owner. The second case would leave an owner: the count
      does not ask whether the person is in it. */
  lemma GuardIsExact(w: World, s: State, user: UserID, wanted: Roles)
    requires IAM_OWNER !in wanted && IAM_OWNER in TenantRoles(s, user)
    ensures KeepsAnOwner(w, s, user, None, wanted) == Err(LastOwner) <==>
              || Owners(w, s) - {user} == {}
              || (user !in w.active && |Owners(w, s)| == 1)
    ensures KeepsAnOwner(w, s, user, None, wanted) == Err(LastLocal) <==>
              |Owners(w, s)| > 1 && LocalOwners(w, s) == {user}
    ensures KeepsAnOwner(w, s, user, None, wanted).Ok? ==>
              Owners(w, s) - {user} != {} && (LocalOwners(w, s) != {} ==> LocalOwners(w, s) - {user} != {})
  {
    OneLeft(Owners(w, s), user);
    if user !in Owners(w, s) { assert Owners(w, s) - {user} == Owners(w, s); }
  }

  /** The owners one tenant write leaves. */
  lemma OwnersAfterSave(w: World, s: State, user: UserID, roles: Roles)
    ensures var t := Saved(s, user, None, roles);
            && Owners(w, t)
               == (if IAM_OWNER in roles && user in w.active then Owners(w, s) + {user} else Owners(w, s) - {user})
            && LocalOwners(w, t) == (if IAM_OWNER in roles && user in w.active && user in w.local
                                   then LocalOwners(w, s) + {user} else LocalOwners(w, s) - {user})
  {
  }

  lemma OwnersAfterRevoke(w: World, s: State, user: UserID)
    ensures var t := Revoked(s, user, None);
            Owners(w, t) == Owners(w, s) - {user} && LocalOwners(w, t) == LocalOwners(w, s) - {user}
  {
  }

  lemma OrgWritesElsewhere(w: World, s: State, t: State)
    requires t.tenant == s.tenant
    ensures Owners(w, t) == Owners(w, s) && LocalOwners(w, t) == LocalOwners(w, s)
  {
  }

  // ----- a tenant keeps its owners -----------------------------------------

  /** What the code does not check about a grant, and its caller can: the person is not
      seated, or the guard of a role change would let the grant through. */
  predicate SafeGrant(w: World, s: State, op: Op) {
    op.Add? && op.org.None? ==> op.user !in s.tenant || KeepsAnOwner(w, s, op.user, None, op.roles).Ok?
  }

  predicate SafeGrants(w: World, s: State, ops: seq<Op>) {
    ops == [] || (SafeGrants(w, s, ops[..|ops| - 1]) && SafeGrant(w, Run(w, s, ops[..|ops| - 1]), ops[|ops| - 1]))
  }

  /** A write that the guard lets through, or that is about nobody seated. */
  lemma GuardedSaveKeeps(w: World, s: State, user: UserID, roles: Roles)
    requires user !in s.tenant || KeepsAnOwner(w, s, user, None, roles).Ok?
    ensures var t := Saved(s, user, None, roles);
            (Owners(w, s) != {} ==> Owners(w, t) != {}) && (LocalOwners(w, s) != {} ==> LocalOwners(w, t) != {})
  {
    OwnersAfterSave(w, s, user, roles);
    if IAM_OWNER !in roles && IAM_OWNER in TenantRoles(s, user) { GuardIsExact(w, s, user, roles); }
  }

  lemma GuardedRevokeKeeps(w: World, s: State, user: UserID)
    requires KeepsAnOwner(w, s, user, None, []).Ok?
    ensures var t := Revoked(s, user, None);
            (Owners(w, s) != {} ==> Owners(w, t) != {}) && (LocalOwners(w, s) != {} ==> LocalOwners(w, t) != {})
  {
    OwnersAfterRevoke(w, s, user);
    if IAM_OWNER in TenantRoles(s, user) { GuardIsExact(w, s, user, []); }
  }

  lemma StepKeepsOwners(w: World, s: State, op: Op)
    requires SafeGrant(w, s, op)
    ensures Owners(w, s) != {} ==> Owners(w, Step(w, s, op)) != {}
    ensures LocalOwners(w, s) != {} ==> LocalOwners(w, Step(w, s, op)) != {}
  {
    hide Authorize, Owners, LocalOwners, KeepsAnOwner;
    var t := Step(w, s, op);
    if op.org.Some? {
      OrgWritesElsewhere(w, s, t);
    } else if t != s {
      if op.Remove? { GuardedRevokeKeeps(w, s, op.user); } else { GuardedSaveKeeps(w, s, op.user, op.roles); }
    }
  }

  /** Over any run of sequential grants, role changes and revokes, a tenant with an active
      owner keeps one, and a tenant with a local owner keeps one, as long as no grant is made
      to a sitting member against the guard. */
  lemma {:induction false} OwnersAreKept(w: World, s: State, ops: seq<Op>)
    requires SafeGrants(w, s, ops)
    ensures Owners(w, s) != {} ==> Owners(w, Run(w, s, ops)) != {}
    ensures LocalOwners(w, s) != {} ==> LocalOwners(w, Run(w, s, ops)) != {}
  {
    if ops != [] {
      OwnersAreKept(w, s, ops[..|ops| - 1]);
      StepKeepsOwners(w, Run(w, s, ops[..|ops| - 1]), ops[|ops| - 1]);
    }
  }

  /** A committed grant empties the owners of a tenant exactly when it takes the role from the
      only active owner, and the local owners exactly when it takes it from the only local one.
      Nothing in the call refuses either. */
  lemma GrantEmptiesTheOwners(w: World, s: State, actor: UserID, user: UserID, roles: Roles)
    requires Authorize(w, s, actor, None, roles).Ok?
    ensures var (t, answer) := Apply(w, s, Add(actor, user, None, roles, Committed));
            && answer == Ok(())
            && (Owners(w, s) != {} ==> (Owners(w, t) == {} <==> Owners(w, s) == {user} && IAM_OWNER !in roles))
            && (LocalOwners(w, s) != {} ==>
                  (LocalOwners(w, t) == {} <==> LocalOwners(w, s) == {user} && IAM_OWNER !in roles))
  {
    OwnersAfterSave(w, s, user, roles);
  }

  lemma RolesDiffer()
    ensures IAM_OWNER != IAM_ADMIN
  {
    assert IAM_OWNER[4] == 'O' && IAM_ADMIN[4] == 'A';
  }

  /** The last owner grants themselves IAM_ADMIN. The same write as a role change is refused. */
  lemma OwnerLocksThemselvesOut()
    ensures var w, s := World({7}, {7}, {}), State(map[7 := [IAM_OWNER]], map[]);
            && Owners(w, s) == {7}
            && Owners(w, Step(w, s, Add(7, 7, None, [IAM_ADMIN], Committed))) == {}
            && Apply(w, s, UpdateRoles(7, 7, None, [IAM_ADMIN], Committed)).1 == Err(LastOwner)
  {
    RolesDiffer();
  }

  const DIRECTORY_AND_LOCAL := World({7, 8}, {7}, {})
  const TWO_OWNERS := State(map[7 := [IAM_OWNER], 8 := [IAM_OWNER]], map[])

  /** An owner a directory proves grants IAM_ADMIN to the only owner the local compare signs
      in: an owner is left, and no local one. The same write as a role change is refused. */
  lemma LocalOwnerGrantedAway()
    ensures var w, s := DIRECTORY_AND_LOCAL, TWO_OWNERS;
            var t := Step(w, s, Add(8, 7, None, [IAM_ADMIN], Committed));
            && LocalOwners(w, s) == {7} && LocalOwners(w, t) == {} && Owners(w, t) == {8}
            && Apply(w, s, UpdateRoles(8, 7, None, [IAM_ADMIN], Committed)).1 == Err(LastLocal)
  {
    RolesDiffer();
    var w, s := DIRECTORY_AND_LOCAL, TWO_OWNERS;
    assert Owners(w, s) == {7, 8} && LocalOwners(w, s) == {7};
    OwnersAfterSave(w, s, 7, [IAM_ADMIN]);
  }

  /** An inactive owner beside one active owner cannot be removed, although the active one
      would be left. */
  lemma InactiveOwnerStays()
    ensures var w, s := World({8}, {8}, {}), TWO_OWNERS;
            && Apply(w, s, Remove(8, 7, None, Committed)).1 == Err(LastOwner)
            && Owners(w, s) == {8} == Owners(w, Revoked(s, 7, None))
  {
    var w, s := World({8}, {8}, {}), TWO_OWNERS;
    assert Owners(w, s) == {8};
    OwnersAfterRevoke(w, s, 7);
  }

  // ----- nobody rises ------------------------------------------------------

  function OrgOwners(s: State, org: OrgID): set<UserID> {
    set seat | seat in s.orgs && seat.org == org && ORG_OWNER in s.orgs[seat] :: seat.user
  }

  /** Someone who neither manages the tenant nor owns the organization. */
  predicate Outside(s: State, org: OrgID, user: UserID) {
    !TenantManager(s, user) && user !in OrgOwners(s, org)
  }

  /** One write of an outsider: the tenant roster stands, and the organization gains no owner. */
  lemma OutsiderStep(w: World, s: State, op: Op, org: OrgID)
    requires Outside(s, org, op.actor)
    ensures var t := Step(w, s, op); t.tenant == s.tenant && OrgOwners(t, org) <= OrgOwners(s, org)
  {
  }

  predicate ActedBy(ops: seq<Op>, people: set<UserID>) {
    forall op <- ops :: op.actor in people
  }

  /** No group of people who neither manage the tenant nor own the organization ever makes an
      owner of it, or a manager of the tenant, by any run of membership writes of their own:
      the managers of its people included. */
  lemma {:induction false} NobodyRises(w: World, s: State, ops: seq<Op>, org: OrgID, people: set<UserID>)
    requires forall user <- people :: Outside(s, org, user)
    requires ActedBy(ops, people)
    ensures var t := Run(w, s, ops);
            && t.tenant == s.tenant && OrgOwners(t, org) <= OrgOwners(s, org)
            && forall user <- people :: Outside(t, org, user)
  {
    if ops != [] {
      var init, last := ops[..|ops| - 1], ops[|ops| - 1];
      assert last in ops && forall op <- init :: op in ops;
      NobodyRises(w, s, init, org, people);
      OutsiderStep(w, Run(w, s, init), last, org);
    }
  }
}
