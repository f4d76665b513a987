/** The code of the members service: the reads of the two rosters, the two guards, and the
    three writes. Each method is proved against OwnersModel. */
module OwnersService {
  import opened Basics
  import opened OwnersModel

  function Listed(owners: seq<UserID>): set<UserID> {
    set o | o in owners
  }

  /** Scans the owners in the order the read answered them. */
  method ScanLocalOwners(owners: seq<UserID>, taken: UserID) returns (last: bool)
    ensures last == LastLocalOwner(Listed(owners), taken)
  {
    if |owners| == 0 { return false; }
    ghost var all := Listed(owners);
    assert owners[0] in all;
    for i := 0 to |owners|
      invariant forall j :: 0 <= j < i ==> owners[j] == taken
    {
      if owners[i] != taken {
        assert owners[i] in all;
        return false;
      }
    }
    return true;
  }

  class Members {
    const world: World
    var tenant: map<UserID, Roles>
    var orgs: map<Seat, Roles>

    ghost function View(): State
      reads this
    {
      State(tenant, orgs)
    }

    constructor (world: World, tenant: map<UserID, Roles>, orgs: map<Seat, Roles>)
      ensures this.world == world && View() == State(tenant, orgs)
    {
      this.world, this.tenant, this.orgs := world, tenant, orgs;
    }

    // ----- the reads -------------------------------------------------------

    method CountOwners() returns (count: nat)
      ensures count == |Owners(world, View())|
    {
      var owners := set u | u in tenant && IAM_OWNER in tenant[u] && u in world.active;
      assert owners == Owners(world, View());
      return |owners|;
    }

    method ListLocalOwners() returns (owners: seq<UserID>)
      ensures Listed(owners) == LocalOwners(world, View())
    {
      var todo := set u | u in tenant && IAM_OWNER in tenant[u] && u in world.active && u in world.local;
      assert todo == LocalOwners(world, View());
      owners := [];
      while todo != {}
        invariant Listed(owners) + todo == LocalOwners(world, View())
        decreases todo
      {
        var u :| u in todo;
        todo := todo - {u};
        owners := owners + [u];
      }
    }

    // ----- the gates -------------------------------------------------------

    /** The role gate of every write, over what the caller holds. */
    method Admit(actor: UserID, org: Option<OrgID>, roles: Roles) returns (answer: Result<(), Failure>)
      ensures answer == Authorize(world, View(), actor, org, roles)
    {
      var held := if actor in tenant then tenant[actor] else [];
      var iamOwner := IAM_OWNER in held;
      var manager := iamOwner || IAM_ADMIN in held;
      assert manager == TenantManager(View(), actor) && iamOwner == IamOwner(View(), actor);
      if !manager && !exists seat ::
             seat in orgs && seat.user == actor && (ORG_OWNER in orgs[seat] || ORG_USER_MANAGER in orgs[seat])
      {
        assert forall seat :: seat in orgs && seat.user == actor ==> seat == Seat(seat.org, actor);
        return Err(NotAdmin);
      }
      assert forall seat :: seat in orgs && seat.user == actor ==> seat == Seat(seat.org, actor);
      assert Administers(View(), actor);
      if org.None? {
        if !iamOwner { return Err(Forbidden); }
        if exists role :: role in roles && role !in TENANT_ROLES { return Err(UnknownRole); }
        return Ok(());
      }
      var seat := Seat(org.value, actor);
      var orgHeld := if seat in orgs then orgs[seat] else [];
      if !manager && ORG_OWNER !in orgHeld && ORG_USER_MANAGER !in orgHeld { return Err(Forbidden); }
      if exists role :: role in roles && role !in ORG_ROLES { return Err(UnknownRole); }
      if ORG_OWNER in roles && !manager && ORG_OWNER !in orgHeld { return Err(OwnerGrant); }
      if org.value !in world.orgs { return Err(OrgNotFound); }
      return Ok(());
    }

    method GuardOwner(user: UserID, org: Option<OrgID>, wanted: Roles) returns (answer: Result<(), Failure>)
      ensures answer == KeepsAnOwner(world, View(), user, org, wanted)
    {
      if org.Some? || IAM_OWNER in wanted { return Ok(()); }
      if user !in tenant || IAM_OWNER !in tenant[user] { return Ok(()); }
      var owners := CountOwners();
      if owners <= 1 { return Err(LastOwner); }
      var local := ListLocalOwners();
      var last := ScanLocalOwners(local, user);
      assert last == LastLocalOwner(LocalOwners(world, View()), user);
      return if last then Err(LastLocal) else Ok(());
    }

    // ----- the writes ------------------------------------------------------

    method Save(user: UserID, org: Option<OrgID>, roles: Roles, fate: Fate) returns (answer: Result<(), Failure>)
      modifies this
      ensures (View(), answer) == SaveStep(old(View()), user, org, roles, fate)
    {
      if fate != Committed { return Err(StorageFailed); }
      if org.None? {
        tenant := tenant[user := roles];
      } else {
        orgs := orgs[Seat(org.value, user) := roles];
      }
      return Ok(());
    }

    method Add(
      actor: UserID, user: UserID, org: Option<OrgID>, roles: Roles, fate: Fate) returns (answer: Result<(), Failure>)
      modifies this
      ensures (View(), answer) == Apply(world, old(View()), Op.Add(actor, user, org, roles, fate))
    {
      answer := Admit(actor, org, roles);
      if answer.Err? { return; }
      answer := Save(user, org, roles, fate);
    }

    method UpdateRoles(
      actor: UserID, user: UserID, org: Option<OrgID>, roles: Roles, fate: Fate) returns (answer: Result<(), Failure>)
      modifies this
      ensures (View(), answer) == Apply(world, old(View()), Op.UpdateRoles(actor, user, org, roles, fate))
    {
      answer := Admit(actor, org, roles);
      if answer.Err? { return; }
      if org.None? {
        if user !in tenant || |tenant[user]| == 0 { return Err(MemberNotFound); }
      } else if Seat(org.value, user) !in orgs {
        return Err(MemberNotFound);
      }
      answer := GuardOwner(user, org, roles);
      if answer.Err? { return; }
      answer := Save(user, org, roles, fate);
    }

    method Remove(actor: UserID, user: UserID, org: Option<OrgID>, fate: Fate) returns (answer: Result<(), Failure>)
      modifies this
      ensures (View(), answer) == Apply(world, old(View()), Op.Remove(actor, user, org, fate))
    {
      answer := Admit(actor, org, []);
      if answer.Err? { return; }
      answer := GuardOwner(user, org, []);
      if answer.Err? { return; }
      if fate == WriteFailed { return Err(StorageFailed); }
      if org.None? {
        if user !in tenant { return Err(MemberNotFound); }
        if fate == Committed { tenant := tenant - {user}; }
      } else {
        if Seat(org.value, user) !in orgs { return Err(MemberNotFound); }
        if fate == Committed { orgs := orgs - {Seat(org.value, user)}; }
      }
      return if fate == Committed then Ok(()) else Err(StorageFailed);
    }
  }
}
