/** The two rosters of one tenant: who administers the tenant, and who administers each of
    its organizations. The guard keeps somebody in the owner's seat. */
module OwnersModel {
  import opened Basics

  type OrgID = nat
  type Roles = seq<string>

  const IAM_OWNER := "IAM_OWNER"
  const IAM_ADMIN := "IAM_ADMIN"
  const ORG_OWNER := "ORG_OWNER"
  const ORG_USER_MANAGER := "ORG_USER_MANAGER"

  const TENANT_ROLES: set<string> := {IAM_OWNER, IAM_ADMIN}
  const ORG_ROLES: set<string> := {ORG_OWNER, ORG_USER_MANAGER}

  /** What other domains decide: the live active accounts, the ones among them that the local
      password compare signs in, and the organizations of the tenant. */
  datatype World = World(active: set<UserID>, local: set<UserID>, orgs: set<OrgID>)

  datatype Seat = Seat(org: OrgID, user: UserID)

  /** The live memberships of the two rosters. */
  datatype State = State(tenant: map<UserID, Roles>, orgs: map<Seat, Roles>)

  datatype Failure =
    | NotAdmin | Forbidden | UnknownRole | OwnerGrant | OrgNotFound
    | MemberNotFound | LastOwner | LastLocal | StorageFailed

  // ----- who may do what ---------------------------------------------------

  function TenantRoles(s: State, user: UserID): Roles {
    if user in s.tenant then s.tenant[user] else []
  }

  function OrgRoles(s: State, org: OrgID, user: UserID): Roles {
    if Seat(org, user) in s.orgs then s.orgs[Seat(org, user)] else []
  }

  predicate IamOwner(s: State, user: UserID) {
    IAM_OWNER in TenantRoles(s, user)
  }

  predicate TenantManager(s: State, user: UserID) {
    IamOwner(s, user) || IAM_ADMIN in TenantRoles(s, user)
  }

  predicate ManagesOrg(s: State, org: OrgID, user: UserID) {
    TenantManager(s, user) || ORG_OWNER in OrgRoles(s, org, user) || ORG_USER_MANAGER in OrgRoles(s, org, user)
  }

  predicate Administers(s: State, user: UserID) {
    TenantManager(s, user) || exists seat :: seat in s.orgs && seat.user == user && ManagesOrg(s, seat.org, user)
  }

  predicate Conferrable(roles: Roles, allowed: set<string>) {
    forall role <- roles :: role in allowed
  }

  /** Only a tenant manager, or an owner of the same organization, confers ORG_OWNER. */
  predicate MayConfer(manager: bool, held: Roles, wanted: Roles) {
    ORG_OWNER in wanted ==> manager || ORG_OWNER in held
  }

  function Authorize(w: World, s: State, actor: UserID, org: Option<OrgID>, roles: Roles): Result<(), Failure> {
    if !Administers(s, actor) then Err(NotAdmin)
    else if org.None? then
      if !IamOwner(s, actor) then Err(Forbidden)
      else if !Conferrable(roles, TENANT_ROLES) then Err(UnknownRole)
      else Ok(())
    else if !ManagesOrg(s, org.value, actor) then Err(Forbidden)
    else if !Conferrable(roles, ORG_ROLES) then Err(UnknownRole)
    else if !MayConfer(TenantManager(s, actor), OrgRoles(s, org.value, actor), roles) then Err(OwnerGrant)
    else if org.value !in w.orgs then Err(OrgNotFound)
    else Ok(())
  }

  // ----- the guard ---------------------------------------------------------

  function Owners(w: World, s: State): set<UserID> {
    set u | u in s.tenant && IAM_OWNER in s.tenant[u] && u in w.active
  }

  function LocalOwners(w: World, s: State): set<UserID> {
    set u | u in Owners(w, s) && u in w.local
  }

  /** Every owner of the list is taken, and there is one to take. */
  predicate LastLocalOwner(owners: set<UserID>, taken: UserID) {
    owners != {} && forall owner <- owners :: owner == taken
  }

  function KeepsAnOwner(w: World, s: State, user: UserID, org: Option<OrgID>, wanted: Roles): Result<(), Failure> {
    if org.Some? || IAM_OWNER in wanted then Ok(())
    else if IAM_OWNER !in TenantRoles(s, user) then Ok(())
    else if |Owners(w, s)| <= 1 then Err(LastOwner)
    else if LastLocalOwner(LocalOwners(w, s), user) then Err(LastLocal)
    else Ok(())
  }

  // ----- the writes --------------------------------------------------------

  function Saved(s: State, user: UserID, org: Option<OrgID>, roles: Roles): State {
    match org
    case None => s.(tenant := s.tenant[user := roles])
    case Some(o) => s.(orgs := s.orgs[Seat(o, user) := roles])
  }

  function SaveStep(
    s: State, user: UserID, org: Option<OrgID>, roles: Roles, fate: Fate): (State, Result<(), Failure>) {
    if fate == Committed then (Saved(s, user, org, roles), Ok(())) else (s, Err(StorageFailed))
  }

  predicate Sitting(s: State, user: UserID, org: Option<OrgID>) {
    match org
    case None => TenantRoles(s, user) != []
    case Some(o) => Seat(o, user) in s.orgs
  }

  /** A grant replaces the roles of a sitting member, and asks the guard nothing. */
  function AddStep(
    w: World, s: State, actor: UserID, user: UserID, org: Option<OrgID>, roles: Roles, fate: Fate)
    : (State, Result<(), Failure>) {
    match Authorize(w, s, actor, org, roles)
    case Err(why) => (s, Err(why))
    case Ok(_) => SaveStep(s, user, org, roles, fate)
  }

  function UpdateStep(
    w: World, s: State, actor: UserID, user: UserID, org: Option<OrgID>, roles: Roles, fate: Fate)
    : (State, Result<(), Failure>) {
    match Authorize(w, s, actor, org, roles)
    case Err(why) => (s, Err(why))
    case Ok(_) =>
      if !Sitting(s, user, org) then (s, Err(MemberNotFound))
      else
        match KeepsAnOwner(w, s, user, org, roles)
        case Err(why) => (s, Err(why))
        case Ok(_) => SaveStep(s, user, org, roles, fate)
  }

  function Revoked(s: State, user: UserID, org: Option<OrgID>): State {
    match org
    case None => s.(tenant := s.tenant - {user})
    case Some(o) => s.(orgs := s.orgs - {Seat(o, user)})
  }

  predicate Seated(s: State, user: UserID, org: Option<OrgID>) {
    match org case None => user in s.tenant case Some(o) => Seat(o, user) in s.orgs
  }

  function RemoveStep(
    w: World, s: State, actor: UserID, user: UserID, org: Option<OrgID>, fate: Fate): (State, Result<(), Failure>) {
    match Authorize(w, s, actor, org, [])
    case Err(why) => (s, Err(why))
    case Ok(_) =>
      match KeepsAnOwner(w, s, user, org, [])
      case Err(why) => (s, Err(why))
      case Ok(_) =>
        if fate == WriteFailed then (s, Err(StorageFailed))
        else if !Seated(s, user, org) then (s, Err(MemberNotFound))
        else if fate == AuditFailed then (s, Err(StorageFailed))
        else (Revoked(s, user, org), Ok(()))
  }

  // ----- runs --------------------------------------------------------------

  datatype Op =
    | Add(actor: UserID, user: UserID, org: Option<OrgID>, roles: Roles, fate: Fate)
    | UpdateRoles(actor: UserID, user: UserID, org: Option<OrgID>, roles: Roles, fate: Fate)
    | Remove(actor: UserID, user: UserID, org: Option<OrgID>, fate: Fate)

  function Apply(w: World, s: State, op: Op): (State, Result<(), Failure>) {
    match op
    case Add(actor, user, org, roles, fate) => AddStep(w, s, actor, user, org, roles, fate)
    case UpdateRoles(actor, user, org, roles, fate) => UpdateStep(w, s, actor, user, org, roles, fate)
    case Remove(actor, user, org, fate) => RemoveStep(w, s, actor, user, org, fate)
  }

  function Step(w: World, s: State, op: Op): State {
    Apply(w, s, op).0
  }

  function Run(w: World, s: State, ops: seq<Op>): State {
    if ops == [] then s else Step(w, Run(w, s, ops[..|ops| - 1]), ops[|ops| - 1])
  }
}
