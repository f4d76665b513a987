/** The scope registry of a tenant and the claim mappers on it, as an owner writes them from
    the console, starting from what the bootstrap seeds. */
module RegistryModel {
  import opened Basics

  type ScopeID = nat
  type MapperID = nat

  const MAX_MAPPERS_PER_SCOPE: nat := 50
  const MAX_SOURCE_VALUE_BYTES: nat := 4096

  const SOURCE_STANDARD: nat := 1
  const SOURCE_BAG: nat := 2
  const SOURCE_STATIC: nat := 4

  const TRUST_EMAIL := "email_verified"

  /** The names a write from the console never carries. */
  const PROTECTED_CLAIMS: set<string> := {
    "iss", "sub", "aud", "exp", "nbf", "iat", "jti", "azp", "nonce", "auth_time",
    "at_hash", "c_hash", "s_hash", "acr", "amr", "sid", "scope", "client_id", "typ",
    TRUST_EMAIL, "phone_number_verified"
  }

  datatype Scope = Scope(name: string, words: string, enabled: bool, default: bool, builtin: bool)

  datatype Mapper = Mapper(
    scope: ScopeID,
    claim: string,
    sourceType: nat,
    sourceKey: string,
    sourceValue: string,
    inIDToken: bool,
    inUserInfo: bool,
    inAccessToken: bool)

  datatype ScopeKey = ScopeKey(tenant: TenantID, id: ScopeID)
  datatype MapperKey = MapperKey(tenant: TenantID, id: MapperID)

  /** The live rows of the two tables. A deleted row is read by nothing. */
  datatype State = State(scopes: map<ScopeKey, Scope>, mappers: map<MapperKey, Mapper>, nextScope: ScopeID,
    nextMapper: MapperID)

  datatype ScopeBody = ScopeBody(name: string, words: string, enabled: bool, default: bool)

  /** `value` is the encoded JSON of a static mapper. */
  datatype MapperBody = MapperBody(
    claim: string, sourceType: nat, sourceKey: string, value: Option<string>,
    inIDToken: bool, inUserInfo: bool, inAccessToken: bool)

  datatype Failure =
    | Forbidden | ScopeNotFound | ScopeNameTaken | BuiltinScope | ScopeInUse
    | MapperNotFound | ClaimTaken | ProtectedClaim | LimitExceeded | StorageFailed

  // ----- reads -------------------------------------------------------------

  predicate NameIsFree(s: State, tenant: TenantID, name: string, keep: Option<ScopeID>) {
    forall k :: k in s.scopes && k.tenant == tenant && s.scopes[k].name == name ==> Some(k.id) == keep
  }

  function MappersOf(s: State, tenant: TenantID, scope: ScopeID): set<MapperKey> {
    set k | k in s.mappers && k.tenant == tenant && s.mappers[k].scope == scope
  }

  predicate ClaimIsFree(s: State, tenant: TenantID, scope: ScopeID, claim: string, keep: Option<MapperID>) {
    forall k :: k in MappersOf(s, tenant, scope) && s.mappers[k].claim == claim ==> Some(k.id) == keep
  }

  /** Only a static mapper carries a value, and a large one is refused. */
  function StaticValue(body: MapperBody): Result<string, Failure> {
    if body.sourceType != SOURCE_STATIC || body.value.None? then Ok("")
    else if |body.value.value| > MAX_SOURCE_VALUE_BYTES then Err(LimitExceeded)
    else Ok(body.value.value)
  }

  // ----- writes ------------------------------------------------------------

  /** A write on its transaction with the audit row. */
  function Written(s: State, t: State, fate: Fate): (State, Result<(), Failure>) {
    if fate == Committed then (t, Ok(())) else (s, Err(StorageFailed))
  }

  function CreateScopeStep(s: State, tenant: TenantID, body: ScopeBody, fate: Fate): (State, Result<(), Failure>) {
    if !NameIsFree(s, tenant, body.name, None) then (s, Err(ScopeNameTaken))
    else
      Written(s, s.(scopes := s.scopes[ScopeKey(tenant, s.nextScope) := Scope(body.name, body.words, body.enabled,
        body.default, false)],
                    nextScope := s.nextScope + 1), fate)
  }

  /** The name of a builtin scope is left alone. */
  function Rewritten(row: Scope, body: ScopeBody): Scope {
    row.(name := if row.builtin then row.name else body.name,
         words := body.words, enabled := body.enabled, default := body.default)
  }

  function UpdateScopeStep(s: State, k: ScopeKey, body: ScopeBody, fate: Fate): (State, Result<(), Failure>) {
    if k !in s.scopes then (s, Err(ScopeNotFound))
    else
      var row := s.scopes[k];
      if !row.builtin && body.name != row.name
        && !NameIsFree(s, k.tenant, body.name, Some(k.id)) then (s, Err(ScopeNameTaken))
      else Written(s, s.(scopes := s.scopes[k := Rewritten(row, body)]), fate)
  }

  /** `clients` counts the live clients that still name the scope. */
  function DeleteScopeStep(s: State, k: ScopeKey, clients: nat, fate: Fate): (State, Result<(), Failure>) {
    if k !in s.scopes then (s, Err(ScopeNotFound))
    else if s.scopes[k].builtin then (s, Err(BuiltinScope))
    else if clients > 0 then (s, Err(ScopeInUse))
    else Written(s, s.(scopes := s.scopes - {k}, mappers := s.mappers - MappersOf(s, k.tenant, k.id)), fate)
  }

  function Row(scope: ScopeID, body: MapperBody, value: string): Mapper {
    Mapper(scope, body.claim, body.sourceType, body.sourceKey, value, body.inIDToken, body.inUserInfo,
      body.inAccessToken)
  }

  function CreateMapperStep(
    s: State, tenant: TenantID, scope: ScopeID, body: MapperBody, fate: Fate): (State, Result<(), Failure>) {
    if body.claim in PROTECTED_CLAIMS then (s, Err(ProtectedClaim))
    else if StaticValue(body).Err? then (s, Err(StaticValue(body).error))
    else if ScopeKey(tenant, scope) !in s.scopes then (s, Err(ScopeNotFound))
    else if |MappersOf(s, tenant, scope)| >= MAX_MAPPERS_PER_SCOPE then (s, Err(LimitExceeded))
    else if !ClaimIsFree(s, tenant, scope, body.claim, None) then (s, Err(ClaimTaken))
    else
      Written(s, s.(mappers := s.mappers[MapperKey(tenant, s.nextMapper) := Row(scope, body, StaticValue(body).value)],
                    nextMapper := s.nextMapper + 1), fate)
  }

  /** The stored name is checked as well as the new one. */
  function UpdateMapperStep(s: State, k: MapperKey, body: MapperBody, fate: Fate): (State, Result<(), Failure>) {
    if body.claim in PROTECTED_CLAIMS then (s, Err(ProtectedClaim))
    else if StaticValue(body).Err? then (s, Err(StaticValue(body).error))
    else if k !in s.mappers then (s, Err(MapperNotFound))
    else
      var row := s.mappers[k];
      if row.claim in PROTECTED_CLAIMS then (s, Err(ProtectedClaim))
      else if body.claim != row.claim
        && !ClaimIsFree(s, k.tenant, row.scope, body.claim, Some(k.id)) then (s, Err(ClaimTaken))
      else Written(s, s.(mappers := s.mappers[k := Row(row.scope, body, StaticValue(body).value)]), fate)
  }

  function DeleteMapperStep(s: State, k: MapperKey, fate: Fate): (State, Result<(), Failure>) {
    if k !in s.mappers then (s, Err(MapperNotFound))
    else if s.mappers[k].claim in PROTECTED_CLAIMS then (s, Err(ProtectedClaim))
    else Written(s, s.(mappers := s.mappers - {k}), fate)
  }

  // ----- the seed ----------------------------------------------------------

  const SEED_SCOPES: seq<Scope> := [
    Scope("openid", "OpenID", true, true, true),
    Scope("profile", "Profile", true, true, true),
    Scope("email", "Email", true, true, true),
    Scope("offline_access", "Offline access", true, false, true)]

  function SeedMapper(scope: ScopeID, claim: string): Mapper {
    Mapper(scope, claim, SOURCE_STANDARD, claim, "", false, true, false)
  }

  const PROFILE: ScopeID := 1
  const EMAIL: ScopeID := 2
  const TRUST_MAPPER: MapperID := 7

  const SEED_MAPPERS: seq<Mapper> := [
    SeedMapper(PROFILE, "name"), SeedMapper(PROFILE, "given_name"), SeedMapper(PROFILE, "family_name"),
    SeedMapper(PROFILE, "preferred_username"), SeedMapper(PROFILE, "locale"), SeedMapper(PROFILE, "updated_at"),
    SeedMapper(EMAIL, "email"), SeedMapper(EMAIL, TRUST_EMAIL)]

  /** The four builtin scopes and the eight mappers of every tenant. */
  function Seeded(tenants: set<TenantID>): State {
    State(
      map k: ScopeKey | k in (set t, i | t in tenants && 0 <= i < |SEED_SCOPES| :: ScopeKey(t, i))
        && k.id < |SEED_SCOPES| :: SEED_SCOPES[k.id],
      map k: MapperKey | k in (set t, i | t in tenants && 0 <= i < |SEED_MAPPERS| :: MapperKey(t, i))
        && k.id < |SEED_MAPPERS| :: SEED_MAPPERS[k.id],
      |SEED_SCOPES|, |SEED_MAPPERS|)
  }

  // ----- runs --------------------------------------------------------------

  datatype Op =
    | CreateScope(tenant: TenantID, form: ScopeBody, fate: Fate)
    | UpdateScope(scope: ScopeKey, form: ScopeBody, fate: Fate)
    | DeleteScope(scope: ScopeKey, clients: nat, fate: Fate)
    | CreateMapper(tenant: TenantID, parent: ScopeID, body: MapperBody, fate: Fate)
    | UpdateMapper(mapper: MapperKey, body: MapperBody, fate: Fate)
    | DeleteMapper(mapper: MapperKey, fate: Fate)

  /** A call of somebody who does not own the tenant changes nothing. */
  function Apply(s: State, owner: bool, op: Op): (State, Result<(), Failure>) {
    if !owner then (s, Err(Forbidden))
    else
      match op
      case CreateScope(tenant, form, fate) => CreateScopeStep(s, tenant, form, fate)
      case UpdateScope(k, form, fate) => UpdateScopeStep(s, k, form, fate)
      case DeleteScope(k, clients, fate) => DeleteScopeStep(s, k, clients, fate)
      case CreateMapper(tenant, scope, body, fate) => CreateMapperStep(s, tenant, scope, body, fate)
      case UpdateMapper(k, body, fate) => UpdateMapperStep(s, k, body, fate)
      case DeleteMapper(k, fate) => DeleteMapperStep(s, k, fate)
  }

  function Run(s: State, ops: seq<(bool, Op)>): State {
    if ops == [] then s
    else Apply(Run(s, ops[..|ops| - 1]), ops[|ops| - 1].0, ops[|ops| - 1].1).0
  }
}
