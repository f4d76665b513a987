/** The code of the registry: its repository and the service on top. Each method is proved
    to take the step RegistryModel specifies. */
module RegistryService {
  import opened Basics
  import opened RegistryModel
  import opened RegistryRuns

  class Registry {
    var scopes: map<ScopeKey, Scope>
    var mappers: map<MapperKey, Mapper>
    var nextScope: ScopeID
    var nextMapper: MapperID

    ghost function View(): State
      reads this
    {
      State(scopes, mappers, nextScope, nextMapper)
    }

    ghost predicate Valid()
      reads this
    {
      Inv(View())
    }

    constructor (tenants: set<TenantID>)
      ensures Valid() && View() == Seeded(tenants)
    {
      SeedIsSound(tenants);
      var seed := Seeded(tenants);
      scopes, mappers, nextScope, nextMapper := seed.scopes, seed.mappers, seed.nextScope, seed.nextMapper;
    }

    // ----- the repository --------------------------------------------------

    method FindScopeByName(tenant: TenantID, name: string) returns (found: Option<ScopeID>)
      ensures match found
              case Some(id) => ScopeKey(tenant, id) in scopes && scopes[ScopeKey(tenant, id)].name == name
              case None => forall k :: k in scopes && k.tenant == tenant ==> scopes[k].name != name
    {
      if k :| k in scopes && k.tenant == tenant && scopes[k].name == name {
        assert k == ScopeKey(tenant, k.id);
        return Some(k.id);
      }
      return None;
    }

    /** The live mappers of one scope, each once. */
    method ListMappers(tenant: TenantID, scope: ScopeID) returns (rows: seq<(MapperID, Mapper)>)
      ensures forall i :: 0 <= i < |rows| ==>
                MapperKey(tenant, rows[i].0) in mappers && rows[i].1 == mappers[MapperKey(tenant, rows[i].0)]
                                              && rows[i].1.scope == scope
      ensures forall k :: k in MappersOf(View(), tenant, scope) ==> (k.id, mappers[k]) in rows
    {
      rows := [];
      var keys := set k | k in mappers && k.tenant == tenant && mappers[k].scope == scope;
      var todo := keys;
      while todo != {}
        invariant todo <= keys
        invariant forall i :: 0 <= i < |rows| ==>
                    MapperKey(tenant, rows[i].0) in mappers && rows[i].1 == mappers[MapperKey(tenant, rows[i].0)]
                                                  && rows[i].1.scope == scope
        invariant forall k :: k in keys - todo ==> (k.id, mappers[k]) in rows
        decreases todo
      {
        var k :| k in todo;
        assert k == MapperKey(tenant, k.id);
        rows := rows + [(k.id, mappers[k])];
        todo := todo - {k};
      }
    }

    method CountMappers(tenant: TenantID, scope: ScopeID) returns (count: nat)
      ensures count == |MappersOf(View(), tenant, scope)|
    {
      var keys := set k | k in mappers && k.tenant == tenant && mappers[k].scope == scope;
      assert keys == MappersOf(View(), tenant, scope);
      return |keys|;
    }

    // ----- the guards ------------------------------------------------------

    method FreeName(tenant: TenantID, name: string, keep: Option<ScopeID>) returns (free: bool)
      requires Valid()
      ensures free == NameIsFree(View(), tenant, name, keep)
    {
      var found := FindScopeByName(tenant, name);
      if found.None? { return true; }
      assert ScopeKey(tenant, found.value) in scopes;
      return found == keep;
    }

    method FreeClaim(tenant: TenantID, scope: ScopeID, claim: string, keep: Option<MapperID>) returns (free: bool)
      ensures free == ClaimIsFree(View(), tenant, scope, claim, keep)
    {
      var rows := ListMappers(tenant, scope);
      for i := 0 to |rows|
        invariant forall j :: 0 <= j < i && rows[j].1.claim == claim ==> Some(rows[j].0) == keep
      {
        if rows[i].1.claim == claim && Some(rows[i].0) != keep {
          assert MapperKey(tenant, rows[i].0) in MappersOf(View(), tenant, scope);
          return false;
        }
      }
      assert forall k :: k in MappersOf(View(), tenant, scope) && mappers[k].claim == claim ==>
          (k.id, mappers[k]) in rows;
      return true;
    }

    // ----- the service -----------------------------------------------------

    method CreateScope(owner: bool, tenant: TenantID, body: ScopeBody, fate: Fate) returns (answer: Result<(), Failure>)
      requires Valid()
      modifies this
      ensures Valid()
      ensures (View(), answer) == Apply(old(View()), owner, Op.CreateScope(tenant, body, fate))
    {
      StepKeeps(View(), owner, Op.CreateScope(tenant, body, fate));
      if !owner { return Err(Forbidden); }
      var free := FreeName(tenant, body.name, None);
      if !free { return Err(ScopeNameTaken); }
      if fate != Committed { return Err(StorageFailed); }
      scopes := scopes[ScopeKey(tenant, nextScope) := Scope(body.name, body.words, body.enabled, body.default, false)];
      nextScope := nextScope + 1;
      return Ok(());
    }

    method UpdateScope(owner: bool, k: ScopeKey, body: ScopeBody, fate: Fate) returns (answer: Result<(), Failure>)
      requires Valid()
      modifies this
      ensures Valid()
      ensures (View(), answer) == Apply(old(View()), owner, Op.UpdateScope(k, body, fate))
    {
      StepKeeps(View(), owner, Op.UpdateScope(k, body, fate));
      if !owner { return Err(Forbidden); }
      if k !in scopes { return Err(ScopeNotFound); }
      var row := scopes[k];
      if !row.builtin && body.name != row.name {
        var free := FreeName(k.tenant, body.name, Some(k.id));
        if !free { return Err(ScopeNameTaken); }
        row := row.(name := body.name);
      }
      row := row.(words := body.words, enabled := body.enabled, default := body.default);
      if fate != Committed { return Err(StorageFailed); }
      scopes := scopes[k := row];
      return Ok(());
    }

    method DeleteScope(owner: bool, k: ScopeKey, clients: nat, fate: Fate) returns (answer: Result<(), Failure>)
      requires Valid()
      modifies this
      ensures Valid()
      ensures (View(), answer) == Apply(old(View()), owner, Op.DeleteScope(k, clients, fate))
    {
      StepKeeps(View(), owner, Op.DeleteScope(k, clients, fate));
      if !owner { return Err(Forbidden); }
      if k !in scopes { return Err(ScopeNotFound); }
      if scopes[k].builtin { return Err(BuiltinScope); }
      if clients > 0 { return Err(ScopeInUse); }
      if fate != Committed { return Err(StorageFailed); }
      scopes := scopes - {k};
      mappers := mappers - set m | m in mappers && m.tenant == k.tenant && mappers[m].scope == k.id;
      return Ok(());
    }

    method CreateMapper(
      owner: bool, tenant: TenantID, scope: ScopeID, body: MapperBody, fate: Fate) returns (answer: Result<(), Failure>)
      requires Valid()
      modifies this
      ensures Valid()
      ensures (View(), answer) == Apply(old(View()), owner, Op.CreateMapper(tenant, scope, body, fate))
    {
      StepKeeps(View(), owner, Op.CreateMapper(tenant, scope, body, fate));
      hide Inv, PROTECTED_CLAIMS, MappersOf;
      if !owner { return Err(Forbidden); }
      if body.claim in PROTECTED_CLAIMS { return Err(ProtectedClaim); }
      var value := StaticValue(body);
      if value.Err? { return Err(value.error); }
      if ScopeKey(tenant, scope) !in scopes { return Err(ScopeNotFound); }
      var count := CountMappers(tenant, scope);
      if count >= MAX_MAPPERS_PER_SCOPE { return Err(LimitExceeded); }
      var free := FreeClaim(tenant, scope, body.claim, None);
      if !free { return Err(ClaimTaken); }
      if fate != Committed { return Err(StorageFailed); }
      mappers := mappers[MapperKey(tenant, nextMapper) := Row(scope, body, value.value)];
      nextMapper := nextMapper + 1;
      return Ok(());
    }

    method UpdateMapper(owner: bool, k: MapperKey, body: MapperBody, fate: Fate) returns (answer: Result<(), Failure>)
      requires Valid()
      modifies this
      ensures Valid()
      ensures (View(), answer) == Apply(old(View()), owner, Op.UpdateMapper(k, body, fate))
    {
      StepKeeps(View(), owner, Op.UpdateMapper(k, body, fate));
      hide Inv, PROTECTED_CLAIMS, MappersOf;
      if !owner { return Err(Forbidden); }
      if body.claim in PROTECTED_CLAIMS { return Err(ProtectedClaim); }
      var value := StaticValue(body);
      if value.Err? { return Err(value.error); }
      if k !in mappers { return Err(MapperNotFound); }
      var row := mappers[k];
      if row.claim in PROTECTED_CLAIMS { return Err(ProtectedClaim); }
      if body.claim != row.claim {
        var free := FreeClaim(k.tenant, row.scope, body.claim, Some(k.id));
        if !free { return Err(ClaimTaken); }
      }
      row := row.(claim := body.claim, sourceType := body.sourceType, sourceKey := body.sourceKey,
        sourceValue := value.value,
                  inIDToken := body.inIDToken, inUserInfo := body.inUserInfo, inAccessToken := body.inAccessToken);
      if fate != Committed { return Err(StorageFailed); }
      mappers := mappers[k := row];
      return Ok(());
    }

    method DeleteMapper(owner: bool, k: MapperKey, fate: Fate) returns (answer: Result<(), Failure>)
      requires Valid()
      modifies this
      ensures Valid()
      ensures (View(), answer) == Apply(old(View()), owner, Op.DeleteMapper(k, fate))
    {
      StepKeeps(View(), owner, Op.DeleteMapper(k, fate));
      if !owner { return Err(Forbidden); }
      if k !in mappers { return Err(MapperNotFound); }
      if mappers[k].claim in PROTECTED_CLAIMS { return Err(ProtectedClaim); }
      if fate != Committed { return Err(StorageFailed); }
      mappers := mappers - {k};
      return Ok(());
    }
  }
}
