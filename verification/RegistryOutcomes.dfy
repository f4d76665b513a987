/** What each registry write must achieve: exactly when it goes through, what it leaves, and
    which refusal comes first. */
module RegistryOutcomes {
  import opened Basics
  import opened RegistryModel
  import opened RegistryRuns

  /** Somebody else's row of the tenant carries this name. */
  ghost predicate NameTaken(s: State, tenant: TenantID, name: string, keep: Option<ScopeID>) {
    exists k :: k in s.scopes && k.tenant == tenant && s.scopes[k].name == name && Some(k.id) != keep
  }

  /** Another mapper of the scope releases this claim. */
  ghost predicate ClaimHeld(s: State, tenant: TenantID, scope: ScopeID, claim: string, keep: Option<MapperID>) {
    exists k :: k in s.mappers && k.tenant == tenant && s.mappers[k].scope == scope && s.mappers[k].claim == claim
                && Some(k.id) != keep
  }

  /** One scope row is this now, and nothing else of the registry moved. */
  predicate ScopeBecomes(s: State, t: State, k: ScopeKey, row: Scope) {
    && t.mappers == s.mappers && t.scopes.Keys == s.scopes.Keys + {k} && t.scopes[k] == row
    && forall j :: j in s.scopes && j != k ==> t.scopes[j] == s.scopes[j]
  }

  predicate MapperBecomes(s: State, t: State, k: MapperKey, row: Mapper) {
    && t.scopes == s.scopes && t.mappers.Keys == s.mappers.Keys + {k} && t.mappers[k] == row
    && forall j :: j in s.mappers && j != k ==> t.mappers[j] == s.mappers[j]
  }

  // ----- scopes ------------------------------------------------------------

  /** An owner creates a scope if and only if no scope of the tenant carries the name and the
      write commits. It is new, and never builtin. */
  lemma CreateScopeAchieves(s: State, tenant: TenantID, form: ScopeBody, fate: Fate)
    requires Inv(s)
    ensures var (t, answer) := Apply(s, true, CreateScope(tenant, form, fate));
            && (answer == Ok(()) <==> !NameTaken(s, tenant, form.name, None) && fate == Committed)
            && (answer == Err(ScopeNameTaken) <==> NameTaken(s, tenant, form.name, None))
            && (answer == Ok(()) ==>
                  exists k: ScopeKey :: k.tenant == tenant && k !in s.scopes
                    && ScopeBecomes(s, t, k, Scope(form.name, form.words, form.enabled, form.default, false)))
            && (answer.Err? ==> t == s)
  {
    var (t, answer) := Apply(s, true, CreateScope(tenant, form, fate));
    if answer == Ok(()) {
      var k := ScopeKey(tenant, s.nextScope);
      assert k !in s.scopes;
      assert ScopeBecomes(s, t, k, Scope(form.name, form.words, form.enabled, form.default, false));
    }
    hide Inv;
  }

  /** An owner rewrites a scope if and only if it is there, no other scope carries a name it would
      take on, and the write commits. A builtin scope takes on everything but the name. */
  lemma UpdateScopeAchieves(s: State, k: ScopeKey, form: ScopeBody, fate: Fate)
    requires Inv(s)
    ensures var (t, answer) := Apply(s, true, UpdateScope(k, form, fate));
            var renames := k in s.scopes && !s.scopes[k].builtin && form.name != s.scopes[k].name;
            && (answer == Err(ScopeNotFound) <==> k !in s.scopes)
            && (answer == Err(ScopeNameTaken) <==> renames && NameTaken(s, k.tenant, form.name, Some(k.id)))
            && (answer == Ok(()) <==>
                  && k in s.scopes && !(renames && NameTaken(s, k.tenant, form.name, Some(k.id)))
                  && fate == Committed)
            && (answer == Ok(()) ==>
                  ScopeBecomes(s, t, k,
                    Scope(if s.scopes[k].builtin then s.scopes[k].name else form.name, form.words, form.enabled,
                      form.default, s.scopes[k].builtin)))
            && (answer.Err? ==> t == s)
  {
    hide Inv;
  }

  /** An owner deletes a scope if and only if it is there, is not builtin, no client names it, and
      the write commits. Its mappers leave with it, and no other row does. */
  lemma DeleteScopeAchieves(s: State, k: ScopeKey, clients: nat, fate: Fate)
    ensures var (t, answer) := Apply(s, true, DeleteScope(k, clients, fate));
            && (answer == Err(ScopeNotFound) <==> k !in s.scopes)
            && (answer == Err(BuiltinScope) <==> k in s.scopes && s.scopes[k].builtin)
            && (answer == Err(ScopeInUse) <==> k in s.scopes && !s.scopes[k].builtin && clients > 0)
            && (answer == Ok(()) <==> k in s.scopes && !s.scopes[k].builtin && clients == 0 && fate == Committed)
            && (answer == Ok(()) ==>
                  && (forall j :: j in t.scopes <==> j in s.scopes && j != k)
                  && (forall j :: j in t.scopes ==> t.scopes[j] == s.scopes[j])
                  && (forall j :: j in t.mappers <==>
                                    j in s.mappers && !(j.tenant == k.tenant && s.mappers[j].scope == k.id))
                  && (forall j :: j in t.mappers ==> t.mappers[j] == s.mappers[j]))
            && (answer.Err? ==> t == s)
  {
  }

  // ----- mappers -----------------------------------------------------------

  /** A static mapper with a value of more than four kilobytes. */
  predicate TooLarge(body: MapperBody) {
    body.sourceType == 4 && body.value.Some? && |body.value.value| > 4096
  }

  /** The row a mapper form becomes: only a static mapper keeps a value. */
  function Kept(scope: ScopeID, body: MapperBody): Mapper {
    Mapper(scope, body.claim, body.sourceType, body.sourceKey,
           if body.sourceType == 4 && body.value.Some? then body.value.value else "",
           body.inIDToken, body.inUserInfo, body.inAccessToken)
  }

  lemma StaticIsLarge(body: MapperBody)
    ensures StaticValue(body) == if TooLarge(body) then Err(LimitExceeded) else Ok(Kept(0, body).sourceValue)
  {
  }

  lemma FreeIsNotHeld(s: State, tenant: TenantID, scope: ScopeID, claim: string, keep: Option<MapperID>)
    ensures ClaimIsFree(s, tenant, scope, claim, keep) <==> !ClaimHeld(s, tenant, scope, claim, keep)
  {
    if ClaimHeld(s, tenant, scope, claim, keep) {
      var k :| k in s.mappers && k.tenant == tenant && s.mappers[k].scope == scope && s.mappers[k].claim == claim
               && Some(k.id) != keep;
      assert k in MappersOf(s, tenant, scope);
    }
  }

  /** An owner adds a mapper if and only if its claim is not protected, its value fits, its scope
      is there and holds fewer than fifty, none of them releases the claim, and the write commits.
      The first cause that applies is the one answered. */
  lemma CreateMapperAchieves(s: State, tenant: TenantID, parent: ScopeID, body: MapperBody, fate: Fate)
    requires Inv(s)
    ensures var (t, answer) := Apply(s, true, CreateMapper(tenant, parent, body, fate));
            var one := body.claim in PROTECTED_CLAIMS;
            var two := TooLarge(body);
            var three := ScopeKey(tenant, parent) !in s.scopes;
            var four := |set k | k in s.mappers && k.tenant == tenant && s.mappers[k].scope == parent| >= 50;
            var five := ClaimHeld(s, tenant, parent, body.claim, None);
            && (answer == Ok(()) <==> !one && !two && !three && !four && !five && fate == Committed)
            && (answer == Err(ProtectedClaim) <==> one)
            && (answer == Err(LimitExceeded) <==> !one && (two || (!three && four)))
            && (answer == Err(ScopeNotFound) <==> !one && !two && three)
            && (answer == Err(ClaimTaken) <==> !one && !two && !three && !four && five)
            && (answer == Ok(()) ==>
                  exists k: MapperKey :: k.tenant == tenant && k !in s.mappers
                    && MapperBecomes(s, t, k, Kept(parent, body)))
            && (answer.Err? ==> t == s)
  {
    StaticIsLarge(body);
    FreeIsNotHeld(s, tenant, parent, body.claim, None);
    var k := MapperKey(tenant, s.nextMapper);
    assert k !in s.mappers;
    assert MappersOf(s, tenant, parent) == set k | k in s.mappers && k.tenant == tenant && s.mappers[k].scope == parent;
    hide Inv, StaticValue, ClaimIsFree, ClaimHeld, PROTECTED_CLAIMS, MappersOf, TooLarge;
    var (t, answer) := Apply(s, true, CreateMapper(tenant, parent, body, fate));
    if answer == Ok(()) { assert MapperBecomes(s, t, k, Kept(parent, body)); }
  }

  /** An owner rewrites a mapper if and only if neither the new claim nor the stored one is
      protected, the value fits, the mapper is there, no other mapper of its scope releases a claim
      it would take on, and the write commits. It stays on its scope. */
  lemma UpdateMapperAchieves(s: State, k: MapperKey, body: MapperBody, fate: Fate)
    ensures var (t, answer) := Apply(s, true, UpdateMapper(k, body, fate));
            var one := body.claim in PROTECTED_CLAIMS;
            var two := TooLarge(body);
            var three := k !in s.mappers;
            var four := k in s.mappers && s.mappers[k].claim in PROTECTED_CLAIMS;
            var five := k in s.mappers && body.claim != s.mappers[k].claim
                        && ClaimHeld(s, k.tenant, s.mappers[k].scope, body.claim, Some(k.id));
            && (answer == Ok(()) <==> !one && !two && !three && !four && !five && fate == Committed)
            && (answer == Err(ProtectedClaim) <==> one || (!two && four))
            && (answer == Err(LimitExceeded) <==> !one && two)
            && (answer == Err(MapperNotFound) <==> !one && !two && three)
            && (answer == Err(ClaimTaken) <==> !one && !two && !four && five)
            && (answer == Ok(()) ==> MapperBecomes(s, t, k, Kept(s.mappers[k].scope, body)))
            && (answer.Err? ==> t == s)
  {
    StaticIsLarge(body);
    if k in s.mappers { FreeIsNotHeld(s, k.tenant, s.mappers[k].scope, body.claim, Some(k.id)); }
    hide StaticValue, ClaimIsFree, ClaimHeld, PROTECTED_CLAIMS, TooLarge;
  }

  /** An owner deletes a mapper if and only if it is there, its claim is not protected, and the
      write commits. */
  lemma DeleteMapperAchieves(s: State, k: MapperKey, fate: Fate)
    ensures var (t, answer) := Apply(s, true, DeleteMapper(k, fate));
            && (answer == Err(MapperNotFound) <==> k !in s.mappers)
            && (answer == Err(ProtectedClaim) <==> k in s.mappers && s.mappers[k].claim in PROTECTED_CLAIMS)
            && (answer == Ok(()) <==> k in s.mappers && s.mappers[k].claim !in PROTECTED_CLAIMS && fate == Committed)
            && (answer == Ok(()) ==>
                  && t.scopes == s.scopes && (forall j :: j in t.mappers <==> j in s.mappers && j != k)
                  && (forall j :: j in t.mappers ==> t.mappers[j] == s.mappers[j]))
            && (answer.Err? ==> t == s)
  {
    hide PROTECTED_CLAIMS;
  }

  /** The names no write from the console carries, one by one, and nobody but an owner writes. */
  lemma ProtectedNames(s: State, op: Op)
    ensures PROTECTED_CLAIMS
            == {"iss", "sub", "aud", "exp", "nbf", "iat", "jti", "azp", "nonce", "auth_time", "at_hash", "c_hash",
                "s_hash", "acr", "amr", "sid", "scope", "client_id", "typ", "email_verified", "phone_number_verified"}
    ensures Apply(s, false, op) == (s, Err(Forbidden))
  {
  }

  // ----- the seed ----------------------------------------------------------

  /** Every tenant starts with the four scopes of the protocol, enabled and builtin. All of them
      but the one for refresh tokens are granted by default. */
  lemma SeedHasFourScopes(tenants: set<TenantID>, tenant: TenantID, name: string)
    requires tenant in tenants
    ensures var s := Seeded(tenants);
            && (NameTaken(s, tenant, name, None) <==> name in {"openid", "profile", "email", "offline_access"})
            && (forall k :: k in s.scopes && k.tenant == tenant ==>
                  && s.scopes[k].enabled && s.scopes[k].builtin
                  && (s.scopes[k].default <==> s.scopes[k].name != "offline_access"))
  {
    SeedRows(tenants);
    hide Seeded;
    var s := Seeded(tenants);
    assert SEED_SCOPES[0].name == "openid" && SEED_SCOPES[1].name == "profile" && SEED_SCOPES[2].name == "email"
      && SEED_SCOPES[3].name == "offline_access" && |"offline_access"| == 14;
    if name in {"openid", "profile", "email", "offline_access"} {
      var i :| 0 <= i < 4 && SEED_SCOPES[i].name == name;
      assert ScopeKey(tenant, i) in s.scopes;
    }
  }
}
