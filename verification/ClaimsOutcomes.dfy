/** What one mapper releases of a person, attribute by attribute, and what a freshly seeded
    tenant releases. */
module ClaimsOutcomes {
  import opened Basics
  import opened RegistryModel
  import opened RegistryRuns
  import opened Claims

  /** A text a person carries. An empty one is absent. */
  function Carried(text: string): Option<Value> {
    if text == "" then None else Some(Text(text))
  }

  const STANDARD_KEYS: set<string> :=
    {"name", "given_name", "family_name", "preferred_username", "locale", "email", "email_verified", "updated_at"}

  /** Each standard attribute names one field of the profile, and any other key names nothing. */
  lemma StandardAttributes(profile: Profile, key: string)
    ensures StandardClaim("name", profile) == Carried(profile.displayName)
    ensures StandardClaim("given_name", profile) == Carried(profile.firstName)
    ensures StandardClaim("family_name", profile) == Carried(profile.lastName)
    ensures StandardClaim("preferred_username", profile) == Carried(profile.username)
    ensures StandardClaim("locale", profile) == Carried(profile.locale)
    ensures StandardClaim("email", profile) == Carried(profile.email)
    ensures StandardClaim("email_verified", profile).Some? <==> Carried(profile.email).Some?
    ensures profile.email != "" ==> StandardClaim("email_verified", profile) == Some(Flag(profile.emailVerified))
    ensures StandardClaim("updated_at", profile).Some? <==> profile.updatedAt.Some?
    ensures profile.updatedAt.Some? ==> StandardClaim("updated_at", profile) == Some(Seconds(profile.updatedAt.value))
    ensures key !in STANDARD_KEYS ==> StandardClaim(key, profile).None?
  {
    KeysDiffer();
  }

  /** No key of the whitelist is another one. */
  lemma KeysDiffer()
    ensures "given_name" != "name" && "family_name" !in {"name", "given_name"}
    ensures "preferred_username" !in {"name", "given_name", "family_name"}
    ensures "locale" !in {"name", "given_name", "family_name", "preferred_username"}
    ensures "email" !in {"name", "given_name", "family_name", "preferred_username", "locale"}
    ensures "email_verified" !in {"name", "given_name", "family_name", "preferred_username", "locale", "email"}
    ensures "updated_at" !in
              {"name", "given_name", "family_name", "preferred_username", "locale", "email", "email_verified"}
  {
    assert "updated_at"[0] == 'u' && "given_name"[0] == 'g';
    assert "locale"[0] == 'l' && "name"[0] == 'n' && "email"[0] == 'e';
  }

  /** A mapper of the attribute bag releases the attribute its key names, if the person carries one
      that is not null. A mapper that is neither standard nor of the bag releases nothing. */
  lemma OtherSources(mapper: ClaimMapper, profile: Profile)
    ensures mapper.sourceType == 1 ==> ResolveClaim(mapper, profile) == StandardClaim(mapper.sourceKey, profile)
    ensures mapper.sourceType == 2 ==>
              && (ResolveClaim(mapper, profile).Some? <==>
                    mapper.sourceKey in profile.attributes && !profile.attributes[mapper.sourceKey].Null?)
              && (ResolveClaim(mapper, profile).Some? ==>
                    ResolveClaim(mapper, profile).value == profile.attributes[mapper.sourceKey])
    ensures mapper.sourceType !in {1, 2} ==> ResolveClaim(mapper, profile).None?
  {
    hide StandardClaim;
  }

  /** The scope that releases one seeded claim. */
  function SeedScopeOf(claim: string): string {
    if claim in {"email", "email_verified"} then "email" else "profile"
  }

  /** What a tenant as it was seeded releases, whatever scopes are asked for and whatever order the
      rows come in: nothing in the ID token, and in UserInfo each standard attribute the person
      carries whose scope was asked for, under its own value. */
  lemma SeedReleases(
    tenants: set<TenantID>, tenant: TenantID, scopes: set<string>, keys: seq<MapperKey>, profile: Profile,
      claim: string)
    requires tenant in tenants && Listing(Seeded(tenants), tenant, scopes, keys)
    ensures var out := ClaimsOf(Rows(Seeded(tenants), keys), profile);
            && claim !in out.idToken
            && (claim in out.userInfo <==>
                  claim in STANDARD_KEYS && SeedScopeOf(claim) in scopes && StandardClaim(claim, profile).Some?)
            && (claim in out.userInfo ==> Some(out.userInfo[claim]) == StandardClaim(claim, profile))
  {
    var rows := Rows(Seeded(tenants), keys);
    SeedRowFacts(tenants, tenant, scopes, keys, profile);
    hide Seeded, StandardClaim, STANDARD_KEYS, SeedScopeOf, ResolveClaim, Requested;
    LastPutWins(rows, profile, IDToken, claim);
    LastPutWins(rows, profile, UserInfo, claim);
    if claim in STANDARD_KEYS && SeedScopeOf(claim) in scopes && StandardClaim(claim, profile).Some? {
      var i := SeedRowFor(tenants, tenant, scopes, keys, claim);
      assert Puts(rows[i], profile, UserInfo, claim) && rows[i] in rows;
    }
    hide ClaimsOf;
    if claim in ClaimsOf(rows, profile).userInfo {
      var i :| LastPut(rows, profile, UserInfo, claim, i);
    }
    forall m | m in rows
      ensures !Puts(m, profile, IDToken, claim)
    {
      var i :| 0 <= i < |rows| && rows[i] == m;
    }
  }

  /** Every row a request of a seeded tenant reads is a standard one of a scope it asked for. */
  lemma SeedRowFacts(
    tenants: set<TenantID>, tenant: TenantID, scopes: set<string>, keys: seq<MapperKey>, profile: Profile)
    requires tenant in tenants && Listing(Seeded(tenants), tenant, scopes, keys)
    ensures var rows := Rows(Seeded(tenants), keys);
            forall i :: 0 <= i < |rows| ==>
              && rows[i].claim in STANDARD_KEYS && SeedScopeOf(rows[i].claim) in scopes
              && !rows[i].inIDToken && rows[i].inUserInfo
              && ResolveClaim(rows[i], profile) == StandardClaim(rows[i].claim, profile)
  {
    var s := Seeded(tenants);
    SeedRows(tenants);
    SeedFacts();
    hide Seeded, SEED_MAPPERS, SEED_SCOPES, StandardClaim, STANDARD_KEYS, SeedMapper, SeedScopeOf;
    forall i | 0 <= i < |keys|
      ensures var row := Rows(s, keys)[i];
              && row.claim in STANDARD_KEYS && SeedScopeOf(row.claim) in scopes
              && !row.inIDToken && row.inUserInfo
              && ResolveClaim(row, profile) == StandardClaim(row.claim, profile)
    {
      assert keys[i] in keys;
      SeedRowIs(s, keys[i].id);
    }
  }

  /** And there is one for each standard claim whose scope was asked for. */
  lemma SeedRowFor(
    tenants: set<TenantID>, tenant: TenantID, scopes: set<string>, keys: seq<MapperKey>, claim: string)
    returns (i: nat)
    requires tenant in tenants && Listing(Seeded(tenants), tenant, scopes, keys)
    requires claim in STANDARD_KEYS && SeedScopeOf(claim) in scopes
    ensures i < |keys| && Rows(Seeded(tenants), keys)[i].claim == claim
  {
    var s, k := Seeded(tenants), MapperKey(tenant, SeedIDOf(claim));
    SeedRows(tenants);
    SeedFacts();
    hide Seeded, SEED_MAPPERS, SEED_SCOPES, STANDARD_KEYS, SeedMapper, SeedScopeOf, SeedIDOf;
    assert k in Requested(s, tenant, scopes);
    assert k in keys;
    i :| 0 <= i < |keys| && keys[i] == k;
  }

  lemma SeedRowIs(s: State, id: MapperID)
    requires id < |SEED_MAPPERS|
    ensures Read(SEED_MAPPERS[id]) == ClaimMapper(SEED_MAPPERS[id].claim, SOURCE_STANDARD, SEED_MAPPERS[id].claim,
              false, true)
  {
  }

  /** Where each seeded claim sits. */
  function SeedIDOf(claim: string): MapperID {
    if claim == "name" then 0 else if claim == "given_name" then 1 else if claim == "family_name" then 2
    else if claim == "preferred_username" then 3 else if claim == "locale" then 4
    else if claim == "updated_at" then 5 else if claim == "email" then 6 else 7
  }

  lemma SeedFacts()
    ensures |SEED_MAPPERS| == 8 && |SEED_SCOPES| == 4
    ensures forall id: nat :: id < 8 ==>
              && SEED_MAPPERS[id].claim in STANDARD_KEYS && SEED_MAPPERS[id].scope < 4
              && SEED_SCOPES[SEED_MAPPERS[id].scope].name == SeedScopeOf(SEED_MAPPERS[id].claim)
              && SEED_SCOPES[SEED_MAPPERS[id].scope].enabled
    ensures forall claim <- STANDARD_KEYS :: SeedIDOf(claim) < 8 && SEED_MAPPERS[SeedIDOf(claim)].claim == claim
  {
  }
}
