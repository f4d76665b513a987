/** What every run of registry writes keeps, starting from the seed. */
module RegistryRuns {
  import opened Basics
  import opened RegistryModel

  ghost predicate NamesAreUnique(s: State) {
    forall j, k :: j in s.scopes && k in s.scopes && j.tenant == k.tenant && s.scopes[j].name == s.scopes[k].name ==>
        j == k
  }

  ghost predicate SameClaim(a: Mapper, b: Mapper) {
    a.scope == b.scope && a.claim == b.claim
  }

  ghost predicate ClaimsAreUnique(s: State) {
    forall j, k ::
      j in s.mappers && k in s.mappers && j.tenant == k.tenant && SameClaim(s.mappers[j], s.mappers[k]) ==> j == k
  }

  ghost predicate FewMappers(s: State) {
    forall tenant, scope :: |MappersOf(s, tenant, scope)| <= MAX_MAPPERS_PER_SCOPE
  }

  /** Every mapper hangs on a scope of its tenant. */
  ghost predicate NoOrphans(s: State) {
    forall k :: k in s.mappers ==> ScopeKey(k.tenant, s.mappers[k].scope) in s.scopes
  }

  ghost predicate FreshIDs(s: State) {
    && (forall k :: k in s.scopes ==> k.id < s.nextScope)
    && (forall k :: k in s.mappers ==> k.id < s.nextMapper)
  }

  ghost predicate IsProtected(s: State, k: MapperKey) {
    k in s.mappers && s.mappers[k].claim in PROTECTED_CLAIMS
  }

  /** The protected claims of two states are released by the same rows. */
  ghost predicate SameProtection(s: State, t: State) {
    forall k :: (IsProtected(s, k) <==> IsProtected(t, k)) && (IsProtected(s, k) ==> t.mappers[k] == s.mappers[k])
  }

  ghost predicate IsBuiltin(s: State, k: ScopeKey) {
    k in s.scopes && s.scopes[k].builtin
  }

  /** The builtin scopes of two states are the same, under the same names. */
  ghost predicate SameBuiltins(s: State, t: State) {
    forall k :: (IsBuiltin(s, k) <==> IsBuiltin(t, k)) && (IsBuiltin(s, k) ==> t.scopes[k].name == s.scopes[k].name)
  }

  ghost predicate ProtectedAreBuiltin(s: State) {
    forall k :: IsProtected(s, k) ==> IsBuiltin(s, ScopeKey(k.tenant, s.mappers[k].scope))
  }

  ghost predicate Inv(s: State) {
    NamesAreUnique(s) && ClaimsAreUnique(s) && FewMappers(s) && NoOrphans(s) && FreshIDs(s) && ProtectedAreBuiltin(s)
  }

  // ----- the scopes --------------------------------------------------------

  lemma ScopeWritten(s: State, t: State, k: ScopeKey, row: Scope)
    requires Inv(s) && t == s.(scopes := s.scopes[k := row], nextScope := t.nextScope)
    requires k.id < t.nextScope && s.nextScope <= t.nextScope
    requires forall j :: j in s.scopes && j.tenant == k.tenant && s.scopes[j].name == row.name ==> j == k
    requires if k in s.scopes then row.builtin == s.scopes[k].builtin
             && (row.builtin ==> row.name == s.scopes[k].name) else !row.builtin
    ensures Inv(t) && SameProtection(s, t) && SameBuiltins(s, t)
  {
    assert forall tenant, scope :: MappersOf(t, tenant, scope) == MappersOf(s, tenant, scope);
    forall j | IsProtected(t, j)
      ensures IsBuiltin(t, ScopeKey(j.tenant, t.mappers[j].scope))
    {
      assert IsProtected(s, j);
    }
  }

  lemma ScopeDeleted(s: State, k: ScopeKey)
    requires Inv(s) && k in s.scopes && !s.scopes[k].builtin
    ensures var t := s.(scopes := s.scopes - {k}, mappers := s.mappers - MappersOf(s, k.tenant, k.id));
            Inv(t) && SameProtection(s, t) && SameBuiltins(s, t)
  {
    var t := s.(scopes := s.scopes - {k}, mappers := s.mappers - MappersOf(s, k.tenant, k.id));
    MappersShrink(s, t);
    forall j | j in t.mappers
      ensures ScopeKey(j.tenant, t.mappers[j].scope) in t.scopes
    {
      assert j in s.mappers && j !in MappersOf(s, k.tenant, k.id);
    }
    forall j
      ensures IsProtected(s, j) <==> IsProtected(t, j)
    {
      if IsProtected(s, j) { assert IsBuiltin(s, ScopeKey(j.tenant, s.mappers[j].scope)); }
    }
  }

  /** Rows that leave leave fewer. */
  lemma MappersShrink(s: State, t: State)
    requires FewMappers(s) && t.mappers.Keys <= s.mappers.Keys && forall k :: k in t.mappers ==>
               t.mappers[k] == s.mappers[k]
    ensures FewMappers(t)
  {
    forall tenant, scope
      ensures |MappersOf(t, tenant, scope)| <= MAX_MAPPERS_PER_SCOPE
    {
      SubsetSize(MappersOf(t, tenant, scope), MappersOf(s, tenant, scope));
    }
  }

  // ----- the mappers -------------------------------------------------------

  /** A written mapper takes one place in its scope, if it is new. */
  lemma MapperTakesOne(s: State, t: State, k: MapperKey, row: Mapper, tenant: TenantID, scope: ScopeID)
    requires t.mappers == s.mappers[k := row] && (k in s.mappers ==> s.mappers[k].scope == row.scope)
    ensures |MappersOf(t, tenant, scope)|
            == |MappersOf(s, tenant, scope)| + if k !in s.mappers && tenant == k.tenant
              && scope == row.scope then 1 else 0
  {
    if k !in s.mappers && tenant == k.tenant && scope == row.scope {
      assert MappersOf(t, tenant, scope) == MappersOf(s, tenant, scope) + {k};
    } else {
      assert MappersOf(t, tenant, scope) == MappersOf(s, tenant, scope);
    }
  }

  lemma MapperCounts(s: State, t: State, k: MapperKey, row: Mapper)
    requires FewMappers(s) && t.mappers == s.mappers[k := row]
    requires if k in s.mappers then s.mappers[k].scope == row.scope
             else |MappersOf(s, k.tenant, row.scope)| < MAX_MAPPERS_PER_SCOPE
    ensures FewMappers(t)
  {
    hide MappersOf;
    forall tenant, scope
      ensures |MappersOf(t, tenant, scope)| <= MAX_MAPPERS_PER_SCOPE
    {
      MapperTakesOne(s, t, k, row, tenant, scope);
    }
  }

  lemma MapperWritten(s: State, t: State, k: MapperKey, row: Mapper)
    requires Inv(s) && t == s.(mappers := s.mappers[k := row], nextMapper := t.nextMapper)
    requires k.id < t.nextMapper && s.nextMapper <= t.nextMapper && row.claim !in PROTECTED_CLAIMS
    requires ScopeKey(k.tenant, row.scope) in s.scopes
    requires forall j :: j in s.mappers && j.tenant == k.tenant && SameClaim(s.mappers[j], row) ==> j == k
    requires if k in s.mappers then s.mappers[k].scope == row.scope && s.mappers[k].claim !in PROTECTED_CLAIMS
             else |MappersOf(s, k.tenant, row.scope)| < MAX_MAPPERS_PER_SCOPE
    ensures Inv(t) && SameProtection(s, t) && SameBuiltins(s, t)
  {
    MapperCounts(s, t, k, row);
    hide FewMappers, MappersOf, NamesAreUnique, PROTECTED_CLAIMS;
    assert forall j :: IsProtected(t, j) <==> IsProtected(s, j);
  }

  lemma MapperDeleted(s: State, k: MapperKey)
    requires Inv(s) && k in s.mappers && s.mappers[k].claim !in PROTECTED_CLAIMS
    ensures var t := s.(mappers := s.mappers - {k}); Inv(t) && SameProtection(s, t) && SameBuiltins(s, t)
  {
    var t := s.(mappers := s.mappers - {k});
    MappersShrink(s, t);
    assert forall j :: IsProtected(t, j) <==> IsProtected(s, j);
  }

  // ----- every write, and every run ----------------------------------------

  lemma CreateScopeKeeps(s: State, tenant: TenantID, body: ScopeBody, fate: Fate)
    requires Inv(s)
    ensures var t := CreateScopeStep(s, tenant, body, fate).0; Inv(t) && SameProtection(s, t) && SameBuiltins(s, t)
  {
    var t := CreateScopeStep(s, tenant, body, fate).0;
    if t != s {
      hide ClaimsAreUnique, FewMappers, ProtectedAreBuiltin, NamesAreUnique, NoOrphans;
      ScopeWritten(
        s, t, ScopeKey(tenant, s.nextScope), Scope(body.name, body.words, body.enabled, body.default, false));
    }
  }

  lemma UpdateScopeKeeps(s: State, k: ScopeKey, body: ScopeBody, fate: Fate)
    requires Inv(s)
    ensures var t := UpdateScopeStep(s, k, body, fate).0; Inv(t) && SameProtection(s, t) && SameBuiltins(s, t)
  {
    var t := UpdateScopeStep(s, k, body, fate).0;
    if t != s {
      hide ClaimsAreUnique, FewMappers, ProtectedAreBuiltin, NoOrphans;
      ScopeWritten(s, t, k, Rewritten(s.scopes[k], body));
    }
  }

  lemma CreateMapperKeeps(s: State, tenant: TenantID, scope: ScopeID, body: MapperBody, fate: Fate)
    requires Inv(s)
    ensures var t := CreateMapperStep(s, tenant, scope, body, fate).0;
            Inv(t) && SameProtection(s, t) && SameBuiltins(s, t)
  {
    var t := CreateMapperStep(s, tenant, scope, body, fate).0;
    if t != s {
      hide ClaimsAreUnique, FewMappers, ProtectedAreBuiltin, NamesAreUnique, NoOrphans, PROTECTED_CLAIMS;
      assert forall j :: j in s.mappers && j.tenant == tenant && s.mappers[j].scope == scope ==>
          j in MappersOf(s, tenant, scope);
      MapperWritten(s, t, MapperKey(tenant, s.nextMapper), Row(scope, body, StaticValue(body).value));
    }
  }

  lemma UpdateMapperKeeps(s: State, k: MapperKey, body: MapperBody, fate: Fate)
    requires Inv(s)
    ensures var t := UpdateMapperStep(s, k, body, fate).0; Inv(t) && SameProtection(s, t) && SameBuiltins(s, t)
  {
    var t := UpdateMapperStep(s, k, body, fate).0;
    if t != s {
      hide FewMappers, ProtectedAreBuiltin, NamesAreUnique, PROTECTED_CLAIMS;
      var scope := s.mappers[k].scope;
      assert forall j :: j in s.mappers && j.tenant == k.tenant && s.mappers[j].scope == scope ==>
          j in MappersOf(s, k.tenant, scope);
      MapperWritten(s, t, k, Row(scope, body, StaticValue(body).value));
    }
  }

  lemma StepKeeps(s: State, owner: bool, op: Op)
    requires Inv(s)
    ensures var t := Apply(s, owner, op).0; Inv(t) && SameProtection(s, t) && SameBuiltins(s, t)
  {
    Unmoved(s);
    hide Inv, SameProtection, SameBuiltins, CreateScopeStep, UpdateScopeStep, CreateMapperStep,
      UpdateMapperStep, PROTECTED_CLAIMS;
    match op
    case CreateScope(tenant, form, fate) => CreateScopeKeeps(s, tenant, form, fate);
    case UpdateScope(k, form, fate) => UpdateScopeKeeps(s, k, form, fate);
    case DeleteScope(k, clients, fate) =>
      if k in s.scopes && !s.scopes[k].builtin { ScopeDeleted(s, k); }
    case CreateMapper(tenant, scope, body, fate) => CreateMapperKeeps(s, tenant, scope, body, fate);
    case UpdateMapper(k, body, fate) => UpdateMapperKeeps(s, k, body, fate);
    case DeleteMapper(k, fate) =>
      if k in s.mappers && s.mappers[k].claim !in PROTECTED_CLAIMS { MapperDeleted(s, k); }
  }

  lemma Unmoved(s: State)
    ensures SameProtection(s, s) && SameBuiltins(s, s)
  {
  }

  lemma {:induction false} RunKeeps(s: State, ops: seq<(bool, Op)>)
    requires Inv(s)
    ensures Inv(Run(s, ops)) && SameProtection(s, Run(s, ops)) && SameBuiltins(s, Run(s, ops))
  {
    if ops != [] {
      var init, last := ops[..|ops| - 1], ops[|ops| - 1];
      RunKeeps(s, init);
      StepKeeps(Run(s, init), last.0, last.1);
    }
  }

  // ----- the seed ----------------------------------------------------------

  lemma SeedNames()
    ensures forall i, j ::
              0 <= i < |SEED_SCOPES| && 0 <= j < |SEED_SCOPES| && SEED_SCOPES[i].name == SEED_SCOPES[j].name ==> i == j
    ensures forall i :: 0 <= i < |SEED_SCOPES| ==> SEED_SCOPES[i].builtin
  {
  }

  lemma SeedClaims()
    ensures forall i, j ::
              0 <= i < |SEED_MAPPERS| && 0 <= j < |SEED_MAPPERS| && SEED_MAPPERS[i].claim == SEED_MAPPERS[j].claim ==>
                i == j
    ensures forall i :: 0 <= i < |SEED_MAPPERS| ==> (SEED_MAPPERS[i].claim in PROTECTED_CLAIMS <==> i == TRUST_MAPPER)
    ensures forall i :: 0 <= i < |SEED_MAPPERS| ==> SEED_MAPPERS[i].scope < |SEED_SCOPES|
  {
  }

  /** The seed is sound, and its one protected claim is the verification of the address. */
  lemma SeedIsSound(tenants: set<TenantID>)
    ensures var s := Seeded(tenants);
            && Inv(s)
            && (forall k :: IsProtected(s, k) <==> k.tenant in tenants && k.id == TRUST_MAPPER)
            && (forall t <- tenants :: MapperKey(t, TRUST_MAPPER) in s.mappers
                                       && s.mappers[MapperKey(t, TRUST_MAPPER)] == SeedMapper(EMAIL, TRUST_EMAIL))
            && (forall k :: IsBuiltin(s, k) <==> k.tenant in tenants && k.id < |SEED_SCOPES|)
  {
    SeedNames();
    SeedClaims();
    SeedRows(tenants);
    SeedIsFew(tenants);
    hide Seeded, SEED_MAPPERS, SEED_SCOPES, PROTECTED_CLAIMS, FewMappers, SeedMapper;
  }

  lemma SeedRows(tenants: set<TenantID>)
    ensures var s := Seeded(tenants);
            && s.nextScope == |SEED_SCOPES| && s.nextMapper == |SEED_MAPPERS| == TRUST_MAPPER + 1
            && (forall k :: k in s.scopes <==> k.tenant in tenants && k.id < |SEED_SCOPES|)
            && (forall k :: k in s.mappers <==> k.tenant in tenants && k.id < |SEED_MAPPERS|)
            && (forall k :: k in s.scopes ==> s.scopes[k] == SEED_SCOPES[k.id])
            && (forall k :: k in s.mappers ==> s.mappers[k] == SEED_MAPPERS[k.id])
    ensures SEED_MAPPERS[TRUST_MAPPER] == SeedMapper(EMAIL, TRUST_EMAIL)
  {
  }

  lemma SeedIsFew(tenants: set<TenantID>)
    ensures FewMappers(Seeded(tenants))
  {
    SeedRows(tenants);
    hide Seeded, SeedMapper;
    var s := Seeded(tenants);
    forall tenant, scope
      ensures |MappersOf(s, tenant, scope)| <= MAX_MAPPERS_PER_SCOPE
    {
      var all := set i | 0 <= i < |SEED_MAPPERS| :: MapperKey(tenant, i);
      forall k | k in MappersOf(s, tenant, scope)
        ensures k in all
      {
        assert k == MapperKey(tenant, k.id);
      }
      SeedSize(tenant, |SEED_MAPPERS|);
      SubsetSize(MappersOf(s, tenant, scope), all);
    }
  }

  lemma {:induction false} SeedSize(tenant: TenantID, count: nat)
    ensures |set i | 0 <= i < count :: MapperKey(tenant, i)| == count
  {
    if count > 0 {
      SeedSize(tenant, count - 1);
      assert (set i | 0 <= i < count :: MapperKey(tenant, i))
        == (set i | 0 <= i < count - 1 :: MapperKey(tenant, i)) + {MapperKey(tenant, count - 1)};
    }
  }

  /** In every state a run of scope and mapper writes reaches from the seed: names are unique
      per tenant, claims are unique per scope, no scope holds more mappers than the cap, every
      builtin scope is there under its seeded name, and the mappers of protected claims are
      exactly the seeded ones, unchanged. */
  lemma RegistryHolds(tenants: set<TenantID>, ops: seq<(bool, Op)>)
    ensures var s := Run(Seeded(tenants), ops);
            && NamesAreUnique(s) && ClaimsAreUnique(s) && FewMappers(s) && NoOrphans(s)
            && (forall k :: IsProtected(s, k) <==> k.tenant in tenants && k.id == TRUST_MAPPER)
            && (forall t <- tenants :: MapperKey(t, TRUST_MAPPER) in s.mappers
                                       && s.mappers[MapperKey(t, TRUST_MAPPER)] == SeedMapper(EMAIL, TRUST_EMAIL))
            && (forall k :: IsBuiltin(s, k) <==> k.tenant in tenants && k.id < |SEED_SCOPES|)
            && (forall k :: IsBuiltin(s, k) ==> s.scopes[k].name == SEED_SCOPES[k.id].name)
  {
    SeedIsSound(tenants);
    RunKeeps(Seeded(tenants), ops);
    var s := Run(Seeded(tenants), ops);
    assert forall k :: IsBuiltin(s, k) ==> IsBuiltin(Seeded(tenants), k);
    forall t | t in tenants
      ensures MapperKey(t, TRUST_MAPPER) in s.mappers
              && s.mappers[MapperKey(t, TRUST_MAPPER)] == SeedMapper(EMAIL, TRUST_EMAIL)
    {
      assert IsProtected(Seeded(tenants), MapperKey(t, TRUST_MAPPER));
    }
  }
}
