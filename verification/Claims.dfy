/** The claims of one person: every mapper of the requested scopes is resolved, and its value
    goes to the places the mapper names. The mappers arrive in whatever order the database
    answers. */
module Claims {
  import opened Basics
  import opened RegistryModel
  import opened RegistryRuns

  datatype Value = Text(text: string) | Flag(flag: bool) | Seconds(at: nat) | Json(blob: string) | Null

  datatype Profile = Profile(
    username: string,
    displayName: string,
    firstName: string,
    lastName: string,
    email: string,
    emailVerified: bool,
    locale: string,
    updatedAt: Option<nat>,
    attributes: map<string, Value>)

  /** What the read of the mappers keeps of one row. */
  datatype ClaimMapper = ClaimMapper(
    claim: string,
    sourceType: nat,
    sourceKey: string,
    inIDToken: bool,
    inUserInfo: bool)

  datatype Place = IDToken | UserInfo

  datatype Released = Released(idToken: map<string, Value>, userInfo: map<string, Value>) {
    function At(place: Place): map<string, Value> {
      match place case IDToken => idToken case UserInfo => userInfo
    }
  }

  // ----- one mapper --------------------------------------------------------

  function Words(value: string): Option<Value> {
    if value == "" then None else Some(Text(value))
  }

  /** The whitelist of the standard attributes. */
  function StandardClaim(key: string, profile: Profile): Option<Value> {
    if key == "name" then Words(profile.displayName)
    else if key == "given_name" then Words(profile.firstName)
    else if key == "family_name" then Words(profile.lastName)
    else if key == "preferred_username" then Words(profile.username)
    else if key == "locale" then Words(profile.locale)
    else if key == "email" then Words(profile.email)
    else if key == TRUST_EMAIL then (if profile.email == "" then None else Some(Flag(profile.emailVerified)))
    else if key == "updated_at" then (if profile.updatedAt.None? then None else Some(Seconds(profile.updatedAt.value)))
    else None
  }

  /** Membership and static mappers are stored, and release nothing. */
  function ResolveClaim(mapper: ClaimMapper, profile: Profile): Option<Value> {
    if mapper.sourceType == SOURCE_STANDARD then StandardClaim(mapper.sourceKey, profile)
    else if mapper.sourceType == SOURCE_BAG then
      if mapper.sourceKey in profile.attributes && profile.attributes[mapper.sourceKey] != Null
      then Some(profile.attributes[mapper.sourceKey]) else None
    else None
  }

  predicate Reaches(mapper: ClaimMapper, place: Place) {
    match place case IDToken => mapper.inIDToken case UserInfo => mapper.inUserInfo
  }

  /** Whether one mapper puts a value of this claim in this place. */
  predicate Puts(mapper: ClaimMapper, profile: Profile, place: Place, claim: string) {
    mapper.claim == claim && Reaches(mapper, place) && ResolveClaim(mapper, profile).Some?
  }

  // ----- all of them -------------------------------------------------------

  function Put(out: Released, mapper: ClaimMapper, profile: Profile): Released {
    match ResolveClaim(mapper, profile)
    case None => out
    case Some(value) =>
      Released(if mapper.inIDToken then out.idToken[mapper.claim := value] else out.idToken,
               if mapper.inUserInfo then out.userInfo[mapper.claim := value] else out.userInfo)
  }

  function ClaimsOf(mappers: seq<ClaimMapper>, profile: Profile): Released {
    if mappers == [] then Released(map[], map[])
    else Put(ClaimsOf(mappers[..|mappers| - 1], profile), mappers[|mappers| - 1], profile)
  }

  /** The loop over the mappers, and nothing when there are none. */
  method Resolve(mappers: seq<ClaimMapper>, profile: Profile) returns (out: Released)
    ensures out == ClaimsOf(mappers, profile)
  {
    var idToken, userInfo := map[], map[];
    for i := 0 to |mappers|
      invariant Released(idToken, userInfo) == ClaimsOf(mappers[..i], profile)
    {
      assert mappers[..i + 1][..i] == mappers[..i];
      var value := ResolveClaim(mappers[i], profile);
      if value.Some? {
        if mappers[i].inIDToken { idToken := idToken[mappers[i].claim := value.value]; }
        if mappers[i].inUserInfo { userInfo := userInfo[mappers[i].claim := value.value]; }
      }
    }
    assert mappers[..|mappers|] == mappers;
    return Released(idToken, userInfo);
  }

  // ----- the last mapper wins ----------------------------------------------

  /** The value of `claim` in one place is what mapper `i` resolved to, and no later mapper
      puts one there. */
  ghost predicate LastPut(mappers: seq<ClaimMapper>, profile: Profile, place: Place, claim: string, i: int) {
    && 0 <= i < |mappers| && Puts(mappers[i], profile, place, claim)
    && forall j :: i < j < |mappers| ==> !Puts(mappers[j], profile, place, claim)
  }

  /** What one more mapper does to one claim in one place. */
  lemma OneMore(mappers: seq<ClaimMapper>, profile: Profile, place: Place, claim: string)
    requires mappers != []
    ensures var before, after, last := ClaimsOf(mappers[..|mappers| - 1], profile).At(place),
            ClaimsOf(mappers, profile).At(place), mappers[|mappers| - 1];
            if Puts(last, profile, place, claim) then claim in after
              && Some(after[claim]) == ResolveClaim(last, profile)
            else (claim in after <==> claim in before) && (claim in before ==> after[claim] == before[claim])
  {
  }

  /** What is present was put there by a last mapper. */
  lemma {:induction false} PresentHasLast(
    mappers: seq<ClaimMapper>, profile: Profile, place: Place, claim: string) returns (i: int)
    requires claim in ClaimsOf(mappers, profile).At(place)
    ensures LastPut(mappers, profile, place, claim, i)
  {
    var n := |mappers| - 1;
    OneMore(mappers, profile, place, claim);
    hide ClaimsOf, Puts;
    if Puts(mappers[n], profile, place, claim) {
      i := n;
    } else {
      i := PresentHasLast(mappers[..n], profile, place, claim);
      LastStays(mappers, profile, place, claim, i);
    }
  }

  /** The last mapper that puts a claim gives it its value. */
  lemma {:induction false} LastGivesValue(
    mappers: seq<ClaimMapper>, profile: Profile, place: Place, claim: string, i: int)
    requires LastPut(mappers, profile, place, claim, i)
    ensures var out := ClaimsOf(mappers, profile).At(place);
            claim in out && Some(out[claim]) == ResolveClaim(mappers[i], profile)
  {
    var n := |mappers| - 1;
    OneMore(mappers, profile, place, claim);
    hide ClaimsOf, Puts;
    if i < n {
      LastStays(mappers, profile, place, claim, i);
      LastGivesValue(mappers[..n], profile, place, claim, i);
    }
  }

  lemma LastStays(mappers: seq<ClaimMapper>, profile: Profile, place: Place, claim: string, i: int)
    requires mappers != [] && !Puts(mappers[|mappers| - 1], profile, place, claim)
    ensures LastPut(mappers, profile, place, claim, i) <==> LastPut(mappers[..|mappers| - 1], profile, place, claim, i)
  {
  }

  /** Where some mapper puts a claim, one puts it last. */
  lemma {:induction false} PutHasLast(
    mappers: seq<ClaimMapper>, profile: Profile, place: Place, claim: string, i: nat) returns (last: int)
    requires i < |mappers| && Puts(mappers[i], profile, place, claim)
    ensures LastPut(mappers, profile, place, claim, last)
    decreases |mappers| - i
  {
    hide Puts;
    if j :| i < j < |mappers| && Puts(mappers[j], profile, place, claim) {
      last := PutHasLast(mappers, profile, place, claim, j);
    } else {
      last := i;
    }
  }

  /** A claim is present exactly when some mapper puts it there, and then the last one wins. */
  lemma LastPutWins(mappers: seq<ClaimMapper>, profile: Profile, place: Place, claim: string)
    ensures claim in ClaimsOf(mappers, profile).At(place) <==> exists m <- mappers :: Puts(m, profile, place, claim)
    ensures forall i :: LastPut(mappers, profile, place, claim, i) ==>
              claim in ClaimsOf(mappers, profile).At(place)
              && Some(ClaimsOf(mappers, profile).At(place)[claim]) == ResolveClaim(mappers[i], profile)
    ensures claim in ClaimsOf(mappers, profile).At(place) ==> exists i :: LastPut(mappers, profile, place, claim, i)
  {
    hide ClaimsOf, Puts, ResolveClaim;
    forall i | LastPut(mappers, profile, place, claim, i)
      ensures claim in ClaimsOf(mappers, profile).At(place)
              && Some(ClaimsOf(mappers, profile).At(place)[claim]) == ResolveClaim(mappers[i], profile)
    {
      LastGivesValue(mappers, profile, place, claim, i);
    }
    if claim in ClaimsOf(mappers, profile).At(place) {
      var i := PresentHasLast(mappers, profile, place, claim);
      assert mappers[i] in mappers;
    } else {
      forall m | m in mappers
        ensures !Puts(m, profile, place, claim)
      {
        var i :| 0 <= i < |mappers| && mappers[i] == m;
        if Puts(m, profile, place, claim) { var last := PutHasLast(mappers, profile, place, claim, i); }
      }
    }
  }

  // ----- when the order does not matter ------------------------------------

  /** Two mappers that put the same claim in the same place put the same value. */
  ghost predicate Agree(mappers: seq<ClaimMapper>, profile: Profile) {
    forall a, b, place: Place, claim ::
      a in mappers && b in mappers && Puts(a, profile, place, claim) && Puts(b, profile, place, claim) ==>
        ResolveClaim(a, profile) == ResolveClaim(b, profile)
  }

  ghost predicate OrderFree(mappers: seq<ClaimMapper>, profile: Profile) {
    forall other: seq<ClaimMapper> :: multiset(other) == multiset(mappers) ==>
        ClaimsOf(other, profile) == ClaimsOf(mappers, profile)
  }

  lemma AgreeingValue(mappers: seq<ClaimMapper>, profile: Profile, place: Place, claim: string, m: ClaimMapper)
    requires Agree(mappers, profile) && m in mappers && Puts(m, profile, place, claim)
    ensures var out := ClaimsOf(mappers, profile).At(place);
            claim in out && Some(out[claim]) == ResolveClaim(m, profile)
  {
  }

  lemma AgreeingIsOrderFree(mappers: seq<ClaimMapper>, profile: Profile, other: seq<ClaimMapper>)
    requires Agree(mappers, profile) && multiset(other) == multiset(mappers)
    ensures ClaimsOf(other, profile) == ClaimsOf(mappers, profile)
  {
    assert forall m :: m in other <==> m in multiset(other);
    assert forall m :: m in mappers <==> m in multiset(mappers);
    assert Agree(other, profile);
    forall place: Place
      ensures ClaimsOf(other, profile).At(place) == ClaimsOf(mappers, profile).At(place)
    {
      forall claim
        ensures claim in ClaimsOf(other, profile).At(place) <==> claim in ClaimsOf(mappers, profile).At(place)
        ensures claim in ClaimsOf(mappers, profile).At(place) ==>
                  ClaimsOf(other, profile).At(place)[claim] == ClaimsOf(mappers, profile).At(place)[claim]
      {
        SameValue(mappers, profile, other, place, claim);
      }
    }
    assert ClaimsOf(other, profile).At(IDToken) == ClaimsOf(mappers, profile).At(IDToken);
    assert ClaimsOf(other, profile).At(UserInfo) == ClaimsOf(mappers, profile).At(UserInfo);
  }

  lemma SameValue(mappers: seq<ClaimMapper>, profile: Profile, other: seq<ClaimMapper>, place: Place, claim: string)
    requires Agree(mappers, profile) && Agree(other, profile) && forall m :: m in other <==> m in mappers
    ensures var one, two := ClaimsOf(other, profile).At(place), ClaimsOf(mappers, profile).At(place);
            (claim in one <==> claim in two) && (claim in two ==> one[claim] == two[claim])
  {
    LastPutWins(mappers, profile, place, claim);
    LastPutWins(other, profile, place, claim);
    if claim in ClaimsOf(mappers, profile).At(place) {
      var m :| m in mappers && Puts(m, profile, place, claim);
      AgreeingValue(mappers, profile, place, claim, m);
      AgreeingValue(other, profile, place, claim, m);
    }
  }

  /** The mappers with one of them moved to the end. */
  function Last(mappers: seq<ClaimMapper>, i: nat): (moved: seq<ClaimMapper>)
    requires i < |mappers|
    ensures multiset(moved) == multiset(mappers)
    ensures moved != [] && moved[|moved| - 1] == mappers[i]
  {
    assert mappers == mappers[..i] + [mappers[i]] + mappers[i + 1..];
    mappers[..i] + mappers[i + 1..] + [mappers[i]]
  }

  lemma LastOneWins(mappers: seq<ClaimMapper>, i: nat, profile: Profile, place: Place, claim: string)
    requires i < |mappers| && Puts(mappers[i], profile, place, claim)
    ensures var out := ClaimsOf(Last(mappers, i), profile).At(place);
            claim in out && Some(out[claim]) == ResolveClaim(mappers[i], profile)
  {
  }

  /** The released claims are the same for every order of the mappers exactly when mappers
      that put the same claim in the same place agree on its value. */
  lemma OrderFreeIffAgreeing(mappers: seq<ClaimMapper>, profile: Profile)
    ensures OrderFree(mappers, profile) <==> Agree(mappers, profile)
  {
    if Agree(mappers, profile) {
      forall other: seq<ClaimMapper> | multiset(other) == multiset(mappers)
        ensures ClaimsOf(other, profile) == ClaimsOf(mappers, profile)
      {
        AgreeingIsOrderFree(mappers, profile, other);
      }
    } else {
      var a, b, place: Place, claim :| a in mappers && b in mappers && Puts(a, profile, place, claim)
        && Puts(b, profile, place, claim)
                                       && ResolveClaim(a, profile) != ResolveClaim(b, profile);
      var i :| 0 <= i < |mappers| && mappers[i] == a;
      var j :| 0 <= j < |mappers| && mappers[j] == b;
      LastOneWins(mappers, i, profile, place, claim);
      LastOneWins(mappers, j, profile, place, claim);
      assert ClaimsOf(Last(mappers, i), profile) != ClaimsOf(Last(mappers, j), profile);
    }
  }

  // ----- in a registry -----------------------------------------------------

  /** The mappers a request reads: those of the enabled scopes it names. */
  function Requested(s: State, tenant: TenantID, scopes: set<string>): set<MapperKey> {
    set k | k in s.mappers && k.tenant == tenant && ScopeKey(tenant, s.mappers[k].scope) in s.scopes
            && s.scopes[ScopeKey(tenant, s.mappers[k].scope)].enabled
            && s.scopes[ScopeKey(tenant, s.mappers[k].scope)].name in scopes
  }

  function Read(row: Mapper): ClaimMapper {
    ClaimMapper(row.claim, row.sourceType, row.sourceKey, row.inIDToken, row.inUserInfo)
  }

  /** One order the database may answer the rows in: each of them once. */
  ghost predicate Listing(s: State, tenant: TenantID, scopes: set<string>, keys: seq<MapperKey>) {
    && (forall k :: k in keys <==> k in Requested(s, tenant, scopes))
    && (forall i, j :: 0 <= i < j < |keys| ==> keys[i] != keys[j])
  }

  function Rows(s: State, keys: seq<MapperKey>): seq<ClaimMapper>
    requires forall k <- keys :: k in s.mappers
  {
    seq(|keys|, i requires 0 <= i < |keys| => Read(s.mappers[keys[i]]))
  }

  /** The profile, the scopes asked for, and the registry decide the claims of a request for
      one scope. The order of the rows decides nothing, in every reachable registry. */
  lemma OneScopeIsOrderFree(
    tenants: set<TenantID>, ops: seq<(bool, Op)>, tenant: TenantID, scope: string,
    one: seq<MapperKey>, two: seq<MapperKey>, profile: Profile)
    requires var s := Run(Seeded(tenants), ops);
             Listing(s, tenant, {scope}, one) && Listing(s, tenant, {scope}, two)
    ensures var s := Run(Seeded(tenants), ops);
            ClaimsOf(Rows(s, one), profile) == ClaimsOf(Rows(s, two), profile)
  {
    SeedIsSound(tenants);
    RunKeeps(Seeded(tenants), ops);
    var s := Run(Seeded(tenants), ops);
    hide FewMappers, ProtectedAreBuiltin, FreshIDs, Run, Seeded;
    OneScopeAgrees(s, tenant, scope, one, profile);
    OneScopeAgrees(s, tenant, scope, two, profile);
    forall m
      ensures m in Rows(s, one) <==> m in Rows(s, two)
    {
      SameRows(s, one, two, m);
      SameRows(s, two, one, m);
    }
    SameClaims(Rows(s, one), Rows(s, two), profile);
  }

  lemma SameRows(s: State, one: seq<MapperKey>, two: seq<MapperKey>, m: ClaimMapper)
    requires forall k :: k in one <==> k in two
    requires (forall k <- one :: k in s.mappers) && (forall k <- two :: k in s.mappers)
    ensures m in Rows(s, one) ==> m in Rows(s, two)
  {
    if m in Rows(s, one) {
      var i :| 0 <= i < |one| && Rows(s, one)[i] == m;
      assert one[i] in two;
      var j :| 0 <= j < |two| && two[j] == one[i];
      assert Rows(s, two)[j] == m;
    }
  }

  /** The same mappers, in agreement, release the same claims. */
  lemma SameClaims(one: seq<ClaimMapper>, two: seq<ClaimMapper>, profile: Profile)
    requires Agree(one, profile) && Agree(two, profile) && forall m :: m in one <==> m in two
    ensures ClaimsOf(one, profile) == ClaimsOf(two, profile)
  {
    forall place: Place, claim
      ensures var a, b := ClaimsOf(one, profile).At(place), ClaimsOf(two, profile).At(place);
              (claim in a <==> claim in b) && (claim in b ==> a[claim] == b[claim])
    {
      SameValue(two, profile, one, place, claim);
    }
    assert ClaimsOf(one, profile).At(IDToken) == ClaimsOf(two, profile).At(IDToken);
    assert ClaimsOf(one, profile).At(UserInfo) == ClaimsOf(two, profile).At(UserInfo);
  }

  lemma OneScopeAgrees(s: State, tenant: TenantID, scope: string, keys: seq<MapperKey>, profile: Profile)
    requires NamesAreUnique(s) && ClaimsAreUnique(s) && Listing(s, tenant, {scope}, keys)
    ensures Agree(Rows(s, keys), profile)
  {
    forall a, b, place: Place, claim | a in Rows(s, keys) && b in Rows(s, keys) && Puts(a, profile, place, claim)
      && Puts(b, profile, place, claim)
      ensures a == b
    {
      var i :| 0 <= i < |keys| && Rows(s, keys)[i] == a;
      var j :| 0 <= j < |keys| && Rows(s, keys)[j] == b;
      assert keys[i] in keys && keys[j] in keys;
      assert SameClaim(s.mappers[keys[i]], s.mappers[keys[j]]);
    }
  }

  /** In every reachable registry, whatever scopes are asked for and whatever order the rows
      come in: the verification of the address is released to UserInfo exactly when the email
      scope is asked for and enabled and the person has an address, it is what the gateway
      verified, and it never reaches the ID token. No other protected claim is ever released. */
  lemma TrustIsWhatWasVerified(
    tenants: set<TenantID>, ops: seq<(bool, Op)>, tenant: TenantID, scopes: set<string>, keys: seq<MapperKey>,
      profile: Profile, claim: string)
    requires tenant in tenants && claim in PROTECTED_CLAIMS
    requires Listing(Run(Seeded(tenants), ops), tenant, scopes, keys)
    ensures var s := Run(Seeded(tenants), ops);
            var out, email := ClaimsOf(Rows(s, keys), profile), ScopeKey(tenant, EMAIL);
            && email in s.scopes && s.scopes[email].name == "email"
            && claim !in out.idToken
            && (claim in out.userInfo
               <==> claim == TRUST_EMAIL && "email" in scopes && s.scopes[email].enabled && profile.email != "")
            && (claim in out.userInfo ==> out.userInfo[claim] == Flag(profile.emailVerified))
  {
    RegistryHolds(tenants, ops);
    var s := Run(Seeded(tenants), ops);
    var trust, email := MapperKey(tenant, TRUST_MAPPER), ScopeKey(tenant, EMAIL);
    SeedRows(tenants);
    hide FewMappers, NamesAreUnique, ClaimsAreUnique, Run, Seeded;
    assert IsBuiltin(s, email) && SEED_SCOPES[EMAIL].name == "email";
    OnlyTheTrustMapper(s, tenant, scopes, keys, profile, claim, IDToken);
    OnlyTheTrustMapper(s, tenant, scopes, keys, profile, claim, UserInfo);
  }

  lemma OnlyTheTrustMapper(
    s: State, tenant: TenantID, scopes: set<string>, keys: seq<MapperKey>, profile: Profile, claim: string,
      place: Place)
    requires claim in PROTECTED_CLAIMS && Listing(s, tenant, scopes, keys)
    requires forall k :: IsProtected(s, k) && k.tenant == tenant ==> k.id == TRUST_MAPPER
    requires MapperKey(tenant, TRUST_MAPPER) in s.mappers
             && s.mappers[MapperKey(tenant, TRUST_MAPPER)] == SeedMapper(EMAIL, TRUST_EMAIL)
    requires ScopeKey(tenant, EMAIL) in s.scopes
    ensures var out := ClaimsOf(Rows(s, keys), profile).At(place);
            && (claim in out <==>
                  && claim == TRUST_EMAIL && place == UserInfo && profile.email != ""
                  && s.scopes[ScopeKey(tenant, EMAIL)].enabled && s.scopes[ScopeKey(tenant, EMAIL)].name in scopes)
            && (claim in out ==> out[claim] == Flag(profile.emailVerified))
  {
    var trust := MapperKey(tenant, TRUST_MAPPER);
    LastPutWins(Rows(s, keys), profile, place, claim);
    assert StandardClaim(TRUST_EMAIL, profile) == if profile.email == "" then None
      else Some(Flag(profile.emailVerified)) by { TrustIsNoOther(); }
    forall i | 0 <= i < |keys| && Puts(Rows(s, keys)[i], profile, place, claim)
      ensures keys[i] == trust
    {
      assert keys[i] in Requested(s, tenant, scopes) && IsProtected(s, keys[i]);
    }
    if trust in keys {
      var i :| 0 <= i < |keys| && keys[i] == trust;
      assert Rows(s, keys)[i] == Read(s.mappers[trust]);
      if Puts(Rows(s, keys)[i], profile, place, claim) { assert LastPut(Rows(s, keys), profile, place, claim, i); }
    }
  }

  lemma TrustIsNoOther()
    ensures TRUST_EMAIL !in {"name", "given_name", "family_name", "preferred_username", "locale", "email", "updated_at"}
  {
  }
}
