/** How many passkeys a person can come to hold, although only a start checks the cap: never
    more than ten in a run of whole calls whose portal finishes delete their challenge, and
    otherwise ten and one for each portal registration that answered a used or a replaced
    challenge and for each enrolment at sign-in that is written when the person holds a device. */
module PasskeyCap {
  import opened Basics
  import opened PasskeyModel
  import opened PasskeyTheorems

  /** A whole registration is its two halves with nothing in between. */
  lemma WholeIsTwoHalves(s: State, holder: Holder, user: UserID, made: Option<Made>, deleted: bool, fate: Fate)
    requires s.nextReg !in s.claimed && s.nextReg !in s.fair
    ensures var (t, first) := ClaimStep(s, holder, user, made, deleted);
            var (u, second) := WriteStep(t, s.nextReg, fate);
            FinishStep(s, holder, user, made, deleted, fate)
            == if first == Claimed then (u.(nextReg := s.nextReg), second) else (t, first)
  {
    var t := ClaimStep(s, holder, user, made, deleted).0;
    assert t.claimed - {s.nextReg} == s.claimed;
    assert t.fair - {s.nextReg} == s.fair;
  }

  // ----- one call, exactly -------------------------------------------------

  /** Under the cap, and with room for one more while a portal ceremony is stored. */
  predicate Room(s: State, tenant: TenantID, user: UserID) {
    && Held(s, tenant, user) <= MAX_PASSKEYS
    && (Person(tenant, user) in s.ceremonies ==> Held(s, tenant, user) < MAX_PASSKEYS)
  }

  /** A portal finish that lands keeps the room if and only if the cache deleted its challenge,
      or there was room for two. */
  lemma LandingKeepsRoomIff(s: State, tenant: TenantID, user: UserID, made: Option<Made>, deleted: bool, fate: Fate)
    requires Room(s, tenant, user)
    requires FinishStep(s, Person(tenant, user), user, made, deleted, fate).1 == Registered
    ensures Room(FinishStep(s, Person(tenant, user), user, made, deleted, fate).0, tenant, user)
            <==> deleted || Held(s, tenant, user) + 1 < MAX_PASSKEYS
  {
    FinishCounts(s, Person(tenant, user), user, made, deleted, fate, tenant, user);
  }

  // ----- the books of one person -------------------------------------------

  /** The stored portal challenge was answered by nobody yet. */
  predicate Unanswered(s: State, holder: Holder) {
    holder in s.ceremonies && holder !in s.used
  }

  function FairOf(s: State, holder: Holder): set<RegID> {
    set id | id in s.fair && id in s.claimed && s.claimed[id].holder == holder
  }

  predicate SoundBooks(s: State) {
    && (forall id <- s.fair :: id in s.claimed)
    && (forall id <- s.claimed :: id < s.nextReg && s.claimed[id].row.Live() && Owned(s.claimed[id]))
  }

  /** A registration of the portal is for the person who holds its challenge. */
  predicate Owned(reg: Registration) {
    && reg.key.tenant == reg.holder.tenant
    && (reg.holder.Person? ==> reg.row.user == reg.holder.user)
  }

  /** What the cap still stands for: the devices held, the challenge that may yet be answered,
      and the one registration that answered it. */
  function Stake(s: State, tenant: TenantID, user: UserID): nat {
    var holder := Person(tenant, user);
    Held(s, tenant, user) + (if Unanswered(s, holder) then 1 else 0) + |FairOf(s, holder)|
  }

  /** After `over` landings that the cap does not answer for. */
  ghost predicate Balanced(s: State, tenant: TenantID, user: UserID, over: nat) {
    && SoundBooks(s)
    && Stake(s, tenant, user) <= MAX_PASSKEYS + over
    && (Unanswered(s, Person(tenant, user)) ==> FairOf(s, Person(tenant, user)) == {})
    && |FairOf(s, Person(tenant, user))| <= 1
  }

  /** A landing for this person under a challenge that was answered before or replaced since,
      or one of a sign-in whose person holds a device by now. */
  predicate LandsUnfairly(s: State, op: Op, tenant: TenantID, user: UserID) {
    && Apply(s, op).1 == Registered
    && match op
       case PortalFinish(home, who, _, _, _) => home == tenant && who == user && Person(tenant, user) in s.used
       case Writing(id, _) =>
         && id in s.claimed && s.claimed[id].key.tenant == tenant && s.claimed[id].row.user == user
         && (if s.claimed[id].holder.Person? then id !in s.fair else Held(s, tenant, user) > 0)
       case _ => false
  }

  function Unfair(s: State, ops: seq<Op>, tenant: TenantID, user: UserID): nat {
    if ops == [] then 0
    else
      var init, last := ops[..|ops| - 1], ops[|ops| - 1];
      Unfair(s, init, tenant, user) + if LandsUnfairly(Run(s, init), last, tenant, user) then 1 else 0
  }

  // ----- every call keeps the books ----------------------------------------

  lemma StartBalances(
    s: State, holder: Holder, who: UserID, allowed: bool, stored: bool, tenant: TenantID, user: UserID, over: nat)
    requires Balanced(s, tenant, user, over) && (holder.Person? ==> holder.user == who)
    ensures Balanced(StartStep(s, holder, who, allowed, stored).0, tenant, user, over)
  {
    var t, mine := StartStep(s, holder, who, allowed, stored).0, Person(tenant, user);
    assert LiveOf(t, tenant, user) == LiveOf(s, tenant, user);
    if holder == mine && t != s { assert FairOf(t, mine) == {}; } else { assert FairOf(t, mine) == FairOf(s, mine); }
  }

  lemma StoreBalances(s: State, holder: Holder, stored: bool, tenant: TenantID, user: UserID, over: nat)
    requires Balanced(s, tenant, user, over) && holder.SignIn?
    ensures Balanced(StoreStep(s, holder, stored).0, tenant, user, over)
  {
    var t, mine := StoreStep(s, holder, stored).0, Person(tenant, user);
    assert LiveOf(t, tenant, user) == LiveOf(s, tenant, user);
    assert FairOf(t, mine) == FairOf(s, mine);
  }

  /** Taking a challenge leaves the stake, or lowers it. */
  lemma ConsumeBalances(s: State, holder: Holder, deleted: bool, tenant: TenantID, user: UserID, over: nat)
    requires Balanced(s, tenant, user, over) && Open(s, holder)
    ensures var t, mine := Consumed(s, holder, deleted), Person(tenant, user);
            && Balanced(t, tenant, user, over) && Held(t, tenant, user) == Held(s, tenant, user)
            && (holder == mine ==> !Unanswered(t, mine))
            && (holder == mine && holder !in s.used ==>
                 Stake(t, tenant, user) < MAX_PASSKEYS + over && FairOf(t, mine) == {})
  {
    var t, mine := Consumed(s, holder, deleted), Person(tenant, user);
    assert LiveOf(t, tenant, user) == LiveOf(s, tenant, user);
    assert FairOf(t, mine) == FairOf(s, mine);
  }

  /** One more registration in flight, which the cap answers for or not. */
  lemma ClaimAdds(s: State, t: State, reg: Registration, fairly: bool, tenant: TenantID, user: UserID, over: nat)
    requires Balanced(s, tenant, user, over) && reg.row.Live() && Owned(reg)
    requires t == s.(claimed := s.claimed[s.nextReg := reg], nextReg := s.nextReg + 1,
                     fair := if fairly then s.fair + {s.nextReg} else s.fair)
    requires var mine := Person(tenant, user);
             reg.holder == mine && fairly ==>
               !Unanswered(s, mine) && Stake(s, tenant, user) < MAX_PASSKEYS + over && FairOf(s, mine) == {}
    ensures Balanced(t, tenant, user, over)
  {
    var mine := Person(tenant, user);
    assert LiveOf(t, tenant, user) == LiveOf(s, tenant, user);
    if reg.holder == mine && fairly {
      assert FairOf(t, mine) == {s.nextReg};
    } else {
      assert FairOf(t, mine) == FairOf(s, mine);
    }
  }

  lemma ClaimBalances(
    s: State, holder: Holder, who: UserID, made: Option<Made>, deleted: bool, tenant: TenantID, user: UserID,
    over: nat)
    requires Balanced(s, tenant, user, over) && (holder.Person? ==> holder.user == who)
    ensures Balanced(ClaimStep(s, holder, who, made, deleted).0, tenant, user, over)
  {
    hide Balanced, Stake, Unanswered, FairOf, Held;
    if Open(s, holder) {
      ConsumeBalances(s, holder, deleted, tenant, user, over);
      var mid := Consumed(s, holder, deleted);
      var (t, answer) := ClaimStep(s, holder, who, made, deleted);
      if answer == Claimed {
        ClaimAdds(mid, t, t.claimed[mid.nextReg], holder !in s.used, tenant, user, over);
      }
    }
  }

  lemma FinishBooks(
    s: State, holder: Holder, who: UserID, made: Option<Made>, deleted: bool, fate: Fate, tenant: TenantID,
    user: UserID, over: nat)
    requires Balanced(s, tenant, user, over) && (holder.Person? ==> holder.user == who)
    requires holder.SignIn? ==> Held(s, holder.tenant, who) == 0
    ensures var (t, answer) := FinishStep(s, holder, who, made, deleted, fate);
            Balanced(t, tenant, user, over + if answer == Registered && holder == Person(tenant, user)
              && holder in s.used then 1 else 0)
  {
    var (t, answer) := FinishStep(s, holder, who, made, deleted, fate);
    FinishCounts(s, holder, who, made, deleted, fate, tenant, user);
    if Open(s, holder) {
      ConsumeBalances(s, holder, deleted, tenant, user, over);
      SameBooks(Consumed(s, holder, deleted), t, tenant, user);
    }
  }

  lemma SameBooks(s: State, t: State, tenant: TenantID, user: UserID)
    requires t == s.(rows := t.rows)
    ensures FairOf(t, Person(tenant, user)) == FairOf(s, Person(tenant, user))
    ensures Unanswered(t, Person(tenant, user)) == Unanswered(s, Person(tenant, user)) && SoundBooks(t) == SoundBooks(s)
  {
  }

  lemma WriteBooks(s: State, id: RegID, fate: Fate, tenant: TenantID, user: UserID, over: nat)
    requires Balanced(s, tenant, user, over)
    ensures Balanced(WriteStep(s, id, fate).0, tenant, user,
            over + if LandsUnfairly(s, Writing(id, fate), tenant, user) then 1 else 0)
  {
    if id in s.claimed {
      var mid, reg, mine := s.(claimed := s.claimed - {id}, fair := s.fair - {id}), s.claimed[id], Person(tenant, user);
      var (t, answer) := WriteStep(s, id, fate);
      assert LiveOf(mid, tenant, user) == LiveOf(s, tenant, user);
      assert FairOf(mid, mine) == FairOf(s, mine) - {id};
      LandingCounts(mid, reg, fate, tenant, user);
      SameBooks(mid, t, tenant, user);
      assert Owned(reg);
      if id in s.fair && reg.holder == mine { assert id in FairOf(s, mine); }
    }
  }

  lemma OthersBalance(s: State, op: Op, tenant: TenantID, user: UserID, over: nat)
    requires Balanced(s, tenant, user, over) && (op.Tick? || op.Rename? || op.Remove? || op.ChallengeFinish?)
    ensures Balanced(Step(s, op), tenant, user, over)
  {
    OthersNeverAdd(s, op, tenant, user);
    if op.ChallengeFinish? && Open(s, SignIn(op.tenant, op.session)) {
      ConsumeBalances(s, SignIn(op.tenant, op.session), op.deleted, tenant, user, over);
      SameBooks(Consumed(s, SignIn(op.tenant, op.session), op.deleted), Step(s, op), tenant, user);
    } else {
      SameBooks(s.(now := Step(s, op).now), Step(s, op), tenant, user);
    }
  }

  lemma StepBooks(s: State, op: Op, tenant: TenantID, user: UserID, over: nat)
    requires Balanced(s, tenant, user, over)
    ensures Balanced(Step(s, op), tenant, user, over + if LandsUnfairly(s, op, tenant, user) then 1 else 0)
  {
    hide Balanced, StartStep, StoreStep, ClaimStep, FinishStep, WriteStep, AssertStep, RenameStep, RemoveStep, Held;
    match op
    case PortalStart(home, who, allowed, stored) =>
      StartBalances(s, Person(home, who), who, allowed, stored, tenant, user, over);
    case EnrolStart(home, who, session, _, allowed, stored) =>
      StartBalances(s, SignIn(home, session), who, allowed, stored, tenant, user, over);
    case ChallengeStart(home, _, session, _, stored) =>
      StoreBalances(s, SignIn(home, session), stored, tenant, user, over);
    case PortalFinish(home, who, made, deleted, fate) =>
      FinishBooks(s, Person(home, who), who, made, deleted, fate, tenant, user, over);
    case EnrolFinish(home, who, session, authenticator, made, deleted, fate) =>
      if !HoldsFactor(s, home, who, authenticator) {
        FinishBooks(s, SignIn(home, session), who, made, deleted, fate, tenant, user, over);
      }
    case PortalClaim(home, who, made, deleted) =>
      ClaimBalances(s, Person(home, who), who, made, deleted, tenant, user, over);
    case EnrolClaim(home, who, session, _, made, deleted) =>
      ClaimBalances(s, SignIn(home, session), who, made, deleted, tenant, user, over);
    case Writing(id, fate) => WriteBooks(s, id, fate, tenant, user, over);
    case _ => OthersBalance(s, op, tenant, user, over);
  }

  // ----- over whole runs ---------------------------------------------------

  lemma {:induction false} BooksBalance(ops: seq<Op>, tenant: TenantID, user: UserID)
    ensures Balanced(Run(FRESH, ops), tenant, user, Unfair(FRESH, ops, tenant, user))
  {
    if ops == [] {
      assert LiveOf(FRESH, tenant, user) == {} && FairOf(FRESH, Person(tenant, user)) == {};
    } else {
      var init, last := ops[..|ops| - 1], ops[|ops| - 1];
      BooksBalance(init, tenant, user);
      StepBooks(Run(FRESH, init), last, tenant, user, Unfair(FRESH, init, tenant, user));
    }
  }

  /** In every run, registrations split or whole and deletes done or not, a person holds at
      most ten passkeys and one for each portal landing under a challenge that was answered
      before or replaced since, and for each enrolment at sign-in that is written when the
      person holds a device by then. */
  lemma CapBound(ops: seq<Op>, tenant: TenantID, user: UserID)
    ensures Held(Run(FRESH, ops), tenant, user) <= MAX_PASSKEYS + Unfair(FRESH, ops, tenant, user)
  {
    BooksBalance(ops, tenant, user);
  }

  /** No registration is split, and the cache deletes the challenge of every portal finish. */
  predicate Sequential(ops: seq<Op>) {
    forall op <- ops :: !op.Split() && (op.PortalFinish? ==> op.deleted)
  }

  lemma {:induction false} SequentialIsFair(ops: seq<Op>, tenant: TenantID, user: UserID)
    requires Sequential(ops)
    ensures Person(tenant, user) !in Run(FRESH, ops).used && Unfair(FRESH, ops, tenant, user) == 0
  {
    if ops != [] {
      var init, last := ops[..|ops| - 1], ops[|ops| - 1];
      assert last in ops && forall op <- init :: op in ops;
      SequentialIsFair(init, tenant, user);
      StaysUnused(Run(FRESH, init), last, tenant, user);
    }
  }

  lemma StaysUnused(s: State, op: Op, tenant: TenantID, user: UserID)
    requires Person(tenant, user) !in s.used && !op.Split() && (op.PortalFinish? ==> op.deleted)
    ensures Person(tenant, user) !in Step(s, op).used
  {
  }

  /** Nobody ever holds more than ten passkeys in a run of whole calls in which the cache
      deletes the challenge of every portal finish, although the finish checks no cap. */
  lemma CapHolds(ops: seq<Op>, tenant: TenantID, user: UserID)
    requires Sequential(ops)
    ensures Held(Run(FRESH, ops), tenant, user) <= MAX_PASSKEYS
  {
    SequentialIsFair(ops, tenant, user);
    CapBound(ops, tenant, user);
  }

  // ----- when a later start replaces a challenge already taken -------------

  function Device(id: CredID): Made {
    Made(id, "example.com", "", "Passkey")
  }

  /** Registrations that each take their challenge and have not written when the next starts. */
  function Stacked(count: nat): seq<Op> {
    if count == 0 then []
    else Stacked(count - 1) + [PortalStart(0, 7, true, true)] + [PortalClaim(0, 7, Some(Device(count)), true)]
  }

  /** Then they write, one after the other. */
  function Written(count: nat, done: nat): seq<Op> {
    if done == 0 then Stacked(count)
    else Written(count, done - 1) + [Writing(done - 1, Committed)]
  }

  lemma RunMore(ops: seq<Op>, op: Op)
    ensures Run(FRESH, ops + [op]) == Step(Run(FRESH, ops), op)
  {
    assert (ops + [op])[..|ops|] == ops;
  }

  function StackedReg(id: nat): Registration {
    Registration(Insert, CredKey(0, id + 1), NewRow(Device(id + 1), 7, 0), Person(0, 7))
  }

  lemma {:induction false} StackedUp(count: nat)
    ensures var s := Run(FRESH, Stacked(count));
            && s.rows == map[] && s.now == 0 && s.nextReg == count && Held(s, 0, 7) == 0
            && (forall id :: id in s.claimed <==> 0 <= id < count)
            && (forall id :: id in s.claimed ==> s.claimed[id] == StackedReg(id))
  {
    hide Apply, Held;
    if count == 0 {
      NobodyYet();
    } else {
      StackedUp(count - 1);
      var before := Stacked(count - 1);
      RunMore(before, PortalStart(0, 7, true, true));
      RunMore(before + [PortalStart(0, 7, true, true)], PortalClaim(0, 7, Some(Device(count)), true));
      StackOne(Run(FRESH, before), count);
    }
  }

  lemma NobodyYet()
    ensures Run(FRESH, []) == FRESH && Held(FRESH, 0, 7) == 0
  {
    assert LiveOf(FRESH, 0, 7) == {};
  }

  lemma StackOne(s: State, count: nat)
    requires s.rows == map[] && s.now == 0 && Held(s, 0, 7) == 0 && 0 < count
    ensures var t := Step(Step(s, PortalStart(0, 7, true, true)), PortalClaim(0, 7, Some(Device(count)), true));
            && t.rows == map[] && t.now == 0 && t.nextReg == s.nextReg + 1
            && t.claimed == s.claimed[s.nextReg := StackedReg(count - 1)]
            && Held(t, 0, 7) == 0
  {
    var t := Step(Step(s, PortalStart(0, 7, true, true)), PortalClaim(0, 7, Some(Device(count)), true));
    assert LiveOf(t, 0, 7) == {};
  }

  /** Every delete is done, and still for every count there is a run that leaves a person with
      that many passkeys: each start found room, because nothing had been written yet. */
  lemma {:induction false} ReplacedChallengesLand(count: nat, done: nat)
    requires done <= count
    ensures var s := Run(FRESH, Written(count, done));
            && Held(s, 0, 7) == done && s.now == 0
            && (forall key :: key in s.rows ==> key.tenant == 0 && 0 < key.id <= done)
            && (forall id :: id in s.claimed <==> done <= id < count)
            && (forall id :: id in s.claimed ==> s.claimed[id] == StackedReg(id))
    ensures forall op <- Written(count, done) :: op.PortalClaim? ==> op.deleted
  {
    hide Apply, Held, Run;
    if done == 0 {
      StackedUp(count);
      StackedDeletes(count);
    } else {
      ReplacedChallengesLand(count, done - 1);
      var before := Written(count, done - 1);
      RunMore(before, Writing(done - 1, Committed));
      LandOne(Run(FRESH, before), done, StackedReg(done - 1));
    }
  }

  /** One of the registrations in flight lands. */
  lemma LandOne(s: State, done: nat, reg: Registration)
    requires 0 < done && done - 1 in s.claimed && s.claimed[done - 1] == reg
    requires CredKey(0, done) !in s.rows
    requires reg.plan == Insert && reg.key == CredKey(0, done) && reg.row == NewRow(Device(done), 7, 0)
    ensures var (t, answer) := Apply(s, Writing(done - 1, Committed));
            && answer == Registered
            && t.rows == s.rows[CredKey(0, done) := reg.row] && t.now == s.now
            && t.claimed == s.claimed - {done - 1} && t.fair == s.fair - {done - 1} && t.used == s.used
            && Held(t, 0, 7) == Held(s, 0, 7) + 1
  {
    var mid := s.(claimed := s.claimed - {done - 1}, fair := s.fair - {done - 1});
    assert LiveOf(mid, 0, 7) == LiveOf(s, 0, 7);
    LandingCounts(mid, reg, Committed, 0, 7);
  }

  lemma {:induction false} StackedDeletes(count: nat)
    ensures forall op <- Stacked(count) :: op.PortalClaim? ==> op.deleted
  {
    if count > 0 { StackedDeletes(count - 1); }
  }

  // ----- when sign-ins of one person overlap -------------------------------

  /** Sign-ins of one person, each with a challenge of its own. Every one of them claims while
      the person holds nothing. */
  function Queued(count: nat): seq<Op> {
    if count == 0 then []
    else
      Queued(count - 1)
      + [EnrolStart(0, 7, count, false, true, true), EnrolClaim(0, 7, count, false, Some(Device(count)), true)]
  }

  /** Then they write, one after the other. */
  function Settled(count: nat, done: nat): seq<Op> {
    if done == 0 then Queued(count)
    else Settled(count, done - 1) + [Writing(done - 1, Committed)]
  }

  function QueuedReg(id: nat): Registration {
    Registration(Insert, CredKey(0, id + 1), NewRow(Device(id + 1), 7, 0), SignIn(0, id + 1))
  }

  /** No challenge was answered twice, and none was replaced. */
  predicate AllFair(s: State) {
    s.used == {} && s.fair == s.claimed.Keys
  }

  lemma QueueOne(s: State, count: nat)
    requires s.rows == map[] && s.now == 0 && Held(s, 0, 7) == 0 && 0 < count && AllFair(s)
    requires forall id :: id in s.claimed ==> s.claimed[id].holder != SignIn(0, count)
    ensures var start, claim := EnrolStart(0, 7, count, false, true, true),
                                EnrolClaim(0, 7, count, false, Some(Device(count)), true);
            var t := Step(Step(s, start), claim);
            && t.rows == map[] && t.now == 0 && t.nextReg == s.nextReg + 1
            && t.claimed == s.claimed[s.nextReg := QueuedReg(count - 1)]
            && Held(t, 0, 7) == 0 && AllFair(t)
  {
    var u := Step(s, EnrolStart(0, 7, count, false, true, true));
    assert LiveOf(u, 0, 7) == {} && ClaimsOf(s, SignIn(0, count)) == {};
    var t := Step(u, EnrolClaim(0, 7, count, false, Some(Device(count)), true));
    assert LiveOf(t, 0, 7) == {};
  }

  lemma {:induction false} QueuesUp(count: nat)
    ensures var s := Run(FRESH, Queued(count));
            && s.rows == map[] && s.now == 0 && s.nextReg == count && Held(s, 0, 7) == 0 && AllFair(s)
            && (forall id :: id in s.claimed <==> 0 <= id < count)
            && (forall id :: id in s.claimed ==> s.claimed[id] == QueuedReg(id))
  {
    hide Apply, Held;
    if count == 0 {
      NobodyYet();
    } else {
      QueuesUp(count - 1);
      var before := Queued(count - 1);
      var start, claim := EnrolStart(0, 7, count, false, true, true),
                          EnrolClaim(0, 7, count, false, Some(Device(count)), true);
      RunMore(before, start);
      RunMore(before + [start], claim);
      assert Queued(count) == before + [start] + [claim];
      QueueOne(Run(FRESH, before), count);
    }
  }

  /** Every delete is done, no challenge is answered twice and none is replaced, and still for
      every count there is a run that leaves a person with that many passkeys: every sign-in
      passed the guard that refuses a held factor, because nothing had been written yet. */
  lemma {:induction false} EnrolmentsPileUp(count: nat, done: nat)
    requires done <= count
    ensures var s := Run(FRESH, Settled(count, done));
            && Held(s, 0, 7) == done && s.now == 0 && AllFair(s)
            && (forall key :: key in s.rows ==> key.tenant == 0 && 0 < key.id <= done)
            && (forall id :: id in s.claimed <==> done <= id < count)
            && (forall id :: id in s.claimed ==> s.claimed[id] == QueuedReg(id))
    ensures forall op <- Settled(count, done) :: op.EnrolClaim? ==> op.deleted
  {
    hide Apply, Held, Run;
    if done == 0 {
      QueuesUp(count);
      QueuedDeletes(count);
    } else {
      EnrolmentsPileUp(count, done - 1);
      var before := Settled(count, done - 1);
      RunMore(before, Writing(done - 1, Committed));
      LandOne(Run(FRESH, before), done, QueuedReg(done - 1));
    }
  }

  lemma {:induction false} QueuedDeletes(count: nat)
    ensures forall op <- Queued(count) :: op.EnrolClaim? ==> op.deleted
  {
    if count > 0 { QueuedDeletes(count - 1); }
  }

  // ----- when the cache keeps a challenge ----------------------------------

  /** A portal finish whose delete failed leaves the challenge, so the same challenge lands a
      second device. From nine held that is one over the cap. */
  lemma KeptChallengeLandsAgain(s: State, tenant: TenantID, user: UserID, first: Made, second: Made)
    requires Open(s, Person(tenant, user)) && first.id != second.id
    requires CredKey(tenant, first.id) !in s.rows && CredKey(tenant, second.id) !in s.rows
    ensures var (t, one) := FinishStep(s, Person(tenant, user), user, Some(first), false, Committed);
            var (u, two) := FinishStep(t, Person(tenant, user), user, Some(second), false, Committed);
            one == Registered && two == Registered && Held(u, tenant, user) == Held(s, tenant, user) + 2
  {
    var t := FinishStep(s, Person(tenant, user), user, Some(first), false, Committed).0;
    FinishCounts(s, Person(tenant, user), user, Some(first), false, Committed, tenant, user);
    FinishCounts(t, Person(tenant, user), user, Some(second), false, Committed, tenant, user);
  }

  /** One start, and then finishes whose deletes fail. */
  function Kept(count: nat): seq<Op> {
    if count == 0 then [PortalStart(0, 7, true, true)]
    else Kept(count - 1) + [PortalFinish(0, 7, Some(Device(count)), false, Committed)]
  }

  lemma LeakyFinish(s: State, made: Made)
    requires Open(s, Person(0, 7)) && CredKey(0, made.id) !in s.rows
    ensures FinishStep(s, Person(0, 7), 7, Some(made), false, Committed)
            == (s.(rows := s.rows[CredKey(0, made.id) := NewRow(made, 7, s.now)],
              used := s.used + {Person(0, 7)}), Registered)
  {
  }

  lemma FirstStart()
    ensures var s := Run(FRESH, Kept(0));
            s.rows == map[] && Held(s, 0, 7) == 0 && s.now == 0 && s.ceremonies == map[Person(0, 7) := CEREMONY_TTL]
  {
  }

  /** One stored challenge whose deletes fail lands any number of devices: the cap is gone. */
  lemma {:induction false} CapNeedsTheDelete(count: nat)
    ensures var s := Run(FRESH, Kept(count));
            && Held(s, 0, 7) == count && Open(s, Person(0, 7))
            && (forall key :: key in s.rows ==> key.tenant == 0 && 0 < key.id <= count)
  {
    hide FinishStep, StartStep, AssertStep, Held, LiveOf;
    if count == 0 {
      FirstStart();
    } else {
      CapNeedsTheDelete(count - 1);
      var ops, s := Kept(count), Run(FRESH, Kept(count - 1));
      assert ops[..|ops| - 1] == Kept(count - 1);
      assert Run(FRESH, ops) == Step(s, PortalFinish(0, 7, Some(Device(count)), false, Committed));
      LeakyFinish(s, Device(count));
      FinishCounts(s, Person(0, 7), 7, Some(Device(count)), false, Committed, 0, 7);
    }
  }
}
