/**
 Slots of an access pool and the grants issued against it.

 The services reserve a slot, create a grant, consume and release slots in separate statements outside any
 transaction.  The first part takes these statements in any order whatever, with any number of promoters,
 checkouts and expirers between them, and balances the pool's counters against the grants.  The second
 part assumes the pairing the counters are named after: each change of a grant moves its slot with it.
 */
module AccessPool {
  type GrantId = nat

  datatype GrantStatus = ACTIVE | CONSUMED | EXPIRED

  datatype Pool = Pool(total: nat, reserved: nat, used: nat, released: nat)

  // ---------------------------------------------------------------------------------------------
  // Statements on the pool; one that would break a CHECK constraint fails and changes nothing
  // ---------------------------------------------------------------------------------------------

  function ReserveSlot(p: Pool): Pool {
    if p.reserved + p.used < p.total then p.(reserved := p.reserved + 1) else p
  }

  function ConsumeSlot(p: Pool): Pool {
    if p.reserved > 0 then p.(reserved := p.reserved - 1, used := p.used + 1) else p
  }

  function ReleaseSlot(p: Pool): Pool {
    if p.reserved > 0 then p.(reserved := p.reserved - 1, released := p.released + 1) else p
  }

  function TransferSlots(p: Pool, delta: int): Pool {
    if (delta > 0 || p.total + delta >= p.reserved + p.used) && p.total + delta > 0 then
      p.(total := p.total + delta)
    else p
  }

  // ---------------------------------------------------------------------------------------------
  // Any order of statements
  // ---------------------------------------------------------------------------------------------

  datatype State = State(
    pool: Pool,
    grants: map<GrantId, GrantStatus>,
    inHand: nat,                         // reservations whose grant is still to be created
    toConsume: nat,                      // manager grants whose slot is still to be consumed
    listed: multiset<GrantId>,           // ACTIVE grants that expirers have listed and not yet expired
    toRelease: nat,                      // releases that follow an expiry already made
    direct: set<GrantId>,                // history: grants created by the pool manager
    everConsumed: set<GrantId>,          // history: grants a checkout has used
    reserves: nat,                       // history: successful reservations
    abandoned: nat,                      // history: reservations whose grant was never created
    unconsumed: nat,                     // history: slot consumptions that failed or never happened
    expiries: nat,                       // history: executions of ExpireGrant
    stale: nat,                          // history: those that hit a grant no longer ACTIVE
    unreleased: nat)                     // history: releases that failed or never happened

  datatype Action =
    | Reserve | AbandonReservation
    | CreateGrant(grant: GrantId, manager: bool)
    | ConsumePoolSlot | ForgetConsumption
    | ConsumeGrant(grant: GrantId)
    | ListExpired(grant: GrantId) | ExpireGrant(grant: GrantId)
    | ReleasePoolSlot | ForgetRelease
    | AdjustTotal(delta: int)

  function SlotStep(s: State, a: Action): State {
    match a
    case Reserve =>
      if ReserveSlot(s.pool) != s.pool then
        s.(pool := ReserveSlot(s.pool), inHand := s.inHand + 1, reserves := s.reserves + 1)
      else s
    case AbandonReservation =>
      if s.inHand > 0 then s.(inHand := s.inHand - 1, abandoned := s.abandoned + 1) else s
    case ConsumePoolSlot =>
      if s.toConsume == 0 then s
      else if s.pool.reserved > 0 then s.(pool := ConsumeSlot(s.pool), toConsume := s.toConsume - 1)
      else s.(toConsume := s.toConsume - 1, unconsumed := s.unconsumed + 1)
    case ForgetConsumption =>
      if s.toConsume > 0 then s.(toConsume := s.toConsume - 1, unconsumed := s.unconsumed + 1) else s
    case ReleasePoolSlot =>
      if s.toRelease == 0 then s
      else if s.pool.reserved > 0 then s.(pool := ReleaseSlot(s.pool), toRelease := s.toRelease - 1)
      else s.(toRelease := s.toRelease - 1, unreleased := s.unreleased + 1)
    case ForgetRelease =>
      if s.toRelease > 0 then s.(toRelease := s.toRelease - 1, unreleased := s.unreleased + 1) else s
    case AdjustTotal(delta) => s.(pool := TransferSlots(s.pool, delta))
    case _ => s
  }

  function GrantStep(s: State, a: Action): State {
    match a
    case CreateGrant(g, manager) =>
      if s.inHand > 0 && g !in s.grants then
        s.(grants := s.grants[g := ACTIVE], inHand := s.inHand - 1,
           direct := if manager then s.direct + {g} else s.direct,
           toConsume := if manager then s.toConsume + 1 else s.toConsume)
      else s
    case ConsumeGrant(g) =>
      if g in s.grants && s.grants[g] == ACTIVE then
        s.(grants := s.grants[g := CONSUMED], everConsumed := s.everConsumed + {g})
      else s
    case ListExpired(g) =>
      if g in s.grants && s.grants[g] == ACTIVE then s.(listed := s.listed + multiset{g}) else s
    case ExpireGrant(g) =>
      // the update carries no guard on the status
      if g in s.listed && g in s.grants then
        s.(grants := s.grants[g := EXPIRED], listed := s.listed - multiset{g}, toRelease := s.toRelease + 1,
           expiries := s.expiries + 1, stale := s.stale + if s.grants[g] == ACTIVE then 0 else 1)
      else s
    case _ => s
  }

  predicate OnGrants(a: Action) {
    a.CreateGrant? || a.ConsumeGrant? || a.ListExpired? || a.ExpireGrant?
  }

  function Step(s: State, a: Action): State {
    if OnGrants(a) then GrantStep(s, a) else SlotStep(s, a)
  }

  function Run(s: State, actions: seq<Action>): State
    decreases actions
  {
    if actions == [] then s else Run(Step(s, actions[0]), actions[1..])
  }

  function Empty(total: nat): State {
    State(Pool(total, 0, 0, 0), map[], 0, 0, multiset{}, 0, {}, {}, 0, 0, 0, 0, 0, 0)
  }

  ghost predicate Reachable(s: State) {
    exists total: nat, actions: seq<Action> :: s == Run(Empty(total), actions)
  }

  function WithGrantStatus(grants: map<GrantId, GrantStatus>, status: GrantStatus): set<GrantId> {
    set g | g in grants && grants[g] == status
  }

  function Count(s: State, status: GrantStatus): nat {
    |WithGrantStatus(s.grants, status)|
  }

  /** Grants that admit, or have admitted, a checkout. */
  function Admitted(s: State): set<GrantId> {
    set g | g in s.grants && (s.grants[g] == ACTIVE || g in s.everConsumed)
  }

  /** Grants that expired unused. */
  function Unused(grants: map<GrantId, GrantStatus>, everConsumed: set<GrantId>): set<GrantId> {
    set g | g in grants && grants[g] == EXPIRED && g !in everConsumed
  }

  /** Where the slots are: each reservation in hand, given up, or behind a grant; each expiry released or not. */
  ghost predicate SlotsBalance(s: State) {
    && s.pool.reserved + s.pool.used <= s.pool.total
    && s.pool.reserved + s.pool.used + s.pool.released == s.reserves
    && |s.grants.Keys| + s.inHand + s.abandoned == s.reserves
    && s.pool.used + s.toConsume + s.unconsumed == |s.direct|
    && s.pool.released + s.toRelease + s.unreleased == s.expiries
    && s.expiries == |Unused(s.grants, s.everConsumed)| + s.stale
  }

  /** What the histories say of the grants. */
  ghost predicate GrantsKnown(s: State) {
    && s.direct <= s.grants.Keys && s.everConsumed <= s.grants.Keys
    && (forall g :: g in s.grants && s.grants[g] == CONSUMED ==> g in s.everConsumed)
    && (forall g :: g in s.everConsumed ==> s.grants[g] != ACTIVE)
  }

  ghost predicate Inv(s: State) {
    SlotsBalance(s) && GrantsKnown(s)
  }

  lemma NewGrantIsNotUnused(grants: map<GrantId, GrantStatus>, everConsumed: set<GrantId>, g: GrantId)
    requires g !in grants
    ensures |grants[g := ACTIVE].Keys| == |grants.Keys| + 1
    ensures Unused(grants[g := ACTIVE], everConsumed) == Unused(grants, everConsumed)
  {
    assert grants[g := ACTIVE].Keys == grants.Keys + {g};
  }

  lemma ConsumedIsNotUnused(grants: map<GrantId, GrantStatus>, everConsumed: set<GrantId>, g: GrantId)
    requires g in grants && grants[g] == ACTIVE
    ensures grants[g := CONSUMED].Keys == grants.Keys
    ensures Unused(grants[g := CONSUMED], everConsumed + {g}) == Unused(grants, everConsumed)
  {
  }

  lemma ExpiredIsUnused(grants: map<GrantId, GrantStatus>, everConsumed: set<GrantId>, g: GrantId)
    requires g in grants && (g in everConsumed ==> grants[g] != ACTIVE) && (grants[g] == CONSUMED ==> g in everConsumed)
    ensures grants[g := EXPIRED].Keys == grants.Keys
    ensures |Unused(grants[g := EXPIRED], everConsumed)| ==
            |Unused(grants, everConsumed)| + if grants[g] == ACTIVE then 1 else 0
  {
    assert Unused(grants[g := EXPIRED], everConsumed) ==
           Unused(grants, everConsumed) + if grants[g] == ACTIVE then {g} else {};
  }

  lemma GrantStepKeepsInv(s: State, a: Action)
    requires Inv(s)
    ensures Inv(GrantStep(s, a))
  {
    if GrantStep(s, a) != s {
      match a
      case CreateGrant(g, _) => NewGrantIsNotUnused(s.grants, s.everConsumed, g);
      case ConsumeGrant(g) => ConsumedIsNotUnused(s.grants, s.everConsumed, g);
      case ExpireGrant(g) => ExpiredIsUnused(s.grants, s.everConsumed, g);
      case ListExpired(_) =>
    }
  }

  lemma SlotStepKeepsInv(s: State, a: Action)
    requires Inv(s)
    ensures Inv(SlotStep(s, a))
  {
    assert SlotStep(s, a).grants == s.grants && SlotStep(s, a).everConsumed == s.everConsumed;
  }

  lemma {:induction false} RunKeepsInv(s: State, actions: seq<Action>)
    requires Inv(s)
    ensures Inv(Run(s, actions))
    decreases actions
  {
    if actions != [] {
      GrantStepKeepsInv(s, actions[0]);
      SlotStepKeepsInv(s, actions[0]);
      RunKeepsInv(Step(s, actions[0]), actions[1..]);
    }
  }

  lemma ReachableInv(s: State)
    requires Reachable(s)
    ensures Inv(s)
  {
    var total: nat, actions: seq<Action> :| s == Run(Empty(total), actions);
    assert Unused(Empty(total).grants, {}) == {};
    RunKeepsInv(Empty(total), actions);
  }

  // ---------------------------------------------------------------------------------------------
  // Admission
  // ---------------------------------------------------------------------------------------------

  /**
   Whatever the order of statements, the pool's bound holds and every admitted grant is accounted for: the
   admitted grants, the reservations in hand or given up and the expiries not released together make up the
   taken slots and the expiries that hit a grant no longer ACTIVE.
   */
  lemma AdmissionBalances(s: State)
    requires Reachable(s)
    ensures s.pool.reserved + s.pool.used <= s.pool.total
    ensures |Admitted(s)| + s.inHand + s.abandoned + s.toRelease + s.unreleased ==
            s.pool.reserved + s.pool.used + s.stale
  {
    ReachableInv(s);
    var unused := Unused(s.grants, s.everConsumed);
    assert s.grants.Keys == Admitted(s) + unused;
    assert Admitted(s) !! unused;
  }

  /** More are admitted than the pool holds exactly when the stale expiries exceed every slot that is free or lost. */
  lemma OveradmitsExactlyWhen(s: State)
    requires Reachable(s)
    ensures |Admitted(s)| > s.pool.total <==>
            s.stale > (s.pool.total - s.pool.reserved - s.pool.used)
                      + s.inHand + s.abandoned + s.toRelease + s.unreleased
    ensures s.stale == 0 ==> |Admitted(s)| <= s.pool.total
  {
    AdmissionBalances(s);
  }

  /** Every expiry of the run hits a grant that is still ACTIVE. */
  ghost predicate FreshExpiries(s: State, actions: seq<Action>)
    decreases actions
  {
    actions == [] ||
    ((actions[0].ExpireGrant? && actions[0].grant in s.listed && actions[0].grant in s.grants ==>
        s.grants[actions[0].grant] == ACTIVE)
     && FreshExpiries(Step(s, actions[0]), actions[1..]))
  }

  /** No expiry of a run is stale exactly when each of them finds its grant still ACTIVE. */
  lemma {:induction false} NoStaleExpiryExactlyWhen(s: State, actions: seq<Action>)
    ensures Run(s, actions).stale >= s.stale
    ensures Run(s, actions).stale == s.stale <==> FreshExpiries(s, actions)
    decreases actions
  {
    if actions != [] {
      NoStaleExpiryExactlyWhen(Step(s, actions[0]), actions[1..]);
    }
  }

  /** The guard that the expiry does without would be enough: a run whose expiries are fresh never admits too many. */
  lemma FreshExpiriesNeverOveradmit(total: nat, actions: seq<Action>)
    requires FreshExpiries(Empty(total), actions)
    ensures |Admitted(Run(Empty(total), actions))| <= Run(Empty(total), actions).pool.total
  {
    NoStaleExpiryExactlyWhen(Empty(total), actions);
    assert Reachable(Run(Empty(total), actions));
    OveradmitsExactlyWhen(Run(Empty(total), actions));
  }

  lemma {:induction false} RunThenStep(s: State, actions: seq<Action>, a: Action)
    ensures Run(s, actions + [a]) == Step(Run(s, actions), a)
    decreases actions
  {
    if actions == [] {
      assert actions + [a] == [a] && [a][1..] == [];
      assert Run(s, [a]) == Run(Step(s, a), []);
    } else {
      assert (actions + [a])[1..] == actions[1..] + [a];
      RunThenStep(Step(s, actions[0]), actions[1..], a);
    }
  }

  lemma StepIsReachable(s: State, a: Action)
    requires Reachable(s)
    ensures Reachable(Step(s, a))
  {
    var total: nat, actions: seq<Action> :| s == Run(Empty(total), actions);
    RunThenStep(Empty(total), actions, a);
    assert Step(s, a) == Run(Empty(total), actions + [a]);
  }

  lemma EmptyIsReachable(total: nat)
    ensures Reachable(Empty(total))
  {
    assert Run(Empty(total), []) == Empty(total);
  }

  /** A grant issued undisturbed, without consuming its slot. */
  function Issued(s: State, g: GrantId): State {
    s.(pool := s.pool.(reserved := s.pool.reserved + 1), grants := s.grants[g := ACTIVE], reserves := s.reserves + 1)
  }

  lemma IssueLeads(s: State, g: GrantId)
    requires Reachable(s) && g !in s.grants && s.pool.reserved + s.pool.used < s.pool.total
    ensures Reachable(Issued(s, g))
  {
    var reserved := Step(s, Reserve);
    StepIsReachable(s, Reserve);
    StepIsReachable(reserved, CreateGrant(g, false));
    assert Step(reserved, CreateGrant(g, false)) == Issued(s, g);
  }

  /** A checkout that commits between an expirer's listing of a grant and its update. */
  function UsedAndExpired(s: State, g: GrantId): State {
    s.(grants := s.grants[g := EXPIRED], everConsumed := s.everConsumed + {g}, toRelease := s.toRelease + 1,
       expiries := s.expiries + 1, stale := s.stale + 1)
  }

  lemma UseAndExpireLeads(s: State, g: GrantId)
    requires Reachable(s) && g in s.grants && s.grants[g] == ACTIVE
    ensures Reachable(UsedAndExpired(s, g))
  {
    var listed := s.(listed := s.listed + multiset{g});
    var used := listed.(grants := s.grants[g := CONSUMED], everConsumed := s.everConsumed + {g});
    StepIsReachable(s, ListExpired(g));
    assert Step(s, ListExpired(g)) == listed;
    StepIsReachable(listed, ConsumeGrant(g));
    assert Step(listed, ConsumeGrant(g)) == used;
    StepIsReachable(used, ExpireGrant(g));
    assert used.listed - multiset{g} == s.listed;
    assert used.grants[g := EXPIRED] == s.grants[g := EXPIRED];
    assert Step(used, ExpireGrant(g)) == UsedAndExpired(s, g);
  }

  function Released(s: State): State
    requires s.toRelease > 0 && s.pool.reserved > 0
  {
    s.(pool := ReleaseSlot(s.pool), toRelease := s.toRelease - 1)
  }

  /** A used slot that is released: a full pool without free or lost slots then admits one more than it holds. */
  lemma StaleExpiryReleasesUsedSlot(s: State, g: GrantId, h: GrantId)
    requires Reachable(s) && g in s.grants && s.grants[g] == ACTIVE && h !in s.grants
    requires s.pool.reserved > 0 && s.pool.reserved + s.pool.used == s.pool.total == |Admitted(s)|
    ensures var t := Issued(Released(UsedAndExpired(s, g)), h);
            Reachable(t) && t.pool.total == s.pool.total && |Admitted(t)| == t.pool.total + 1
  {
    var expired := UsedAndExpired(s, g);
    UseAndExpireLeads(s, g);
    StepIsReachable(expired, ReleasePoolSlot);
    assert Step(expired, ReleasePoolSlot) == Released(expired);
    IssueLeads(Released(expired), h);
    OneMoreAdmitted(s, g, h);
  }

  lemma OneMoreAdmitted(s: State, g: GrantId, h: GrantId)
    requires g in s.grants && s.grants[g] == ACTIVE && h !in s.grants && s.pool.reserved > 0
    ensures |Admitted(Issued(Released(UsedAndExpired(s, g)), h))| == |Admitted(s)| + 1
  {
    assert Admitted(Issued(Released(UsedAndExpired(s, g)), h)) == Admitted(s) + {h};
  }

  /** A pool of one comes to admit two. */
  lemma StaleExpiryOveradmits()
    ensures exists s: State :: Reachable(s) && s.pool.total == 1 && |Admitted(s)| == 2
  {
    EmptyIsReachable(1);
    IssueLeads(Empty(1), 1);
    var full := Issued(Empty(1), 1);
    assert Admitted(full) == {1};
    StaleExpiryReleasesUsedSlot(full, 1, 2);
  }

  // ---------------------------------------------------------------------------------------------
  // What the counters say
  // ---------------------------------------------------------------------------------------------

  /** The counters against the grants: used slots are the manager's grants, the rest of the balance is reserved. */
  lemma CountersBalance(s: State)
    requires Reachable(s)
    ensures s.pool.used + s.toConsume + s.unconsumed == |s.direct|
    ensures s.pool.reserved + s.pool.released ==
            |s.grants.Keys - s.direct| + s.inHand + s.abandoned + s.toConsume + s.unconsumed
    ensures s.pool.released + s.toRelease + s.unreleased == |Unused(s.grants, s.everConsumed)| + s.stale
  {
    ReachableInv(s);
    assert s.grants.Keys == s.direct + (s.grants.Keys - s.direct);
  }

  /** The counters count the grants by status. */
  ghost predicate ReadsAsDesigned(s: State) {
    && s.pool.reserved == Count(s, ACTIVE)
    && s.pool.used == Count(s, CONSUMED)
    && s.pool.released == Count(s, EXPIRED)
  }

  lemma StatusesPartition(grants: map<GrantId, GrantStatus>)
    ensures |grants.Keys| ==
            |WithGrantStatus(grants, ACTIVE)| + |WithGrantStatus(grants, CONSUMED)| + |WithGrantStatus(grants, EXPIRED)|
  {
    var active, consumed := WithGrantStatus(grants, ACTIVE), WithGrantStatus(grants, CONSUMED);
    assert grants.Keys == active + consumed + WithGrantStatus(grants, EXPIRED);
    assert |active + consumed| == |active| + |consumed|;
  }

  /** Grants that expired after a checkout had used them. */
  function ExpiredAfterUse(s: State): set<GrantId> {
    set g | g in s.grants && s.grants[g] == EXPIRED && g in s.everConsumed
  }

  lemma ExpiredSplits(s: State)
    ensures Count(s, EXPIRED) == |Unused(s.grants, s.everConsumed)| + |ExpiredAfterUse(s)|
  {
    assert WithGrantStatus(s.grants, EXPIRED) == Unused(s.grants, s.everConsumed) + ExpiredAfterUse(s);
    assert Unused(s.grants, s.everConsumed) !! ExpiredAfterUse(s);
  }

  /**
   The counters of a pool count its grants by status exactly when no reservation is in hand or given up, the
   manager's grants number the CONSUMED ones and the consumptions not made, and the expiries not released
   offset the stale ones but for the grants that expired after use.
   */
  lemma ReadsAsDesignedExactlyWhen(s: State)
    requires Reachable(s)
    ensures ReadsAsDesigned(s) <==>
            && s.inHand == 0 && s.abandoned == 0
            && |s.direct| == Count(s, CONSUMED) + s.toConsume + s.unconsumed
            && s.toRelease + s.unreleased + |ExpiredAfterUse(s)| == s.stale
  {
    ReachableInv(s);
    StatusesPartition(s.grants);
    ExpiredSplits(s);
  }

  /** Only the pool manager creates grants. */
  predicate OnlyManager(actions: seq<Action>) {
    forall i :: 0 <= i < |actions| && actions[i].CreateGrant? ==> actions[i].manager
  }

  /** Only the priority and code paths create grants. */
  predicate OnlyRedeem(actions: seq<Action>) {
    forall i :: 0 <= i < |actions| && actions[i].CreateGrant? ==> !actions[i].manager
  }

  lemma {:induction false} DirectGrants(s: State, actions: seq<Action>)
    ensures OnlyManager(actions) && s.direct == s.grants.Keys ==>
              Run(s, actions).direct == Run(s, actions).grants.Keys
    ensures OnlyRedeem(actions) ==> Run(s, actions).direct == s.direct
    decreases actions
  {
    if actions != [] {
      assert OnlyManager(actions) ==> OnlyManager(actions[1..]);
      assert OnlyRedeem(actions) ==> OnlyRedeem(actions[1..]);
      assert s.direct == s.grants.Keys && OnlyManager(actions) ==>
          Step(s, actions[0]).direct == Step(s, actions[0]).grants.Keys;
      DirectGrants(Step(s, actions[0]), actions[1..]);
    }
  }

  /**
   With the pool manager alone, the pool shows nothing reserved or released and one used slot for every grant
   ever issued, exactly when no promotion is under way or has failed and no expiry has found a slot to release.
   */
  lemma ManagerUsesOneSlotPerGrantExactlyWhen(total: nat, actions: seq<Action>)
    requires OnlyManager(actions)
    ensures var s := Run(Empty(total), actions);
            (s.pool.reserved == 0 && s.pool.released == 0 && s.pool.used == |s.grants.Keys|) <==>
            && s.inHand == 0 && s.abandoned == 0 && s.toConsume == 0 && s.unconsumed == 0
            && s.toRelease + s.unreleased == s.expiries
  {
    var s := Run(Empty(total), actions);
    assert Reachable(s);
    ReachableInv(s);
    DirectGrants(Empty(total), actions);
  }

  /** With the priority and code paths alone no slot is ever used, and one is reserved for every grant not released. */
  lemma RedeemUsesNoSlot(total: nat, actions: seq<Action>)
    requires OnlyRedeem(actions)
    ensures var s := Run(Empty(total), actions);
            && s.pool.used == 0
            && s.pool.reserved + s.pool.released == |s.grants.Keys| + s.inHand + s.abandoned
            && (ReadsAsDesigned(s) <==>
                && Count(s, CONSUMED) == 0 && s.inHand == 0 && s.abandoned == 0
                && s.toRelease + s.unreleased + |ExpiredAfterUse(s)| == s.stale)
  {
    var s := Run(Empty(total), actions);
    assert Reachable(s);
    ReachableInv(s);
    DirectGrants(Empty(total), actions);
    ReadsAsDesignedExactlyWhen(s);
  }

  /**
   An expiry of one manager grant can release the reservation of the next, whose consumption then fails: the
   grant is issued, and the used slots fall behind.
   */
  lemma ReleaseTakesTheNextReservation(s: State, g: GrantId)
    requires Reachable(s) && s.toRelease > 0 && s.toConsume == 0 && s.pool.reserved == s.inHand == 1 && g !in s.grants
    ensures var t := Step(Step(Step(s, ReleasePoolSlot), CreateGrant(g, true)), ConsumePoolSlot);
            && Reachable(t) && t.grants == s.grants[g := ACTIVE] && t.direct == s.direct + {g}
            && t.unconsumed == s.unconsumed + 1
            && t.pool == s.pool.(reserved := 0, released := s.pool.released + 1)
  {
    var s1 := Step(s, ReleasePoolSlot);
    var s2 := Step(s1, CreateGrant(g, true));
    StepIsReachable(s, ReleasePoolSlot);
    StepIsReachable(s1, CreateGrant(g, true));
    StepIsReachable(s2, ConsumePoolSlot);
  }

  /** A promotion that runs its three statements undisturbed. */
  function ManagerIssued(s: State, g: GrantId): State {
    s.(pool := ConsumeSlot(ReserveSlot(s.pool)), grants := s.grants[g := ACTIVE], direct := s.direct + {g},
       reserves := s.reserves + 1)
  }

  lemma ManagerIssueLeads(s: State, g: GrantId)
    requires Reachable(s) && s.pool.reserved + s.pool.used < s.pool.total && g !in s.grants && s.toConsume == 0
    ensures Reachable(ManagerIssued(s, g))
  {
    var reserved := s.(pool := ReserveSlot(s.pool), inHand := s.inHand + 1, reserves := s.reserves + 1);
    var granted := reserved.(grants := s.grants[g := ACTIVE], inHand := s.inHand,
                             direct := s.direct + {g}, toConsume := 1);
    StepIsReachable(s, Reserve);
    StepIsReachable(reserved, CreateGrant(g, true));
    assert Step(reserved, CreateGrant(g, true)) == granted;
    StepIsReachable(granted, ConsumePoolSlot);
    assert Step(granted, ConsumePoolSlot) == ManagerIssued(s, g);
  }

  /** A grant that expires unused, its release still to come. */
  function Lapsed(s: State, g: GrantId): State {
    s.(grants := s.grants[g := EXPIRED], toRelease := s.toRelease + 1, expiries := s.expiries + 1)
  }

  lemma LapseLeads(s: State, g: GrantId)
    requires Reachable(s) && g in s.grants && s.grants[g] == ACTIVE
    ensures Reachable(Lapsed(s, g))
  {
    var listed := s.(listed := s.listed + multiset{g});
    StepIsReachable(s, ListExpired(g));
    assert Step(s, ListExpired(g)) == listed;
    StepIsReachable(listed, ExpireGrant(g));
    assert listed.listed - multiset{g} == s.listed;
    assert Step(listed, ExpireGrant(g)) == Lapsed(s, g);
  }

  /** The second of two manager grants, issued around the release of the first one's slot. */
  lemma SecondGrantPays(s: State, h: GrantId)
    returns (t: State)
    requires Reachable(s) && s.toConsume == 0 && s.inHand == 0 && s.pool.reserved == 0 && s.pool.used < s.pool.total
    requires s.toRelease > 0 && h !in s.grants
    ensures Reachable(t) && t.grants == s.grants[h := ACTIVE] && t.direct == s.direct + {h}
    ensures t.pool == s.pool.(released := s.pool.released + 1)
  {
    var reserved := s.(pool := ReserveSlot(s.pool), inHand := 1, reserves := s.reserves + 1);
    StepIsReachable(s, Reserve);
    assert Step(s, Reserve) == reserved;
    ReleaseTakesTheNextReservation(reserved, h);
    t := Step(Step(Step(reserved, ReleasePoolSlot), CreateGrant(h, true)), ConsumePoolSlot);
  }

  /** From any idle pool with two free slots: two manager grants are issued, one slot is used and one released. */
  lemma ManagerSlotReturned(s: State, g: GrantId, h: GrantId)
    returns (t: State)
    requires Reachable(s) && s.toConsume == 0 && s.inHand == 0 && s.pool.reserved == 0
    requires s.pool.used + 2 <= s.pool.total && g !in s.grants && h !in s.grants && g != h
    ensures Reachable(t) && t.grants == s.grants[g := EXPIRED][h := ACTIVE] && t.direct == s.direct + {g, h}
    ensures t.pool == s.pool.(used := s.pool.used + 1, released := s.pool.released + 1)
  {
    ManagerIssueLeads(s, g);
    LapseLeads(ManagerIssued(s, g), g);
    t := SecondGrantPays(Lapsed(ManagerIssued(s, g), g), h);
    assert s.grants[g := ACTIVE][g := EXPIRED] == s.grants[g := EXPIRED];
    assert s.direct + {g} + {h} == s.direct + {g, h};
  }

  // ---------------------------------------------------------------------------------------------
  // The design: each change of a grant moves its slot with it
  // ---------------------------------------------------------------------------------------------

  datatype Ledger = Ledger(pool: Pool, grants: map<GrantId, GrantStatus>)

  datatype Move = Issue(grant: GrantId) | CheckOut(grant: GrantId) | Lapse(grant: GrantId)

  function Apply(l: Ledger, m: Move): Ledger {
    match m
    case Issue(g) =>
      if ReserveSlot(l.pool) != l.pool && g !in l.grants then Ledger(ReserveSlot(l.pool), l.grants[g := ACTIVE]) else l
    case CheckOut(g) =>
      if g in l.grants && l.grants[g] == ACTIVE then Ledger(ConsumeSlot(l.pool), l.grants[g := CONSUMED]) else l
    case Lapse(g) =>
      if g in l.grants && l.grants[g] == ACTIVE then Ledger(ReleaseSlot(l.pool), l.grants[g := EXPIRED]) else l
  }

  function ApplyAll(l: Ledger, moves: seq<Move>): Ledger
    decreases moves
  {
    if moves == [] then l else ApplyAll(Apply(l, moves[0]), moves[1..])
  }

  ghost predicate Counts(l: Ledger) {
    && l.pool.reserved == |WithGrantStatus(l.grants, ACTIVE)|
    && l.pool.used == |WithGrantStatus(l.grants, CONSUMED)|
    && l.pool.released == |WithGrantStatus(l.grants, EXPIRED)|
    && l.pool.reserved + l.pool.used <= l.pool.total
  }

  /** Changing one grant's status moves it between the status sets. */
  lemma GrantMoves(grants: map<GrantId, GrantStatus>, g: GrantId, status: GrantStatus, x: GrantStatus)
    ensures WithGrantStatus(grants[g := status], x) ==
            if x == status then WithGrantStatus(grants, x) + {g} else WithGrantStatus(grants, x) - {g}
  {
  }

  lemma IssueKeepsCounts(l: Ledger, g: GrantId)
    requires Counts(l) && g !in l.grants && l.pool.reserved + l.pool.used < l.pool.total
    ensures Counts(Apply(l, Issue(g)))
  {
    GrantMoves(l.grants, g, ACTIVE, ACTIVE);
    GrantMoves(l.grants, g, ACTIVE, CONSUMED);
    GrantMoves(l.grants, g, ACTIVE, EXPIRED);
    assert WithGrantStatus(l.grants, CONSUMED) - {g} == WithGrantStatus(l.grants, CONSUMED);
    assert WithGrantStatus(l.grants, EXPIRED) - {g} == WithGrantStatus(l.grants, EXPIRED);
  }

  /** A grant leaves ACTIVE for another status. */
  lemma LeaveActive(grants: map<GrantId, GrantStatus>, g: GrantId, status: GrantStatus)
    requires g in grants && grants[g] == ACTIVE && status != ACTIVE
    ensures |WithGrantStatus(grants[g := status], ACTIVE)| == |WithGrantStatus(grants, ACTIVE)| - 1
    ensures |WithGrantStatus(grants[g := status], status)| == |WithGrantStatus(grants, status)| + 1
    ensures forall x: GrantStatus :: x != ACTIVE && x != status ==>
                                       |WithGrantStatus(grants[g := status], x)| == |WithGrantStatus(grants, x)|
  {
    GrantMoves(grants, g, status, ACTIVE);
    GrantMoves(grants, g, status, status);
    assert g in WithGrantStatus(grants, ACTIVE) && g !in WithGrantStatus(grants, status);
    forall x: GrantStatus | x != ACTIVE && x != status
      ensures |WithGrantStatus(grants[g := status], x)| == |WithGrantStatus(grants, x)|
    {
      GrantMoves(grants, g, status, x);
      assert WithGrantStatus(grants, x) - {g} == WithGrantStatus(grants, x);
    }
  }

  /** In every run of the design the counters count the grants by status, so used slots never exceed the total. */
  lemma {:induction false} DesignCounts(l: Ledger, moves: seq<Move>)
    requires Counts(l)
    ensures Counts(ApplyAll(l, moves))
    decreases moves
  {
    if moves != [] {
      if Apply(l, moves[0]) != l {
        match moves[0]
        case Issue(g) => IssueKeepsCounts(l, g);
        case CheckOut(g) => LeaveActive(l.grants, g, CONSUMED);
        case Lapse(g) => LeaveActive(l.grants, g, EXPIRED);
      }
      DesignCounts(Apply(l, moves[0]), moves[1..]);
    }
  }
}
