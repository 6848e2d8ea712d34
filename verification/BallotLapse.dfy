/**
 Ballot winners between lapse and payment.

 A winner who does not pay in time lapses, unless an order covers the entry; a payment converts the
 entries its order covers, even lapsed ones.  The expirer lists first and updates later, so orders are
 created, paid, closed and claimed between its two steps.
 */
module BallotLapse {
  import opened Common

  type EntryId = nat
  type OrderId = nat
  type GrantId = nat
  type UserId = nat
  type CategoryId = nat

  datatype EntryStatus = WINNER | LAPSED | CONVERTED

  datatype Entry = Entry(participant: UserId, category: CategoryId, grant: Option<GrantId>, status: EntryStatus)

  datatype OrderStatus = PENDING_PAYMENT | PAID | EXPIRED | CANCELLED | REFUNDED

  /** An order; `overdue` says that its expiry time has passed. */
  datatype Order = Order(participant: Option<UserId>, category: CategoryId, status: OrderStatus, overdue: bool)

  datatype State = State(
    entries: map<EntryId, Entry>,
    orders: map<OrderId, Order>,
    grantOrders: map<GrantId, OrderId>,       // the order a grant was consumed by
    listed: set<EntryId>)                     // listed by the expirer and not yet updated

  datatype Action =
    | Win(entry: EntryId, participant: UserId, category: CategoryId, grant: Option<GrantId>)
    | CreateOrder(order: OrderId, owner: Option<UserId>, category: CategoryId, grant: Option<GrantId>)
    | Overdue(order: OrderId)
    | Pay(order: OrderId)
    | Close(order: OrderId, status: OrderStatus)
    | Refund(order: OrderId)
    | Claim(order: OrderId, user: UserId)
    | ListExpiring(entry: EntryId)
    | ExpireWinner(entry: EntryId)

  // ---------------------------------------------------------------------------------------------
  // Statements
  // ---------------------------------------------------------------------------------------------

  /** The order belongs to the entry: same participant and category, or through the entry's grant. */
  predicate Covers(s: State, o: OrderId, e: EntryId) {
    && o in s.orders && e in s.entries
    && (|| (s.orders[o].participant == Some(s.entries[e].participant) && s.orders[o].category == s.entries[e].category)
        || (s.entries[e].grant.Some? && s.entries[e].grant.value in s.grantOrders
            && s.grantOrders[s.entries[e].grant.value] == o))
  }

  predicate Protecting(order: Order) {
    order.status == PAID || (order.status == PENDING_PAYMENT && !order.overdue)
  }

  /** Some paid or live pending order covers the entry. */
  predicate Protected(s: State, e: EntryId) {
    exists o :: o in s.orders && Covers(s, o, e) && Protecting(s.orders[o])
  }

  /** The conversion that a payment runs for its order. */
  function Converted(s: State, o: OrderId): map<EntryId, Entry> {
    map e | e in s.entries :: if Covers(s, o, e) then s.entries[e].(status := CONVERTED) else s.entries[e]
  }

  function Step(s: State, a: Action): State {
    match a
    case Win(e, u, c, g) =>
      if e !in s.entries then s.(entries := s.entries[e := Entry(u, c, g, WINNER)]) else s
    case CreateOrder(o, u, c, g) =>
      if o !in s.orders then
        s.(orders := s.orders[o := Order(u, c, PENDING_PAYMENT, false)],
           grantOrders := if g.Some? && g.value !in s.grantOrders then s.grantOrders[g.value := o] else s.grantOrders)
      else s
    case Overdue(o) => if o in s.orders then s.(orders := s.orders[o := s.orders[o].(overdue := true)]) else s
    case Pay(o) =>
      // a payment can be created only for an order that its caller owns, and no order loses its owner
      if o in s.orders && s.orders[o].status == PENDING_PAYMENT && s.orders[o].participant.Some? then
        s.(orders := s.orders[o := s.orders[o].(status := PAID)], entries := Converted(s, o))
      else s
    case Close(o, status) =>
      if o in s.orders && s.orders[o].status == PENDING_PAYMENT && (status == EXPIRED || status == CANCELLED) then
        s.(orders := s.orders[o := s.orders[o].(status := status)])
      else s
    case Refund(o) =>
      if o in s.orders && s.orders[o].status == PAID then
        s.(orders := s.orders[o := s.orders[o].(status := REFUNDED)])
      else s
    case Claim(o, u) =>
      if o in s.orders && s.orders[o].participant.None? then
        s.(orders := s.orders[o := s.orders[o].(participant := Some(u))])
      else s
    case ListExpiring(e) =>
      if e in s.entries && s.entries[e].status == WINNER && !Protected(s, e) then s.(listed := s.listed + {e}) else s
    case ExpireWinner(e) =>
      // the update checks status and orders again, whatever the listing saw
      if e in s.listed && e in s.entries && s.entries[e].status == WINNER && !Protected(s, e) then
        s.(entries := s.entries[e := s.entries[e].(status := LAPSED)], listed := s.listed - {e})
      else s.(listed := s.listed - {e})
  }

  function Run(s: State, actions: seq<Action>): State
    decreases actions
  {
    if actions == [] then s else Run(Step(s, actions[0]), actions[1..])
  }

  predicate Init(s: State) {
    s == State(map[], map[], map[], {})
  }

  // ---------------------------------------------------------------------------------------------
  // Entries over a run
  // ---------------------------------------------------------------------------------------------

  /** Entries keep who they are, and CONVERTED is final. */
  ghost predicate Onward(s: State, t: State) {
    forall e :: e in s.entries ==>
                  && e in t.entries
                  && t.entries[e] == s.entries[e].(status := t.entries[e].status)
                  && (s.entries[e].status == CONVERTED ==> t.entries[e].status == CONVERTED)
                  && (s.entries[e].status == LAPSED ==> t.entries[e].status != WINNER)
  }

  lemma StepIsOnward(s: State, a: Action)
    ensures Onward(s, Step(s, a))
  {
  }

  lemma OnwardIsTransitive(s: State, t: State, u: State)
    requires Onward(s, t) && Onward(t, u)
    ensures Onward(s, u)
  {
  }

  lemma {:induction false} RunIsOnward(s: State, actions: seq<Action>)
    ensures Onward(s, Run(s, actions))
    decreases actions
  {
    if actions != [] {
      StepIsOnward(s, actions[0]);
      RunIsOnward(Step(s, actions[0]), actions[1..]);
      OnwardIsTransitive(s, Step(s, actions[0]), Run(s, actions));
    }
  }

  /** What links an entry to an order does not change, and no order loses its owner. */
  lemma CoverStays(s: State, a: Action, o: OrderId, e: EntryId)
    requires Covers(s, o, e)
    ensures Covers(Step(s, a), o, e)
    ensures s.orders[o].participant.Some? ==> Step(s, a).orders[o].participant == s.orders[o].participant
  {
  }

  lemma {:induction false} CoverStaysThrough(s: State, actions: seq<Action>, o: OrderId, e: EntryId)
    requires Covers(s, o, e)
    ensures Covers(Run(s, actions), o, e)
    decreases actions
  {
    if actions != [] {
      CoverStays(s, actions[0], o, e);
      CoverStaysThrough(Step(s, actions[0]), actions[1..], o, e);
    }
  }

  /**
   The fate of an entry covered by a participant's pending order: as long as the order is live the entry
   does not lapse, and once it is paid the entry is CONVERTED for good, even if it had lapsed before.
   */
  lemma {:induction false} EntryFollowsItsOrder(s: State, actions: seq<Action>, o: OrderId, e: EntryId)
    requires Covers(s, o, e) && s.orders[o].participant.Some? && s.orders[o].status == PENDING_PAYMENT
    ensures var t := Run(s, actions);
            && o in t.orders && e in t.entries
            && (t.orders[o].status == PAID || t.orders[o].status == REFUNDED ==> t.entries[e].status == CONVERTED)
            && (t.orders[o].status == PENDING_PAYMENT && !t.orders[o].overdue && s.entries[e].status == WINNER ==>
                  t.entries[e].status != LAPSED)
    decreases actions
  {
    if actions != [] {
      var next := Step(s, actions[0]);
      CoverStays(s, actions[0], o, e);
      if next.orders[o].status == PENDING_PAYMENT {
        EntryFollowsItsOrder(next, actions[1..], o, e);
        OverdueStays(next, actions[1..], o);
        if !next.orders[o].overdue && s.entries[e].status == WINNER && next.entries[e].status == LAPSED {
          assert Protecting(s.orders[o]);
        }
        if next.entries[e].status == CONVERTED {
          RunIsOnward(next, actions[1..]);
        }
      } else {
        ClosedStays(next, actions[1..], o);
        RunIsOnward(next, actions[1..]);
      }
    }
  }

  lemma {:induction false} OverdueStays(s: State, actions: seq<Action>, o: OrderId)
    requires o in s.orders
    ensures o in Run(s, actions).orders && (s.orders[o].overdue ==> Run(s, actions).orders[o].overdue)
    decreases actions
  {
    if actions != [] {
      OverdueStays(Step(s, actions[0]), actions[1..], o);
    }
  }

  /** An order that is no longer pending never becomes pending or paid again. */
  lemma {:induction false} ClosedStays(s: State, actions: seq<Action>, o: OrderId)
    requires o in s.orders && s.orders[o].status != PENDING_PAYMENT
    ensures var t := Run(s, actions);
            && o in t.orders && t.orders[o].status != PENDING_PAYMENT
            && (s.orders[o].status != PAID ==> t.orders[o].status == s.orders[o].status)
            && (s.orders[o].status == PAID ==> t.orders[o].status == PAID || t.orders[o].status == REFUNDED)
    decreases actions
  {
    if actions != [] {
      ClosedStays(Step(s, actions[0]), actions[1..], o);
    }
  }

  /** An entry of a live pending order does not lapse while the order stays so, whoever owns the order. */
  lemma {:induction false} LiveOrderProtects(s: State, actions: seq<Action>, o: OrderId, e: EntryId)
    requires Covers(s, o, e) && s.entries[e].status != LAPSED
    ensures var t := Run(s, actions);
            && o in t.orders && e in t.entries
            && (t.orders[o].status == PENDING_PAYMENT && !t.orders[o].overdue ==> t.entries[e].status != LAPSED)
    decreases actions
  {
    if actions != [] {
      var next := Step(s, actions[0]);
      CoverStays(s, actions[0], o, e);
      OverdueStays(next, actions[1..], o);
      if next.orders[o].status != PENDING_PAYMENT {
        ClosedStays(next, actions[1..], o);
      }
      if next.entries[e].status == LAPSED {
        assert !Protecting(s.orders[o]);
        RunIsOnward(next, actions[1..]);
        if next.orders[o].status == PENDING_PAYMENT {
          assert next.orders[o].overdue;
        }
      } else {
        LiveOrderProtects(next, actions[1..], o, e);
      }
    }
  }

  // ---------------------------------------------------------------------------------------------
  // Entries of paid orders
  // ---------------------------------------------------------------------------------------------

  /** Every PAID order has an owner, and no entry that it covers is lapsed. */
  ghost predicate Inv(s: State) {
    && (forall o :: o in s.orders && s.orders[o].status == PAID ==> s.orders[o].participant.Some?)
    && (forall g :: g in s.grantOrders ==> s.grantOrders[g] in s.orders)
    && (forall o, e :: Covers(s, o, e) && s.orders[o].status == PAID ==> s.entries[e].status != LAPSED)
  }

  lemma PayKeepsInv(s: State, o: OrderId)
    requires Inv(s)
    ensures Inv(Step(s, Pay(o)))
  {
    var t := Step(s, Pay(o));
    if t != s {
      forall p, e | p in t.orders && Covers(t, p, e) ensures Covers(s, p, e) {
      }
    }
  }

  lemma OtherStepsKeepInv(s: State, a: Action)
    requires Inv(s) && !a.Pay?
    ensures Inv(Step(s, a))
  {
    var t := Step(s, a);
    forall o, e | Covers(t, o, e) && t.orders[o].status == PAID ensures t.entries[e].status != LAPSED {
      if e in s.entries {
        assert Covers(s, o, e);
        if t.entries[e] != s.entries[e] {
          assert Protecting(s.orders[o]);
        }
      }
    }
  }

  lemma {:induction false} RunKeepsInv(s: State, actions: seq<Action>)
    requires Inv(s)
    ensures Inv(Run(s, actions))
    decreases actions
  {
    if actions != [] {
      if actions[0].Pay? {
        PayKeepsInv(s, actions[0].order);
      } else {
        OtherStepsKeepInv(s, actions[0]);
      }
      RunKeepsInv(Step(s, actions[0]), actions[1..]);
    }
  }

  ghost predicate Reachable(s: State) {
    exists s0: State, actions: seq<Action> :: Init(s0) && s == Run(s0, actions)
  }

  /** In every reachable state, no entry that a PAID order covers is lapsed. */
  lemma PaidEntryIsNeverLapsed(s: State, o: OrderId, e: EntryId)
    requires Reachable(s) && Covers(s, o, e) && s.orders[o].status == PAID
    ensures s.entries[e].status != LAPSED
  {
    var s0: State, actions: seq<Action> :| Init(s0) && s == Run(s0, actions);
    RunKeepsInv(s0, actions);
  }

  /**
   A winner whose entry an order covers has not lapsed at the end of any run, if that order is then PAID or
   still live: whatever the expirer listed, and whatever else was created, paid, closed or claimed.
   */
  lemma CoveredWinnerDoesNotLapse(s: State, actions: seq<Action>, o: OrderId, e: EntryId)
    requires Reachable(s) && Covers(s, o, e) && s.entries[e].status == WINNER
    ensures var t := Run(s, actions);
            && o in t.orders && e in t.entries
            && (Protecting(t.orders[o]) ==> t.entries[e].status != LAPSED)
  {
    var s0: State, before: seq<Action> :| Init(s0) && s == Run(s0, before);
    RunKeepsInv(s0, before);
    RunKeepsInv(s, actions);
    CoverStaysThrough(s, actions, o, e);
    LiveOrderProtects(s, actions, o, e);
  }
}
