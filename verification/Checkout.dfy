/**
 Checkout, payment, expiry, cancellation, refund and claim of the orders of one category, one committed
 statement or transaction at a time.

 A checkout holds the category row lock from `Begin` to `Commit` or `Abort`, but its three counts are
 separate statements under READ COMMITTED: anything that does not need the lock may commit between them.
 Payment callbacks, sweeps, cancellations and refunds do not need it.
 */
module Checkout {
  import opened Common

  type OrderId = nat
  type PaymentId = nat
  type UserId = nat

  datatype OrderStatus = PENDING_PAYMENT | PAID | EXPIRED | CANCELLED | REFUNDED

  datatype ReservationStatus = ACTIVE | COMPLETED | LAPSED | RELEASED

  datatype PaymentStatus = OPEN | SETTLED | FAILED

  /** Who checks out: a participant, or a guest known by an address. */
  datatype Buyer = Participant(user: UserId) | Guest(email: nat)

  /** An order and the participant that owns it. */
  datatype Order = Order(buyer: Buyer, participant: Option<UserId>, status: OrderStatus)

  datatype Payment = Payment(order: OrderId, status: PaymentStatus)

  /** The checkout holding the category lock, and what it has counted so far. */
  datatype Lock =
    | Unlocked
    | Locked(buyer: Buyer, active: Option<nat>, paid: Option<nat>, held: Option<nat>)

  type Orders = map<OrderId, Order>

  datatype State = State(
    capacity: nat,
    maxPerUser: nat,
    lock: Lock,
    orders: Orders,
    reservations: map<OrderId, ReservationStatus>,
    payments: map<PaymentId, Payment>,
    tickets: set<OrderId>,
    fees: set<OrderId>,
    refunding: set<OrderId>,                        // refunds that have read PAID and not yet written
    paidBy: map<OrderId, PaymentId>,                // history: the payment that turned the order PAID
    paidLog: multiset<OrderId>,                     // history: each transition of an order to PAID
    settledLog: multiset<PaymentId>)                // history: each time a payment left OPEN

  predicate Init(s: State) {
    && s.lock == Unlocked && s.orders == map[] && s.reservations == map[] && s.payments == map[]
    && s.tickets == {} && s.fees == {} && s.refunding == {}
    && s.paidBy == map[] && s.paidLog == multiset{} && s.settledLog == multiset{}
  }

  // ---------------------------------------------------------------------------------------------
  // Counts
  // ---------------------------------------------------------------------------------------------

  function ActiveReservations(reservations: map<OrderId, ReservationStatus>): set<OrderId> {
    set o | o in reservations && reservations[o] == ACTIVE
  }

  function WithStatus(orders: Orders, status: OrderStatus): set<OrderId> {
    set o | o in orders && orders[o].status == status
  }

  predicate Live(status: OrderStatus) {
    status == PENDING_PAYMENT || status == PAID
  }

  predicate HeldBy(order: Order, b: Buyer) {
    if b.Participant? then order.participant == Some(b.user) else order.buyer == b
  }

  /** What the per-user limit counts: live orders of a participant, or of a guest address. */
  function LiveHeld(orders: Orders, b: Buyer): set<OrderId> {
    set o | o in orders && HeldBy(orders[o], b) && Live(orders[o].status)
  }

  function LiveBought(orders: Orders, b: Buyer): set<OrderId> {
    set o | o in orders && orders[o].buyer == b && Live(orders[o].status)
  }

  // ---------------------------------------------------------------------------------------------
  // Steps
  // ---------------------------------------------------------------------------------------------

  datatype Action =
    | Begin(buyer: Buyer) | CountActive | CountPaid | CountHeld | Commit(order: OrderId) | Abort
    | InsertPayment(payment: PaymentId, order: OrderId)
    | CallbackPaid(payment: PaymentId, withFee: bool) | CallbackFailed(payment: PaymentId)
    | Expire(order: OrderId) | Cancel(order: OrderId)
    | RefundRead(order: OrderId) | RefundWrite(order: OrderId)
    | Claim(order: OrderId, user: UserId)

  function SetStatus(orders: Orders, o: OrderId, status: OrderStatus): Orders
    requires o in orders
  {
    orders[o := orders[o].(status := status)]
  }

  /** The reservation of an order leaves ACTIVE. */
  function Release(reservations: map<OrderId, ReservationStatus>, o: OrderId, status: ReservationStatus)
    : map<OrderId, ReservationStatus>
  {
    if o in reservations && reservations[o] == ACTIVE then reservations[o := status] else reservations
  }

  function CheckoutStep(s: State, a: Action): State {
    match (a, s.lock)
    case (Begin(b), Unlocked) => s.(lock := Locked(b, None, None, None))
    case (CountActive, Locked(b, None, None, None)) =>
      s.(lock := s.lock.(active := Some(|ActiveReservations(s.reservations)|)))
    case (CountPaid, Locked(b, Some(active), None, None)) =>
      s.(lock := s.lock.(paid := Some(|WithStatus(s.orders, PAID)|)))
    case (CountHeld, Locked(b, Some(active), Some(paid), None)) =>
      // sold out otherwise
      if s.capacity - active - paid > 0 then s.(lock := s.lock.(held := Some(|LiveHeld(s.orders, b)|))) else s
    case (Commit(o), Locked(b, Some(active), Some(paid), Some(held))) =>
      if held >= s.maxPerUser || o in s.orders then s
      // a guest's reservation names the nil user, which its foreign key refuses: the transaction rolls back
      else if b.Guest? then s.(lock := Unlocked)
      else
        s.(lock := Unlocked,
           orders := s.orders[o := Order(b, Some(b.user), PENDING_PAYMENT)],
           reservations := s.reservations[o := ACTIVE])
    case (Abort, Locked(_, _, _, _)) => s.(lock := Unlocked)
    case _ => s
  }

  /** A payment that is open or settled; an order has at most one such payment, by a unique index. */
  predicate Standing(payments: map<PaymentId, Payment>, p: PaymentId, o: OrderId) {
    p in payments && payments[p].order == o && payments[p].status != FAILED
  }

  function PaymentStep(s: State, a: Action): State {
    match a
    case InsertPayment(p, o) =>
      // the order was seen PENDING_PAYMENT some time before, and owned by the caller
      if p !in s.payments && o in s.orders && s.orders[o].participant.Some?
         && (forall q :: q in s.payments ==> !Standing(s.payments, q, o)) then
        s.(payments := s.payments[p := Payment(o, OPEN)])
      else s
    case CallbackPaid(p, withFee) =>
      if p in s.payments && s.payments[p].status == OPEN then
        var o := s.payments[p].order;
        var t := s.(payments := s.payments[p := s.payments[p].(status := SETTLED)],
                    settledLog := s.settledLog + multiset{p});
        if o in s.orders && s.orders[o].status == PENDING_PAYMENT then
          t.(orders := SetStatus(s.orders, o, PAID),
             reservations := Release(s.reservations, o, COMPLETED),
             tickets := s.tickets + {o},
             fees := if withFee then s.fees + {o} else s.fees,
             paidBy := s.paidBy[o := p],
             paidLog := s.paidLog + multiset{o})
        else t
      else s
    case CallbackFailed(p) =>
      if p in s.payments && s.payments[p].status == OPEN then
        s.(payments := s.payments[p := s.payments[p].(status := FAILED)], settledLog := s.settledLog + multiset{p})
      else s
    case _ => s
  }

  function OrderStep(s: State, a: Action): State {
    match a
    case Expire(o) =>
      if o in s.orders && s.orders[o].status == PENDING_PAYMENT then
        s.(orders := SetStatus(s.orders, o, EXPIRED),
           reservations := Release(s.reservations, o, LAPSED))
      else s
    case Cancel(o) =>
      if o in s.orders && s.orders[o].status == PENDING_PAYMENT then
        s.(orders := SetStatus(s.orders, o, CANCELLED),
           reservations := Release(s.reservations, o, RELEASED))
      else s
    case RefundRead(o) =>
      if o in s.orders && s.orders[o].status == PAID then s.(refunding := s.refunding + {o}) else s
    case RefundWrite(o) =>
      // the write carries no guard on the status
      if o in s.refunding && o in s.orders then
        s.(orders := SetStatus(s.orders, o, REFUNDED), refunding := s.refunding - {o})
      else s
    case Claim(o, u) =>
      if o in s.orders && s.orders[o].participant.None? then
        s.(orders := s.orders[o := s.orders[o].(participant := Some(u))])
      else s
    case _ => s
  }

  predicate UnderLock(a: Action) {
    a.Begin? || a.CountActive? || a.CountPaid? || a.CountHeld? || a.Commit? || a.Abort?
  }

  predicate OnPayments(a: Action) {
    a.InsertPayment? || a.CallbackPaid? || a.CallbackFailed?
  }

  function Step(s: State, a: Action): State {
    if UnderLock(a) then CheckoutStep(s, a) else if OnPayments(a) then PaymentStep(s, a) else OrderStep(s, a)
  }

  function Run(s: State, actions: seq<Action>): State
    decreases actions
  {
    if actions == [] then s else Run(Step(s, actions[0]), actions[1..])
  }

  // ---------------------------------------------------------------------------------------------
  // The invariant, by part
  // ---------------------------------------------------------------------------------------------

  predicate Sold(status: OrderStatus) {
    status == PAID || status == REFUNDED
  }

  function ReservationOf(status: OrderStatus): ReservationStatus {
    match status
    case PENDING_PAYMENT => ACTIVE
    case PAID => COMPLETED
    case REFUNDED => COMPLETED
    case EXPIRED => LAPSED
    case CANCELLED => RELEASED
  }

  /** Each order has one reservation, and the order's status determines the reservation's. */
  ghost predicate Linked(orders: Orders, reservations: map<OrderId, ReservationStatus>) {
    && orders.Keys == reservations.Keys
    && forall o :: o in orders ==> reservations[o] == ReservationOf(orders[o].status)
  }

  /** Tickets are exactly the sold orders; fees and refunds concern sold orders only. */
  ghost predicate Issued(orders: Orders, tickets: set<OrderId>, fees: set<OrderId>, refunding: set<OrderId>) {
    && tickets <= orders.Keys
    && (forall o :: o in orders ==> (o in tickets <==> Sold(orders[o].status)))
    && fees <= tickets && refunding <= tickets
  }

  /** Each sold order was turned PAID once, by one settled payment of its own. */
  ghost predicate PaidOnce(
    orders: Orders, payments: map<PaymentId, Payment>, paidBy: map<OrderId, PaymentId>, paidLog: multiset<OrderId>)
  {
    && (forall o :: o in paidBy ==> o in orders)
    && (forall o :: o in orders ==> (o in paidBy <==> Sold(orders[o].status)))
    && (forall o :: o in paidBy ==> paidBy[o] in payments && payments[paidBy[o]] == Payment(o, SETTLED))
    && (forall o :: paidLog[o] == if o in paidBy then 1 else 0)
  }

  /** Each payment left OPEN at most once, belongs to an order, and is its order's only standing payment. */
  ghost predicate SettledOnce(orders: Orders, payments: map<PaymentId, Payment>, settledLog: multiset<PaymentId>) {
    && (forall p :: p in payments ==> payments[p].order in orders)
    && (forall p, q :: (p in payments && q in payments && payments[p].order == payments[q].order
                        && payments[p].status != FAILED && payments[q].status != FAILED) ==> p == q)
    && (forall p :: settledLog[p] == if p in payments && payments[p].status != OPEN then 1 else 0)
  }

  /** A settled payment has decided its order, or found it decided. */
  ghost predicate Decided(orders: Orders, payments: map<PaymentId, Payment>) {
    forall p :: p in payments && payments[p].status == SETTLED && payments[p].order in orders ==>
                  orders[payments[p].order].status != PENDING_PAYMENT
  }

  /** Slots taken: ACTIVE reservations plus PAID orders. */
  ghost function Taken(s: State): nat {
    |ActiveReservations(s.reservations)| + |WithStatus(s.orders, PAID)|
  }

  /** What the checkout in progress has counted still bounds what is taken. */
  ghost predicate Bounded(s: State) {
    && Taken(s) <= s.capacity
    && (s.lock.Locked? && s.lock.active.Some? ==> |ActiveReservations(s.reservations)| <= s.lock.active.value)
    && (s.lock.Locked? && s.lock.paid.Some? ==>
          s.lock.active.Some? && Taken(s) <= s.lock.active.value + s.lock.paid.value)
    && (s.lock.Locked? && s.lock.held.Some? ==>
          s.lock.paid.Some? && s.lock.active.Some? && s.capacity - s.lock.active.value - s.lock.paid.value > 0)
  }

  /** Every order is owned by the participant who checked it out, and nobody holds more than the limit. */
  ghost predicate Limited(s: State) {
    && (forall b: Buyer :: |LiveBought(s.orders, b)| <= s.maxPerUser)
    && (s.lock.Locked? && s.lock.held.Some? ==> |LiveBought(s.orders, s.lock.buyer)| <= s.lock.held.value)
    && (forall o :: o in s.orders ==> OwnedByBuyer(s.orders[o]))
  }

  predicate OwnedByBuyer(order: Order) {
    order.buyer.Participant? && order.participant == Some(order.buyer.user)
  }

  ghost predicate Books(s: State) {
    && Linked(s.orders, s.reservations)
    && Issued(s.orders, s.tickets, s.fees, s.refunding)
    && PaidOnce(s.orders, s.payments, s.paidBy, s.paidLog)
    && SettledOnce(s.orders, s.payments, s.settledLog)
    && Decided(s.orders, s.payments)
  }

  ghost predicate Inv(s: State) {
    Books(s) && Limited(s) && Bounded(s)
  }

  lemma InitInv(s: State)
    requires Init(s)
    ensures Inv(s)
  {
    assert ActiveReservations(s.reservations) == {} && WithStatus(s.orders, PAID) == {};
    forall b: Buyer ensures LiveBought(s.orders, b) == {} {
    }
  }

  // ---------------------------------------------------------------------------------------------
  // Books
  // ---------------------------------------------------------------------------------------------

  lemma NewOrderKeepsTables(s: State, o: OrderId, order: Order)
    requires o !in s.orders && order.status == PENDING_PAYMENT
    requires Linked(s.orders, s.reservations) && Issued(s.orders, s.tickets, s.fees, s.refunding)
    ensures Linked(s.orders[o := order], s.reservations[o := ACTIVE])
    ensures Issued(s.orders[o := order], s.tickets, s.fees, s.refunding)
  {
  }

  lemma NewOrderKeepsPayments(s: State, o: OrderId, order: Order)
    requires o !in s.orders && order.status == PENDING_PAYMENT
    requires PaidOnce(s.orders, s.payments, s.paidBy, s.paidLog)
    requires SettledOnce(s.orders, s.payments, s.settledLog) && Decided(s.orders, s.payments)
    ensures PaidOnce(s.orders[o := order], s.payments, s.paidBy, s.paidLog)
    ensures SettledOnce(s.orders[o := order], s.payments, s.settledLog) && Decided(s.orders[o := order], s.payments)
  {
  }

  function WithNewOrder(s: State, b: Buyer, o: OrderId): State {
    s.(orders := s.orders[o := Order(b, if b.Participant? then Some(b.user) else None, PENDING_PAYMENT)],
       reservations := s.reservations[o := ACTIVE])
  }

  /** A commit does nothing, rolls back, or adds a new pending order with its reservation. */
  lemma CommitForms(s: State, o: OrderId)
    ensures var t := CheckoutStep(s, Commit(o));
            || t == s
            || t == s.(lock := Unlocked)
            || (Committable(s, o) && t == WithNewOrder(s, s.lock.buyer, o).(lock := Unlocked))
  {
  }

  predicate Committable(s: State, o: OrderId) {
    && s.lock.Locked? && s.lock.buyer.Participant? && o !in s.orders
    && s.lock.active.Some? && s.lock.paid.Some? && s.lock.held.Some? && s.lock.held.value < s.maxPerUser
  }

  /** Every other checkout step only moves the lock. */
  lemma OthersMoveLock(s: State, a: Action)
    requires !a.Commit?
    ensures CheckoutStep(s, a) == s.(lock := CheckoutStep(s, a).lock)
  {
  }

  lemma CheckoutKeepsBooks(s: State, a: Action)
    requires Books(s)
    ensures Books(CheckoutStep(s, a))
  {
    var t := CheckoutStep(s, a);
    if a.Commit? {
      CommitForms(s, a.order);
      if t.orders != s.orders {
        NewOrderKeepsTables(s, a.order, t.orders[a.order]);
        NewOrderKeepsPayments(s, a.order, t.orders[a.order]);
      }
    } else {
      OthersMoveLock(s, a);
    }
  }

  lemma NewPaymentStands(s: State, p: PaymentId, o: OrderId)
    requires SettledOnce(s.orders, s.payments, s.settledLog)
    requires p !in s.payments && o in s.orders && (forall q :: q in s.payments ==> !Standing(s.payments, q, o))
    ensures SettledOnce(s.orders, s.payments[p := Payment(o, OPEN)], s.settledLog)
  {
    forall q | q in s.payments && s.payments[q].order == o ensures s.payments[q].status == FAILED {
      assert !Standing(s.payments, q, o);
    }
  }

  lemma NewPaymentKeepsPaidOnce(s: State, p: PaymentId, payment: Payment)
    requires PaidOnce(s.orders, s.payments, s.paidBy, s.paidLog) && p !in s.payments
    ensures PaidOnce(s.orders, s.payments[p := payment], s.paidBy, s.paidLog)
  {
  }

  lemma InsertKeepsBooks(s: State, p: PaymentId, o: OrderId)
    requires Books(s)
    ensures Books(PaymentStep(s, InsertPayment(p, o)))
  {
    var t := PaymentStep(s, InsertPayment(p, o));
    if t != s {
      NewPaymentStands(s, p, o);
      NewPaymentKeepsPaidOnce(s, p, Payment(o, OPEN));
      assert Decided(s.orders, t.payments);
      assert t == s.(payments := s.payments[p := Payment(o, OPEN)]);
    }
  }

  /** Settling an open payment keeps every payment's order and settles it for the first time. */
  lemma SettleKeepsPayments(s: State, p: PaymentId, status: PaymentStatus)
    requires SettledOnce(s.orders, s.payments, s.settledLog)
    requires p in s.payments && s.payments[p].status == OPEN && status != OPEN
    ensures SettledOnce(s.orders, s.payments[p := s.payments[p].(status := status)], s.settledLog + multiset{p})
  {
  }

  lemma StillDecided(s: State, p: PaymentId)
    requires Decided(s.orders, s.payments) && p in s.payments
    ensures Decided(s.orders, s.payments[p := s.payments[p].(status := FAILED)])
  {
  }

  lemma FailedKeepsBooks(s: State, p: PaymentId)
    requires Books(s)
    ensures Books(PaymentStep(s, CallbackFailed(p)))
  {
    if p in s.payments && s.payments[p].status == OPEN {
      SettleKeepsPayments(s, p, FAILED);
      StillPaidOnce(s, p, FAILED);
      StillDecided(s, p);
    }
  }

  lemma PaidKeepsOrders(s: State, p: PaymentId)
    requires PaidOnce(s.orders, s.payments, s.paidBy, s.paidLog)
    requires p in s.payments && s.payments[p].status == OPEN
    requires s.payments[p].order in s.orders && s.orders[s.payments[p].order].status == PENDING_PAYMENT
    ensures var o := s.payments[p].order;
            var payments := s.payments[p := s.payments[p].(status := SETTLED)];
            PaidOnce(SetStatus(s.orders, o, PAID), payments, s.paidBy[o := p], s.paidLog + multiset{o})
  {
  }

  lemma StillPaidOnce(s: State, p: PaymentId, status: PaymentStatus)
    requires PaidOnce(s.orders, s.payments, s.paidBy, s.paidLog)
    requires p in s.payments && s.payments[p].status == OPEN
    ensures PaidOnce(s.orders, s.payments[p := s.payments[p].(status := status)], s.paidBy, s.paidLog)
  {
  }

  /** A change of status keeps the reservation in step. */
  lemma ChangeKeepsLinked(s: State, o: OrderId, status: OrderStatus)
    requires Linked(s.orders, s.reservations) && o in s.orders && s.orders[o].status == PENDING_PAYMENT
    requires status != PENDING_PAYMENT
    ensures Linked(SetStatus(s.orders, o, status), Release(s.reservations, o, ReservationOf(status)))
  {
  }

  lemma StatusKeepsPayments(s: State, o: OrderId, status: OrderStatus)
    requires SettledOnce(s.orders, s.payments, s.settledLog) && o in s.orders
    ensures SettledOnce(SetStatus(s.orders, o, status), s.payments, s.settledLog)
  {
  }

  lemma PaidKeepsIssued(s: State, o: OrderId, fees: set<OrderId>)
    requires Issued(s.orders, s.tickets, s.fees, s.refunding)
    requires o in s.orders && (fees == s.fees || fees == s.fees + {o})
    ensures Issued(SetStatus(s.orders, o, PAID), s.tickets + {o}, fees, s.refunding)
  {
  }

  lemma PaidKeepsBooks(s: State, p: PaymentId, withFee: bool)
    requires Books(s)
    ensures Books(PaymentStep(s, CallbackPaid(p, withFee)))
  {
    if p in s.payments && s.payments[p].status == OPEN {
      var o := s.payments[p].order;
      SettleKeepsPayments(s, p, SETTLED);
      StillPaidOnce(s, p, SETTLED);
      if s.orders[o].status == PENDING_PAYMENT {
        PaidKeepsOrders(s, p);
        ChangeKeepsLinked(s, o, PAID);
        PaidKeepsIssued(s, o, if withFee then s.fees + {o} else s.fees);
        var u := s.(payments := s.payments[p := s.payments[p].(status := SETTLED)],
                    settledLog := s.settledLog + multiset{p});
        StatusKeepsPayments(u, o, PAID);
      }
    }
  }

  lemma PaymentKeepsBooks(s: State, a: Action)
    requires Books(s)
    ensures Books(PaymentStep(s, a))
  {
    match a
    case InsertPayment(p, o) => InsertKeepsBooks(s, p, o);
    case CallbackPaid(p, withFee) => PaidKeepsBooks(s, p, withFee);
    case CallbackFailed(p) => FailedKeepsBooks(s, p);
    case _ =>
  }

  lemma CloseKeepsIssued(s: State, o: OrderId, status: OrderStatus)
    requires Issued(s.orders, s.tickets, s.fees, s.refunding)
    requires PaidOnce(s.orders, s.payments, s.paidBy, s.paidLog) && Decided(s.orders, s.payments)
    requires o in s.orders && s.orders[o].status == PENDING_PAYMENT && (status == EXPIRED || status == CANCELLED)
    ensures Issued(SetStatus(s.orders, o, status), s.tickets, s.fees, s.refunding)
    ensures PaidOnce(SetStatus(s.orders, o, status), s.payments, s.paidBy, s.paidLog)
    ensures Decided(SetStatus(s.orders, o, status), s.payments)
  {
  }

  /** Closing a pending order without payment. */
  lemma CloseKeepsBooks(s: State, o: OrderId, status: OrderStatus)
    requires Books(s) && o in s.orders && s.orders[o].status == PENDING_PAYMENT
    requires status == EXPIRED || status == CANCELLED
    ensures Books(s.(orders := SetStatus(s.orders, o, status),
                     reservations := Release(s.reservations, o, ReservationOf(status))))
  {
    ChangeKeepsLinked(s, o, status);
    CloseKeepsIssued(s, o, status);
    StatusKeepsPayments(s, o, status);
  }

  lemma RefundKeepsBooks(s: State, o: OrderId)
    requires Books(s) && o in s.refunding
    ensures Books(s.(orders := SetStatus(s.orders, o, REFUNDED), refunding := s.refunding - {o}))
  {
    StatusKeepsPayments(s, o, REFUNDED);
  }

  /** The tables speak of orders only through their statuses. */
  ghost predicate SameStatuses(orders: Orders, orders': Orders) {
    orders.Keys == orders'.Keys && forall o :: o in orders ==> orders'[o].status == orders[o].status
  }

  lemma SameStatusesKeepTables(s: State, orders: Orders)
    requires SameStatuses(s.orders, orders)
    requires Linked(s.orders, s.reservations) && Issued(s.orders, s.tickets, s.fees, s.refunding)
    ensures Linked(orders, s.reservations) && Issued(orders, s.tickets, s.fees, s.refunding)
  {
  }

  lemma SameStatusesKeepPayments(s: State, orders: Orders)
    requires SameStatuses(s.orders, orders)
    requires PaidOnce(s.orders, s.payments, s.paidBy, s.paidLog)
    requires SettledOnce(s.orders, s.payments, s.settledLog) && Decided(s.orders, s.payments)
    ensures PaidOnce(orders, s.payments, s.paidBy, s.paidLog)
    ensures SettledOnce(orders, s.payments, s.settledLog) && Decided(orders, s.payments)
  {
  }

  lemma ClaimKeepsBooks(s: State, o: OrderId, u: UserId)
    requires Books(s) && o in s.orders
    ensures Books(s.(orders := s.orders[o := s.orders[o].(participant := Some(u))]))
  {
    var orders := s.orders[o := s.orders[o].(participant := Some(u))];
    SameStatusesKeepTables(s, orders);
    SameStatusesKeepPayments(s, orders);
  }

  lemma RefundReadKeepsBooks(s: State, o: OrderId)
    requires Books(s)
    ensures Books(OrderStep(s, RefundRead(o)))
  {
  }

  lemma OrderKeepsBooks(s: State, a: Action)
    requires Books(s)
    ensures Books(OrderStep(s, a))
  {
    if OrderStep(s, a) != s {
      match a
      case Expire(o) => CloseKeepsBooks(s, o, EXPIRED);
      case Cancel(o) => CloseKeepsBooks(s, o, CANCELLED);
      case RefundRead(o) => RefundReadKeepsBooks(s, o);
      case RefundWrite(o) => RefundKeepsBooks(s, o);
      case Claim(o, u) => ClaimKeepsBooks(s, o, u);
    }
  }

  // ---------------------------------------------------------------------------------------------
  // Capacity
  // ---------------------------------------------------------------------------------------------

  /** The reservations counted as ACTIVE are those of the pending orders. */
  lemma ActiveIsPending(s: State)
    requires Linked(s.orders, s.reservations)
    ensures ActiveReservations(s.reservations) == WithStatus(s.orders, PENDING_PAYMENT)
  {
  }

  /** Changing one order's status moves that order between the status sets. */
  lemma StatusMoves(orders: Orders, o: OrderId, status: OrderStatus, x: OrderStatus)
    requires o in orders
    ensures WithStatus(SetStatus(orders, o, status), x) ==
            if x == status then WithStatus(orders, x) + {o} else WithStatus(orders, x) - {o}
  {
  }

  /** The order that a payment step turns PAID, if any. */
  lemma PaidByStep(s: State, a: Action) returns (paid: Option<OrderId>)
    ensures paid.None? ==> PaymentStep(s, a).orders == s.orders
    ensures paid.Some? ==> paid.value in s.orders && s.orders[paid.value].status == PENDING_PAYMENT
                           && PaymentStep(s, a).orders == SetStatus(s.orders, paid.value, PAID)
  {
    paid := None;
    if a.CallbackPaid? && a.payment in s.payments && s.payments[a.payment].status == OPEN {
      var o := s.payments[a.payment].order;
      if o in s.orders && s.orders[o].status == PENDING_PAYMENT {
        paid := Some(o);
      }
    }
  }

  /** What an order step does to the orders. */
  datatype OrderChange = Unchanged | Closed(order: OrderId, status: OrderStatus) | Claimed(order: OrderId, user: UserId)

  lemma ChangedByStep(s: State, a: Action) returns (change: OrderChange)
    ensures match change
            case Unchanged => OrderStep(s, a).orders == s.orders
            case Closed(o, status) =>
              o in s.orders && !Live(status) && OrderStep(s, a).orders == SetStatus(s.orders, o, status)
            case Claimed(o, u) =>
              && o in s.orders && s.orders[o].participant.None?
              && OrderStep(s, a).orders == s.orders[o := s.orders[o].(participant := Some(u))]
  {
    if OrderStep(s, a).orders == s.orders {
      change := Unchanged;
    } else {
      match a
      case Expire(o) => change := Closed(o, EXPIRED);
      case Cancel(o) => change := Closed(o, CANCELLED);
      case RefundWrite(o) => change := Closed(o, REFUNDED);
      case Claim(o, u) => change := Claimed(o, u);
    }
  }

  /** What a step outside the lock can do: fewer pending, and no more pending and paid together. */
  ghost predicate Shrinks(orders: Orders, orders': Orders) {
    && |WithStatus(orders', PENDING_PAYMENT)| <= |WithStatus(orders, PENDING_PAYMENT)|
    && |WithStatus(orders', PENDING_PAYMENT)| + |WithStatus(orders', PAID)| <=
       |WithStatus(orders, PENDING_PAYMENT)| + |WithStatus(orders, PAID)|
  }

  lemma StatusShrinks(orders: Orders, o: OrderId, status: OrderStatus)
    requires o in orders && status != PENDING_PAYMENT
    requires status == PAID ==> orders[o].status == PENDING_PAYMENT
    ensures Shrinks(orders, SetStatus(orders, o, status))
  {
    StatusMoves(orders, o, status, PENDING_PAYMENT);
    StatusMoves(orders, o, status, PAID);
  }

  lemma ClaimShrinks(orders: Orders, o: OrderId, u: UserId)
    requires o in orders
    ensures Shrinks(orders, orders[o := orders[o].(participant := Some(u))])
  {
    var orders' := orders[o := orders[o].(participant := Some(u))];
    assert WithStatus(orders', PENDING_PAYMENT) == WithStatus(orders, PENDING_PAYMENT);
    assert WithStatus(orders', PAID) == WithStatus(orders, PAID);
  }

  lemma PaymentShrinks(s: State, a: Action)
    requires Books(s)
    ensures Shrinks(s.orders, PaymentStep(s, a).orders)
  {
    var paid := PaidByStep(s, a);
    if paid.Some? {
      StatusShrinks(s.orders, paid.value, PAID);
    }
  }

  lemma OrderShrinks(s: State, a: Action)
    requires Books(s)
    ensures Shrinks(s.orders, OrderStep(s, a).orders)
  {
    var change := ChangedByStep(s, a);
    match change
    case Unchanged =>
    case Closed(o, status) => StatusShrinks(s.orders, o, status);
    case Claimed(o, u) => ClaimShrinks(s.orders, o, u);
  }

  lemma ShrinkingKeepsBounded(s: State, t: State)
    requires Bounded(s) && Books(s) && Books(t) && Shrinks(s.orders, t.orders)
    requires t.lock == s.lock && t.capacity == s.capacity
    ensures Bounded(t)
  {
    ActiveIsPending(s);
    ActiveIsPending(t);
  }

  lemma NewOrderTakesOnePlace(s: State, b: Buyer, o: OrderId)
    requires o !in s.orders && Linked(s.orders, s.reservations)
    ensures var t := WithNewOrder(s, b, o);
            && |ActiveReservations(t.reservations)| == |ActiveReservations(s.reservations)| + 1
            && |WithStatus(t.orders, PAID)| == |WithStatus(s.orders, PAID)|
  {
    var t := WithNewOrder(s, b, o);
    assert ActiveReservations(t.reservations) == ActiveReservations(s.reservations) + {o};
    assert WithStatus(t.orders, PAID) == WithStatus(s.orders, PAID);
  }

  lemma CommitKeepsBounded(s: State, o: OrderId)
    requires Bounded(s) && Books(s)
    ensures Bounded(CheckoutStep(s, Commit(o)))
  {
    CommitForms(s, o);
    if Committable(s, o) {
      NewOrderTakesOnePlace(s, s.lock.buyer, o);
    }
  }

  lemma CountsKeepBounded(s: State, a: Action)
    requires Bounded(s) && (a.CountActive? || a.CountPaid? || a.CountHeld?)
    ensures Bounded(CheckoutStep(s, a))
  {
    var t := CheckoutStep(s, a);
    assert t == s.(lock := t.lock);
  }

  lemma CheckoutKeepsBounded(s: State, a: Action)
    requires Bounded(s) && Books(s)
    ensures Bounded(CheckoutStep(s, a))
  {
    if a.Commit? {
      CommitKeepsBounded(s, a.order);
    } else if a.CountActive? || a.CountPaid? || a.CountHeld? {
      CountsKeepBounded(s, a);
    } else {
      var t := CheckoutStep(s, a);
      assert t == s
          || (t == s.(lock := t.lock)
              && (t.lock.Locked? ==> t.lock.active.None? && t.lock.paid.None? && t.lock.held.None?));
    }
  }

  // ---------------------------------------------------------------------------------------------
  // The per-user limit
  // ---------------------------------------------------------------------------------------------

  /** No buyer's live purchases grow, and no purchase changes its buyer. */
  ghost predicate NoNewPurchase(orders: Orders, orders': Orders) {
    && orders'.Keys == orders.Keys
    && (forall o :: o in orders ==> orders'[o].buyer == orders[o].buyer)
    && (forall o :: o in orders && Live(orders'[o].status) ==> Live(orders[o].status))
    && (forall o :: o in orders && orders[o].participant.Some? ==> orders'[o].participant == orders[o].participant)
  }

  lemma StatusAddsNoPurchase(orders: Orders, o: OrderId, status: OrderStatus)
    requires o in orders && (Live(status) ==> Live(orders[o].status))
    ensures NoNewPurchase(orders, SetStatus(orders, o, status))
  {
  }

  lemma PaymentAddsNoPurchase(s: State, a: Action)
    ensures NoNewPurchase(s.orders, PaymentStep(s, a).orders)
  {
    var paid := PaidByStep(s, a);
    if paid.Some? {
      StatusAddsNoPurchase(s.orders, paid.value, PAID);
    }
  }

  lemma ClaimAddsNoPurchase(orders: Orders, o: OrderId, u: UserId)
    requires o in orders && orders[o].participant.None?
    ensures NoNewPurchase(orders, orders[o := orders[o].(participant := Some(u))])
  {
  }

  lemma OrderAddsNoPurchase(s: State, a: Action)
    ensures NoNewPurchase(s.orders, OrderStep(s, a).orders)
  {
    var change := ChangedByStep(s, a);
    match change
    case Unchanged =>
    case Closed(o, status) => StatusAddsNoPurchase(s.orders, o, status);
    case Claimed(o, u) => ClaimAddsNoPurchase(s.orders, o, u);
  }

  lemma NoNewPurchaseKeepsLimited(s: State, t: State)
    requires Limited(s) && NoNewPurchase(s.orders, t.orders)
    requires t.lock == s.lock && t.maxPerUser == s.maxPerUser
    ensures Limited(t)
  {
    forall b: Buyer ensures |LiveBought(t.orders, b)| <= |LiveBought(s.orders, b)| {
      SubsetCardinality(LiveBought(t.orders, b), LiveBought(s.orders, b));
    }
  }

  lemma OneMorePurchase(orders: Orders, o: OrderId, order: Order, b: Buyer)
    requires o !in orders && Live(order.status)
    ensures LiveBought(orders[o := order], b) == LiveBought(orders, b) + if b == order.buyer then {o} else {}
    ensures o !in LiveBought(orders, b)
  {
  }

  lemma NewOrderKeepsLimited(s: State, o: OrderId)
    requires Limited(s) && Committable(s, o)
    ensures Limited(WithNewOrder(s, s.lock.buyer, o).(lock := Unlocked))
  {
    var t := WithNewOrder(s, s.lock.buyer, o);
    forall b: Buyer ensures |LiveBought(t.orders, b)| <= s.maxPerUser {
      OneMorePurchase(s.orders, o, t.orders[o], b);
    }
    forall p | p in t.orders ensures OwnedByBuyer(t.orders[p]) {
    }
  }

  lemma CommitKeepsLimited(s: State, o: OrderId)
    requires Limited(s)
    ensures Limited(CheckoutStep(s, Commit(o)))
  {
    CommitForms(s, o);
    if Committable(s, o) {
      NewOrderKeepsLimited(s, o);
    }
  }

  lemma CountKeepsLimited(s: State)
    requires Limited(s)
    ensures Limited(CheckoutStep(s, CountHeld))
  {
    if s.lock.Locked? {
      SubsetCardinality(LiveBought(s.orders, s.lock.buyer), LiveHeld(s.orders, s.lock.buyer));
    }
  }

  lemma CheckoutKeepsLimited(s: State, a: Action)
    requires Limited(s)
    ensures Limited(CheckoutStep(s, a))
  {
    if a.Commit? {
      CommitKeepsLimited(s, a.order);
    } else if a.CountHeld? {
      CountKeepsLimited(s);
    } else {
      var t := CheckoutStep(s, a);
      assert t == s || (t == s.(lock := t.lock) && (t.lock.Locked? ==> t.lock.held.None?));
    }
  }

  // ---------------------------------------------------------------------------------------------
  // Every action, every run
  // ---------------------------------------------------------------------------------------------

  lemma PaymentKeepsInv(s: State, a: Action)
    requires Inv(s) && PaymentStep(s, a).lock == s.lock && PaymentStep(s, a).capacity == s.capacity
    requires PaymentStep(s, a).maxPerUser == s.maxPerUser
    ensures Inv(PaymentStep(s, a))
  {
    PaymentKeepsBooks(s, a);
    PaymentAddsNoPurchase(s, a);
    NoNewPurchaseKeepsLimited(s, PaymentStep(s, a));
    PaymentShrinks(s, a);
    ShrinkingKeepsBounded(s, PaymentStep(s, a));
  }

  lemma OrderKeepsInv(s: State, a: Action)
    requires Inv(s) && OrderStep(s, a).lock == s.lock && OrderStep(s, a).capacity == s.capacity
    requires OrderStep(s, a).maxPerUser == s.maxPerUser
    ensures Inv(OrderStep(s, a))
  {
    OrderKeepsBooks(s, a);
    OrderAddsNoPurchase(s, a);
    NoNewPurchaseKeepsLimited(s, OrderStep(s, a));
    OrderShrinks(s, a);
    ShrinkingKeepsBounded(s, OrderStep(s, a));
  }

  /** The category's settings do not change, and only checkouts touch the lock. */
  lemma StepFrame(s: State, a: Action)
    ensures Step(s, a).capacity == s.capacity && Step(s, a).maxPerUser == s.maxPerUser
    ensures PaymentStep(s, a).lock == s.lock && OrderStep(s, a).lock == s.lock
  {
    assert CheckoutStep(s, a).capacity == s.capacity;
  }

  lemma StepKeepsInv(s: State, a: Action)
    requires Inv(s)
    ensures Inv(Step(s, a))
  {
    StepFrame(s, a);
    if UnderLock(a) {
      CheckoutKeepsBooks(s, a);
      CheckoutKeepsLimited(s, a);
      CheckoutKeepsBounded(s, a);
    } else if OnPayments(a) {
      PaymentKeepsInv(s, a);
    } else {
      OrderKeepsInv(s, a);
    }
  }

  lemma {:induction false} RunKeepsInv(s: State, actions: seq<Action>)
    requires Inv(s)
    ensures Inv(Run(s, actions))
    ensures Run(s, actions).capacity == s.capacity && Run(s, actions).maxPerUser == s.maxPerUser
    decreases actions
  {
    if actions != [] {
      StepKeepsInv(s, actions[0]);
      StepFrame(s, actions[0]);
      RunKeepsInv(Step(s, actions[0]), actions[1..]);
    }
  }

  // ---------------------------------------------------------------------------------------------
  // What holds of every run
  // ---------------------------------------------------------------------------------------------

  ghost predicate Reachable(s: State) {
    exists s0: State, actions: seq<Action> :: Init(s0) && s == Run(s0, actions)
  }

  lemma ReachableInv(s: State)
    requires Reachable(s)
    ensures Inv(s)
  {
    var s0: State, actions: seq<Action> :| Init(s0) && s == Run(s0, actions);
    InitInv(s0);
    RunKeepsInv(s0, actions);
  }

  /**
   No oversell: the ACTIVE reservations, or equally the pending orders, plus the PAID orders never exceed
   the capacity, although payments commit between the two counts.
   */
  lemma NoOversell(s: State)
    requires Reachable(s)
    ensures |ActiveReservations(s.reservations)| + |WithStatus(s.orders, PAID)| <= s.capacity
    ensures ActiveReservations(s.reservations) == WithStatus(s.orders, PENDING_PAYMENT)
  {
    ReachableInv(s);
    ActiveIsPending(s);
  }

  lemma RunTwo(s: State, a: Action, b: Action)
    ensures Run(s, [a, b]) == Step(Step(s, a), b)
  {
    assert [a, b][1..] == [b] && [b][1..] == [];
    assert Run(Step(s, a), [b]) == Run(Step(Step(s, a), b), []);
  }

  lemma RunFive(s: State, a: Action, b: Action, c: Action, d: Action, e: Action)
    ensures Run(s, [a, b, c, d, e]) == Step(Step(Step(Step(Step(s, a), b), c), d), e)
  {
    assert [a, b, c, d, e][1..] == [b, c, d, e];
    assert [b, c, d, e][1..] == [c, d, e];
    assert [c, d, e][1..] == [d, e];
    var t := Step(Step(Step(s, a), b), c);
    RunTwo(t, d, e);
    assert Run(Step(Step(s, a), b), [c, d, e]) == Run(t, [d, e]);
    assert Run(Step(s, a), [b, c, d, e]) == Run(Step(Step(s, a), b), [c, d, e]);
  }

  function CheckoutActions(b: Buyer, o: OrderId): seq<Action> {
    [Begin(b), CountActive, CountPaid, CountHeld, Commit(o)]
  }

  function Counted(s: State, b: Buyer): State {
    s.(lock := Locked(b, Some(|ActiveReservations(s.reservations)|), Some(|WithStatus(s.orders, PAID)|), None))
  }

  lemma CountsUndisturbed(s: State, b: Buyer)
    requires s.lock == Unlocked
    ensures Step(Step(Step(s, Begin(b)), CountActive), CountPaid) == Counted(s, b)
  {
  }

  /** An undisturbed checkout succeeds exactly for a participant below the limit, while a place is free. */
  lemma CheckoutSucceedsExactlyWhen(s: State, b: Buyer, o: OrderId)
    requires s.lock == Unlocked && o !in s.orders
    ensures var t := Run(s, CheckoutActions(b, o));
            if b.Participant? && Taken(s) < s.capacity && |LiveHeld(s.orders, b)| < s.maxPerUser then
              t == WithNewOrder(s, b, o)
            else
              t.orders == s.orders && t.reservations == s.reservations
  {
    CountsUndisturbed(s, b);
    RunFive(s, Begin(b), CountActive, CountPaid, CountHeld, Commit(o));
    CountedCommits(s, b, o);
  }

  lemma CountedCommits(s: State, b: Buyer, o: OrderId)
    requires s.lock == Unlocked && o !in s.orders
    ensures var t := Step(Step(Counted(s, b), CountHeld), Commit(o));
            if b.Participant? && Taken(s) < s.capacity && |LiveHeld(s.orders, b)| < s.maxPerUser then
              t == WithNewOrder(s, b, o)
            else
              t.orders == s.orders && t.reservations == s.reservations
  {
    var c := Counted(s, b);
    if Taken(s) < s.capacity {
      assert Step(c, CountHeld) == c.(lock := c.lock.(held := Some(|LiveHeld(s.orders, b)|)));
    } else {
      assert Step(c, CountHeld) == c;
    }
  }

  /**
   Payment idempotence: under any replay of callbacks a payment leaves OPEN at most once, an order turns
   PAID at most once, and tickets, fees and the settled payment behind them exist only for orders that did.
   */
  lemma PaidAtMostOnce(s: State, o: OrderId, p: PaymentId)
    requires Reachable(s)
    ensures s.settledLog[p] <= 1 && s.paidLog[o] <= 1
    ensures s.paidLog[o] == 1 <==> o in s.orders && Sold(s.orders[o].status)
    ensures o in s.tickets <==> s.paidLog[o] == 1
    ensures o in s.fees ==> s.paidLog[o] == 1
    ensures s.paidLog[o] == 1 ==> exists q :: q in s.payments && s.payments[q] == Payment(o, SETTLED)
  {
    ReachableInv(s);
    if o in s.paidBy {
      assert s.payments[s.paidBy[o]] == Payment(o, SETTLED);
    }
  }

  /**
   A payment that was taken either sold its order or came too late: the order had expired or been
   cancelled, and then no ticket exists for it.
   */
  lemma TakenPaymentSellsExactlyWhen(s: State, p: PaymentId)
    requires Reachable(s) && p in s.payments && s.payments[p].status == SETTLED
    ensures var o := s.payments[p].order;
            && o in s.orders
            && (o in s.tickets <==> o in s.paidBy && s.paidBy[o] == p)
            && (o !in s.tickets <==> s.orders[o].status == EXPIRED || s.orders[o].status == CANCELLED)
  {
    ReachableInv(s);
    var o := s.payments[p].order;
    if o in s.paidBy {
      var q := s.paidBy[o];
      assert s.payments[q] == Payment(o, SETTLED);
    }
  }

  /** No order is charged twice: its standing payment is unique. */
  lemma OneStandingPayment(s: State, p: PaymentId, q: PaymentId, o: OrderId)
    requires Reachable(s) && Standing(s.payments, p, o) && Standing(s.payments, q, o)
    ensures p == q
  {
    ReachableInv(s);
  }

  predicate Final(status: OrderStatus) {
    status == EXPIRED || status == CANCELLED || status == REFUNDED
  }

  /** How an order's status can move on. */
  predicate MovesTo(from: OrderStatus, to: OrderStatus) {
    from == to || from == PENDING_PAYMENT || (from == PAID && to == REFUNDED)
  }

  /** Every status in the old table has moved on in the new one. */
  ghost predicate Advances(orders: Orders, orders': Orders) {
    forall o :: o in orders ==> o in orders' && MovesTo(orders[o].status, orders'[o].status)
  }

  lemma OrderStepAdvances(s: State, a: Action)
    requires Issued(s.orders, s.tickets, s.fees, s.refunding)
    ensures Advances(s.orders, OrderStep(s, a).orders)
  {
    if a.RefundWrite? && a.order in s.refunding {
      assert Sold(s.orders[a.order].status);
    }
  }

  lemma CheckoutStepAdvances(s: State, a: Action)
    ensures Advances(s.orders, CheckoutStep(s, a).orders)
  {
    if !a.Commit? {
      assert CheckoutStep(s, a).orders == s.orders;
    }
  }

  lemma PaymentStepAdvances(s: State, a: Action)
    ensures Advances(s.orders, PaymentStep(s, a).orders)
  {
    if !a.CallbackPaid? {
      assert PaymentStep(s, a).orders == s.orders;
    }
  }

  lemma StepAdvances(s: State, a: Action)
    requires Books(s)
    ensures Advances(s.orders, Step(s, a).orders)
  {
    CheckoutStepAdvances(s, a);
    PaymentStepAdvances(s, a);
    OrderStepAdvances(s, a);
  }

  lemma {:induction false} RunAdvances(s: State, actions: seq<Action>)
    requires Inv(s)
    ensures Advances(s.orders, Run(s, actions).orders)
    decreases actions
  {
    if actions != [] {
      StepKeepsInv(s, actions[0]);
      StepAdvances(s, actions[0]);
      RunAdvances(Step(s, actions[0]), actions[1..]);
      AdvancesOn(s.orders, Step(s, actions[0]).orders, Run(s, actions).orders);
    }
  }

  lemma AdvancesOn(a: Orders, b: Orders, c: Orders)
    requires Advances(a, b) && Advances(b, c)
    ensures Advances(a, c)
  {
  }

  /** An order that has expired, been cancelled or been refunded stays so and is never paid; a sold one stays sold. */
  lemma FinalOrdersStay(s: State, actions: seq<Action>, o: OrderId)
    requires Inv(s) && o in s.orders
    ensures var t := Run(s, actions);
            && o in t.orders && MovesTo(s.orders[o].status, t.orders[o].status)
            && (Final(s.orders[o].status) ==> t.paidLog[o] == s.paidLog[o])
  {
    RunAdvances(s, actions);
    RunKeepsInv(s, actions);
  }

  /**
   Tickets in circulation: one per PAID or REFUNDED order.  A refund frees the place but not the ticket,
   so the tickets exceed the capacity exactly when the refunds outnumber the places not PAID.
   */
  lemma TicketsInCirculation(s: State)
    requires Reachable(s)
    ensures |s.tickets| == |WithStatus(s.orders, PAID)| + |WithStatus(s.orders, REFUNDED)|
    ensures |s.tickets| > s.capacity <==> |WithStatus(s.orders, REFUNDED)| > s.capacity - |WithStatus(s.orders, PAID)|
    ensures |s.tickets| <= s.capacity + |WithStatus(s.orders, REFUNDED)|
  {
    ReachableInv(s);
    TicketsCounted(s.orders, s.tickets, s.fees, s.refunding);
    NoOversell(s);
  }

  lemma TicketsCounted(orders: Orders, tickets: set<OrderId>, fees: set<OrderId>, refunding: set<OrderId>)
    requires Issued(orders, tickets, fees, refunding)
    ensures |tickets| == |WithStatus(orders, PAID)| + |WithStatus(orders, REFUNDED)|
  {
    assert tickets == WithStatus(orders, PAID) + WithStatus(orders, REFUNDED);
    assert WithStatus(orders, PAID) !! WithStatus(orders, REFUNDED);
  }

  lemma {:induction false} RunConcat(s: State, first: seq<Action>, second: seq<Action>)
    ensures Run(s, first + second) == Run(Run(s, first), second)
    decreases first
  {
    if first == [] {
      assert first + second == second;
    } else {
      assert (first + second)[1..] == first[1..] + second;
      RunConcat(Step(s, first[0]), first[1..], second);
    }
  }

  /** Some run leads from one state to the other. */
  ghost predicate Leads(s: State, t: State) {
    exists actions: seq<Action> :: Run(s, actions) == t
  }

  lemma LeadsOn(s: State, t: State, u: State)
    requires Leads(s, t) && Leads(t, u)
    ensures Leads(s, u)
  {
    var first: seq<Action> :| Run(s, first) == t;
    var second: seq<Action> :| Run(t, second) == u;
    RunConcat(s, first, second);
  }

  lemma CheckoutLeads(s: State, u: UserId, o: OrderId)
    requires s.lock == Unlocked && o !in s.orders
    requires Taken(s) < s.capacity && |LiveHeld(s.orders, Participant(u))| < s.maxPerUser
    ensures Leads(s, WithNewOrder(s, Participant(u), o))
  {
    CheckoutSucceedsExactlyWhen(s, Participant(u), o);
  }

  /** The state once a new payment has settled a pending order. */
  function WithSale(s: State, p: PaymentId, o: OrderId): State
    requires o in s.orders
  {
    s.(payments := s.payments[p := Payment(o, SETTLED)], settledLog := s.settledLog + multiset{p},
       orders := SetStatus(s.orders, o, PAID), reservations := Release(s.reservations, o, COMPLETED),
       tickets := s.tickets + {o}, paidBy := s.paidBy[o := p], paidLog := s.paidLog + multiset{o})
  }

  lemma SaleLeads(s: State, p: PaymentId, o: OrderId)
    requires o in s.orders && s.orders[o].status == PENDING_PAYMENT && s.orders[o].participant.Some?
    requires p !in s.payments && forall q :: q in s.payments ==> s.payments[q].order != o
    ensures Leads(s, WithSale(s, p, o))
  {
    assert forall q :: q in s.payments ==> !Standing(s.payments, q, o);
    var inserted := s.(payments := s.payments[p := Payment(o, OPEN)]);
    assert Step(s, InsertPayment(p, o)) == inserted;
    assert inserted.payments[p := Payment(o, SETTLED)] == s.payments[p := Payment(o, SETTLED)];
    assert Step(inserted, CallbackPaid(p, false)) == WithSale(s, p, o);
    RunTwo(s, InsertPayment(p, o), CallbackPaid(p, false));
  }

  lemma RefundLeads(s: State, o: OrderId)
    requires o in s.orders && s.orders[o].status == PAID && o !in s.refunding
    ensures Leads(s, s.(orders := SetStatus(s.orders, o, REFUNDED)))
  {
    var read := s.(refunding := s.refunding + {o});
    assert Step(s, RefundRead(o)) == read;
    assert read.refunding - {o} == s.refunding;
    RunTwo(s, RefundRead(o), RefundWrite(o));
  }

  function OnePlace(): State {
    State(1, 1, Unlocked, map[], map[], map[], {}, {}, {}, map[], multiset{}, multiset{})
  }

  /** One place, sold to a participant. */
  lemma OnePlaceSold() returns (s: State)
    ensures Leads(OnePlace(), s) && s.capacity == 1 && s.maxPerUser == 1 && s.lock == Unlocked
    ensures s.orders == map[1 := Order(Participant(1), Some(1), PAID)] && s.reservations == map[1 := COMPLETED]
    ensures s.payments == map[1 := Payment(1, SETTLED)] && s.tickets == {1} && s.refunding == {}
  {
    var s0 := OnePlace();
    assert ActiveReservations(s0.reservations) == {} && WithStatus(s0.orders, PAID) == {};
    assert LiveHeld(s0.orders, Participant(1)) == {};
    CheckoutLeads(s0, 1, 1);
    var s1 := WithNewOrder(s0, Participant(1), 1);
    SaleLeads(s1, 1, 1);
    s := WithSale(s1, 1, 1);
    LeadsOn(s0, s1, s);
  }

  /** The one place, sold and refunded. */
  lemma OnePlaceRefunded() returns (s: State)
    ensures Leads(OnePlace(), s) && s.capacity == 1 && s.maxPerUser == 1 && s.lock == Unlocked
    ensures s.orders == map[1 := Order(Participant(1), Some(1), REFUNDED)] && s.reservations == map[1 := COMPLETED]
    ensures s.payments == map[1 := Payment(1, SETTLED)] && s.tickets == {1}
  {
    var sold := OnePlaceSold();
    RefundLeads(sold, 1);
    s := sold.(orders := SetStatus(sold.orders, 1, REFUNDED));
    LeadsOn(OnePlace(), sold, s);
  }

  /** A free place checked out and paid for by a newcomer: one more ticket. */
  lemma NewcomerBuys(s: State, u: UserId, o: OrderId, p: PaymentId) returns (t: State)
    requires s.lock == Unlocked && o !in s.orders && p !in s.payments && Taken(s) < s.capacity
    requires LiveHeld(s.orders, Participant(u)) == {} && s.maxPerUser > 0
    requires forall q :: q in s.payments ==> s.payments[q].order != o
    ensures Leads(s, t) && t.capacity == s.capacity && t.tickets == s.tickets + {o}
  {
    CheckoutLeads(s, u, o);
    var ordered := WithNewOrder(s, Participant(u), o);
    SaleLeads(ordered, p, o);
    t := WithSale(ordered, p, o);
    LeadsOn(s, ordered, t);
  }

  /** A refunded place is sold again: two tickets for one place. */
  lemma RefundedPlaceIsSoldAgain()
    ensures exists s: State :: Reachable(s) && s.capacity == 1 && s.tickets == {1, 2} && |s.tickets| == 2
  {
    var refunded := OnePlaceRefunded();
    assert ActiveReservations(refunded.reservations) == {} && WithStatus(refunded.orders, PAID) == {};
    assert LiveHeld(refunded.orders, Participant(2)) == {};
    var s := NewcomerBuys(refunded, 2, 2, 2);
    LeadsOn(OnePlace(), refunded, s);
    LeadsIsReachable(OnePlace(), s);
  }

  lemma LeadsIsReachable(s0: State, s: State)
    requires Init(s0) && Leads(s0, s)
    ensures Reachable(s)
  {
    var actions: seq<Action> :| Run(s0, actions) == s;
  }

  /** No order is a guest's: each belongs to the participant who checked it out, so there is nothing to claim. */
  lemma GuestOrdersNeverCommit(s: State, o: OrderId, u: UserId)
    requires Reachable(s)
    ensures o in s.orders ==> OwnedByBuyer(s.orders[o])
    ensures Step(s, Claim(o, u)) == s
  {
    ReachableInv(s);
    OwnedByItsBuyer(s, o);
    OwnedIsNotClaimed(s, o, u);
  }

  lemma OwnedByItsBuyer(s: State, o: OrderId)
    requires Limited(s)
    ensures o in s.orders ==> OwnedByBuyer(s.orders[o])
  {
  }

  lemma OwnedIsNotClaimed(s: State, o: OrderId, u: UserId)
    requires o in s.orders ==> s.orders[o].participant.Some?
    ensures Step(s, Claim(o, u)) == s
  {
  }

  /** No participant holds more live orders of the category than the limit. */
  lemma PurchaseLimit(s: State, u: UserId)
    requires Reachable(s)
    ensures |LiveHeld(s.orders, Participant(u))| <= s.maxPerUser
  {
    ReachableInv(s);
    forall o | o in s.orders ensures OwnedByBuyer(s.orders[o]) {
    }
    assert LiveHeld(s.orders, Participant(u)) == LiveBought(s.orders, Participant(u));
  }
}
