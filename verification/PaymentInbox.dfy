/**
 Gateway callbacks: each delivery first claims a dedupe key on its own, then applies its result in a
 transaction that may fail or never happen.  The key stays claimed either way.
 */
module PaymentInbox {

  type PaymentId = nat

  datatype PaymentStatus = PENDING | PAID | EXPIRED | FAILED

  /** A callback, which is also its dedupe key: the reference of one payment and the status the gateway reports. */
  datatype Callback = Callback(payment: PaymentId, result: PaymentStatus)

  datatype State = State(
    payments: map<PaymentId, PaymentStatus>,
    claimed: set<Callback>,
    working: set<Callback>)              // claimed, transaction not yet over

  datatype Action =
    | Deliver(callback: Callback)        // a webhook arrives and tries to claim its key
    | Commit(callback: Callback)         // its transaction commits
    | Abort(callback: Callback)          // its transaction fails, or the process dies
    | Reconcile(payment: PaymentId, result: PaymentStatus)
    | CreatePayment(payment: PaymentId)

  /** The transaction: a final result settles a pending payment, anything else changes nothing. */
  function Applied(payments: map<PaymentId, PaymentStatus>, p: PaymentId, result: PaymentStatus)
    : map<PaymentId, PaymentStatus>
  {
    if p in payments && payments[p] == PENDING && result != PENDING then payments[p := result] else payments
  }

  function Step(s: State, a: Action): State {
    match a
    case Deliver(c) => if c in s.claimed then s else s.(claimed := s.claimed + {c}, working := s.working + {c})
    case Commit(c) =>
      if c in s.working then s.(working := s.working - {c}, payments := Applied(s.payments, c.payment, c.result)) else s
    case Abort(c) => if c in s.working then s.(working := s.working - {c}) else s
    case Reconcile(p, result) => s.(payments := Applied(s.payments, p, result))
    case CreatePayment(p) => if p in s.payments then s else s.(payments := s.payments[p := PENDING])
  }

  function Run(s: State, actions: seq<Action>): State
    decreases actions
  {
    if actions == [] then s else Run(Step(s, actions[0]), actions[1..])
  }

  ghost predicate Inv(s: State) {
    s.working <= s.claimed
  }

  // ---------------------------------------------------------------------------------------------
  // One verdict per key
  // ---------------------------------------------------------------------------------------------

  /** Whether an action could settle the payment other than through the callback. */
  predicate Elsewhere(a: Action, c: Callback) {
    match a
    case Commit(d) => d != c && d.payment == c.payment
    case Reconcile(p, _) => p == c.payment
    case _ => false
  }

  /** How the first transaction begun for a key ends, if it ends within the run. */
  datatype Verdict = NONE | COMMITTED | ABORTED

  function FirstVerdict(actions: seq<Action>, c: Callback, working: bool): Verdict
    decreases actions
  {
    if actions == [] then NONE
    else if working && actions[0] == Commit(c) then COMMITTED
    else if working && actions[0] == Abort(c) then ABORTED
    else FirstVerdict(actions[1..], c, working || actions[0] == Deliver(c))
  }

  /** A payment that is final stays as it is. */
  lemma {:induction false} FinalStays(s: State, actions: seq<Action>, p: PaymentId)
    requires p in s.payments && s.payments[p] != PENDING
    ensures p in Run(s, actions).payments && Run(s, actions).payments[p] == s.payments[p]
    decreases actions
  {
    if actions != [] {
      FinalStays(Step(s, actions[0]), actions[1..], p);
    }
  }

  /** Once a key's transaction has aborted, redeliveries of it never settle the payment. */
  lemma {:induction false} AbortedIsDropped(s: State, actions: seq<Action>, c: Callback)
    requires c in s.claimed && c !in s.working
    requires c.payment in s.payments && s.payments[c.payment] == PENDING
    requires forall a :: a in actions ==> !Elsewhere(a, c)
    ensures c.payment in Run(s, actions).payments && Run(s, actions).payments[c.payment] == PENDING
    decreases actions
  {
    if actions != [] {
      assert !Elsewhere(actions[0], c);
      AbortedIsDropped(Step(s, actions[0]), actions[1..], c);
    }
  }

  /**
   However often a final callback is redelivered, it settles its pending payment exactly when the
   transaction of its first claim commits: the gateway's retries repair nothing.
   */
  lemma {:induction false} SettledExactlyWhenFirstCommits(s: State, actions: seq<Action>, c: Callback)
    requires c.payment in s.payments && s.payments[c.payment] == PENDING && c.result != PENDING
    requires c in s.working || c !in s.claimed
    requires Inv(s) && forall a :: a in actions ==> !Elsewhere(a, c)
    ensures c.payment in Run(s, actions).payments
    ensures Run(s, actions).payments[c.payment] != PENDING <==> FirstVerdict(actions, c, c in s.working) == COMMITTED
    decreases actions
  {
    if actions != [] {
      var a, next := actions[0], Step(s, actions[0]);
      assert !Elsewhere(a, c);
      if c in s.working && a == Commit(c) {
        FinalStays(next, actions[1..], c.payment);
      } else if c in s.working && a == Abort(c) {
        AbortedIsDropped(next, actions[1..], c);
      } else {
        SettledExactlyWhenFirstCommits(next, actions[1..], c);
      }
    }
  }

  /** Reconciling does repair it: at any point, a pending payment takes the gateway's final answer. */
  lemma ReconcileRepairs(s: State, actions: seq<Action>, p: PaymentId, result: PaymentStatus, later: seq<Action>)
    requires p in Run(s, actions).payments && Run(s, actions).payments[p] == PENDING && result != PENDING
    ensures var t := Run(Step(Run(s, actions), Reconcile(p, result)), later);
            p in t.payments && t.payments[p] == result
  {
    FinalStays(Step(Run(s, actions), Reconcile(p, result)), later, p);
  }
}
