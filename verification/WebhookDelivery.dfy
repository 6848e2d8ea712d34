/**
 Outgoing webhook deliveries: a ledger with one row per endpoint and event key, drained by dispatchers
 that list due rows, post them and record the outcome.  Listing takes no lock and the marks carry no
 guard on the status, so what two dispatchers hold at a time matters.
 */
module WebhookDelivery {
  import opened Common

  const MAX_DELIVERY_ATTEMPTS := 6

  datatype DeliveryStatus = PENDING | DELIVERED | DEAD

  datatype Delivery = Delivery(endpoint: nat, eventKey: nat, status: DeliveryStatus, attempts: nat)

  type DeliveryId = nat
  type WorkerId = nat

  // ---------------------------------------------------------------------------------------------
  // Statements
  // ---------------------------------------------------------------------------------------------

  predicate Taken(rows: seq<Delivery>, endpoint: nat, eventKey: nat) {
    exists i :: 0 <= i < |rows| && rows[i].endpoint == endpoint && rows[i].eventKey == eventKey
  }

  function Enqueued(rows: seq<Delivery>, endpoint: nat, eventKey: nat): seq<Delivery> {
    if Taken(rows, endpoint, eventKey) then rows else rows + [Delivery(endpoint, eventKey, PENDING, 0)]
  }

  /** What recording an outcome makes of a row, whatever its status was. */
  function Marked(row: Delivery, ok: bool): Delivery {
    row.(attempts := row.attempts + 1,
         status := if ok then DELIVERED else if row.attempts + 1 >= MAX_DELIVERY_ATTEMPTS then DEAD else PENDING)
  }

  // ---------------------------------------------------------------------------------------------
  // Dispatchers
  // ---------------------------------------------------------------------------------------------

  /** A dispatcher between two awaits: a posted delivery with its outcome to be recorded, and the rest of its batch. */
  datatype Work = Work(posted: Option<(DeliveryId, bool)>, todo: seq<DeliveryId>)

  datatype State = State(
    rows: seq<Delivery>,
    work: map<WorkerId, Work>,
    posts: multiset<DeliveryId>,           // history: requests made
    lost: multiset<DeliveryId>)            // history: posted, outcome never recorded

  datatype Action =
    | Enqueue(endpoint: nat, eventKey: nat)
    | ListDue(worker: WorkerId, batch: seq<DeliveryId>)
    | Post(worker: WorkerId, ok: bool)
    | EndpointMissing(worker: WorkerId)
    | Mark(worker: WorkerId)
    | LoseMark(worker: WorkerId)
    | Crash(worker: WorkerId)

  const IDLE := Work(None, [])

  function WorkOf(s: State, w: WorkerId): Work {
    if w in s.work then s.work[w] else IDLE
  }

  predicate Due(rows: seq<Delivery>, d: DeliveryId) {
    d < |rows| && rows[d].status == PENDING
  }

  function Step(s: State, a: Action): State {
    match a
    case Enqueue(endpoint, eventKey) => s.(rows := Enqueued(s.rows, endpoint, eventKey))
    case ListDue(w, batch) =>
      if WorkOf(s, w) == IDLE && Distinct(batch) && forall i :: 0 <= i < |batch| ==> Due(s.rows, batch[i]) then
        s.(work := s.work[w := Work(None, batch)])
      else s
    case Post(w, ok) =>
      var k := WorkOf(s, w);
      if k.posted.None? && k.todo != [] then
        s.(work := s.work[w := Work(Some((k.todo[0], ok)), k.todo[1..])],
           posts := s.posts + multiset{k.todo[0]})
      else s
    case EndpointMissing(w) =>
      var k := WorkOf(s, w);
      if k.posted.None? && k.todo != [] && k.todo[0] < |s.rows| then
        s.(work := s.work[w := Work(None, k.todo[1..])], rows := s.rows[k.todo[0] := Marked(s.rows[k.todo[0]], false)])
      else s
    case Mark(w) =>
      var k := WorkOf(s, w);
      if k.posted.Some? && k.posted.value.0 < |s.rows| then
        var (d, ok) := k.posted.value;
        s.(work := s.work[w := Work(None, k.todo)], rows := s.rows[d := Marked(s.rows[d], ok)])
      else s
    case LoseMark(w) =>
      var k := WorkOf(s, w);
      if k.posted.Some? then
        var d := k.posted.value.0;
        s.(work := s.work[w := Work(None, k.todo)], lost := s.lost + multiset{d})
      else s
    case Crash(w) =>
      var k := WorkOf(s, w);
      var t := s.(work := s.work[w := IDLE]);
      if k.posted.Some? then
        t.(lost := s.lost + multiset{k.posted.value.0})
      else t
  }

  function Run(s: State, actions: seq<Action>): State
    decreases actions
  {
    if actions == [] then s else Run(Step(s, actions[0]), actions[1..])
  }

  predicate Init(s: State) {
    s == State([], map[], multiset{}, multiset{})
  }

  // ---------------------------------------------------------------------------------------------
  // Dispatchers that do not overlap
  // ---------------------------------------------------------------------------------------------

  predicate Holds(k: Work, d: DeliveryId) {
    d in k.todo || (k.posted.Some? && k.posted.value.0 == d)
  }

  /** A listing overlaps nothing another dispatcher still holds; one dispatcher alone always satisfies it. */
  ghost predicate Separate(s: State, a: Action) {
    a.ListDue? ==> forall v, d :: v in s.work && v != a.worker && d in a.batch ==> !Holds(s.work[v], d)
  }

  ghost predicate SeparateRun(s: State, actions: seq<Action>)
    decreases actions
  {
    actions == [] || (Separate(s, actions[0]) && SeparateRun(Step(s, actions[0]), actions[1..]))
  }

  predicate OnlyWorker(a: Action, w: WorkerId) {
    a.Enqueue? || a.worker == w
  }

  /** A single dispatcher never overlaps itself. */
  lemma {:induction false} SingleDispatcherIsSeparate(s: State, actions: seq<Action>, w: WorkerId)
    requires s.work.Keys <= {w} && forall a :: a in actions ==> OnlyWorker(a, w)
    ensures SeparateRun(s, actions)
    decreases actions
  {
    if actions != [] {
      assert OnlyWorker(actions[0], w);
      SingleDispatcherIsSeparate(Step(s, actions[0]), actions[1..], w);
    }
  }

  ghost predicate UniqueKeys(rows: seq<Delivery>) {
    forall i, j :: 0 <= i < j < |rows| ==> rows[i].endpoint != rows[j].endpoint || rows[i].eventKey != rows[j].eventKey
  }

  predicate RowOk(row: Delivery) {
    match row.status
    case PENDING => row.attempts < MAX_DELIVERY_ATTEMPTS
    case DELIVERED => 1 <= row.attempts <= MAX_DELIVERY_ATTEMPTS
    case DEAD => row.attempts == MAX_DELIVERY_ATTEMPTS
  }

  /** Each dispatcher holds pending deliveries, each once, and no two dispatchers hold the same. */
  ghost predicate Exclusive(rows: seq<Delivery>, work: map<WorkerId, Work>) {
    && (forall w, d :: w in work && Holds(work[w], d) ==> Due(rows, d))
    && (forall w :: w in work ==>
                      Distinct(work[w].todo) && (work[w].posted.Some? ==> work[w].posted.value.0 !in work[w].todo))
    && (forall v, w, d :: v in work && w in work && v != w && Holds(work[v], d) ==> !Holds(work[w], d))
  }

  ghost predicate NobodyHolds(work: map<WorkerId, Work>, d: DeliveryId) {
    forall w :: w in work ==> !Holds(work[w], d)
  }

  /** Posted deliveries whose outcome is still to be recorded. */
  function InFlight(work: map<WorkerId, Work>): set<DeliveryId> {
    set w | w in work && work[w].posted.Some? :: work[w].posted.value.0
  }

  /** Each request made is accounted for by an attempt, a lost outcome, or one in flight. */
  ghost predicate Accounted(
    rows: seq<Delivery>, inFlight: set<DeliveryId>, posts: multiset<DeliveryId>, lost: multiset<DeliveryId>)
  {
    && (forall d :: d in posts ==> d < |rows|)
    && (forall d :: 0 <= d < |rows| ==> posts[d] <= rows[d].attempts + lost[d] + (if d in inFlight then 1 else 0))
  }

  ghost predicate Inv(s: State) {
    && UniqueKeys(s.rows)
    && (forall d :: 0 <= d < |s.rows| ==> RowOk(s.rows[d]))
    && Exclusive(s.rows, s.work)
    && Accounted(s.rows, InFlight(s.work), s.posts, s.lost)
  }

  /** A delivered or dead row is as it was; keys never change. */
  ghost predicate FinalRowsStay(before: seq<Delivery>, after: seq<Delivery>) {
    && |before| <= |after|
    && forall d :: 0 <= d < |before| ==>
                     && after[d].endpoint == before[d].endpoint && after[d].eventKey == before[d].eventKey
                     && (before[d].status != PENDING ==> after[d] == before[d])
  }

  // ---------------------------------------------------------------------------------------------
  // Preservation
  // ---------------------------------------------------------------------------------------------

  lemma EnqueueKeepsInv(s: State, endpoint: nat, eventKey: nat)
    requires Inv(s)
    ensures Inv(Step(s, Enqueue(endpoint, eventKey)))
  {
    if !Taken(s.rows, endpoint, eventKey) {
      var rows := Enqueued(s.rows, endpoint, eventKey);
      assert forall d :: 0 <= d < |s.rows| ==> rows[d] == s.rows[d];
      forall w, d | w in s.work && Holds(s.work[w], d) ensures Due(rows, d) {
        assert Due(s.rows, d);
      }
      assert |s.rows| !in s.posts;
    }
  }

  lemma ListKeepsInv(s: State, w: WorkerId, batch: seq<DeliveryId>)
    requires Inv(s) && Separate(s, ListDue(w, batch))
    ensures Inv(Step(s, ListDue(w, batch)))
  {
    var t := Step(s, ListDue(w, batch));
    if t != s {
      assert InFlight(t.work) == InFlight(s.work) by {
        forall v | v in s.work && s.work[v].posted.Some? ensures v != w && t.work[v] == s.work[v] {
        }
      }
    }
  }

  lemma PostKeepsInv(s: State, w: WorkerId, ok: bool)
    requires Inv(s)
    ensures Inv(Step(s, Post(w, ok)))
  {
    var t := Step(s, Post(w, ok));
    if t != s {
      var d := s.work[w].todo[0];
      assert Holds(s.work[w], d);
      assert Due(s.rows, d);
      TakenFromTodo(s.rows, s.work, w, Some((d, ok)));
      FlyingAfterPost(s.rows, s.work, w, ok);
      assert t == s.(work := s.work[w := Work(Some((d, ok)), s.work[w].todo[1..])], posts := s.posts + multiset{d});
    }
  }

  /** Moving on to the next delivery of a batch, with or without posting it. */
  lemma TakenFromTodo(rows: seq<Delivery>, work: map<WorkerId, Work>, w: WorkerId, posted: Option<(DeliveryId, bool)>)
    requires Exclusive(rows, work) && w in work && work[w].posted.None? && work[w].todo != []
    requires posted.Some? ==> posted.value.0 == work[w].todo[0]
    ensures Exclusive(rows, work[w := Work(posted, work[w].todo[1..])])
  {
    var k := Work(posted, work[w].todo[1..]);
    forall d | Holds(k, d) ensures Holds(work[w], d) {
      assert work[w].todo[0] in work[w].todo;
    }
    assert Distinct(k.todo);
  }

  lemma FlyingAfterPost(rows: seq<Delivery>, work: map<WorkerId, Work>, w: WorkerId, ok: bool)
    requires Exclusive(rows, work) && w in work && work[w].posted.None? && work[w].todo != []
    ensures var d := work[w].todo[0];
            && d !in InFlight(work)
            && InFlight(work[w := Work(Some((d, ok)), work[w].todo[1..])]) == InFlight(work) + {d}
  {
    var d := work[w].todo[0];
    var after := work[w := Work(Some((d, ok)), work[w].todo[1..])];
    assert Holds(work[w], d);
    forall v | v in work && work[v].posted.Some? ensures v != w && work[v].posted.value.0 != d {
      assert Holds(work[v], work[v].posted.value.0);
    }
    assert after[w].posted.value.0 == d;
    forall x | x in InFlight(work) ensures x in InFlight(after) {
      var v :| v in work && work[v].posted.Some? && work[v].posted.value.0 == x;
      assert after[v] == work[v];
    }
  }

  /** Dropping the posted delivery in hand. */
  lemma DroppedPosted(rows: seq<Delivery>, work: map<WorkerId, Work>, w: WorkerId, todo: seq<DeliveryId>)
    requires Exclusive(rows, work) && w in work && work[w].posted.Some? && (todo == work[w].todo || todo == [])
    ensures var d := work[w].posted.value.0;
            && Exclusive(rows, work[w := Work(None, todo)])
            && InFlight(work[w := Work(None, todo)]) == InFlight(work) - {d}
            && d in InFlight(work)
            && NobodyHolds(work[w := Work(None, todo)], d)
  {
    var d := work[w].posted.value.0;
    var after := work[w := Work(None, todo)];
    assert Holds(work[w], d);
    forall v, x | v in after && Holds(after[v], x) ensures Holds(work[v], x) {
    }
    forall v | v in work && v != w && work[v].posted.Some? ensures work[v].posted.value.0 != d && after[v] == work[v] {
      assert Holds(work[v], work[v].posted.value.0);
    }
    assert d in InFlight(work);
    forall x | x in InFlight(work) - {d} ensures x in InFlight(after) {
      var v :| v in work && work[v].posted.Some? && work[v].posted.value.0 == x;
      assert after[v] == work[v];
    }
  }

  /** Recording an outcome on a row nobody holds any more. */
  lemma MarkedRowKeeps(rows: seq<Delivery>, work: map<WorkerId, Work>, d: DeliveryId, ok: bool)
    requires UniqueKeys(rows) && (forall i :: 0 <= i < |rows| ==> RowOk(rows[i])) && Exclusive(rows, work)
    requires Due(rows, d) && NobodyHolds(work, d)
    ensures var after := rows[d := Marked(rows[d], ok)];
            UniqueKeys(after) && (forall i :: 0 <= i < |after| ==> RowOk(after[i])) && Exclusive(after, work)
  {
    var after := rows[d := Marked(rows[d], ok)];
    forall w, x | w in work && Holds(work[w], x) ensures Due(after, x) {
      assert Due(rows, x);
    }
  }

  lemma MarkKeepsInv(s: State, w: WorkerId)
    requires Inv(s)
    ensures Inv(Step(s, Mark(w)))
  {
    if w in s.work && s.work[w].posted.Some? {
      var (d, ok) := s.work[w].posted.value;
      assert Holds(s.work[w], d);
      DroppedPosted(s.rows, s.work, w, s.work[w].todo);
      MarkedRowKeeps(s.rows, s.work[w := Work(None, s.work[w].todo)], d, ok);
    }
  }

  lemma MissingKeepsInv(s: State, w: WorkerId)
    requires Inv(s)
    ensures Inv(Step(s, EndpointMissing(w)))
  {
    if w in s.work && s.work[w].posted.None? && s.work[w].todo != [] {
      var d := s.work[w].todo[0];
      var work := s.work[w := Work(None, s.work[w].todo[1..])];
      assert Holds(s.work[w], d);
      TakenFromTodo(s.rows, s.work, w, None);
      forall v | v in work ensures !Holds(work[v], d) {
        if v == w {
          assert d !in s.work[w].todo[1..];
        }
      }
      MarkedRowKeeps(s.rows, work, d, false);
      assert InFlight(work) == InFlight(s.work) by {
        forall x | x in InFlight(s.work) ensures x in InFlight(work) {
          var v :| v in s.work && s.work[v].posted.Some? && s.work[v].posted.value.0 == x;
          assert work[v] == s.work[v];
        }
      }
    }
  }

  lemma LoseKeepsInv(s: State, w: WorkerId)
    requires Inv(s)
    ensures Inv(Step(s, LoseMark(w)))
  {
    if w in s.work && s.work[w].posted.Some? {
      DroppedPosted(s.rows, s.work, w, s.work[w].todo);
    }
  }

  lemma CrashKeepsInv(s: State, w: WorkerId)
    requires Inv(s)
    ensures Inv(Step(s, Crash(w)))
  {
    if w in s.work && s.work[w].posted.Some? {
      DroppedPosted(s.rows, s.work, w, []);
    } else {
      var work := s.work[w := IDLE];
      assert InFlight(work) == InFlight(s.work) by {
        forall x | x in InFlight(s.work) ensures x in InFlight(work) {
          var v :| v in s.work && s.work[v].posted.Some? && s.work[v].posted.value.0 == x;
          assert work[v] == s.work[v];
        }
      }
    }
  }

  lemma StepKeepsInv(s: State, a: Action)
    requires Inv(s) && Separate(s, a)
    ensures Inv(Step(s, a))
  {
    match a
    case Enqueue(e, k) => EnqueueKeepsInv(s, e, k);
    case ListDue(w, batch) => ListKeepsInv(s, w, batch);
    case Post(w, ok) => PostKeepsInv(s, w, ok);
    case EndpointMissing(w) => MissingKeepsInv(s, w);
    case Mark(w) => MarkKeepsInv(s, w);
    case LoseMark(w) => LoseKeepsInv(s, w);
    case Crash(w) => CrashKeepsInv(s, w);
  }

  lemma StepKeepsFinalRows(s: State, a: Action)
    requires Inv(s)
    ensures FinalRowsStay(s.rows, Step(s, a).rows)
  {
    match a
    case Mark(w) =>
      if w in s.work && s.work[w].posted.Some? {
        assert Holds(s.work[w], s.work[w].posted.value.0) && Due(s.rows, s.work[w].posted.value.0);
      }
    case EndpointMissing(w) =>
      if w in s.work && s.work[w].todo != [] {
        assert Holds(s.work[w], s.work[w].todo[0]) && Due(s.rows, s.work[w].todo[0]);
      }
    case _ =>
  }

  /** Delivered and dead rows are final over every run of separate dispatchers. */
  lemma {:induction false} RunKeepsInv(s: State, actions: seq<Action>)
    requires Inv(s) && SeparateRun(s, actions)
    ensures Inv(Run(s, actions)) && FinalRowsStay(s.rows, Run(s, actions).rows)
    decreases actions
  {
    if actions != [] {
      StepKeepsInv(s, actions[0]);
      StepKeepsFinalRows(s, actions[0]);
      RunKeepsInv(Step(s, actions[0]), actions[1..]);
    }
  }

  // ---------------------------------------------------------------------------------------------
  // Bounds
  // ---------------------------------------------------------------------------------------------

  /** One row per endpoint and event key, and every pending row below the ceiling. */
  ghost predicate LedgerOk(rows: seq<Delivery>) {
    && UniqueKeys(rows)
    && forall d :: 0 <= d < |rows| && rows[d].status == PENDING ==> rows[d].attempts < MAX_DELIVERY_ATTEMPTS
  }

  lemma StepKeepsLedgerOk(s: State, a: Action)
    requires LedgerOk(s.rows)
    ensures LedgerOk(Step(s, a).rows)
  {
    if a.Enqueue? {
      assert Step(s, a).rows == Enqueued(s.rows, a.endpoint, a.eventKey);
    } else if Step(s, a).rows != s.rows {
      var k := WorkOf(s, a.worker);
      var d, ok := if a.Mark? then k.posted.value.0 else k.todo[0], a.Mark? && k.posted.value.1;
      assert Step(s, a).rows == s.rows[d := Marked(s.rows[d], ok)];
    }
  }

  /** Keys stay unique and pending rows below the ceiling over every run of any dispatchers, overlapping or not. */
  lemma {:induction false} LedgerStaysOk(s: State, actions: seq<Action>)
    requires LedgerOk(s.rows)
    ensures LedgerOk(Run(s, actions).rows)
    decreases actions
  {
    if actions != [] {
      StepKeepsLedgerOk(s, actions[0]);
      LedgerStaysOk(Step(s, actions[0]), actions[1..]);
    }
  }

  /** A delivery is requested at most six times plus once for each time its outcome was lost. */
  lemma DeliveriesAreBounded(s0: State, actions: seq<Action>)
    requires Init(s0) && SeparateRun(s0, actions)
    ensures var s := Run(s0, actions);
            && (forall d :: s.posts[d] <= MAX_DELIVERY_ATTEMPTS + s.lost[d])
            && |s.posts| <= MAX_DELIVERY_ATTEMPTS * |s.rows| + |s.lost|
  {
    assert InFlight(s0.work) == {};
    RunKeepsInv(s0, actions);
    var s := Run(s0, actions);
    forall d ensures s.posts[d] <= (if 0 <= d < |s.rows| then MAX_DELIVERY_ATTEMPTS else 0) + s.lost[d] {
      if d in InFlight(s.work) {
        var w :| w in s.work && s.work[w].posted.Some? && s.work[w].posted.value.0 == d;
        assert Holds(s.work[w], d) && Due(s.rows, d);
      }
      if d !in s.posts {
        assert s.posts[d] == 0;
      } else {
        assert RowOk(s.rows[d]);
      }
    }
    TotalBound(s.posts, s.lost, |s.rows|);
  }

  lemma {:induction false} TotalBound(posts: multiset<DeliveryId>, lost: multiset<DeliveryId>, n: nat)
    requires forall d: DeliveryId :: posts[d] <= (if d < n then MAX_DELIVERY_ATTEMPTS else 0) + lost[d]
    ensures |posts| <= MAX_DELIVERY_ATTEMPTS * n + |lost|
    decreases n
  {
    if n == 0 {
      assert posts <= lost;
      assert lost == posts + (lost - posts);
    } else {
      var d := n - 1;
      TotalBound(posts[d := 0], lost[d := 0], n - 1);
      assert posts == posts[d := 0] + multiset{}[d := posts[d]];
      assert |posts| == |posts[d := 0]| + posts[d];
      assert |lost| == |lost[d := 0]| + lost[d];
    }
  }

  // ---------------------------------------------------------------------------------------------
  // Two dispatchers
  // ---------------------------------------------------------------------------------------------

  /** Whatever outcome the action records, it records on a pending row: the guard the two updates do without. */
  predicate MarksOnlyPending(s: State, a: Action) {
    match a
    case Mark(w) =>
      var k := WorkOf(s, w);
      k.posted.Some? && k.posted.value.0 < |s.rows| ==> Due(s.rows, k.posted.value.0)
    case EndpointMissing(w) =>
      var k := WorkOf(s, w);
      k.posted.None? && k.todo != [] && k.todo[0] < |s.rows| ==> Due(s.rows, k.todo[0])
    case _ => true
  }

  lemma MarkingFinalRowChangesIt(s: State, a: Action)
    ensures FinalRowsStay(s.rows, Step(s, a).rows) <==> MarksOnlyPending(s, a)
  {
    match a
    case Mark(w) =>
      var k := WorkOf(s, w);
      if k.posted.Some? && k.posted.value.0 < |s.rows| {
        var (d, ok) := k.posted.value;
        assert Step(s, a).rows == s.rows[d := Marked(s.rows[d], ok)];
      }
    case EndpointMissing(w) =>
      var k := WorkOf(s, w);
      if k.posted.None? && k.todo != [] && k.todo[0] < |s.rows| {
        assert Step(s, a).rows == s.rows[k.todo[0] := Marked(s.rows[k.todo[0]], false)];
      }
    case _ =>
  }

  /** The state of a run before its action at `i`. */
  function At(s: State, actions: seq<Action>, i: nat): State
    requires i <= |actions|
  {
    Run(s, actions[..i])
  }

  lemma {:induction false} RunLast(s: State, actions: seq<Action>, a: Action)
    ensures Run(s, actions + [a]) == Step(Run(s, actions), a)
    decreases actions
  {
    if actions != [] {
      assert (actions + [a])[1..] == actions[1..] + [a];
      RunLast(Step(s, actions[0]), actions[1..], a);
    } else {
      assert (actions + [a])[1..] == [];
      assert Run(Step(s, a), []) == Step(s, a);
    }
  }

  lemma AtNext(s: State, actions: seq<Action>, i: nat)
    requires i < |actions|
    ensures At(s, actions, i + 1) == Step(At(s, actions, i), actions[i])
  {
    assert actions[..i + 1] == actions[..i] + [actions[i]];
    RunLast(s, actions[..i], actions[i]);
  }

  /** Rows are never removed and attempts never fall. */
  ghost predicate AttemptsGrow(before: seq<Delivery>, after: seq<Delivery>) {
    |before| <= |after| && forall d :: 0 <= d < |before| ==> before[d].attempts <= after[d].attempts
  }

  lemma {:induction false} AttemptsGrowBetween(s: State, actions: seq<Action>, i: nat, j: nat)
    requires i <= j <= |actions|
    ensures AttemptsGrow(At(s, actions, i).rows, At(s, actions, j).rows)
    decreases j
  {
    if i < j {
      AttemptsGrowBetween(s, actions, i, j - 1);
      AtNext(s, actions, j - 1);
      assert AttemptsGrow(At(s, actions, j - 1).rows, At(s, actions, j).rows);
    }
  }

  lemma {:induction false} FinalBetween(s: State, actions: seq<Action>, i: nat, j: nat)
    requires i <= j <= |actions|
    requires forall k :: i <= k < j ==> MarksOnlyPending(At(s, actions, k), actions[k])
    ensures FinalRowsStay(At(s, actions, i).rows, At(s, actions, j).rows)
    decreases j
  {
    if i < j {
      FinalBetween(s, actions, i, j - 1);
      AtNext(s, actions, j - 1);
      MarkingFinalRowChangesIt(At(s, actions, j - 1), actions[j - 1]);
    }
  }

  /** Recording an outcome on a delivered or dead row changes it for good. */
  lemma MarkedFinalRowIsLost(s: State, actions: seq<Action>, k: nat)
    requires k < |actions| && !MarksOnlyPending(At(s, actions, k), actions[k])
    ensures !FinalRowsStay(At(s, actions, k).rows, Run(s, actions).rows)
  {
    var before, after := At(s, actions, k), At(s, actions, k + 1);
    AtNext(s, actions, k);
    var w := actions[k].worker;
    var work := WorkOf(before, w);
    var d := if actions[k].Mark? then work.posted.value.0 else work.todo[0];
    assert after.rows[d].attempts == before.rows[d].attempts + 1;
    AttemptsGrowBetween(s, actions, k + 1, |actions|);
    assert actions[..|actions|] == actions;
  }

  /** Over any run of any dispatchers, delivered and dead rows are final exactly when no outcome is recorded on one. */
  lemma FinalRowsStayExactlyWhen(s: State, actions: seq<Action>)
    ensures (forall i :: 0 <= i <= |actions| ==> FinalRowsStay(At(s, actions, i).rows, Run(s, actions).rows)) <==>
            (forall k :: 0 <= k < |actions| ==> MarksOnlyPending(At(s, actions, k), actions[k]))
  {
    assert actions[..|actions|] == actions;
    if forall k :: 0 <= k < |actions| ==> MarksOnlyPending(At(s, actions, k), actions[k]) {
      forall i | 0 <= i <= |actions| ensures FinalRowsStay(At(s, actions, i).rows, Run(s, actions).rows) {
        FinalBetween(s, actions, i, |actions|);
      }
    } else {
      var k :| 0 <= k < |actions| && !MarksOnlyPending(At(s, actions, k), actions[k]);
      MarkedFinalRowIsLost(s, actions, k);
    }
  }

  ghost predicate Reachable(s: State) {
    exists s0: State, actions: seq<Action> :: Init(s0) && s == Run(s0, actions)
  }

  lemma StepIsReachable(s: State, a: Action)
    requires Reachable(s)
    ensures Reachable(Step(s, a))
  {
    var s0, actions :| Init(s0) && s == Run(s0, actions);
    RunLast(s0, actions, a);
  }

  lemma PostOnlyOne(s: State, w: WorkerId, d: DeliveryId, ok: bool)
    requires Reachable(s) && w in s.work && s.work[w] == Work(None, [d])
    ensures var t := s.(work := s.work[w := Work(Some((d, ok)), [])], posts := s.posts + multiset{d});
            Step(s, Post(w, ok)) == t && Reachable(t)
  {
    StepIsReachable(s, Post(w, ok));
    assert [d][1..] == [];
  }

  lemma ListOnlyOne(s: State, w: WorkerId, d: DeliveryId)
    requires Reachable(s) && w !in s.work && Due(s.rows, d)
    ensures var t := s.(work := s.work[w := Work(None, [d])]);
            Step(s, ListDue(w, [d])) == t && Reachable(t)
  {
    StepIsReachable(s, ListDue(w, [d]));
  }

  lemma OneQueued()
    ensures Reachable(State([Delivery(7, 7, PENDING, 0)], map[], multiset{}, multiset{}))
  {
    var s0 := State([], map[], multiset{}, multiset{});
    assert Init(s0) && s0 == Run(s0, []);
    StepIsReachable(s0, Enqueue(7, 7));
  }

  /** From the empty ledger: two dispatchers list the same row, one delivers it, the other puts it back to PENDING. */
  lemma OverlappingDispatchersReopen()
    ensures exists s: State :: Reachable(s) && s.rows == [Delivery(7, 7, DELIVERED, 1)]
                               && Step(s, Mark(2)).rows == [Delivery(7, 7, PENDING, 2)]
  {
    OneQueued();
    var queued := State([Delivery(7, 7, PENDING, 0)], map[], multiset{}, multiset{});
    ListOnlyOne(queued, 1, 0);
    var one := queued.(work := queued.work[1 := Work(None, [0])]);
    ListOnlyOne(one, 2, 0);
    var both := one.(work := one.work[2 := Work(None, [0])]);
    PostOnlyOne(both, 1, 0, true);
    var half := both.(work := both.work[1 := Work(Some((0, true)), [])], posts := both.posts + multiset{0});
    PostOnlyOne(half, 2, 0, false);
    var posted := half.(work := half.work[2 := Work(Some((0, false)), [])], posts := half.posts + multiset{0});
    StepIsReachable(posted, Mark(1));
    SecondMarkReopens(posted, 0);
  }

  /** A failure recorded after a delivery of the same row, with attempts to spare. */
  lemma SecondMarkReopens(s: State, d: DeliveryId)
    requires WorkOf(s, 1).posted == Some((d, true)) && WorkOf(s, 2).posted == Some((d, false))
    requires Due(s.rows, d) && s.rows[d].attempts + 2 < MAX_DELIVERY_ATTEMPTS
    ensures var row, delivered := s.rows[d], Step(s, Mark(1));
            && delivered.rows == s.rows[d := row.(status := DELIVERED, attempts := row.attempts + 1)]
            && Step(delivered, Mark(2)).rows == s.rows[d := row.(status := PENDING, attempts := row.attempts + 2)]
  {
  }

  // ---------------------------------------------------------------------------------------------
  // The ledger in place
  // ---------------------------------------------------------------------------------------------

  class DeliveryLedger {
    var rows: seq<Delivery>

    constructor ()
      ensures rows == []
    {
      rows := [];
    }

    /** Queues an event for an endpoint unless it already has been. */
    method EnqueueDelivery(endpoint: nat, eventKey: nat)
      modifies this
      ensures rows == Enqueued(old(rows), endpoint, eventKey)
      ensures UniqueKeys(old(rows)) ==> UniqueKeys(rows)
      ensures Taken(rows, endpoint, eventKey)
    {
      for i := 0 to |rows|
        invariant forall j :: 0 <= j < i ==> rows[j].endpoint != endpoint || rows[j].eventKey != eventKey
      {
        if rows[i].endpoint == endpoint && rows[i].eventKey == eventKey {
          return;
        }
      }
      rows := rows + [Delivery(endpoint, eventKey, PENDING, 0)];
      assert rows[|rows| - 1].endpoint == endpoint;
    }

    /** One undisturbed tick over a batch of due rows: each is attempted once, and nothing else changes. */
    method Dispatch(batch: seq<DeliveryId>, outcomes: seq<bool>)
      requires Distinct(batch) && |batch| == |outcomes| && forall i :: 0 <= i < |batch| ==> Due(rows, batch[i])
      requires forall d :: 0 <= d < |rows| ==> RowOk(rows[d])
      modifies this
      ensures |rows| == |old(rows)| && forall d :: 0 <= d < |rows| ==> RowOk(rows[d])
      ensures forall i :: 0 <= i < |batch| ==>
                batch[i] < |rows| && rows[batch[i]] == Marked(old(rows)[batch[i]], outcomes[i])
      ensures forall d :: 0 <= d < |rows| && d !in batch ==> rows[d] == old(rows)[d]
    {
      for i := 0 to |batch|
        invariant |rows| == |old(rows)| && forall d :: 0 <= d < |rows| ==> RowOk(rows[d])
        invariant forall j :: 0 <= j < i ==> rows[batch[j]] == Marked(old(rows)[batch[j]], outcomes[j])
        invariant forall d :: 0 <= d < |rows| && d !in batch[..i] ==> rows[d] == old(rows)[d]
      {
        var d := batch[i];
        assert d !in batch[..i];
        rows := rows[d := Marked(rows[d], outcomes[i])];
        assert batch[..i + 1] == batch[..i] + [d];
      }
      assert batch[..|batch|] == batch;
    }
  }

  // ---------------------------------------------------------------------------------------------
  // Backoff
  // ---------------------------------------------------------------------------------------------

  function Pow2(n: nat): nat {
    if n == 0 then 1 else 2 * Pow2(n - 1)
  }

  lemma {:induction false} Pow2Grows(m: nat, n: nat)
    requires m <= n
    ensures Pow2(m) <= Pow2(n)
    decreases n
  {
    if m < n {
      Pow2Grows(m, n - 1);
    }
  }

  /** Seconds before an attempt: 30 doubled for each earlier one, capped at half an hour. */
  method Backoff(attempt: int) returns (seconds: nat)
    ensures var doublings := if attempt > 1 then attempt - 1 else 0;
            seconds == if 30 * Pow2(doublings) < 1800 then 30 * Pow2(doublings) else 1800
  {
    seconds := 30;
    var i := 1;
    while i < attempt
      invariant 1 <= i && (i <= attempt || i == 1)
      invariant seconds == 30 * Pow2(i - 1) && seconds < 1800
    {
      seconds := seconds * 2;
      if seconds >= 1800 {
        Pow2Grows(i, attempt - 1);
        return 1800;
      }
      i := i + 1;
    }
  }
}
