/**
 The invariant of the scan protocol, kept by every action.

 Each part is a predicate over the components it speaks of, so an action that leaves those components
 alone keeps the part trivially; the lemmas below deal with the actions that do not.
 */
module ScanInvariant {
  import opened Common
  import opened ScanQueue
  import opened ScanProtocol

  type Cache = map<TicketId, Marks>
  type Ledger = map<(Key, ScanKind), (Payload, Response)>

  /** Two records of the same scan: only bookkeeping may differ. */
  predicate SameScan(a: ScanOperation, b: ScanOperation) {
    a == b.(status := a.status, attempts := a.attempts, lastError := a.lastError)
  }

  // ---------------------------------------------------------------------------------------------
  // The parts
  // ---------------------------------------------------------------------------------------------

  /** Every accepted scan is either stored, PENDING or FAILED, or drained, never both. */
  ghost predicate Books(
    ops: Operations, scanning: Operations, accepted: Operations, drained: set<Key>, sent: set<Key>)
  {
    && WellKeyed(ops) && WellKeyed(scanning) && WellKeyed(accepted)
    && ops.Keys + drained == accepted.Keys
    && ops.Keys !! drained
    && scanning.Keys !! accepted.Keys
    && sent <= accepted.Keys
    && (forall k :: k in ops ==> SameScan(ops[k], accepted[k]) && ops[k].status != SYNCING)
    && (forall k :: k in scanning ==> scanning[k].status == PENDING)
  }

  /** A drained scan is flagged on the device and accomplished on the server. */
  ghost predicate DrainedDone(
    drained: set<Key>, accepted: Operations, cache: Cache, server: Server)
  {
    forall k :: k in drained && k in accepted ==>
                  && Marked(cache, accepted[k].ticketId, accepted[k].kind)
                  && Accomplished(server, TransportPayload(accepted[k]))
  }

  /** A request under an accepted key carries that scan's payload; only accomplished work is answered as such. */
  ghost predicate HonestRequest(
    q: Request, scanning: Operations, accepted: Operations, server: Server)
  {
    && q.key !in scanning
    && (q.key in accepted ==> q.payload == TransportPayload(accepted[q.key]))
    && (q.phase.Executed? ==> q.phase.resp.Ok? && Accomplished(server, q.payload))
    && (q.phase.Answered? && Drains(q.phase.resp) ==> Accomplished(server, q.payload))
  }

  ghost predicate HonestRequests(
    requests: seq<Request>, scanning: Operations, accepted: Operations, server: Server)
  {
    forall r :: 0 <= r < |requests| ==> HonestRequest(requests[r], scanning, accepted, server)
  }

  /** What the idempotency ledger replays has been accomplished. */
  ghost predicate HonestLedger(ledger: Ledger, scanning: Operations, server: Server) {
    forall row :: row in ledger ==> row.0 !in scanning && Accomplished(server, ledger[row].0)
  }

  /** A queued operation the running engine has yet to settle is as it was listed. */
  ghost predicate Untouched(op: ScanOperation, ops: Operations, arrived: set<Key>) {
    && op.idempotencyKey in ops && ops[op.idempotencyKey] == op && op.status == PENDING
    && op.idempotencyKey !in arrived
  }

  ghost predicate TodoReady(todo: seq<ScanOperation>, ops: Operations, sent: set<Key>, arrived: set<Key>) {
    && (forall i :: 0 <= i < |todo| ==> Untouched(todo[i], ops, arrived) && todo[i].idempotencyKey !in sent)
    && (forall i, j :: 0 <= i < j < |todo| ==> todo[i].idempotencyKey != todo[j].idempotencyKey)
  }

  /** The operation in hand was sent in this run and is not listed again. */
  ghost predicate InHand(
    op: ScanOperation, todo: seq<ScanOperation>, ops: Operations, sent: set<Key>, arrived: set<Key>)
  {
    TodoReady(todo, ops, sent, arrived) && Untouched(op, ops, arrived) && op.idempotencyKey in sent
  }

  /** The operations the engine holds are as stored. */
  ghost predicate EngineHolds(engine: Engine, ops: Operations, sent: set<Key>, arrived: set<Key>) {
    match engine
    case Idle => true
    case Listing => true
    case Looping(todo) => TodoReady(todo, ops, sent, arrived)
    case Waiting(op, r, todo) => InHand(op, todo, ops, sent, arrived)
    case Settling(op, result, todo) => InHand(op, todo, ops, sent, arrived)
    case Marking(op, existing, todo) => InHand(op, todo, ops, sent, arrived)
    case Removing(op, todo) => InHand(op, todo, ops, sent, arrived)
    case Patching(op, patched, todo) =>
      InHand(op, todo, ops, sent, arrived) && SameScan(patched, op) && patched.status != SYNCING
  }

  /** What the engine believes about the operation in hand is true. */
  ghost predicate EngineKnows(
    engine: Engine, requests: seq<Request>, cache: Cache, server: Server)
  {
    match engine
    case Waiting(op, r, todo) => r < |requests| && requests[r].key == op.idempotencyKey
    case Settling(op, result, todo) =>
      result.classification == DRAIN ==> Accomplished(server, TransportPayload(op))
    case Marking(op, existing, todo) =>
      Accomplished(server, TransportPayload(op)) && existing == MarksOf(cache, op.ticketId)
    case Removing(op, todo) =>
      Accomplished(server, TransportPayload(op)) && Marked(cache, op.ticketId, op.kind)
    case _ => true
  }

  /** What arrived after the listing is untouched and unsent. */
  ghost predicate ArrivalsWait(arrived: set<Key>, ops: Operations, accepted: Operations, sent: set<Key>) {
    forall k :: k in arrived ==>
                  k in ops && k in accepted && ops[k] == accepted[k] && ops[k].status == PENDING && k !in sent
  }

  /** Each ticket was used, and each race pack handed out, at most once. */
  ghost predicate Once(server: Server) {
    && (forall t :: server.checkInLog[t] <= 1)
    && (forall t :: t in server.checkInLog ==> t in server.tickets && server.tickets[t].status == USED)
    && (forall t :: server.pickupLog[t] <= 1)
    && (forall t :: t in server.pickupLog ==> t in server.pickups)
  }

  ghost predicate Inv(s: State) {
    && Books(s.ops, s.scanning, s.accepted, s.drained, s.sent)
    && DrainedDone(s.drained, s.accepted, s.cache, s.server)
    && HonestRequests(s.requests, s.scanning, s.accepted, s.server)
    && HonestLedger(s.idempotency, s.scanning, s.server)
    && EngineHolds(s.engine, s.ops, s.sent, s.arrivedSinceListing)
    && EngineKnows(s.engine, s.requests, s.cache, s.server)
    && ArrivalsWait(s.arrivedSinceListing, s.ops, s.accepted, s.sent)
    && Once(s.server)
  }

  lemma InitInv(s: State)
    requires Init(s)
    ensures Inv(s)
  {
  }

  // ---------------------------------------------------------------------------------------------
  // Scans
  // ---------------------------------------------------------------------------------------------

  lemma ScanBeginKeepsInv(s: State, op: ScanOperation)
    requires Inv(s)
    ensures Inv(ScanStep(s, ScanBegin(op)))
  {
    var t := ScanStep(s, ScanBegin(op));
    if t != s {
      assert t == s.(scanning := t.scanning);
      assert Books(t.ops, t.scanning, t.accepted, t.drained, t.sent);
      ScanningFreshKey(s, op);
    }
  }

  /** A fresh key is in nobody's hands. */
  lemma ScanningFreshKey(s: State, op: ScanOperation)
    requires Unused(s, op.idempotencyKey)
    requires HonestRequests(s.requests, s.scanning, s.accepted, s.server)
    requires HonestLedger(s.idempotency, s.scanning, s.server)
    ensures HonestRequests(s.requests, s.scanning[op.idempotencyKey := op], s.accepted, s.server)
    ensures HonestLedger(s.idempotency, s.scanning[op.idempotencyKey := op], s.server)
  {
  }

  lemma ScanStoreKeepsInv(s: State, k: Key)
    requires Inv(s)
    ensures Inv(ScanStep(s, ScanStore(k)))
  {
    if k in s.scanning {
      StoredIsBooked(s, k);
      StoredIsHonest(s, k);
      StoredIsNotHeld(s, k);
      StoredIsNotDrained(s, k);
    }
  }

  lemma StoredIsBooked(s: State, k: Key)
    requires k in s.scanning
    requires Books(s.ops, s.scanning, s.accepted, s.drained, s.sent)
    requires ArrivalsWait(s.arrivedSinceListing, s.ops, s.accepted, s.sent)
    ensures Books(s.ops[k := s.scanning[k]], s.scanning - {k}, s.accepted[k := s.scanning[k]], s.drained, s.sent)
    ensures ArrivalsWait(s.arrivedSinceListing + {k}, s.ops[k := s.scanning[k]], s.accepted[k := s.scanning[k]], s.sent)
    ensures k !in s.ops && k !in s.accepted && k !in s.drained
  {
  }

  lemma StoredIsNotDrained(s: State, k: Key)
    requires k in s.scanning && k !in s.drained
    requires DrainedDone(s.drained, s.accepted, s.cache, s.server)
    requires HonestLedger(s.idempotency, s.scanning, s.server)
    ensures DrainedDone(s.drained, s.accepted[k := s.scanning[k]], s.cache, s.server)
    ensures HonestLedger(s.idempotency, s.scanning - {k}, s.server)
  {
  }

  lemma StoredIsHonest(s: State, k: Key)
    requires k in s.scanning
    requires HonestRequests(s.requests, s.scanning, s.accepted, s.server)
    ensures HonestRequests(s.requests, s.scanning - {k}, s.accepted[k := s.scanning[k]], s.server)
  {
    forall r | 0 <= r < |s.requests|
      ensures HonestRequest(s.requests[r], s.scanning - {k}, s.accepted[k := s.scanning[k]], s.server)
    {
      assert HonestRequest(s.requests[r], s.scanning, s.accepted, s.server);
    }
  }

  lemma StoredIsNotHeld(s: State, k: Key)
    requires k in s.scanning && k !in s.ops
    requires EngineHolds(s.engine, s.ops, s.sent, s.arrivedSinceListing)
    ensures EngineHolds(s.engine, s.ops[k := s.scanning[k]], s.sent, s.arrivedSinceListing + {k})
  {
  }

  // ---------------------------------------------------------------------------------------------
  // The engine
  // ---------------------------------------------------------------------------------------------

  lemma SyncListKeepsInv(s: State, todo: seq<ScanOperation>)
    requires Inv(s)
    ensures Inv(EngineStep(s, SyncList(todo)))
  {
    var t := EngineStep(s, SyncList(todo));
    if t != s {
      forall i | 0 <= i < |todo| ensures Untouched(todo[i], s.ops, {}) {
        assert todo[i] in Elements(todo);
      }
    }
  }

  lemma SendKeepsInv(s: State)
    requires Inv(s)
    ensures Inv(EngineStep(s, Send))
  {
    if s.engine.Looping? && s.engine.todo != [] {
      var todo := s.engine.todo;
      NextInHand(todo, s.ops, s.sent, s.arrivedSinceListing);
      var q := Request(todo[0].idempotencyKey, TransportPayload(todo[0]), Sent);
      assert TransportPayload(todo[0]) == TransportPayload(s.accepted[q.key]);
      assert HonestRequests(s.requests + [q], s.scanning, s.accepted, s.server);
    }
  }

  lemma NextInHand(todo: seq<ScanOperation>, ops: Operations, sent: set<Key>, arrived: set<Key>)
    requires TodoReady(todo, ops, sent, arrived) && todo != []
    ensures Untouched(todo[0], ops, arrived)
    ensures InHand(todo[0], todo[1..], ops, sent + {todo[0].idempotencyKey}, arrived)
  {
  }

  lemma ReceiveKeepsInv(s: State)
    requires Inv(s)
    ensures Inv(EngineStep(s, Receive))
  {
    if s.engine.Waiting? {
      var op := s.engine.op;
      assert TransportPayload(op) == TransportPayload(s.accepted[op.idempotencyKey]);
      if s.requests[s.engine.request].phase.Answered? {
        DrainsExactlyWhen(s.requests[s.engine.request].phase.resp);
      }
    }
  }

  lemma GiveUpKeepsInv(s: State)
    requires Inv(s)
    ensures Inv(EngineStep(s, GiveUp))
  {
  }

  lemma StartAndEndKeepInv(s: State, a: Action)
    requires Inv(s) && (a.SyncStart? || a.SyncEnd?)
    ensures Inv(EngineStep(s, a))
  {
  }

  lemma CrashKeepsInv(s: State)
    requires Inv(s)
    ensures Inv(EngineStep(s, Crash))
  {
  }

  // ---------------------------------------------------------------------------------------------
  // Outcomes
  // ---------------------------------------------------------------------------------------------

  lemma WriteMarksKeepsInv(s: State)
    requires Inv(s)
    ensures Inv(OutcomeStep(s, WriteMarks))
  {
  }

  lemma RemoveKeepsInv(s: State)
    requires Inv(s)
    ensures Inv(OutcomeStep(s, Remove))
  {
    if s.engine.Removing? {
      var op := s.engine.op;
      assert TransportPayload(op) == TransportPayload(s.accepted[op.idempotencyKey]);
      RemovedIsNotHeld(op, s.engine.todo, s.ops, s.sent, s.arrivedSinceListing);
    }
  }

  lemma RemovedIsNotHeld(
    op: ScanOperation, todo: seq<ScanOperation>, ops: Operations, sent: set<Key>, arrived: set<Key>)
    requires InHand(op, todo, ops, sent, arrived)
    ensures TodoReady(todo, ops - {op.idempotencyKey}, sent, arrived)
  {
  }

  lemma ReadsKeepInv(s: State, a: Action)
    requires Inv(s) && (a.ReadPatch? || a.ReadMarks?)
    ensures Inv(OutcomeStep(s, a))
  {
  }

  lemma WritePatchKeepsInv(s: State)
    requires Inv(s)
    ensures Inv(OutcomeStep(s, WritePatch))
  {
    if s.engine.Patching? {
      var op, patched, todo := s.engine.op, s.engine.patched, s.engine.todo;
      PatchedIsBooked(s, op, patched);
      PatchedIsNotHeld(s, op, patched, todo);
    }
  }

  lemma PatchedIsBooked(s: State, op: ScanOperation, patched: ScanOperation)
    requires Books(s.ops, s.scanning, s.accepted, s.drained, s.sent)
    requires ArrivalsWait(s.arrivedSinceListing, s.ops, s.accepted, s.sent)
    requires Untouched(op, s.ops, s.arrivedSinceListing)
    requires SameScan(patched, op) && patched.status != SYNCING
    ensures Books(s.ops[op.idempotencyKey := patched], s.scanning, s.accepted, s.drained, s.sent)
    ensures ArrivalsWait(s.arrivedSinceListing, s.ops[op.idempotencyKey := patched], s.accepted, s.sent)
  {
  }

  lemma PatchedIsNotHeld(s: State, op: ScanOperation, patched: ScanOperation, todo: seq<ScanOperation>)
    requires InHand(op, todo, s.ops, s.sent, s.arrivedSinceListing)
    ensures TodoReady(todo, s.ops[op.idempotencyKey := patched], s.sent, s.arrivedSinceListing)
  {
    forall i | 0 <= i < |todo|
      ensures Untouched(todo[i], s.ops[op.idempotencyKey := patched], s.arrivedSinceListing)
    {
      assert Untouched(todo[i], s.ops, s.arrivedSinceListing) && todo[i].idempotencyKey !in s.sent;
    }
  }

  // ---------------------------------------------------------------------------------------------
  // The server
  // ---------------------------------------------------------------------------------------------

  /** Nothing done is undone. */
  ghost predicate Progress(server: Server, server': Server) {
    && server.pickups <= server'.pickups
    && forall t :: t in server.tickets ==>
                     && t in server'.tickets && server'.tickets[t].eventId == server.tickets[t].eventId
                     && (server.tickets[t].status == USED ==> server'.tickets[t].status == USED)
  }

  lemma DoneStaysDone(
    drained: set<Key>, accepted: Operations, cache: Cache,
    server: Server, server': Server)
    requires DrainedDone(drained, accepted, cache, server)
    requires Progress(server, server')
    ensures DrainedDone(drained, accepted, cache, server')
  {
  }

  lemma LedgerStaysHonest(
    ledger: Ledger, scanning: Operations,
    server: Server, server': Server)
    requires HonestLedger(ledger, scanning, server)
    requires Progress(server, server')
    ensures HonestLedger(ledger, scanning, server')
  {
  }

  /** Replacing one request by an honest one of the same key, while the server makes progress. */
  lemma RequestsStayHonest(
    requests: seq<Request>, r: nat, phase: Phase, scanning: Operations, accepted: Operations,
    server: Server, server': Server)
    requires HonestRequests(requests, scanning, accepted, server)
    requires Progress(server, server')
    requires r < |requests| && HonestRequest(requests[r].(phase := phase), scanning, accepted, server')
    ensures HonestRequests(requests[r := requests[r].(phase := phase)], scanning, accepted, server')
  {
    var requests' := requests[r := requests[r].(phase := phase)];
    forall i | 0 <= i < |requests'| ensures HonestRequest(requests'[i], scanning, accepted, server') {
      assert HonestRequest(requests[i], scanning, accepted, server);
    }
  }

  lemma KnowledgeStays(
    engine: Engine, cache: Cache, requests: seq<Request>, requests': seq<Request>,
    server: Server, server': Server)
    requires EngineKnows(engine, requests, cache, server)
    requires Progress(server, server')
    requires |requests| == |requests'| && forall i :: 0 <= i < |requests| ==> requests'[i].key == requests[i].key
    ensures EngineKnows(engine, requests', cache, server')
  {
  }

  lemma AnswersKeepInv(s: State, r: nat, phase: Phase)
    requires Inv(s) && r < |s.requests|
    requires HonestRequest(s.requests[r].(phase := phase), s.scanning, s.accepted, s.server)
    ensures Inv(SetPhase(s, r, phase))
  {
    RequestsStayHonest(s.requests, r, phase, s.scanning, s.accepted, s.server, s.server);
    var t := SetPhase(s, r, phase);
    KnowledgeStays(s.engine, s.cache, s.requests, t.requests, s.server, s.server);
  }

  lemma LookupKeepsInv(s: State, r: nat)
    requires Inv(s)
    ensures Inv(ServerStep(s, Lookup(r)))
  {
    if InPhase(s, r, Sent) {
      assert HonestRequest(s.requests[r], s.scanning, s.accepted, s.server);
      var q := s.requests[r];
      var row := (q.key, q.payload.kind);
      if !Decodable(q.payload) {
        AnswersKeepInv(s, r, Answered(Error(400, BAD_REQUEST)));
      } else if row !in s.idempotency {
        AnswersKeepInv(s, r, Missed);
      } else if s.idempotency[row].0 == q.payload {
        AnswersKeepInv(s, r, Answered(s.idempotency[row].1));
      } else {
        AnswersKeepInv(s, r, Answered(Error(409, IDEMPOTENCY_CONFLICT)));
      }
    }
  }

  lemma RefuseKeepsInv(s: State, r: nat, refusal: Response)
    requires Inv(s)
    ensures Inv(ServerStep(s, Refuse(r, refusal)))
  {
    if Refusal(refusal) && (InPhase(s, r, Sent) || InPhase(s, r, Missed)) {
      assert HonestRequest(s.requests[r], s.scanning, s.accepted, s.server);
      AnswersKeepInv(s, r, Answered(refusal));
    }
  }

  lemma ForgetKeepsInv(s: State, r: nat)
    requires Inv(s)
    ensures Inv(ServerStep(s, Forget(r)))
  {
    if r < |s.requests| && s.requests[r].phase.Executed? {
      assert HonestRequest(s.requests[r], s.scanning, s.accepted, s.server);
      AnswersKeepInv(s, r, Answered(s.requests[r].phase.resp));
    }
  }

  lemma LoseKeepsInv(s: State, r: nat)
    requires Inv(s)
    ensures Inv(ServerStep(s, Lose(r)))
  {
    if r < |s.requests| {
      assert HonestRequest(s.requests[r], s.scanning, s.accepted, s.server);
      AnswersKeepInv(s, r, Lost);
    }
  }

  lemma RememberKeepsInv(s: State, r: nat)
    requires Inv(s)
    ensures Inv(ServerStep(s, Remember(r)))
  {
    if r < |s.requests| && s.requests[r].phase.Executed? {
      var q := s.requests[r];
      var row := (q.key, q.payload.kind);
      assert HonestRequest(q, s.scanning, s.accepted, s.server);
      var u := if row in s.idempotency then s else s.(idempotency := s.idempotency[row := (q.payload, q.phase.resp)]);
      LedgerTakesAnswer(s.idempotency, q, s.scanning, s.accepted, s.server);
      AnswersKeepInv(u, r, Answered(q.phase.resp));
    }
  }

  lemma LedgerTakesAnswer(
    ledger: map<(Key, ScanKind), (Payload, Response)>, q: Request, scanning: Operations, accepted: Operations,
    server: Server)
    requires HonestLedger(ledger, scanning, server) && HonestRequest(q, scanning, accepted, server) && q.phase.Executed?
    ensures HonestLedger(ledger[(q.key, q.payload.kind) := (q.payload, q.phase.resp)], scanning, server)
  {
  }

  /** A transaction makes progress, happens once, and answers truthfully. */
  ghost predicate SoundOutcome(server: Server, p: Payload, outcome: (Server, Response)) {
    Progress(server, outcome.0) && Once(outcome.0) && (Drains(outcome.1) ==> Accomplished(outcome.0, p))
  }

  lemma OneMoreInLog(log: multiset<TicketId>, x: TicketId)
    requires (forall t :: log[t] <= 1) && x !in log
    ensures forall t :: (log + multiset{x})[t] <= 1
    ensures forall t :: t in log + multiset{x} <==> t in log || t == x
  {
  }

  lemma CheckInIsSound(server: Server, p: Payload)
    requires Once(server) && p.kind == CHECKIN
    ensures SoundOutcome(server, p, CheckIn(server, p))
  {
    var outcome := CheckIn(server, p);
    if outcome.1 == Ok(false) {
      OneMoreInLog(server.checkInLog, p.ticketId);
      assert outcome.0 == server.(tickets := outcome.0.tickets, checkInLog := outcome.0.checkInLog);
      assert Once(outcome.0);
    } else {
      assert outcome.0 == server;
    }
  }

  lemma PickupIsSound(server: Server, p: Payload, desk: Desk)
    requires Once(server) && p.kind == PICKUP
    ensures SoundOutcome(server, p, ExecutePickup(server, p, desk))
  {
    var outcome := ExecutePickup(server, p, desk);
    if outcome.1 == Ok(false) {
      OneMoreInLog(server.pickupLog, p.ticketId);
      assert Once(outcome.0);
    } else {
      assert outcome.0 == server;
    }
  }

  lemma ExecuteIsSound(server: Server, p: Payload, desk: Desk)
    requires Once(server)
    ensures SoundOutcome(server, p, Execute(server, p, desk))
  {
    if p.kind == CHECKIN {
      CheckInIsSound(server, p);
    } else {
      PickupIsSound(server, p, desk);
    }
  }

  lemma TransactKeepsInv(s: State, r: nat, desk: Desk)
    requires Inv(s)
    ensures Inv(ServerStep(s, Transact(r, desk)))
  {
    if InPhase(s, r, Missed) {
      var q := s.requests[r];
      var (server, resp) := Execute(s.server, q.payload, desk);
      ExecuteIsSound(s.server, q.payload, desk);
      assert HonestRequest(q, s.scanning, s.accepted, s.server);
      ProgressKeepsInv(s, server, r, if resp.Ok? then Executed(resp) else Answered(resp));
    }
  }

  lemma ProgressKeepsInv(s: State, server: Server, r: nat, phase: Phase)
    requires Inv(s) && r < |s.requests|
    requires Progress(s.server, server) && Once(server)
    requires HonestRequest(s.requests[r].(phase := phase), s.scanning, s.accepted, server)
    ensures Inv(SetPhase(s.(server := server), r, phase))
  {
    RequestsStayHonest(s.requests, r, phase, s.scanning, s.accepted, s.server, server);
    KnowledgeStays(s.engine, s.cache, s.requests, SetPhase(s, r, phase).requests, s.server, server);
    LedgerStaysHonest(s.idempotency, s.scanning, s.server, server);
    DoneStaysDone(s.drained, s.accepted, s.cache, s.server, server);
  }

  lemma OtherDeviceKeepsInv(s: State, k: Key, p: Payload)
    requires Inv(s)
    ensures Inv(ServerStep(s, OtherDevice(k, p)))
  {
  }

  lemma IssueTicketKeepsInv(s: State, t: TicketId, e: EventId)
    requires Inv(s)
    ensures Inv(ServerStep(s, IssueTicket(t, e)))
  {
    if t !in s.server.tickets {
      var next := s.server.(tickets := s.server.tickets[t := Ticket(e, VALID)]);
      LedgerStaysHonest(s.idempotency, s.scanning, s.server, next);
      DoneStaysDone(s.drained, s.accepted, s.cache, s.server, next);
      KnowledgeStays(s.engine, s.cache, s.requests, s.requests, s.server, next);
      forall r | 0 <= r < |s.requests| ensures HonestRequest(s.requests[r], s.scanning, s.accepted, next) {
        assert HonestRequest(s.requests[r], s.scanning, s.accepted, s.server);
      }
      assert Once(next);
    }
  }

  // ---------------------------------------------------------------------------------------------
  // Every action, every run
  // ---------------------------------------------------------------------------------------------

  lemma EngineKeepsInv(s: State, a: Action)
    requires Inv(s)
    ensures Inv(EngineStep(s, a))
  {
    match a
    case SyncList(todo) => SyncListKeepsInv(s, todo);
    case Send => SendKeepsInv(s);
    case Receive => ReceiveKeepsInv(s);
    case SyncStart => StartAndEndKeepInv(s, a);
    case SyncEnd => StartAndEndKeepInv(s, a);
    case GiveUp => GiveUpKeepsInv(s);
    case Crash => CrashKeepsInv(s);
    case _ => assert EngineStep(s, a) == s;
  }

  lemma OutcomeKeepsInv(s: State, a: Action)
    requires Inv(s)
    ensures Inv(OutcomeStep(s, a))
  {
    match a
    case WriteMarks => WriteMarksKeepsInv(s);
    case Remove => RemoveKeepsInv(s);
    case ReadMarks => ReadsKeepInv(s, a);
    case ReadPatch => ReadsKeepInv(s, a);
    case WritePatch => WritePatchKeepsInv(s);
    case _ => assert OutcomeStep(s, a) == s;
  }

  lemma ServerKeepsInv(s: State, a: Action)
    requires Inv(s)
    ensures Inv(ServerStep(s, a))
  {
    match a
    case Lookup(r) => LookupKeepsInv(s, r);
    case Refuse(r, refusal) => RefuseKeepsInv(s, r, refusal);
    case Transact(r, desk) => TransactKeepsInv(s, r, desk);
    case Remember(r) => RememberKeepsInv(s, r);
    case Forget(r) => ForgetKeepsInv(s, r);
    case Lose(r) => LoseKeepsInv(s, r);
    case OtherDevice(k, p) => OtherDeviceKeepsInv(s, k, p);
    case IssueTicket(t, e) => IssueTicketKeepsInv(s, t, e);
    case _ => assert ServerStep(s, a) == s;
  }

  lemma StepKeepsInv(s: State, a: Action)
    requires Inv(s)
    ensures Inv(Step(s, a))
  {
    match SideOf(a)
    case SCANNING =>
      if a.ScanBegin? {
        ScanBeginKeepsInv(s, a.op);
      } else {
        ScanStoreKeepsInv(s, a.key);
      }
    case SENDING => EngineKeepsInv(s, a);
    case SETTLING => OutcomeKeepsInv(s, a);
    case SERVING => ServerKeepsInv(s, a);
  }

  lemma {:induction false} RunKeepsInv(s: State, actions: seq<Action>)
    requires Inv(s)
    ensures Inv(Run(s, actions))
    decreases actions
  {
    if actions != [] {
      StepKeepsInv(s, actions[0]);
      RunKeepsInv(Step(s, actions[0]), actions[1..]);
    }
  }
}
