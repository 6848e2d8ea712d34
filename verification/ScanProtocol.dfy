/**
 Scanner, network and server together, one step at a time.

 Every `await` of the scanner ends a step, so scans can be stored and the application can die between
 any two of them.  A request can be lost on its way, executed with its answer lost, or executed after
 the scanner gave up on it.  `Step` ignores an action that is not enabled, so a run is any sequence of
 actions whatever.
 */
module ScanProtocol {
  import opened Common
  import opened ScanQueue

  // ---------------------------------------------------------------------------------------------
  // What travels
  // ---------------------------------------------------------------------------------------------

  /** A request body with its path: the part of a request that the server hashes. */
  datatype Payload = Payload(
    kind: ScanKind,
    eventId: EventId,
    ticketId: TicketId,
    scannedAt: string,
    counterId: Option<string>,
    slotId: Option<string>,
    pickupMethod: Option<string>)

  /** What the API transport sends for a queued operation: a pickup body carries no pickup method. */
  function TransportPayload(op: ScanOperation): Payload {
    if op.kind == CHECKIN then
      Payload(CHECKIN, op.eventId, op.ticketId, op.scannedAt, None, None, None)
    else
      Payload(PICKUP, op.eventId, op.ticketId, op.scannedAt,
              if op.counterId.Some? then op.counterId else Some(""), op.slotId, None)
  }

  /** The error codes the model tells apart; OTHER stands for any further one. */
  datatype Code =
    | ALREADY_CHECKED_IN | ALREADY_PICKED_UP
    | TICKET_NOT_FOUND | TICKET_CANCELLED | EVENT_MISMATCH | NOT_FOUND | IDEMPOTENCY_CONFLICT
    | BAD_REQUEST | INVALID_METHOD | BIB_MISSING | ORDER_NOT_PAID | COUNTER_NOT_FOUND | COUNTER_INACTIVE
    | SLOT_NOT_FOUND | SLOT_INACTIVE | OUTSIDE_WINDOW | SLOT_FULL
    | OTHER

  function CodeText(code: Code): string {
    match code
    case ALREADY_CHECKED_IN => "ALREADY_CHECKED_IN"
    case ALREADY_PICKED_UP => "ALREADY_PICKED_UP"
    case TICKET_NOT_FOUND => "TICKET_NOT_FOUND"
    case TICKET_CANCELLED => "TICKET_CANCELLED"
    case EVENT_MISMATCH => "EVENT_MISMATCH"
    case NOT_FOUND => "NOT_FOUND"
    case IDEMPOTENCY_CONFLICT => "IDEMPOTENCY_CONFLICT"
    case BAD_REQUEST => "BAD_REQUEST"
    case INVALID_METHOD => "INVALID_METHOD"
    case BIB_MISSING => "BIB_MISSING"
    case ORDER_NOT_PAID => "ORDER_NOT_PAID"
    case COUNTER_NOT_FOUND => "COUNTER_NOT_FOUND"
    case COUNTER_INACTIVE => "COUNTER_INACTIVE"
    case SLOT_NOT_FOUND => "SLOT_NOT_FOUND"
    case SLOT_INACTIVE => "SLOT_INACTIVE"
    case OUTSIDE_WINDOW => "OUTSIDE_WINDOW"
    case SLOT_FULL => "SLOT_FULL"
    case OTHER => "OTHER"
  }

  datatype Response = Ok(duplicate: bool) | Error(status: int, code: Code)

  /** What the transport makes of an answer. */
  function ResultOf(resp: Response): SendResult {
    match resp
    case Ok(_) => SendResult(DRAIN, None)
    case Error(status, code) => ClassifyFailure(ApiError(status, CodeText(code), ""))
  }

  predicate Drains(resp: Response) {
    resp.Ok? || (resp.status == 409 && (resp.code == ALREADY_CHECKED_IN || resp.code == ALREADY_PICKED_UP))
  }

  /** An answer drains its operation exactly when it reports the effect, now or earlier. */
  lemma DrainsExactlyWhen(resp: Response)
    ensures ResultOf(resp).classification == DRAIN <==> Drains(resp)
  {
    if resp.Error? {
      var text := CodeText(resp.code);
      assert text == "ALREADY_CHECKED_IN" || text == "ALREADY_PICKED_UP" ==>
          resp.code == ALREADY_CHECKED_IN || resp.code == ALREADY_PICKED_UP by {
        assert |"ALREADY_CHECKED_IN"| == 18 && |"ALREADY_PICKED_UP"| == 17;
        assert "ALREADY_PICKED_UP"[0] == 'A' && "COUNTER_NOT_FOUND"[0] == 'C';
      }
    }
  }

  datatype Phase = Sent | Missed | Executed(resp: Response) | Answered(resp: Response) | Lost

  datatype Request = Request(key: Key, payload: Payload, phase: Phase)

  // ---------------------------------------------------------------------------------------------
  // State
  // ---------------------------------------------------------------------------------------------

  datatype Marks = Marks(pickedUp: bool, checkedIn: bool)

  datatype TicketStatus = VALID | USED | CANCELLED

  datatype Ticket = Ticket(eventId: EventId, status: TicketStatus)

  /** Where the engine stands; each value is one point between two awaits. */
  datatype Engine =
    | Idle
    | Listing
    | Looping(todo: seq<ScanOperation>)
    | Waiting(op: ScanOperation, request: nat, todo: seq<ScanOperation>)
    | Settling(op: ScanOperation, result: SendResult, todo: seq<ScanOperation>)
    | Marking(op: ScanOperation, existing: Marks, todo: seq<ScanOperation>)
    | Removing(op: ScanOperation, todo: seq<ScanOperation>)
    | Patching(op: ScanOperation, patched: ScanOperation, todo: seq<ScanOperation>)

  /** Tickets and pickup records, with a log of each VALID to USED transition and each pickup recorded. */
  datatype Server = Server(
    tickets: map<TicketId, Ticket>,
    pickups: set<TicketId>,
    checkInLog: multiset<TicketId>,
    pickupLog: multiset<TicketId>)

  datatype State = State(
    // on the device, surviving a restart
    ops: Operations,
    cache: map<TicketId, Marks>,
    // on the device, in memory
    engine: Engine,
    scanning: Operations,
    // in flight
    requests: seq<Request>,
    // on the server
    server: Server,
    idempotency: map<(Key, ScanKind), (Payload, Response)>,
    // history
    accepted: Operations,
    drained: set<Key>,
    sent: set<Key>,
    arrivedSinceListing: set<Key>)

  function MarksOf(cache: map<TicketId, Marks>, t: TicketId): Marks {
    if t in cache then cache[t] else Marks(false, false)
  }

  predicate Marked(cache: map<TicketId, Marks>, t: TicketId, kind: ScanKind) {
    if kind == PICKUP then MarksOf(cache, t).pickedUp else MarksOf(cache, t).checkedIn
  }

  function WithMark(marks: Marks, kind: ScanKind): Marks {
    if kind == PICKUP then marks.(pickedUp := true) else marks.(checkedIn := true)
  }

  /** No scan has happened; the server may hold any tickets and pickups, and has answered nobody yet. */
  predicate Init(s: State) {
    && s.ops == map[] && s.cache == map[] && s.engine == Idle && s.scanning == map[] && s.requests == []
    && s.idempotency == map[] && s.accepted == map[] && s.drained == {} && s.sent == {}
    && s.arrivedSinceListing == {} && s.server.checkInLog == multiset{} && s.server.pickupLog == multiset{}
  }

  // ---------------------------------------------------------------------------------------------
  // Server transactions
  // ---------------------------------------------------------------------------------------------

  /** The guarded update VALID to USED; None is "no row". */
  function MarkTicketUsed(tickets: map<TicketId, Ticket>, t: TicketId): Option<map<TicketId, Ticket>> {
    if t in tickets && tickets[t].status == VALID then Some(tickets[t := tickets[t].(status := USED)]) else None
  }

  /** The check-in transaction under the ticket row lock. */
  function CheckIn(server: Server, p: Payload): (Server, Response) {
    if p.ticketId !in server.tickets then (server, Error(404, TICKET_NOT_FOUND))
    else if server.tickets[p.ticketId].status == CANCELLED then (server, Error(409, TICKET_CANCELLED))
    else if server.tickets[p.ticketId].eventId != p.eventId then (server, Error(404, EVENT_MISMATCH))
    else if server.tickets[p.ticketId].status == USED then (server, Ok(true))
    else
      match MarkTicketUsed(server.tickets, p.ticketId)
      case None => (server, Error(409, ALREADY_CHECKED_IN))
      case Some(tickets) =>
        (server.(tickets := tickets, checkInLog := server.checkInLog + multiset{p.ticketId}), Ok(false))
  }

  /** White space of the Unicode standard. */
  predicate IsSpace(c: char) {
    || '\t' <= c <= '\r' || c == ' ' || c == '\U{85}' || c == '\U{A0}' || c == '\U{1680}'
    || '\U{2000}' <= c <= '\U{200A}' || c == '\U{2028}' || c == '\U{2029}' || c == '\U{202F}' || c == '\U{205F}'
    || c == '\U{3000}'
  }

  function TrimSpace(s: string): string
    decreases |s|
  {
    if s == [] then s
    else if IsSpace(s[0]) then TrimSpace(s[1..])
    else if IsSpace(s[|s| - 1]) then TrimSpace(s[..|s| - 1])
    else s
  }

  /** Upper case, as far as it can yield an ASCII letter. */
  function UpperChar(c: char): char {
    if 'a' <= c <= 'z' then c - 'a' + 'A'
    else if c == '\U{131}' then 'I'
    else if c == '\U{17F}' then 'S'
    else c
  }

  function ToUpper(s: string): string {
    seq(|s|, i requires 0 <= i < |s| => UpperChar(s[i]))
  }

  /** What decoding the body makes of the method it carries. */
  function DecodedMethod(m: string): string {
    ToUpper(TrimSpace(m))
  }

  predicate ValidMethod(m: Option<string>) {
    m.Some? && DecodedMethod(m.value) in {"SELF", "PROXY", "MANUAL_OVERRIDE"}
  }

  lemma {:induction false} TrimmedHasNoSpaceAtItsEnds(s: string)
    ensures var t := TrimSpace(s); t != [] ==> !IsSpace(t[0]) && !IsSpace(t[|t| - 1])
    decreases |s|
  {
    if s != [] {
      if IsSpace(s[0]) {
        TrimmedHasNoSpaceAtItsEnds(s[1..]);
      } else if IsSpace(s[|s| - 1]) {
        TrimmedHasNoSpaceAtItsEnds(s[..|s| - 1]);
      }
    }
  }

  /** The service trims and upper-cases once more, which changes nothing: what it accepts is what it inserts. */
  lemma DecodedMethodIsNormal(m: string)
    ensures ToUpper(TrimSpace(DecodedMethod(m))) == DecodedMethod(m)
  {
    TrimmedHasNoSpaceAtItsEnds(m);
    var d := DecodedMethod(m);
    assert TrimSpace(d) == d;
    assert forall i :: 0 <= i < |d| ==> UpperChar(d[i]) == d[i];
  }

  datatype Counter = Counter(eventId: EventId, active: bool)

  datatype Slot = Slot(eventId: EventId, active: bool, open: bool, full: bool)

  /** What the pickup transaction reads about the ticket's bib and order, and about the counter and slot it names. */
  datatype Desk = Desk(hasBib: bool, orderPaid: bool, counter: Option<Counter>, slot: Option<Slot>)

  function CounterRefusal(desk: Desk, eventId: EventId): Option<Response> {
    match desk.counter
    case None => Some(Error(404, COUNTER_NOT_FOUND))
    case Some(counter) =>
      if counter.eventId != eventId then Some(Error(404, NOT_FOUND))
      else if !counter.active then Some(Error(409, COUNTER_INACTIVE))
      else None
  }

  function SlotRefusal(desk: Desk, p: Payload): Option<Response> {
    if p.slotId.None? then None
    else
      match desk.slot
      case None => Some(Error(404, SLOT_NOT_FOUND))
      case Some(slot) =>
        if slot.eventId != p.eventId then Some(Error(404, SLOT_NOT_FOUND))
        else if !slot.active then Some(Error(409, SLOT_INACTIVE))
        else if !slot.open then Some(Error(409, OUTSIDE_WINDOW))
        else if slot.full then Some(Error(409, SLOT_FULL))
        else None
  }

  /** The pickup transaction; the method is checked before anything else. */
  function ExecutePickup(server: Server, p: Payload, desk: Desk): (Server, Response) {
    if !ValidMethod(p.pickupMethod) then (server, Error(400, INVALID_METHOD))
    else if p.ticketId !in server.tickets then (server, Error(404, TICKET_NOT_FOUND))
    else if server.tickets[p.ticketId].status == CANCELLED then (server, Error(409, TICKET_CANCELLED))
    else if !desk.hasBib then (server, Error(409, BIB_MISSING))
    else if server.tickets[p.ticketId].eventId != p.eventId then (server, Error(404, NOT_FOUND))
    else if p.ticketId in server.pickups then (server, Error(409, ALREADY_PICKED_UP))
    else if !desk.orderPaid then (server, Error(409, ORDER_NOT_PAID))
    else if CounterRefusal(desk, p.eventId).Some? then (server, CounterRefusal(desk, p.eventId).value)
    else if SlotRefusal(desk, p).Some? then (server, SlotRefusal(desk, p).value)
    else
      (server.(pickups := server.pickups + {p.ticketId}, pickupLog := server.pickupLog + multiset{p.ticketId}),
       Ok(false))
  }

  /** A check-in reads nothing of the desk. */
  function Execute(server: Server, p: Payload, desk: Desk): (Server, Response) {
    if p.kind == CHECKIN then CheckIn(server, p) else ExecutePickup(server, p, desk)
  }

  /** The body of a pickup decodes: the identifiers it carries are not empty. */
  predicate Decodable(p: Payload) {
    p.kind == CHECKIN || (p.counterId != Some("") && p.slotId != Some(""))
  }

  /** The effect a payload asks for is on the server's books, and the server would take the payload. */
  predicate Accomplished(server: Server, p: Payload) {
    if p.kind == CHECKIN then p.ticketId in server.tickets && server.tickets[p.ticketId].status == USED
    else ValidMethod(p.pickupMethod) && p.ticketId in server.pickups
  }

  // ---------------------------------------------------------------------------------------------
  // Steps
  // ---------------------------------------------------------------------------------------------

  datatype Action =
    | ScanBegin(op: ScanOperation)       // a scan passed validation and found no cached flag
    | ScanStore(key: Key)                // its record is put into the store
    | SyncStart | SyncList(todo: seq<ScanOperation>)
    | Send | Receive | GiveUp
    | ReadMarks | WriteMarks | Remove
    | ReadPatch | WritePatch | SyncEnd
    | Crash
    | Lookup(request: nat) | Refuse(request: nat, refusal: Response)
    | Transact(request: nat, desk: Desk) | Remember(request: nat) | Forget(request: nat)
    | Lose(request: nat)
    | OtherDevice(key: Key, payload: Payload)
    | IssueTicket(ticket: TicketId, eventId: EventId)

  /** A key nobody has used: keys are fresh random identifiers. */
  predicate Unused(s: State, k: Key) {
    && k !in s.accepted && k !in s.scanning
    && (forall r :: 0 <= r < |s.requests| ==> s.requests[r].key != k)
    && (forall i :: i in s.idempotency ==> i.0 != k)
  }

  /** A refusal for a reason outside this model, such as a permission or an outage. */
  predicate Refusal(resp: Response) {
    resp.Error? && !Drains(resp)
  }

  function PendingOperations(ops: Operations): set<ScanOperation> {
    set k | k in ops && ops[k].status == PENDING :: ops[k]
  }

  function SetPhase(s: State, r: nat, phase: Phase): State
    requires r < |s.requests|
  {
    s.(requests := s.requests[r := s.requests[r].(phase := phase)])
  }

  predicate InPhase(s: State, r: nat, phase: Phase) {
    r < |s.requests| && s.requests[r].phase == phase
  }

  /** What the handler does before the transaction: decode, replay a remembered answer, or go on. */
  function LookedUp(idempotency: map<(Key, ScanKind), (Payload, Response)>, q: Request): Phase {
    var row := (q.key, q.payload.kind);
    if !Decodable(q.payload) then Answered(Error(400, BAD_REQUEST))
    else if row !in idempotency then Missed
    else if idempotency[row].0 == q.payload then Answered(idempotency[row].1)
    else Answered(Error(409, IDEMPOTENCY_CONFLICT))
  }

  function ScanStep(s: State, a: Action): State {
    match a
    case ScanBegin(op) =>
      if op.status == PENDING && op.attempts == 0 && Unused(s, op.idempotencyKey)
         && !Marked(s.cache, op.ticketId, op.kind)
      then s.(scanning := s.scanning[op.idempotencyKey := op]) else s
    case ScanStore(k) =>
      if k in s.scanning then
        s.(scanning := s.scanning - {k}, ops := s.ops[k := s.scanning[k]],
           accepted := s.accepted[k := s.scanning[k]], arrivedSinceListing := s.arrivedSinceListing + {k})
      else s
    case _ => s
  }

  function EngineStep(s: State, a: Action): State {
    match (a, s.engine)
    case (SyncStart, Idle) => s.(engine := Listing)
    case (SyncList(todo), Listing) =>
      if Distinct(todo) && Elements(todo) == PendingOperations(s.ops) then
        s.(engine := Looping(todo), sent := {}, arrivedSinceListing := {})
      else s
    case (Send, Looping(todo)) =>
      if |todo| > 0 then
        s.(engine := Waiting(todo[0], |s.requests|, todo[1..]),
           requests := s.requests + [Request(todo[0].idempotencyKey, TransportPayload(todo[0]), Sent)],
           sent := s.sent + {todo[0].idempotencyKey})
      else s
    case (Receive, Waiting(op, r, todo)) =>
      if r < |s.requests| && s.requests[r].phase.Answered? then
        s.(engine := Settling(op, ResultOf(s.requests[r].phase.resp), todo))
      else s
    case (GiveUp, Waiting(op, _, todo)) =>
      s.(engine := Settling(op, ClassifyFailure(NoResponse("network error")), todo))
    case (SyncEnd, Looping(todo)) => if todo == [] then s.(engine := Idle) else s
    case (Crash, _) => s.(engine := Idle, scanning := map[])
    case _ => s
  }

  function OutcomeStep(s: State, a: Action): State {
    match (a, s.engine)
    case (ReadMarks, Settling(op, result, todo)) =>
      if result.classification == DRAIN then s.(engine := Marking(op, MarksOf(s.cache, op.ticketId), todo)) else s
    case (WriteMarks, Marking(op, existing, todo)) =>
      s.(engine := Removing(op, todo), cache := s.cache[op.ticketId := WithMark(existing, op.kind)])
    case (Remove, Removing(op, todo)) =>
      s.(engine := Looping(todo), ops := s.ops - {op.idempotencyKey}, drained := s.drained + {op.idempotencyKey})
    case (ReadPatch, Settling(op, result, todo)) =>
      if result.classification == DRAIN then s
      else if op.idempotencyKey in s.ops then
        s.(engine := Patching(op, s.ops[op.idempotencyKey].(
                       status := if result.classification == FAIL then FAILED else PENDING,
                       attempts := op.attempts + 1,
                       lastError := if result.error.Some? then result.error else s.ops[op.idempotencyKey].lastError),
                     todo))
      else s.(engine := Looping(todo))
    case (WritePatch, Patching(op, patched, todo)) =>
      s.(engine := Looping(todo), ops := s.ops[op.idempotencyKey := patched])
    case _ => s
  }

  function ServerStep(s: State, a: Action): State {
    match a
    case Lookup(r) =>
      if InPhase(s, r, Sent) then SetPhase(s, r, LookedUp(s.idempotency, s.requests[r])) else s
    case Refuse(r, refusal) =>
      if Refusal(refusal) && (InPhase(s, r, Sent) || InPhase(s, r, Missed)) then
        SetPhase(s, r, Answered(refusal))
      else s
    case Transact(r, desk) =>
      if InPhase(s, r, Missed) then
        var (server, resp) := Execute(s.server, s.requests[r].payload, desk);
        SetPhase(s.(server := server), r, if resp.Ok? then Executed(resp) else Answered(resp))
      else s
    case Remember(r) =>
      if r < |s.requests| && s.requests[r].phase.Executed? then
        var q := s.requests[r];
        var row := (q.key, q.payload.kind);
        SetPhase(if row in s.idempotency then s else s.(idempotency := s.idempotency[row := (q.payload, q.phase.resp)]),
                 r, Answered(q.phase.resp))
      else s
    case Forget(r) =>
      if r < |s.requests| && s.requests[r].phase.Executed? then
        SetPhase(s, r, Answered(s.requests[r].phase.resp))
      else s
    case Lose(r) => if r < |s.requests| then SetPhase(s, r, Lost) else s
    case OtherDevice(k, p) =>
      if k !in s.accepted && k !in s.scanning then s.(requests := s.requests + [Request(k, p, Sent)]) else s
    case IssueTicket(t, e) =>
      if t !in s.server.tickets then s.(server := s.server.(tickets := s.server.tickets[t := Ticket(e, VALID)])) else s
    case _ => s
  }

  /** Which part of the system an action belongs to. */
  datatype Side = SCANNING | SENDING | SETTLING | SERVING

  function SideOf(a: Action): Side {
    match a
    case ScanBegin(_) => SCANNING
    case ScanStore(_) => SCANNING
    case SyncStart => SENDING
    case SyncList(_) => SENDING
    case Send => SENDING
    case Receive => SENDING
    case GiveUp => SENDING
    case SyncEnd => SENDING
    case Crash => SENDING
    case ReadMarks => SETTLING
    case WriteMarks => SETTLING
    case Remove => SETTLING
    case ReadPatch => SETTLING
    case WritePatch => SETTLING
    case _ => SERVING
  }

  function Step(s: State, a: Action): State {
    match SideOf(a)
    case SCANNING => ScanStep(s, a)
    case SENDING => EngineStep(s, a)
    case SETTLING => OutcomeStep(s, a)
    case SERVING => ServerStep(s, a)
  }

  function Run(s: State, actions: seq<Action>): State
    decreases actions
  {
    if actions == [] then s else Run(Step(s, actions[0]), actions[1..])
  }
}
