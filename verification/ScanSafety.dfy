/**
 What the offline scanner promises over every run: any mix of scans, sync runs, restarts, lost requests,
 lost answers, late executions and other devices.
 */
module ScanSafety {
  import opened Common
  import opened ScanQueue
  import opened ScanProtocol
  import opened ScanInvariant

  /** The states a device and a server can be in together. */
  ghost predicate Reachable(s: State) {
    exists s0: State, actions: seq<Action> :: Init(s0) && s == Run(s0, actions)
  }

  lemma ReachableInv(s: State)
    requires Reachable(s)
    ensures Inv(s)
  {
    var s0: State, actions: seq<Action> :| Init(s0) && s == Run(s0, actions);
    RunKeepsInv(s0, actions);
  }

  /**
   No ticket goes from VALID to USED twice and no race pack is handed out twice, and whatever the
   scanner removed from its queue has happened on the server.
   */
  lemma ExactlyOnce(s: State)
    requires Reachable(s)
    ensures forall t :: s.server.checkInLog[t] <= 1 && s.server.pickupLog[t] <= 1
    ensures forall k :: k in s.drained ==>
                          && k in s.accepted
                          && s.accepted[k].ticketId in s.server.tickets
                          && s.server.tickets[s.accepted[k].ticketId].status == USED
  {
    ReachableInv(s);
    forall k | k in s.drained
      ensures k in s.accepted && s.accepted[k].ticketId in s.server.tickets
              && s.server.tickets[s.accepted[k].ticketId].status == USED
    {
      assert k in s.accepted;
      DrainedAreCheckIns(s, k);
    }
  }

  /** The transport sends no pickup method, the server demands one: no PICKUP scan ever leaves the queue drained. */
  lemma DrainedAreCheckIns(s: State, k: Key)
    requires Inv(s) && k in s.drained
    ensures k in s.accepted && s.accepted[k].kind == CHECKIN
  {
    assert k in s.accepted;
    assert Accomplished(s.server, TransportPayload(s.accepted[k]));
  }

  /** When the server answers a check-in so that the scanner may forget it. */
  lemma CheckInDrainsExactlyWhen(server: Server, p: Payload, desk: Desk)
    requires p.kind == CHECKIN
    ensures Drains(Execute(server, p, desk).1) <==>
            && p.ticketId in server.tickets && server.tickets[p.ticketId].eventId == p.eventId
            && server.tickets[p.ticketId].status != CANCELLED
    ensures Drains(Execute(server, p, desk).1) ==> Accomplished(Execute(server, p, desk).0, p)
  {
  }

  /** The counter a pickup names is one of the event's and open for work. */
  predicate CounterServes(desk: Desk, eventId: EventId) {
    desk.counter == Some(Counter(eventId, true))
  }

  /** The slot a pickup names, if any, is one of the event's, active, open now and not full. */
  predicate SlotServes(desk: Desk, p: Payload) {
    p.slotId.Some? ==> desk.slot == Some(Slot(p.eventId, true, true, false))
  }

  /** When the server answers a pickup so that the scanner may forget it: handed out now, or earlier. */
  lemma PickupDrainsExactlyWhen(server: Server, p: Payload, desk: Desk)
    requires p.kind == PICKUP
    ensures Drains(Execute(server, p, desk).1) <==>
            && ValidMethod(p.pickupMethod)
            && p.ticketId in server.tickets && server.tickets[p.ticketId].eventId == p.eventId
            && server.tickets[p.ticketId].status != CANCELLED
            && desk.hasBib
            && (p.ticketId in server.pickups
                || (desk.orderPaid && CounterServes(desk, p.eventId) && SlotServes(desk, p)))
    ensures Drains(Execute(server, p, desk).1) ==> Accomplished(Execute(server, p, desk).0, p)
  {
  }

  /**
   Every PICKUP scan of the queue is answered 400 and parked as FAILED: without a counter its body does not decode,
   and with one the transaction refuses its missing method whatever else holds.
   */
  lemma QueuedPickupsFail(server: Server, op: ScanOperation, desk: Desk)
    requires op.kind == PICKUP
    ensures op.counterId.None? ==> !Decodable(TransportPayload(op))
    ensures Execute(server, TransportPayload(op), desk) == (server, Error(400, INVALID_METHOD))
    ensures forall code :: code == BAD_REQUEST || code == INVALID_METHOD ==>
                             ResultOf(Error(400, code)).classification == FAIL
  {
  }

  /**
   Each accepted scan is, at every point, in exactly one place: stored PENDING, stored FAILED, or
   drained; a stored one is the scan that was accepted, and a drained one is flagged on the device.
   */
  lemma NothingLost(s: State, k: Key)
    requires Reachable(s) && k in s.accepted
    ensures k in s.drained <==> k !in s.ops
    ensures k in s.ops ==> SameScan(s.ops[k], s.accepted[k])
                           && (s.ops[k].status == PENDING || s.ops[k].status == FAILED)
    ensures k in s.drained ==> Marked(s.cache, s.accepted[k].ticketId, s.accepted[k].kind)
  {
    ReachableInv(s);
    assert k in s.ops.Keys + s.drained;
  }

  // ---------------------------------------------------------------------------------------------
  // What stays
  // ---------------------------------------------------------------------------------------------

  /** `t` has come after `s`: accepted scans, drained scans, FAILED operations and flags are as they were. */
  ghost predicate Later(s: State, t: State) {
    && (forall k :: k in s.accepted ==> k in t.accepted && t.accepted[k] == s.accepted[k])
    && s.drained <= t.drained
    && (forall k :: k in s.ops && s.ops[k].status == FAILED ==> k in t.ops && t.ops[k] == s.ops[k])
    && (forall ticket, kind :: Marked(s.cache, ticket, kind) ==> Marked(t.cache, ticket, kind))
    && Progress(s.server, t.server)
  }

  // Which components each kind of step can change.

  lemma ScanStepFrame(s: State, a: Action)
    ensures var t := ScanStep(s, a);
            t == s.(scanning := t.scanning, ops := t.ops, accepted := t.accepted,
                    arrivedSinceListing := t.arrivedSinceListing)
  {
  }

  lemma EngineStepFrame(s: State, a: Action)
    ensures var t := EngineStep(s, a);
            t == s.(engine := t.engine, requests := t.requests, sent := t.sent,
                    arrivedSinceListing := t.arrivedSinceListing, scanning := t.scanning)
    ensures !a.SyncList? ==> EngineStep(s, a).arrivedSinceListing == s.arrivedSinceListing
    ensures !a.SyncList? && !a.Send? ==>
              EngineStep(s, a).sent == s.sent && EngineStep(s, a).requests == s.requests
  {
  }

  lemma OutcomeStepFrame(s: State, a: Action)
    ensures var t := OutcomeStep(s, a);
            t == s.(engine := t.engine, ops := t.ops, cache := t.cache, drained := t.drained)
  {
  }

  lemma LookupFrame(s: State, r: nat)
    ensures var t := ServerStep(s, Lookup(r)); t == s.(requests := t.requests)
  {
  }

  lemma AnsweringFrame(s: State, a: Action)
    requires a.Refuse? || a.Forget? || a.Lose?
    ensures var t := ServerStep(s, a); t == s.(requests := t.requests)
  {
  }

  lemma ServerStepFrame(s: State, a: Action)
    ensures var t := ServerStep(s, a);
            t == s.(requests := t.requests, idempotency := t.idempotency, server := t.server)
  {
    if a.Lookup? {
      LookupFrame(s, a.request);
    } else if a.Refuse? || a.Forget? || a.Lose? {
      AnsweringFrame(s, a);
    }
  }

  lemma ServerStepProgress(s: State, a: Action)
    requires Once(s.server)
    ensures Progress(s.server, ServerStep(s, a).server)
  {
    if a.Transact? && InPhase(s, a.request, Missed) {
      ExecuteIsSound(s.server, s.requests[a.request].payload, a.desk);
    } else if a.IssueTicket? {
      assert Progress(s.server, ServerStep(s, a).server);
    } else {
      ServerUntouched(s, a);
    }
  }

  lemma ServerUntouched(s: State, a: Action)
    requires !a.IssueTicket? && !(a.Transact? && InPhase(s, a.request, Missed))
    ensures ServerStep(s, a).server == s.server
  {
  }

  lemma ScanIsLater(s: State, a: Action)
    requires Books(s.ops, s.scanning, s.accepted, s.drained, s.sent)
    ensures Later(s, ScanStep(s, a))
  {
    ScanStepFrame(s, a);
    ScanKeepsAccepted(s, a);
  }

  lemma ScanKeepsAccepted(s: State, a: Action)
    requires Books(s.ops, s.scanning, s.accepted, s.drained, s.sent)
    ensures forall k :: k in s.accepted ==> k in ScanStep(s, a).accepted && ScanStep(s, a).accepted[k] == s.accepted[k]
    ensures forall k :: k in s.ops ==> k in ScanStep(s, a).ops && ScanStep(s, a).ops[k] == s.ops[k]
  {
    if a.ScanStore? && a.key in s.scanning {
      assert a.key !in s.accepted;
    }
  }

  lemma OutcomeIsLater(s: State, a: Action)
    requires EngineHolds(s.engine, s.ops, s.sent, s.arrivedSinceListing)
    requires EngineKnows(s.engine, s.requests, s.cache, s.server)
    ensures Later(s, OutcomeStep(s, a))
  {
    OutcomeStepFrame(s, a);
    FailedStayStored(s, a);
    if a.WriteMarks? {
      MarksGrow(s);
    }
  }

  lemma FailedStayStored(s: State, a: Action)
    requires EngineHolds(s.engine, s.ops, s.sent, s.arrivedSinceListing)
    ensures forall k :: k in s.ops && s.ops[k].status == FAILED ==>
                          k in OutcomeStep(s, a).ops && OutcomeStep(s, a).ops[k] == s.ops[k]
    ensures s.drained <= OutcomeStep(s, a).drained
    ensures !a.WriteMarks? ==> OutcomeStep(s, a).cache == s.cache
  {
  }

  lemma StepIsLater(s: State, a: Action)
    requires Inv(s)
    ensures Later(s, Step(s, a))
  {
    match SideOf(a)
    case SCANNING => ScanIsLater(s, a);
    case SENDING => EngineStepFrame(s, a);
    case SETTLING => OutcomeIsLater(s, a);
    case SERVING =>
      ServerStepFrame(s, a);
      ServerStepProgress(s, a);
  }

  lemma MarksGrow(s: State)
    requires EngineKnows(s.engine, s.requests, s.cache, s.server)
    ensures forall ticket, kind :: Marked(s.cache, ticket, kind) ==>
                                     Marked(OutcomeStep(s, WriteMarks).cache, ticket, kind)
  {
  }

  lemma LaterIsTransitive(s: State, t: State, u: State)
    requires Later(s, t) && Later(t, u)
    ensures Later(s, u)
  {
  }

  lemma {:induction false} RunIsLater(s: State, actions: seq<Action>)
    requires Inv(s)
    ensures Later(s, Run(s, actions))
    decreases actions
  {
    if actions != [] {
      StepIsLater(s, actions[0]);
      StepKeepsInv(s, actions[0]);
      RunIsLater(Step(s, actions[0]), actions[1..]);
      LaterIsTransitive(s, Step(s, actions[0]), Run(s, actions));
    }
  }

  /**
   Once a scan has drained, then after anything else whatever a new scan of that ticket and kind is
   turned away as a duplicate, the drained scan does not come back, and its ticket is still USED.
   */
  lemma DrainedIsFinal(s: State, actions: seq<Action>, k: Key, again: ScanOperation)
    requires Reachable(s) && k in s.drained && k in s.accepted
    requires again.ticketId == s.accepted[k].ticketId && again.kind == s.accepted[k].kind
    ensures var t := Run(s, actions);
            && Step(t, ScanBegin(again)) == t
            && k !in t.ops
            && again.ticketId in t.server.tickets && t.server.tickets[again.ticketId].status == USED
  {
    ReachableInv(s);
    RunKeepsInv(s, actions);
    RunIsLater(s, actions);
    DrainedAreCheckIns(s, k);
  }

  /**
   A check-in that took effect but whose answer was lost costs nothing: at any later time the same
   payload is answered so that it drains, and executing it again changes nothing.
   */
  lemma LostAnswerIsHarmless(s: State, actions: seq<Action>, p: Payload, desk: Desk)
    requires Reachable(s) && p.kind == CHECKIN && Accomplished(s.server, p)
    requires s.server.tickets[p.ticketId].eventId == p.eventId
    ensures var server := Run(s, actions).server;
            Execute(server, p, desk).0 == server && Drains(Execute(server, p, desk).1)
  {
    ReachableInv(s);
    RunIsLater(s, actions);
  }

  // ---------------------------------------------------------------------------------------------
  // How often a scan is sent
  // ---------------------------------------------------------------------------------------------

  /** The requests made under a key so far. */
  function Transmissions(requests: seq<Request>, k: Key): set<nat> {
    set r: nat | r < |requests| && requests[r].key == k
  }

  lemma OneMoreRequest(requests: seq<Request>, q: Request, k: Key)
    ensures Transmissions(requests + [q], k) ==
            Transmissions(requests, k) + (if q.key == k then {|requests|} else {})
  {
  }

  /** What one step does to the transmissions of an accepted scan. */
  ghost predicate Transmits(s: State, t: State, k: Key) {
    && (k in s.sent ==> k in t.sent)
    && Transmissions(t.requests, k) ==
         Transmissions(s.requests, k) + (if k in t.sent && k !in s.sent then {|s.requests|} else {})
  }

  lemma SendTransmits(s: State, k: Key)
    requires EngineHolds(s.engine, s.ops, s.sent, s.arrivedSinceListing)
    ensures Transmits(s, EngineStep(s, Send), k)
  {
    if s.engine.Looping? && s.engine.todo != [] {
      var op := s.engine.todo[0];
      NextInHand(s.engine.todo, s.ops, s.sent, s.arrivedSinceListing);
      assert op.idempotencyKey !in s.sent;
      OneMoreRequest(s.requests, Request(op.idempotencyKey, TransportPayload(op), Sent), k);
    } else {
      assert EngineStep(s, Send) == s;
    }
  }

  ghost predicate SameKeys(a: seq<Request>, b: seq<Request>) {
    |a| == |b| && forall i :: 0 <= i < |a| ==> b[i].key == a[i].key
  }

  /** The server's steps change no request's key. */
  lemma ServerStepKeys(s: State, a: Action)
    requires !a.OtherDevice?
    ensures SameKeys(s.requests, ServerStep(s, a).requests)
  {
    if a.IssueTicket? {
    } else {
      RequestAnswered(s, a);
    }
  }

  /** A server step on a request changes no more than its phase. */
  lemma RequestAnswered(s: State, a: Action)
    requires !a.OtherDevice? && !a.IssueTicket?
    ensures || ServerStep(s, a).requests == s.requests
            || (SideOf(a) == SERVING && a.request < |s.requests| == |ServerStep(s, a).requests|
                && var phase := ServerStep(s, a).requests[a.request].phase;
                   ServerStep(s, a).requests == s.requests[a.request := s.requests[a.request].(phase := phase)])
  {
  }

  lemma ServerStepTransmits(s: State, a: Action, k: Key)
    requires k in s.accepted
    ensures Transmits(s, ServerStep(s, a), k)
  {
    ServerStepFrame(s, a);
    if a.OtherDevice? {
      OneMoreRequest(s.requests, Request(a.key, a.payload, Sent), k);
    } else {
      ServerStepKeys(s, a);
    }
  }

  /** Only Send makes a request under an accepted key, and it marks the key as sent. */
  lemma StepTransmits(s: State, a: Action, k: Key)
    requires EngineHolds(s.engine, s.ops, s.sent, s.arrivedSinceListing) && k in s.accepted && !a.SyncList?
    ensures Transmits(s, Step(s, a), k)
  {
    match SideOf(a)
    case SCANNING => ScanStepFrame(s, a); assert Transmits(s, ScanStep(s, a), k);
    case SENDING =>
      if a.Send? {
        SendTransmits(s, k);
      } else {
        EngineStepFrame(s, a);
        assert Transmits(s, EngineStep(s, a), k);
      }
    case SETTLING => OutcomeStepFrame(s, a); assert Transmits(s, OutcomeStep(s, a), k);
    case SERVING => ServerStepTransmits(s, a, k);
  }

  lemma ArrivedStaysArrived(s: State, a: Action, k: Key)
    requires !a.SyncList? && k in s.arrivedSinceListing
    ensures k in Step(s, a).arrivedSinceListing
  {
    match SideOf(a)
    case SCANNING => ScanStepFrame(s, a);
    case SENDING => EngineStepFrame(s, a);
    case SETTLING => OutcomeStepFrame(s, a);
    case SERVING => ServerStepFrame(s, a);
  }

  /** An operation is as it was, and no request has been made under its key. */
  ghost predicate LeftAlone(s: State, t: State, k: Key) {
    && Transmissions(t.requests, k) == Transmissions(s.requests, k)
    && k in s.ops && k in t.ops && t.ops[k] == s.ops[k]
  }

  lemma ArrivalIsNew(s: State, k: Key)
    requires Inv(s) && k in s.arrivedSinceListing
    ensures k in s.accepted && k !in s.sent && k in s.ops && s.ops[k] == s.accepted[k] && s.ops[k].status == PENDING
  {
  }

  lemma StepLeavesArrival(s: State, a: Action, k: Key)
    requires Inv(s) && k in s.arrivedSinceListing && !a.SyncList?
    ensures Inv(Step(s, a)) && k in Step(s, a).arrivedSinceListing && LeftAlone(s, Step(s, a), k)
  {
    StepKeepsInv(s, a);
    StepIsLater(s, a);
    ArrivedStaysArrived(s, a, k);
    ArrivalIsNew(s, k);
    ArrivalIsNew(Step(s, a), k);
    StepTransmits(s, a, k);
  }

  /** A scan stored after the queue was listed is not sent, and not touched, before the queue is listed again. */
  lemma {:induction false} ArrivalsAreLeftAlone(s: State, actions: seq<Action>, k: Key)
    requires Inv(s) && k in s.arrivedSinceListing
    requires forall a :: a in actions ==> !a.SyncList?
    ensures LeftAlone(s, Run(s, actions), k) && s.ops[k].status == PENDING
    decreases actions
  {
    ArrivalIsNew(s, k);
    if actions != [] {
      StepLeavesArrival(s, actions[0], k);
      ArrivalsAreLeftAlone(Step(s, actions[0]), actions[1..], k);
    }
  }

  /** What is sent next is PENDING, so a FAILED operation's key is not marked as sent anew. */
  lemma FailedIsNotSent(s: State, a: Action, k: Key)
    requires EngineHolds(s.engine, s.ops, s.sent, s.arrivedSinceListing) && !a.SyncList?
    requires k in s.ops && s.ops[k].status == FAILED
    ensures k in Step(s, a).sent ==> k in s.sent
  {
    match SideOf(a)
    case SCANNING => ScanStepFrame(s, a);
    case SENDING =>
      EngineStepFrame(s, a);
      if s.engine.Looping? && s.engine.todo != [] {
        NextInHand(s.engine.todo, s.ops, s.sent, s.arrivedSinceListing);
      }
    case SETTLING => OutcomeStepFrame(s, a);
    case SERVING => ServerStepFrame(s, a);
  }

  lemma StepLeavesFailed(s: State, a: Action, k: Key)
    requires Inv(s) && k in s.ops && s.ops[k].status == FAILED
    ensures Inv(Step(s, a)) && LeftAlone(s, Step(s, a), k)
  {
    StepKeepsInv(s, a);
    StepIsLater(s, a);
    if a.SyncList? {
      assert EngineStep(s, a).requests == s.requests;
    } else {
      assert k in s.accepted by {
        assert k in s.ops.Keys + s.drained;
      }
      FailedIsNotSent(s, a, k);
      StepTransmits(s, a, k);
    }
  }

  lemma {:induction false} FailedIsLeftAlone(s: State, actions: seq<Action>, k: Key)
    requires Inv(s) && k in s.ops && s.ops[k].status == FAILED
    ensures LeftAlone(s, Run(s, actions), k)
    decreases actions
  {
    if actions != [] {
      StepLeavesFailed(s, actions[0], k);
      FailedIsLeftAlone(Step(s, actions[0]), actions[1..], k);
    }
  }

  /** A FAILED operation keeps its record through anything, and nothing is ever sent under its key again. */
  lemma FailedIsFrozen(s: State, actions: seq<Action>, k: Key)
    requires Reachable(s) && k in s.ops && s.ops[k].status == FAILED
    ensures var t := Run(s, actions);
            && k in t.ops && t.ops[k] == s.ops[k]
            && Transmissions(t.requests, k) == Transmissions(s.requests, k)
            && (t.engine.Looping? && t.engine.todo != [] ==> t.engine.todo[0].idempotencyKey != k)
  {
    ReachableInv(s);
    FailedIsLeftAlone(s, actions, k);
    RunKeepsInv(s, actions);
    NextIsPending(Run(s, actions));
  }

  lemma NextIsPending(s: State)
    requires Inv(s)
    ensures s.engine.Looping? && s.engine.todo != [] ==>
              var op := s.engine.todo[0]; op.idempotencyKey in s.ops && s.ops[op.idempotencyKey].status == PENDING
  {
    if s.engine.Looping? && s.engine.todo != [] {
      NextInHand(s.engine.todo, s.ops, s.sent, s.arrivedSinceListing);
    }
  }

  function Listings(actions: seq<Action>): nat {
    if actions == [] then 0 else (if actions[0].SyncList? then 1 else 0) + Listings(actions[1..])
  }

  /** How many more times the scan may be sent before the queue is listed again. */
  function Allowance(s: State, k: Key): nat {
    if k in s.sent then 0 else 1
  }

  lemma StepSpendsAllowance(s: State, a: Action, k: Key)
    requires Inv(s) && k in s.accepted
    ensures var t := Step(s, a);
            |Transmissions(t.requests, k)| + Allowance(t, k) <=
            |Transmissions(s.requests, k)| + Allowance(s, k) + (if a.SyncList? then 1 else 0)
  {
    if a.SyncList? {
      assert EngineStep(s, a).requests == s.requests;
    } else {
      StepTransmits(s, a, k);
    }
  }

  /** Over any run whatever, a scan is sent at most once for each time the queue is listed. */
  lemma {:induction false} SentOncePerListing(s: State, actions: seq<Action>, k: Key)
    requires Inv(s) && k in s.accepted
    ensures |Transmissions(Run(s, actions).requests, k)| <=
            |Transmissions(s.requests, k)| + Allowance(s, k) + Listings(actions)
    decreases actions
  {
    if actions != [] {
      StepKeepsInv(s, actions[0]);
      StepIsLater(s, actions[0]);
      StepSpendsAllowance(s, actions[0], k);
      SentOncePerListing(Step(s, actions[0]), actions[1..], k);
    }
  }
}
