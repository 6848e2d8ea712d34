/**
 The scanner's local store and its sync engine, in the form the application has them: records that are
 put, patched and deleted in place, and a run that walks over a listing of the store.

 `SyncNow` is proved against `ScanQueue.SettleAll`.  The listing may come in any order, so the result
 does not depend on it.
 */
module SyncEngine {
  import opened Common
  import opened ScanQueue
  import opened QrToken

  datatype EnqueueOutcome =
    | Enqueued(operation: ScanOperation)
    | Duplicate(ticketId: TicketId, kind: ScanKind)
    | Rejected(reason: StructuralErrorKind)

  /** The two object stores of the local database. */
  class LocalStore {
    var operations: Operations
    var ticketState: map<TicketId, CachedTicketState>

    constructor ()
      ensures operations == map[] && ticketState == map[]
    {
      operations := map[];
      ticketState := map[];
    }

    /** Inserts or replaces a queued operation. */
    method Enqueue(op: ScanOperation)
      modifies this`operations
      ensures operations == old(operations)[op.idempotencyKey := op]
    {
      operations := operations[op.idempotencyKey := op];
    }

    /**
     Accepts a scanned token: rejected when it is not well formed, reported as a duplicate when the cached
     flags already record this action for its ticket, and otherwise queued under the fresh key `key`.
     */
    method EnqueueScan(
      token: string, selectedEventId: EventId, kind: ScanKind, scannedAt: string,
      counterId: Option<string>, slotId: Option<string>, key: Key, parse: Parser)
      returns (outcome: EnqueueOutcome)
      modifies this`operations
      ensures var validation := ValidateStructure(token, selectedEventId, parse);
              match outcome
              case Rejected(why) => validation == Invalid(why) && operations == old(operations)
              case Duplicate(t, k) =>
                && validation.Valid? && t == validation.ticketId && k == kind && (t, kind) in Flags(ticketState)
                && operations == old(operations)
              case Enqueued(op) =>
                && validation.Valid? && op.ticketId == validation.ticketId && (op.ticketId, kind) !in Flags(ticketState)
                && op.eventId == selectedEventId && op.kind == kind && op.idempotencyKey == key
                && op.qrToken == token && op.scannedAt == scannedAt && op.counterId == counterId && op.slotId == slotId
                && op.status == PENDING && op.attempts == 0 && op.lastError == None
                && operations == old(operations)[key := op]
    {
      var validation := ValidateStructure(token, selectedEventId, parse);
      if validation.Invalid? {
        return Rejected(validation.kind);
      }
      var cached := GetTicketState(validation.ticketId);
      if cached.Some? {
        if kind == PICKUP && cached.value.pickedUp {
          return Duplicate(validation.ticketId, PICKUP);
        }
        if kind == CHECKIN && cached.value.checkedIn {
          return Duplicate(validation.ticketId, CHECKIN);
        }
      }
      var operation := ScanOperation(
        key, kind, validation.eventId, validation.ticketId, token, None, None, scannedAt, PENDING, 0, None);
      if counterId.Some? {
        operation := operation.(counterId := counterId);
      }
      if slotId.Some? {
        operation := operation.(slotId := slotId);
      }
      Enqueue(operation);
      return Enqueued(operation);
    }

    /** Every queued operation once, in some order. */
    method ListOperations() returns (ops: seq<ScanOperation>)
      requires WellKeyed(operations)
      ensures Elements(ops) == operations.Values && Distinct(ops)
      ensures forall i :: 0 <= i < |ops| ==>
                            ops[i].idempotencyKey in operations && operations[ops[i].idempotencyKey] == ops[i]
    {
      ops := [];
      var left := operations.Keys;
      while left != {}
        invariant left <= operations.Keys
        invariant forall i :: 0 <= i < |ops| ==>
                    && ops[i].idempotencyKey in operations.Keys - left
                    && operations[ops[i].idempotencyKey] == ops[i]
        invariant Distinct(ops)
        invariant forall k :: k in operations.Keys - left ==> operations[k] in ops
      {
        var k :| k in left;
        ops := ops + [operations[k]];
        left := left - {k};
      }
    }

    method RemoveOperation(k: Key)
      modifies this`operations
      ensures operations == old(operations) - {k}
    {
      operations := operations - {k};
    }

    /** Patches status, attempts and error of a stored operation; answers None when it is gone. */
    method UpdateStatus(k: Key, status: OpStatus, attempts: Option<nat>, lastError: Option<string>)
      returns (updated: Option<ScanOperation>)
      modifies this`operations
      ensures k !in old(operations) ==> updated == None && operations == old(operations)
      ensures k in old(operations) ==>
                var was := old(operations)[k];
                && updated == Some(was.(status := status,
                                        attempts := if attempts.Some? then attempts.value else was.attempts,
                                        lastError := if lastError.Some? then lastError else was.lastError))
                && operations == old(operations)[k := updated.value]
    {
      if k !in operations {
        return None;
      }
      var op := operations[k].(status := status);
      if attempts.Some? {
        op := op.(attempts := attempts.value);
      }
      if lastError.Some? {
        op := op.(lastError := lastError);
      }
      operations := operations[k := op];
      updated := Some(op);
    }

    /** The operations reloaded after a restart: everything that does not need manual resolution. */
    method RestoreQueue() returns (ops: seq<ScanOperation>)
      requires WellKeyed(operations)
      ensures Distinct(ops)
      ensures forall op :: op in ops <==> op in operations.Values && op.status != FAILED
    {
      var all := ListOperations();
      ops := [];
      for i := 0 to |all|
        invariant Distinct(ops)
        invariant forall op :: op in ops <==> op in all[..i] && op.status != FAILED
      {
        if all[i].status != FAILED {
          ops := ops + [all[i]];
        }
      }
      assert all[..|all|] == all;
      assert forall op :: op in all <==> op in Elements(all);
    }

    /** Inserts or replaces the cached flags of a ticket. */
    method PutTicketState(state: CachedTicketState)
      modifies this`ticketState
      ensures ticketState == old(ticketState)[state.ticketId := state]
    {
      ticketState := ticketState[state.ticketId := state];
    }

    method GetTicketState(t: TicketId) returns (state: Option<CachedTicketState>)
      ensures state == if t in ticketState then Some(ticketState[t]) else None
    {
      state := if t in ticketState then Some(ticketState[t]) else None;
    }
  }

  /** What the status badge shows. */
  datatype SyncState = SyncState(online: bool, pending: nat, failed: seq<ScanOperation>)

  class Engine {
    const store: LocalStore
    var state: SyncState
    var syncing: bool

    constructor (store: LocalStore)
      ensures this.store == store && !syncing && state == SyncState(true, 0, [])
    {
      this.store := store;
      state := SyncState(true, 0, []);
      syncing := false;
    }

    /** The badge agrees with the store: the number of PENDING operations, and each FAILED one once. */
    ghost predicate ShowsStore()
      reads this`state, store`operations
    {
      && state.pending == |PendingKeys(store.operations)|
      && Distinct(state.failed)
      && forall op :: op in state.failed <==> op in store.operations.Values && op.status == FAILED
    }

    /** Recomputes the badge from the store. */
    method Refresh()
      requires WellKeyed(store.operations)
      modifies this`state
      ensures ShowsStore() && state.online == old(state.online)
    {
      var ops := store.ListOperations();
      var pending := FilterStatus(ops, PENDING);
      var failed := FilterStatus(ops, FAILED);
      ListingCovers(store.operations, ops);
      CountPending(store.operations, pending);
      state := state.(pending := |pending|, failed := failed);
    }

    /**
     Drains the queue once.  `transport` is the answer each operation receives in this run; `now` stamps
     the cached flags.  A call while a run is in progress sends nothing and changes nothing.
     */
    method SyncNow(transport: Answers, now: string) returns (results: seq<SendResult>, sent: seq<ScanOperation>)
      requires WellKeyed(store.operations)
      modifies this`state, this`syncing, store
      ensures old(syncing) ==>
                && results == [] && sent == []
                && store.operations == old(store.operations) && store.ticketState == old(store.ticketState)
                && syncing && state == old(state)
      ensures !old(syncing) ==>
                && !syncing
                && store.operations == SettleAll(old(store.operations), transport)
                && Flags(store.ticketState) == Flags(old(store.ticketState))
                                             + DrainedPairs(old(store.operations), transport,
                                                            PendingKeys(old(store.operations)))
                && WellKeyed(store.operations) && ShowsStore() && state.online == old(state.online)
      // each PENDING operation is sent exactly once, and its answer is reported in sending order
      ensures !old(syncing) ==>
                && Distinct(sent)
                && (forall op :: op in sent <==> op in old(store.operations).Values && op.status == PENDING)
                && |results| == |sent|
                && forall i :: 0 <= i < |sent| ==> results[i] == AnswerTo(transport, sent[i].idempotencyKey)
    {
      if syncing {
        return [], [];
      }
      syncing := true;
      ghost var ops0 := store.operations;
      var ops := store.ListOperations();
      var pending := FilterStatus(ops, PENDING);
      ListingCovers(ops0, ops);
      results := DrainPending(pending, transport, now);
      sent := pending;
      syncing := false;
      RunAccounting(ops0, transport);
      Refresh();
    }

    /** The loop of a run, over the PENDING operations in the order they were listed. */
    method DrainPending(pending: seq<ScanOperation>, transport: Answers, now: string)
      returns (results: seq<SendResult>)
      requires WellKeyed(store.operations) && Distinct(pending)
      requires forall op :: op in pending <==> op in store.operations.Values && op.status == PENDING
      modifies store
      ensures store.operations == SettleAll(old(store.operations), transport)
      ensures Flags(store.ticketState) == Flags(old(store.ticketState))
                                        + DrainedPairs(old(store.operations), transport,
                                                       PendingKeys(old(store.operations)))
      ensures |results| == |pending|
      ensures forall i :: 0 <= i < |pending| ==> results[i] == AnswerTo(transport, pending[i].idempotencyKey)
    {
      results := [];
      ghost var flags0 := Flags(store.ticketState);
      ghost var queue, flags := Stages(store.operations, transport, pending);
      for i := 0 to |pending|
        invariant |results| == i
        invariant forall j :: 0 <= j < i ==> results[j] == AnswerTo(transport, pending[j].idempotencyKey)
        invariant store.operations == queue[i]
        invariant Flags(store.ticketState) == flags0 + flags[i]
      {
        var op := pending[i];
        assert Stage(queue, flags, transport, pending, i);
        var result := AnswerTo(transport, op.idempotencyKey);
        results := results + [result];
        ApplyOutcome(op, result, now);
      }
    }

    /** Drains, retains or fails one transmitted operation that the store still holds as listed. */
    method ApplyOutcome(op: ScanOperation, result: SendResult, now: string)
      requires op.idempotencyKey in store.operations && store.operations[op.idempotencyKey] == op
      modifies store
      ensures store.operations == SettleOne(old(store.operations), op, result)
      ensures Flags(store.ticketState) == Flags(old(store.ticketState)) + DrainedPair(op, result)
    {
      var k := op.idempotencyKey;
      match result.classification {
        case DRAIN =>
          MarkProcessed(op, now);
          store.RemoveOperation(k);
        case RETAIN =>
          var _ := store.UpdateStatus(k, PENDING, Some(op.attempts + 1), result.error);
        case FAIL =>
          var _ := store.UpdateStatus(k, FAILED, Some(op.attempts + 1), result.error);
      }
    }

    /** Sets the flag of a drained operation, keeping the other flag of its ticket. */
    method MarkProcessed(op: ScanOperation, now: string)
      modifies store`ticketState
      ensures Flags(store.ticketState) == Flags(old(store.ticketState)) + {(op.ticketId, op.kind)}
      ensures forall t :: t != op.ticketId ==>
                (t in store.ticketState <==> t in old(store.ticketState)) &&
                (t in store.ticketState ==> store.ticketState[t] == old(store.ticketState)[t])
      ensures op.ticketId in store.ticketState && store.ticketState[op.ticketId].eventId == op.eventId
      ensures store.ticketState[op.ticketId].updatedAt == now
    {
      var existing := store.GetTicketState(op.ticketId);
      var next := CachedTicketState(
        op.ticketId, op.eventId,
        existing.Some? && existing.value.pickedUp,
        existing.Some? && existing.value.checkedIn,
        now);
      if op.kind == PICKUP {
        next := next.(pickedUp := true);
      } else {
        next := next.(checkedIn := true);
      }
      store.PutTicketState(next);
    }
  }

  method FilterStatus(ops: seq<ScanOperation>, status: OpStatus) returns (picked: seq<ScanOperation>)
    requires Distinct(ops)
    ensures Distinct(picked)
    ensures forall op :: op in picked <==> op in ops && op.status == status
  {
    picked := [];
    for i := 0 to |ops|
      invariant Distinct(picked)
      invariant forall op :: op in picked <==> op in ops[..i] && op.status == status
    {
      if ops[i].status == status {
        picked := picked + [ops[i]];
      }
    }
    assert ops[..|ops|] == ops;
  }

  ghost function KeysBefore(ops: seq<ScanOperation>, n: nat): set<Key>
    requires n <= |ops|
  {
    set j | 0 <= j < n :: ops[j].idempotencyKey
  }

  /** Each listed PENDING operation is the stored one of its key, and its key was not listed before. */
  lemma NextPending(store: Operations, pending: seq<ScanOperation>, i: nat)
    requires WellKeyed(store) && Distinct(pending) && i < |pending|
    requires forall op :: op in pending <==> op in store.Values && op.status == PENDING
    ensures Pending(store, pending[i].idempotencyKey) && store[pending[i].idempotencyKey] == pending[i]
    ensures pending[i].idempotencyKey !in KeysBefore(pending, i)
    ensures KeysBefore(pending, i + 1) == KeysBefore(pending, i) + {pending[i].idempotencyKey}
  {
    forall j | 0 <= j <= i
      ensures pending[j].idempotencyKey in store && store[pending[j].idempotencyKey] == pending[j]
    {
      assert pending[j] in pending;
    }
  }

  /** What answering the next listed operation does to the queue and to the drained pairs. */
  lemma NextSettled(ops: Operations, answers: Answers, pending: seq<ScanOperation>, i: nat)
    requires WellKeyed(ops) && Distinct(pending) && i < |pending|
    requires forall op :: op in pending <==> op in ops.Values && op.status == PENDING
    ensures var op, done, more := pending[i], KeysBefore(pending, i), KeysBefore(pending, i + 1);
            var answer := AnswerTo(answers, op.idempotencyKey);
            && op.idempotencyKey in SettleKeys(ops, answers, done)
            && SettleKeys(ops, answers, done)[op.idempotencyKey] == op
            && SettleKeys(ops, answers, more) == SettleOne(SettleKeys(ops, answers, done), op, answer)
            && DrainedPairs(ops, answers, more) == DrainedPairs(ops, answers, done) + DrainedPair(op, answer)
  {
    NextPending(ops, pending, i);
    OneMoreSettled(ops, answers, KeysBefore(pending, i), pending[i].idempotencyKey);
  }

  /** One answered operation, seen as a step from one stage of a run to the next. */
  ghost predicate Stage(
    queue: seq<Operations>, flags: seq<set<(TicketId, ScanKind)>>, answers: Answers,
    pending: seq<ScanOperation>, i: nat)
    requires |queue| == |flags| == |pending| + 1 && i < |pending|
  {
    var op := pending[i];
    var answer := AnswerTo(answers, op.idempotencyKey);
    && op.idempotencyKey in queue[i] && queue[i][op.idempotencyKey] == op
    && queue[i + 1] == SettleOne(queue[i], op, answer)
    && flags[i + 1] == flags[i] + DrainedPair(op, answer)
  }

  /** A run over a listing, stage by stage: from the queue as it was to `SettleAll` of it. */
  lemma Stages(ops: Operations, answers: Answers, pending: seq<ScanOperation>)
    returns (queue: seq<Operations>, flags: seq<set<(TicketId, ScanKind)>>)
    requires WellKeyed(ops) && Distinct(pending)
    requires forall op :: op in pending <==> op in ops.Values && op.status == PENDING
    ensures |queue| == |flags| == |pending| + 1
    ensures queue[0] == ops && queue[|pending|] == SettleAll(ops, answers)
    ensures flags[0] == {} && flags[|pending|] == DrainedPairs(ops, answers, PendingKeys(ops))
    ensures forall i :: 0 <= i < |pending| ==> Stage(queue, flags, answers, pending, i)
  {
    queue := seq(|pending| + 1, i requires 0 <= i <= |pending| => SettleKeys(ops, answers, KeysBefore(pending, i)));
    flags := seq(|pending| + 1, i requires 0 <= i <= |pending| => DrainedPairs(ops, answers, KeysBefore(pending, i)));
    assert KeysBefore(pending, 0) == {};
    assert SettleKeys(ops, answers, {}) == ops;
    KeysOfPending(ops, pending);
    forall i | 0 <= i < |pending| ensures Stage(queue, flags, answers, pending, i) {
      NextSettled(ops, answers, pending, i);
      assert queue[i] == SettleKeys(ops, answers, KeysBefore(pending, i));
      assert queue[i + 1] == SettleKeys(ops, answers, KeysBefore(pending, i + 1));
      assert flags[i] == DrainedPairs(ops, answers, KeysBefore(pending, i));
      assert flags[i + 1] == DrainedPairs(ops, answers, KeysBefore(pending, i + 1));
    }
  }

  /** The PENDING part of a listing holds each PENDING key. */
  lemma KeysOfPending(store: Operations, pending: seq<ScanOperation>)
    requires WellKeyed(store) && Distinct(pending)
    requires forall op :: op in pending <==> op in store.Values && op.status == PENDING
    ensures KeysBefore(pending, |pending|) == PendingKeys(store)
  {
    forall i | 0 <= i < |pending| ensures pending[i].idempotencyKey in PendingKeys(store) {
      NextPending(store, pending, i);
    }
    forall k | k in PendingKeys(store) ensures k in KeysBefore(pending, |pending|) {
      assert store[k] in store.Values;
      var i :| 0 <= i < |pending| && pending[i] == store[k];
    }
  }

  /** The PENDING part of a listing is as long as the set of PENDING keys is large. */
  lemma CountPending(store: Operations, pending: seq<ScanOperation>)
    requires WellKeyed(store) && Distinct(pending)
    requires forall op :: op in pending <==> op in store.Values && op.status == PENDING
    ensures |pending| == |PendingKeys(store)|
  {
    KeysOfPending(store, pending);
    for i := 0 to |pending|
      invariant |KeysBefore(pending, i)| == i
    {
      NextPending(store, pending, i);
    }
  }

  /** A listing of the store holds every key's operation. */
  lemma ListingCovers(store: Operations, ops: seq<ScanOperation>)
    requires WellKeyed(store) && Elements(ops) == store.Values
    ensures forall k :: k in store ==> store[k] in ops
    ensures forall op :: op in ops ==> op.idempotencyKey in store && store[op.idempotencyKey] == op
    ensures PendingKeys(store) == set op | op in ops && op.status == PENDING :: op.idempotencyKey
  {
    forall k | k in store ensures store[k] in ops {
      assert store[k] in store.Values;
    }
    forall op | op in ops ensures op.idempotencyKey in store && store[op.idempotencyKey] == op {
      assert op in store.Values;
    }
  }

  /** Answering one more operation, on the queue and on the drained pairs. */
  lemma OneMoreSettled(ops: Operations, answers: Answers, done: set<Key>, k: Key)
    requires k !in done && Pending(ops, k)
    requires ops[k].idempotencyKey == k
    ensures SettleKeys(ops, answers, done + {k}) == SettleOne(SettleKeys(ops, answers, done), ops[k], answers(k))
    ensures DrainedPairs(ops, answers, done + {k}) == DrainedPairs(ops, answers, done) + DrainedPair(ops[k], answers(k))
    ensures k in SettleKeys(ops, answers, done) && SettleKeys(ops, answers, done)[k] == ops[k]
  {
  }
}
