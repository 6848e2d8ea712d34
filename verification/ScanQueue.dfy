/**
 The scanner's queue of provisional scans, and what one sync run means for it.

 A sync run is described here without any loop or store: `SettleAll` says what becomes of every queued
 operation once each PENDING one has received an answer.  `SyncEngine` proves that the loop of the
 application computes exactly this, and the lemmas below say what follows for a whole history of runs.
 */
module ScanQueue {
  import opened Common

  /** An identifier in its textual form. */
  datatype Uuid = Uuid(text: string)

  type Key = Uuid
  type TicketId = Uuid
  type EventId = Uuid

  datatype ScanKind = PICKUP | CHECKIN

  datatype OpStatus = PENDING | SYNCING | FAILED

  datatype ScanOperation = ScanOperation(
    idempotencyKey: Key,
    kind: ScanKind,
    eventId: EventId,
    ticketId: TicketId,
    qrToken: string,
    counterId: Option<string>,
    slotId: Option<string>,
    scannedAt: string,
    status: OpStatus,
    attempts: nat,
    lastError: Option<string>)

  datatype CachedTicketState = CachedTicketState(
    ticketId: TicketId,
    eventId: EventId,
    pickedUp: bool,
    checkedIn: bool,
    updatedAt: string)

  datatype SyncClassification = DRAIN | RETAIN | FAIL

  datatype SendResult = SendResult(classification: SyncClassification, error: Option<string>)

  /** What a transmission can throw: an HTTP error with a status and a code, or no response at all. */
  datatype Thrown = ApiError(status: int, code: string, message: string) | NoResponse(message: string)

  /** How the engine treats a failed transmission. */
  function ClassifyFailure(err: Thrown): SendResult {
    match err
    case ApiError(status, code, message) =>
      if status == 409 && (code == "ALREADY_CHECKED_IN" || code == "ALREADY_PICKED_UP") then
        SendResult(DRAIN, Some(message))
      else if status >= 500 then
        SendResult(RETAIN, Some(message))
      else
        SendResult(FAIL, Some(code + ": " + message))
    case NoResponse(message) => SendResult(RETAIN, Some(message))
  }

  // ---------------------------------------------------------------------------------------------
  // One run
  // ---------------------------------------------------------------------------------------------

  type Operations = map<Key, ScanOperation>

  /** The answer each queued operation receives in one run, by its idempotency key. */
  type Answers = Key -> SendResult

  function AnswerTo(answers: Answers, k: Key): SendResult {
    answers(k)
  }

  /** The store is keyed by the operations' own idempotency keys. */
  ghost predicate WellKeyed(ops: Operations) {
    forall k :: k in ops ==> ops[k].idempotencyKey == k
  }

  predicate Pending(ops: Operations, k: Key) {
    k in ops && ops[k].status == PENDING
  }

  predicate Drained(ops: Operations, answers: Answers, k: Key) {
    Pending(ops, k) && answers(k).classification == DRAIN
  }

  /** An operation after an answer that keeps it in the queue. */
  function Settle(op: ScanOperation, answer: SendResult): ScanOperation {
    op.(status := if answer.classification == FAIL then FAILED else PENDING,
        attempts := op.attempts + 1,
        lastError := if answer.error.Some? then answer.error else op.lastError)
  }

  /** The queue after one answered operation: gone when drained, patched otherwise. */
  function SettleOne(ops: Operations, op: ScanOperation, answer: SendResult): Operations {
    if answer.classification == DRAIN then ops - {op.idempotencyKey}
    else ops[op.idempotencyKey := Settle(op, answer)]
  }

  /** The flag an answered operation sets. */
  function DrainedPair(op: ScanOperation, answer: SendResult): set<(TicketId, ScanKind)> {
    if answer.classification == DRAIN then {(op.ticketId, op.kind)} else {}
  }

  /** The queue once exactly the operations in `done` have been answered. */
  function SettleKeys(ops: Operations, answers: Answers, done: set<Key>): Operations {
    map k | k in ops && !(k in done && Drained(ops, answers, k)) ::
      if k in done && Pending(ops, k) then Settle(ops[k], answers(k)) else ops[k]
  }

  function PendingKeys(ops: Operations): set<Key> {
    set k | k in ops && ops[k].status == PENDING
  }

  /** The queue after a whole run: every PENDING operation is answered once. */
  function SettleAll(ops: Operations, answers: Answers): Operations {
    SettleKeys(ops, answers, PendingKeys(ops))
  }

  /** Whether the cache records `kind` for the ticket. */
  predicate Flagged(cache: map<TicketId, CachedTicketState>, t: TicketId, kind: ScanKind) {
    t in cache && if kind == PICKUP then cache[t].pickedUp else cache[t].checkedIn
  }

  /** The duplicate-detection flags as a set of ticket and kind pairs. */
  function Flags(cache: map<TicketId, CachedTicketState>): set<(TicketId, ScanKind)> {
    set t, kind | t in cache && Flagged(cache, t, kind) :: (t, kind)
  }

  /** The ticket and kind pairs drained among the operations in `done`. */
  function DrainedPairs(ops: Operations, answers: Answers, done: set<Key>): set<(TicketId, ScanKind)> {
    set k | k in done && Drained(ops, answers, k) :: (ops[k].ticketId, ops[k].kind)
  }

  /** What a run makes of one queued operation. */
  lemma SettledOperation(ops: Operations, answers: Answers, k: Key)
    requires k in ops
    ensures k in SettleAll(ops, answers) <==> !Drained(ops, answers, k)
    ensures k in SettleAll(ops, answers) ==>
              SettleAll(ops, answers)[k] == if Pending(ops, k) then Settle(ops[k], answers(k)) else ops[k]
  {
    assert k in PendingKeys(ops) <==> Pending(ops, k);
  }

  function Retained(ops: Operations, answers: Answers): set<Key> {
    set k | k in PendingKeys(ops) && answers(k).classification == RETAIN
  }

  function Resolved(ops: Operations, answers: Answers): set<Key> {
    set k | k in PendingKeys(ops) && answers(k).classification != RETAIN
  }

  /** What is PENDING after a run is what it retained. */
  lemma PendingAfterRun(ops: Operations, answers: Answers)
    ensures PendingKeys(SettleAll(ops, answers)) == Retained(ops, answers)
  {
    var after := SettleAll(ops, answers);
    forall k | k in ops ensures k in PendingKeys(after) <==> k in Retained(ops, answers) {
      SettledOperation(ops, answers, k);
    }
    assert after.Keys <= ops.Keys;
  }

  /**
   A run keeps the store well keyed, lowers the number of PENDING operations by exactly the number of
   answers that are not RETAIN, and touches nothing that was not PENDING.
   */
  lemma RunAccounting(ops: Operations, answers: Answers)
    requires WellKeyed(ops)
    ensures WellKeyed(SettleAll(ops, answers))
    ensures |PendingKeys(SettleAll(ops, answers))| == |PendingKeys(ops)| - |Resolved(ops, answers)|
    ensures forall k :: k in ops && !Pending(ops, k) ==>
                          k in SettleAll(ops, answers) && SettleAll(ops, answers)[k] == ops[k]
  {
    PendingAfterRun(ops, answers);
    assert PendingKeys(ops) == Retained(ops, answers) + Resolved(ops, answers);
    assert Retained(ops, answers) !! Resolved(ops, answers);
  }

  // ---------------------------------------------------------------------------------------------
  // Any number of runs
  // ---------------------------------------------------------------------------------------------

  /** The queue after a history of runs, with no scan in between. */
  function AfterRuns(ops: Operations, history: seq<Answers>): Operations {
    if history == [] then ops else AfterRuns(SettleAll(ops, history[0]), history[1..])
  }

  /** The number of leading runs that retain the operation. */
  function LeadingRetains(history: seq<Answers>, k: Key): (n: nat)
    ensures n <= |history|
    ensures forall i :: 0 <= i < n ==> history[i](k).classification == RETAIN
    ensures n < |history| ==> history[n](k).classification != RETAIN
  {
    if history == [] || history[0](k).classification != RETAIN then 0
    else 1 + LeadingRetains(history[1..], k)
  }

  /**
   The fate of a PENDING operation over any history of runs is decided by its first answer that is not
   RETAIN: DRAIN removes it for good, FAIL parks it for good with that answer counted, and if there is
   no such answer it is still PENDING and has been sent once in every run.  Later answers change nothing.
   */
  lemma {:induction false} FateIsFirstVerdict(ops: Operations, history: seq<Answers>, k: Key)
    requires WellKeyed(ops) && Pending(ops, k)
    ensures
      var after, n := AfterRuns(ops, history), LeadingRetains(history, k);
      if n == |history| then
        k in after && after[k] == ops[k].(attempts := ops[k].attempts + n, lastError := after[k].lastError)
      else if history[n](k).classification == DRAIN then
        k !in after
      else
        k in after && after[k] == ops[k].(status := FAILED, attempts := ops[k].attempts + n + 1,
                                          lastError := after[k].lastError)
  {
    if history != [] {
      var next := SettleAll(ops, history[0]);
      RunAccounting(ops, history[0]);
      if history[0](k).classification == RETAIN {
        assert next[k] == Settle(ops[k], history[0](k));
        FateIsFirstVerdict(next, history[1..], k);
      } else {
        SettledStaysSettled(next, history[1..], k);
      }
    }
  }

  /** An operation that is gone never comes back, and one that is not PENDING never changes. */
  lemma {:induction false} SettledStaysSettled(ops: Operations, history: seq<Answers>, k: Key)
    requires WellKeyed(ops) && !Pending(ops, k)
    ensures k in AfterRuns(ops, history) <==> k in ops
    ensures k in ops ==> AfterRuns(ops, history)[k] == ops[k]
  {
    if history != [] {
      RunAccounting(ops, history[0]);
      SettledStaysSettled(SettleAll(ops, history[0]), history[1..], k);
    }
  }

  /** The queue is empty of PENDING work exactly when every operation has met a verdict. */
  lemma QueueDrainsExactlyWhen(ops: Operations, history: seq<Answers>)
    requires WellKeyed(ops)
    ensures PendingKeys(AfterRuns(ops, history)) == {} <==>
            forall k :: k in PendingKeys(ops) ==>
                          exists i :: 0 <= i < |history| && history[i](k).classification != RETAIN
  {
    var after := AfterRuns(ops, history);
    forall k | k in PendingKeys(ops)
      ensures k !in PendingKeys(after) <==> exists i :: 0 <= i < |history| && history[i](k).classification != RETAIN
    {
      FateIsFirstVerdict(ops, history, k);
      var n := LeadingRetains(history, k);
      if n < |history| {
        assert history[n](k).classification != RETAIN;
      }
    }
    forall k | k !in PendingKeys(ops) ensures k !in PendingKeys(after) {
      SettledStaysSettled(ops, history, k);
    }
    if PendingKeys(after) != {} {
      var k :| k in PendingKeys(after);
      assert k in PendingKeys(ops);
    }
  }

  /** The flags after a history of runs. */
  function FlagsAfterRuns(flags: set<(TicketId, ScanKind)>, ops: Operations, history: seq<Answers>)
    : set<(TicketId, ScanKind)>
    decreases history
  {
    if history == [] then flags
    else
      FlagsAfterRuns(flags + DrainedPairs(ops, history[0], PendingKeys(ops)), SettleAll(ops, history[0]), history[1..])
  }

  /** The first verdict of a queued operation, if the history holds one, is DRAIN. */
  ghost predicate EventuallyDrained(ops: Operations, history: seq<Answers>, k: Key) {
    Pending(ops, k) && var n := LeadingRetains(history, k); n < |history| && history[n](k).classification == DRAIN
  }

  /**
   A flag is set after a history of runs exactly when it was set before or some operation of that
   ticket and kind met DRAIN as its first verdict: flags are never cleared and never set for anything else.
   */
  lemma {:induction false} FlagsRecordDrains(
    flags: set<(TicketId, ScanKind)>, ops: Operations, history: seq<Answers>, t: TicketId, kind: ScanKind)
    requires WellKeyed(ops)
    ensures (t, kind) in FlagsAfterRuns(flags, ops, history) <==>
            || (t, kind) in flags
            || exists k :: EventuallyDrained(ops, history, k) && ops[k].ticketId == t && ops[k].kind == kind
    decreases history
  {
    if history != [] {
      var first, next := history[0], SettleAll(ops, history[0]);
      var more := flags + DrainedPairs(ops, first, PendingKeys(ops));
      RunAccounting(ops, first);
      FlagsRecordDrains(more, next, history[1..], t, kind);
      forall k | k in ops
        ensures EventuallyDrained(ops, history, k) <==>
                Drained(ops, first, k) || EventuallyDrained(next, history[1..], k)
        ensures k in next ==> next[k].ticketId == ops[k].ticketId && next[k].kind == ops[k].kind
      {
        SettledOperation(ops, first, k);
      }
      assert next.Keys <= ops.Keys;
      assert (t, kind) in DrainedPairs(ops, first, PendingKeys(ops)) <==>
             exists k :: Drained(ops, first, k) && ops[k].ticketId == t && ops[k].kind == kind;
    }
  }
}
