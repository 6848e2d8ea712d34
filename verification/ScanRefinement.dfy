/**
 The step machine of the scanner against the queue's own description of a run: between its listing and its end, a
 sync run that no restart cuts short does to the listed operations and to the flags exactly what `SettleAll` says,
 whatever the network and the server do meanwhile, and leaves the scans stored meanwhile as they came.
 */
module ScanRefinement {
  import opened Common
  import opened ScanQueue
  import opened ScanProtocol
  import SyncEngine
  import ScanInvariant
  import ScanSafety

  /** The duplicate-detection flags as a set of ticket and kind pairs. */
  function MarkedPairs(cache: map<TicketId, Marks>): set<(TicketId, ScanKind)> {
    set t, kind | t in cache && Marked(cache, t, kind) :: (t, kind)
  }

  /** A run as it begins: the store, the flags, and the PENDING operations in the order they were listed. */
  datatype Begun = Begun(ops: Operations, pairs: set<(TicketId, ScanKind)>, pending: seq<ScanOperation>)

  ghost predicate Listed(b: Begun) {
    && WellKeyed(b.ops) && Distinct(b.pending)
    && forall op :: op in b.pending <==> op in b.ops.Values && op.status == PENDING
  }

  /** Everything but a restart and the end of the run. */
  predicate Continuing(a: Action) {
    !a.Crash? && !a.SyncEnd?
  }

  /** The results the engine has taken, and the scans that have been stored. */
  datatype History = History(given: map<Key, SendResult>, stored: Operations)

  function Noted(h: History, s: State, a: Action): History {
    if SideOf(a) == SENDING && s.engine.Waiting? && EngineStep(s, a).engine.Settling? then
      h.(given := h.given[s.engine.op.idempotencyKey := EngineStep(s, a).engine.result])
    else if a.ScanStore? && a.key in s.scanning then
      h.(stored := h.stored[a.key := s.scanning[a.key]])
    else h
  }

  function NotedAll(h: History, s: State, actions: seq<Action>): History
    decreases actions
  {
    if actions == [] then h else NotedAll(Noted(h, s, actions[0]), Step(s, actions[0]), actions[1..])
  }

  function AnswersIn(given: map<Key, SendResult>): Answers {
    k => if k in given then given[k] else SendResult(RETAIN, None)
  }

  /** The queue and the flags once the first `i` listed operations have been settled, and `extra` flagged besides. */
  ghost predicate SettledSoFar(
    ops: Operations, cache: map<TicketId, Marks>, b: Begun, i: nat, given: map<Key, SendResult>,
    extra: set<(TicketId, ScanKind)>)
    requires i <= |b.pending|
  {
    && ops == SettleKeys(b.ops, AnswersIn(given), SyncEngine.KeysBefore(b.pending, i))
    && MarkedPairs(cache) ==
         b.pairs + DrainedPairs(b.ops, AnswersIn(given), SyncEngine.KeysBefore(b.pending, i)) + extra
  }

  /** The engine is at the `i`-th listed operation and holds the result for it. */
  ghost predicate Holds(
    op: ScanOperation, todo: seq<ScanOperation>, pending: seq<ScanOperation>, i: nat, given: map<Key, SendResult>)
  {
    && i < |pending| && op == pending[i] && todo == pending[i + 1..]
    && given.Keys == SyncEngine.KeysBefore(pending, i) + {op.idempotencyKey}
  }

  /** Where the engine stands in the listing, and what it holds there. */
  ghost predicate EngineAt(
    engine: Engine, cache: map<TicketId, Marks>, pending: seq<ScanOperation>, i: nat, given: map<Key, SendResult>)
  {
    i <= |pending| &&
    match engine
    case Looping(todo) => todo == pending[i..] && given.Keys == SyncEngine.KeysBefore(pending, i)
    case Waiting(op, _, todo) =>
      && i < |pending| && op == pending[i] && todo == pending[i + 1..]
      && given.Keys == SyncEngine.KeysBefore(pending, i)
    case Settling(op, result, todo) => Holds(op, todo, pending, i, given) && given[op.idempotencyKey] == result
    case Marking(op, existing, todo) =>
      && Holds(op, todo, pending, i, given) && given[op.idempotencyKey].classification == DRAIN
      && existing == MarksOf(cache, op.ticketId)
    case Removing(op, todo) => Holds(op, todo, pending, i, given) && given[op.idempotencyKey].classification == DRAIN
    case Patching(op, patched, todo) =>
      && Holds(op, todo, pending, i, given) && given[op.idempotencyKey].classification != DRAIN
      && patched == Settle(op, given[op.idempotencyKey])
    case _ => false
  }

  function FlaggedAhead(engine: Engine): set<(TicketId, ScanKind)> {
    if engine.Removing? then {(engine.op.ticketId, engine.op.kind)} else {}
  }

  ghost predicate Standing(
    engine: Engine, ops: Operations, cache: map<TicketId, Marks>, b: Begun, i: nat, given: map<Key, SendResult>)
  {
    && EngineAt(engine, cache, b.pending, i, given)
    && SettledSoFar(ops, cache, b, i, given, FlaggedAhead(engine))
  }

  /** The store without the scans stored since the listing. */
  function ListedPart(ops: Operations, stored: Operations): Operations {
    ops - stored.Keys
  }

  /** The scans stored since the listing are in the store as they came, under keys the listing did not hold. */
  ghost predicate Apart(ops: Operations, scanning: Operations, accepted: Operations, b: Begun, stored: Operations) {
    && stored.Keys <= ops.Keys && (forall k :: k in stored ==> ops[k] == stored[k])
    && stored.Keys !! b.ops.Keys && scanning.Keys !! b.ops.Keys && b.ops.Keys <= accepted.Keys
  }

  ghost predicate StandsAt(s: State, b: Begun, i: nat, h: History) {
    && Apart(s.ops, s.scanning, s.accepted, b, h.stored)
    && Standing(s.engine, ListedPart(s.ops, h.stored), s.cache, b, i, h.given)
  }

  ghost predicate Stands(s: State, b: Begun, h: History) {
    exists i: nat :: StandsAt(s, b, i, h)
  }

  /** Only the answers to the keys settled so far matter. */
  lemma SameAnswers(ops0: Operations, a: Answers, b: Answers, done: set<Key>)
    requires forall k :: k in done ==> a(k) == b(k)
    ensures SettleKeys(ops0, a, done) == SettleKeys(ops0, b, done)
    ensures DrainedPairs(ops0, a, done) == DrainedPairs(ops0, b, done)
  {
  }

  lemma OneMorePair(cache: map<TicketId, Marks>, t: TicketId, kind: ScanKind)
    ensures MarkedPairs(cache[t := WithMark(MarksOf(cache, t), kind)]) == MarkedPairs(cache) + {(t, kind)}
  {
  }

  lemma ResultArrives(ops: Operations, cache: map<TicketId, Marks>, b: Begun, i: nat, given: map<Key, SendResult>,
                      r: nat, todo: seq<ScanOperation>, result: SendResult)
    requires Listed(b) && i < |b.pending| && Standing(Waiting(b.pending[i], r, todo), ops, cache, b, i, given)
    ensures Standing(Settling(b.pending[i], result, todo), ops, cache, b, i,
                     given[b.pending[i].idempotencyKey := result])
  {
    SyncEngine.NextPending(b.ops, b.pending, i);
    var more := given[b.pending[i].idempotencyKey := result];
    SameAnswers(b.ops, AnswersIn(given), AnswersIn(more), SyncEngine.KeysBefore(b.pending, i));
  }

  lemma SendDone(s: State)
    requires s.engine.Looping?
    ensures var t := EngineStep(s, Send);
            t.scanning == s.scanning &&
            t.engine == if s.engine.todo == [] then s.engine
                        else Waiting(s.engine.todo[0], |s.requests|, s.engine.todo[1..])
  {
  }

  lemma NextSent(ops: Operations, cache: map<TicketId, Marks>, b: Begun, i: nat, given: map<Key, SendResult>,
                 todo: seq<ScanOperation>, r: nat)
    requires Standing(Looping(todo), ops, cache, b, i, given) && todo != []
    ensures Standing(Waiting(todo[0], r, todo[1..]), ops, cache, b, i, given)
  {
    assert b.pending[i..][0] == b.pending[i] && b.pending[i..][1..] == b.pending[i + 1..];
  }

  lemma SendKeepsStanding(s: State, b: Begun, i: nat, h: History)
    requires Listed(b) && StandsAt(s, b, i, h)
    ensures StandsAt(EngineStep(s, Send), b, i, h)
  {
    ScanSafety.EngineStepFrame(s, Send);
    if s.engine.Looping? {
      SendDone(s);
      if s.engine.todo != [] {
        NextSent(ListedPart(s.ops, h.stored), s.cache, b, i, h.given, s.engine.todo, |s.requests|);
      }
    } else {
      assert EngineStep(s, Send) == s;
    }
  }

  lemma SendingKeepsStanding(s: State, a: Action, b: Begun, i: nat, h: History)
    requires Listed(b) && StandsAt(s, b, i, h) && SideOf(a) == SENDING && Continuing(a)
    ensures StandsAt(EngineStep(s, a), b, i, Noted(h, s, a))
  {
    var t := EngineStep(s, a);
    ScanSafety.EngineStepFrame(s, a);
    if s.engine.Waiting? && t.engine.Settling? {
      ResultTaken(s, a, b, i, h);
    } else if a.Send? {
      SendKeepsStanding(s, b, i, h);
    } else {
      EngineStays(s, a, b, i, h.given);
    }
  }

  lemma ResultTaken(s: State, a: Action, b: Begun, i: nat, h: History)
    requires Listed(b) && StandsAt(s, b, i, h) && SideOf(a) == SENDING
    requires s.engine.Waiting? && EngineStep(s, a).engine.Settling?
    ensures StandsAt(EngineStep(s, a), b, i, Noted(h, s, a))
  {
    var t := EngineStep(s, a);
    ScanSafety.EngineStepFrame(s, a);
    TakenForSameOperation(s, a);
    ResultArrives(ListedPart(s.ops, h.stored), s.cache, b, i, h.given, s.engine.request, s.engine.todo,
                  t.engine.result);
  }

  lemma TakenForSameOperation(s: State, a: Action)
    requires SideOf(a) == SENDING && s.engine.Waiting? && EngineStep(s, a).engine.Settling?
    ensures var t := EngineStep(s, a);
            t.engine == Settling(s.engine.op, t.engine.result, s.engine.todo) && t.scanning == s.scanning
  {
  }

  lemma EngineStays(s: State, a: Action, b: Begun, i: nat, given: map<Key, SendResult>)
    requires EngineAt(s.engine, s.cache, b.pending, i, given) && SideOf(a) == SENDING && Continuing(a) && !a.Send?
    requires !(s.engine.Waiting? && EngineStep(s, a).engine.Settling?)
    ensures EngineStep(s, a).engine == s.engine && EngineStep(s, a).scanning == s.scanning
  {
  }

  // A scan stored meanwhile stays out of the listed part, and what the engine does stays in it.

  lemma StoredStaysOut(ops: Operations, stored: Operations, k: Key, op: ScanOperation)
    requires k !in ListedPart(ops, stored)
    ensures ListedPart(ops[k := op], stored[k := op]) == ListedPart(ops, stored)
  {
  }

  lemma RemovedFromListed(ops: Operations, stored: Operations, k: Key)
    requires k !in stored
    ensures ListedPart(ops - {k}, stored) == ListedPart(ops, stored) - {k}
  {
  }

  lemma PatchedInListed(ops: Operations, stored: Operations, k: Key, op: ScanOperation)
    requires k !in stored
    ensures ListedPart(ops[k := op], stored) == ListedPart(ops, stored)[k := op]
  {
  }

  /** Settling an operation that was listed leaves the scans stored meanwhile apart. */
  lemma SettlingLeavesApart(ops: Operations, after: Operations, scanning: Operations, accepted: Operations, b: Begun,
                            stored: Operations, k: Key)
    requires Apart(ops, scanning, accepted, b, stored) && k in b.ops
    requires ops.Keys - {k} <= after.Keys && forall x :: x in ops && x != k ==> after[x] == ops[x]
    ensures Apart(after, scanning, accepted, b, stored) && k !in stored
  {
  }

  lemma ListedPartIsOld(engine: Engine, ops: Operations, cache: map<TicketId, Marks>, b: Begun, i: nat,
                        given: map<Key, SendResult>)
    requires Standing(engine, ops, cache, b, i, given)
    ensures ops.Keys <= b.ops.Keys
  {
  }

  lemma ScanningKeepsStanding(s: State, a: Action, b: Begun, i: nat, h: History)
    requires Listed(b) && StandsAt(s, b, i, h) && SideOf(a) == SCANNING
    ensures StandsAt(ScanStep(s, a), b, i, Noted(h, s, a))
  {
    ScanSafety.ScanStepFrame(s, a);
    if a.ScanStore? && a.key in s.scanning {
      ListedPartIsOld(s.engine, ListedPart(s.ops, h.stored), s.cache, b, i, h.given);
      StoredStaysOut(s.ops, h.stored, a.key, s.scanning[a.key]);
    }
  }

  /** After its removal or its patch the operation counts as settled. */
  lemma OneMoreDone(ops: Operations, cache: map<TicketId, Marks>, b: Begun, i: nat, given: map<Key, SendResult>)
    requires Listed(b) && i < |b.pending| && b.pending[i].idempotencyKey in given
    requires SettledSoFar(ops, cache, b, i, given, DrainedPair(b.pending[i], given[b.pending[i].idempotencyKey]))
    ensures SettledSoFar(SettleOne(ops, b.pending[i], given[b.pending[i].idempotencyKey]), cache, b, i + 1, given, {})
  {
    SyncEngine.NextSettled(b.ops, AnswersIn(given), b.pending, i);
  }

  lemma MarksWritten(ops: Operations, cache: map<TicketId, Marks>, b: Begun, i: nat, given: map<Key, SendResult>,
                     op: ScanOperation, todo: seq<ScanOperation>)
    requires Standing(Marking(op, MarksOf(cache, op.ticketId), todo), ops, cache, b, i, given)
    ensures Standing(Removing(op, todo), ops, cache[op.ticketId := WithMark(MarksOf(cache, op.ticketId), op.kind)],
                     b, i, given)
  {
    OneMorePair(cache, op.ticketId, op.kind);
  }

  /** How far the run has come after a step that settles. */
  function Next(s: State, a: Action, i: nat): nat {
    if (a.Remove? && s.engine.Removing?) || (a.WritePatch? && s.engine.Patching?) then i + 1 else i
  }

  lemma Removed(ops: Operations, cache: map<TicketId, Marks>, b: Begun, i: nat, given: map<Key, SendResult>,
                op: ScanOperation, todo: seq<ScanOperation>)
    requires Listed(b) && Standing(Removing(op, todo), ops, cache, b, i, given)
    ensures Standing(Looping(todo), ops - {op.idempotencyKey}, cache, b, i + 1, given)
  {
    SyncEngine.NextPending(b.ops, b.pending, i);
    OneMoreDone(ops, cache, b, i, given);
  }

  lemma PatchRead(ops: Operations, cache: map<TicketId, Marks>, b: Begun, i: nat, given: map<Key, SendResult>,
                  op: ScanOperation, result: SendResult, todo: seq<ScanOperation>)
    requires Listed(b) && Standing(Settling(op, result, todo), ops, cache, b, i, given)
    requires result.classification != DRAIN
    ensures op.idempotencyKey in ops && ops[op.idempotencyKey] == op
    ensures Standing(Patching(op, Settle(op, result), todo), ops, cache, b, i, given)
  {
    SyncEngine.NextSettled(b.ops, AnswersIn(given), b.pending, i);
  }

  lemma Patched(ops: Operations, cache: map<TicketId, Marks>, b: Begun, i: nat, given: map<Key, SendResult>,
                op: ScanOperation, patched: ScanOperation, todo: seq<ScanOperation>)
    requires Listed(b) && Standing(Patching(op, patched, todo), ops, cache, b, i, given)
    ensures Standing(Looping(todo), ops[op.idempotencyKey := patched], cache, b, i + 1, given)
  {
    SyncEngine.NextPending(b.ops, b.pending, i);
    OneMoreDone(ops, cache, b, i, given);
  }

  /** What the engine holds was listed. */
  lemma HeldIsListed(b: Begun, i: nat)
    requires Listed(b) && i < |b.pending|
    ensures b.pending[i].idempotencyKey in b.ops
  {
    SyncEngine.NextPending(b.ops, b.pending, i);
  }

  lemma AfterReadMarks(s: State, b: Begun, i: nat, h: History)
    requires Listed(b) && StandsAt(s, b, i, h)
    ensures StandsAt(OutcomeStep(s, ReadMarks), b, i, h)
  {
    ScanSafety.OutcomeStepFrame(s, ReadMarks);
  }

  lemma MarksDone(s: State)
    requires s.engine.Marking?
    ensures OutcomeStep(s, WriteMarks) ==
            s.(engine := Removing(s.engine.op, s.engine.todo),
               cache := s.cache[s.engine.op.ticketId := WithMark(s.engine.existing, s.engine.op.kind)])
  {
  }

  lemma AfterWriteMarks(s: State, b: Begun, i: nat, h: History)
    requires Listed(b) && StandsAt(s, b, i, h)
    ensures StandsAt(OutcomeStep(s, WriteMarks), b, i, h)
  {
    if s.engine.Marking? {
      MarksWritten(ListedPart(s.ops, h.stored), s.cache, b, i, h.given, s.engine.op, s.engine.todo);
      MarksDone(s);
    }
  }

  // What the engine makes of the state when it removes, reads or patches the operation in hand.

  function RemovedState(s: State): State
    requires s.engine.Removing?
  {
    var k := s.engine.op.idempotencyKey;
    s.(engine := Looping(s.engine.todo), ops := s.ops - {k}, drained := s.drained + {k})
  }

  function PreparedState(s: State): State
    requires s.engine.Settling?
  {
    s.(engine := Patching(s.engine.op, Settle(s.engine.op, s.engine.result), s.engine.todo))
  }

  function PatchedState(s: State): State
    requires s.engine.Patching?
  {
    s.(engine := Looping(s.engine.todo), ops := s.ops[s.engine.op.idempotencyKey := s.engine.patched])
  }

  lemma RemoveDone(s: State)
    ensures OutcomeStep(s, Remove) == if s.engine.Removing? then RemovedState(s) else s
  {
  }

  lemma PatchPrepared(s: State)
    requires s.engine.Settling? && s.engine.result.classification != DRAIN ==>
               s.engine.op.idempotencyKey in s.ops && s.ops[s.engine.op.idempotencyKey] == s.engine.op
    ensures OutcomeStep(s, ReadPatch) ==
            if s.engine.Settling? && s.engine.result.classification != DRAIN then PreparedState(s) else s
  {
  }

  lemma PatchWritten(s: State)
    ensures OutcomeStep(s, WritePatch) == if s.engine.Patching? then PatchedState(s) else s
  {
  }

  lemma RemovedStands(s: State, b: Begun, i: nat, h: History)
    requires Listed(b) && StandsAt(s, b, i, h) && s.engine.Removing?
    ensures StandsAt(RemovedState(s), b, i + 1, h)
  {
    var k := s.engine.op.idempotencyKey;
    HeldIsListed(b, i);
    SettlingLeavesApart(s.ops, s.ops - {k}, s.scanning, s.accepted, b, h.stored, k);
    Removed(ListedPart(s.ops, h.stored), s.cache, b, i, h.given, s.engine.op, s.engine.todo);
    RemovedFromListed(s.ops, h.stored, k);
  }

  lemma PreparedStands(s: State, b: Begun, i: nat, h: History)
    requires Listed(b) && StandsAt(s, b, i, h) && s.engine.Settling? && s.engine.result.classification != DRAIN
    ensures s.engine.op.idempotencyKey in s.ops && s.ops[s.engine.op.idempotencyKey] == s.engine.op
    ensures StandsAt(PreparedState(s), b, i, h)
  {
    PatchRead(ListedPart(s.ops, h.stored), s.cache, b, i, h.given, s.engine.op, s.engine.result, s.engine.todo);
  }

  lemma PatchedStands(s: State, b: Begun, i: nat, h: History)
    requires Listed(b) && StandsAt(s, b, i, h) && s.engine.Patching?
    ensures StandsAt(PatchedState(s), b, i + 1, h)
  {
    var k := s.engine.op.idempotencyKey;
    HeldIsListed(b, i);
    SettlingLeavesApart(s.ops, s.ops[k := s.engine.patched], s.scanning, s.accepted, b, h.stored, k);
    Patched(ListedPart(s.ops, h.stored), s.cache, b, i, h.given, s.engine.op, s.engine.patched, s.engine.todo);
    PatchedInListed(s.ops, h.stored, k, s.engine.patched);
  }

  lemma AfterRemove(s: State, b: Begun, i: nat, h: History)
    requires Listed(b) && StandsAt(s, b, i, h)
    ensures StandsAt(OutcomeStep(s, Remove), b, Next(s, Remove, i), h)
  {
    RemoveDone(s);
    if s.engine.Removing? {
      RemovedStands(s, b, i, h);
    }
  }

  lemma AfterReadPatch(s: State, b: Begun, i: nat, h: History)
    requires Listed(b) && StandsAt(s, b, i, h)
    ensures StandsAt(OutcomeStep(s, ReadPatch), b, i, h)
  {
    if s.engine.Settling? && s.engine.result.classification != DRAIN {
      PreparedStands(s, b, i, h);
    }
    PatchPrepared(s);
  }

  lemma AfterWritePatch(s: State, b: Begun, i: nat, h: History)
    requires Listed(b) && StandsAt(s, b, i, h)
    ensures StandsAt(OutcomeStep(s, WritePatch), b, Next(s, WritePatch, i), h)
  {
    PatchWritten(s);
    if s.engine.Patching? {
      PatchedStands(s, b, i, h);
    }
  }

  lemma SettlingKeepsStanding(s: State, a: Action, b: Begun, i: nat, h: History)
    requires Listed(b) && StandsAt(s, b, i, h) && SideOf(a) == SETTLING
    ensures StandsAt(OutcomeStep(s, a), b, Next(s, a, i), h)
  {
    match a
    case ReadMarks => AfterReadMarks(s, b, i, h);
    case WriteMarks => AfterWriteMarks(s, b, i, h);
    case Remove => AfterRemove(s, b, i, h);
    case ReadPatch => AfterReadPatch(s, b, i, h);
    case WritePatch => AfterWritePatch(s, b, i, h);
  }

  lemma ServingKeepsStanding(s: State, a: Action, b: Begun, i: nat, h: History)
    requires StandsAt(s, b, i, h)
    ensures StandsAt(ServerStep(s, a), b, i, h)
  {
    ScanSafety.ServerStepFrame(s, a);
  }

  lemma StepKeepsStanding(s: State, a: Action, b: Begun, h: History)
    requires Listed(b) && Stands(s, b, h) && Continuing(a)
    ensures Stands(Step(s, a), b, Noted(h, s, a))
  {
    var i: nat :| StandsAt(s, b, i, h);
    match SideOf(a)
    case SCANNING => ScanningKeepsStanding(s, a, b, i, h);
    case SENDING => SendingKeepsStanding(s, a, b, i, h);
    case SETTLING => SettlingKeepsStanding(s, a, b, i, h);
    case SERVING => ServingKeepsStanding(s, a, b, i, h);
  }

  lemma {:induction false} RunKeepsStanding(s: State, actions: seq<Action>, b: Begun, h: History)
    requires Listed(b) && Stands(s, b, h) && forall a :: a in actions ==> Continuing(a)
    ensures Stands(Run(s, actions), b, NotedAll(h, s, actions))
    decreases actions
  {
    if actions != [] {
      StepKeepsStanding(s, actions[0], b, h);
      RunKeepsStanding(Step(s, actions[0]), actions[1..], b, Noted(h, s, actions[0]));
    }
  }

  lemma StoredIsAccepted(s: State)
    requires ScanInvariant.Inv(s)
    ensures WellKeyed(s.ops) && s.ops.Keys <= s.accepted.Keys && s.scanning.Keys !! s.ops.Keys
  {
  }

  lemma StandsAtFirst(s: State, pending: seq<ScanOperation>)
    requires s.engine == Looping(pending)
    requires WellKeyed(s.ops) && s.ops.Keys <= s.accepted.Keys && s.scanning.Keys !! s.ops.Keys
    requires Distinct(pending) && Elements(pending) == PendingOperations(s.ops)
    ensures var b := Begun(s.ops, MarkedPairs(s.cache), pending);
            Listed(b) && Stands(s, b, History(map[], map[]))
  {
    var b := Begun(s.ops, MarkedPairs(s.cache), pending);
    forall op ensures op in pending <==> op in s.ops.Values && op.status == PENDING {
      assert op in pending <==> op in Elements(pending);
    }
    assert SyncEngine.KeysBefore(pending, 0) == {};
    assert SettleKeys(s.ops, AnswersIn(map[]), {}) == s.ops;
    assert ListedPart(s.ops, map[]) == s.ops;
    assert StandsAt(s, b, 0, History(map[], map[]));
  }

  lemma StandsAtLast(s: State, b: Begun, h: History)
    requires Listed(b) && Stands(s, b, h) && s.engine == Looping([])
    ensures h.given.Keys == PendingKeys(b.ops) && h.stored.Keys !! b.ops.Keys
    ensures s.ops == SettleAll(b.ops, AnswersIn(h.given)) + h.stored
    ensures MarkedPairs(s.cache) == b.pairs + DrainedPairs(b.ops, AnswersIn(h.given), PendingKeys(b.ops))
  {
    var i: nat :| StandsAt(s, b, i, h);
    PartIsSettled(ListedPart(s.ops, h.stored), s.cache, b, i, h.given);
    ListedAndStored(s.ops, h.stored);
  }

  lemma ListedAndStored(ops: Operations, stored: Operations)
    requires stored.Keys <= ops.Keys && forall k :: k in stored ==> ops[k] == stored[k]
    ensures ops == ListedPart(ops, stored) + stored
  {
  }

  lemma PartIsSettled(part: Operations, cache: map<TicketId, Marks>, b: Begun, i: nat, given: map<Key, SendResult>)
    requires Listed(b) && Standing(Looping([]), part, cache, b, i, given)
    ensures given.Keys == PendingKeys(b.ops) && part == SettleAll(b.ops, AnswersIn(given))
    ensures MarkedPairs(cache) == b.pairs + DrainedPairs(b.ops, AnswersIn(given), PendingKeys(b.ops))
  {
    assert |b.pending[i..]| == 0;
    SyncEngine.KeysOfPending(b.ops, b.pending);
  }

  /**
   A sync run that no restart cuts short, whatever is scanned and whatever the network and the server do meanwhile:
   once its listing is worked off, every operation that was PENDING has received one result, the store is `SettleAll`
   of those results together with the scans stored meanwhile, and the flags are those that were set before and those
   of the drained operations.
   */
  lemma RunSettlesAll(s: State, pending: seq<ScanOperation>, actions: seq<Action>)
    requires s.engine == Looping(pending) && ScanInvariant.Inv(s)
    requires Distinct(pending) && Elements(pending) == PendingOperations(s.ops)
    requires forall a :: a in actions ==> Continuing(a)
    requires Run(s, actions).engine == Looping([])
    ensures var ended, h := Run(s, actions), NotedAll(History(map[], map[]), s, actions);
            && h.given.Keys == PendingKeys(s.ops) && h.stored.Keys !! s.ops.Keys
            && ended.ops == SettleAll(s.ops, AnswersIn(h.given)) + h.stored
            && MarkedPairs(ended.cache) ==
               MarkedPairs(s.cache) + DrainedPairs(s.ops, AnswersIn(h.given), PendingKeys(s.ops))
  {
    var b := Begun(s.ops, MarkedPairs(s.cache), pending);
    StoredIsAccepted(s);
    StandsAtFirst(s, pending);
    RunKeepsStanding(s, actions, b, History(map[], map[]));
    StandsAtLast(Run(s, actions), b, NotedAll(History(map[], map[]), s, actions));
  }
}
