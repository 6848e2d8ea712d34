/**
 The mapping of race bibs to timing chips: an append-only log of rows, of which the active ones form a
 partial bijection for each event.

 Assigning is three statements outside any transaction, so concurrent assignments can interleave; two
 partial unique indexes refuse a row that would break the bijection.
 */
module ChipMapping {
  import opened Common

  type EventId = nat
  type Bib = nat
  type Chip = nat

  datatype MappingStatus = ACTIVE | REPLACED

  datatype Mapping = Mapping(event: EventId, bib: Bib, chip: Chip, isActive: bool, status: MappingStatus)

  // ---------------------------------------------------------------------------------------------
  // Statements
  // ---------------------------------------------------------------------------------------------

  predicate OnBib(row: Mapping, event: EventId, bib: Bib) {
    row.event == event && row.bib == bib && row.isActive
  }

  predicate OnChip(row: Mapping, event: EventId, chip: Chip) {
    row.event == event && row.chip == chip && row.isActive
  }

  function Off(row: Mapping): Mapping {
    row.(isActive := false, status := REPLACED)
  }

  function WithoutBib(rows: seq<Mapping>, event: EventId, bib: Bib): seq<Mapping> {
    seq(|rows|, i requires 0 <= i < |rows| => if OnBib(rows[i], event, bib) then Off(rows[i]) else rows[i])
  }

  function WithoutChip(rows: seq<Mapping>, event: EventId, chip: Chip): seq<Mapping> {
    seq(|rows|, i requires 0 <= i < |rows| => if OnChip(rows[i], event, chip) then Off(rows[i]) else rows[i])
  }

  /** Whether a unique index refuses an active row for this bib and chip. */
  predicate Refused(rows: seq<Mapping>, event: EventId, bib: Bib, chip: Chip) {
    exists i :: 0 <= i < |rows| && (OnBib(rows[i], event, bib) || OnChip(rows[i], event, chip))
  }

  function Inserted(rows: seq<Mapping>, event: EventId, bib: Bib, chip: Chip): seq<Mapping> {
    if Refused(rows, event, bib, chip) then rows else rows + [Mapping(event, bib, chip, true, ACTIVE)]
  }

  /** The two unique indexes. */
  ghost predicate Indexed(rows: seq<Mapping>) {
    forall i, j :: 0 <= i < j < |rows| && rows[i].isActive && rows[j].isActive && rows[i].event == rows[j].event ==>
                     rows[i].bib != rows[j].bib && rows[i].chip != rows[j].chip
  }

  datatype Statement =
    | DeactivateBib(event: EventId, bib: Bib)
    | DeactivateChip(event: EventId, chip: Chip)
    | Insert(event: EventId, bib: Bib, chip: Chip)

  function Execute(rows: seq<Mapping>, s: Statement): seq<Mapping> {
    match s
    case DeactivateBib(e, b) => WithoutBib(rows, e, b)
    case DeactivateChip(e, c) => WithoutChip(rows, e, c)
    case Insert(e, b, c) => Inserted(rows, e, b, c)
  }

  function ExecuteAll(rows: seq<Mapping>, log: seq<Statement>): seq<Mapping>
    decreases log
  {
    if log == [] then rows else ExecuteAll(Execute(rows, log[0]), log[1..])
  }

  /** Rows are never removed, and a row that is off stays off. */
  ghost predicate Grows(before: seq<Mapping>, after: seq<Mapping>) {
    && |before| <= |after|
    && forall i :: 0 <= i < |before| ==> after[i] == before[i] || (before[i].isActive && after[i] == Off(before[i]))
  }

  /** Statements of any number of assignments, interleaved in any way, keep the bijection and the history. */
  lemma {:induction false} AnyInterleaving(rows: seq<Mapping>, log: seq<Statement>)
    requires Indexed(rows)
    ensures Indexed(ExecuteAll(rows, log)) && Grows(rows, ExecuteAll(rows, log))
    decreases log
  {
    if log != [] {
      AnyInterleaving(Execute(rows, log[0]), log[1..]);
    }
  }

  // ---------------------------------------------------------------------------------------------
  // The active mapping as a map
  // ---------------------------------------------------------------------------------------------

  /** The chip of each bib, read off the active rows. */
  function ChipOf(rows: seq<Mapping>, event: EventId): map<Bib, Chip> {
    if rows == [] then map[]
    else
      var last := rows[|rows| - 1];
      var rest := ChipOf(rows[..|rows| - 1], event);
      if last.event == event && last.isActive then rest[last.bib := last.chip] else rest
  }

  predicate Injective(m: map<Bib, Chip>) {
    forall a, b :: a in m && b in m && m[a] == m[b] ==> a == b
  }

  lemma IndexedPrefix(rows: seq<Mapping>)
    requires Indexed(rows) && rows != []
    ensures Indexed(rows[..|rows| - 1])
  {
  }

  /** Some active row links the bib to the chip. */
  ghost predicate Linked(rows: seq<Mapping>, event: EventId, bib: Bib, chip: Chip) {
    exists i :: 0 <= i < |rows| && OnBib(rows[i], event, bib) && rows[i].chip == chip
  }

  lemma LinkedByRow(rows: seq<Mapping>, event: EventId, i: nat)
    requires i < |rows| && rows[i].event == event && rows[i].isActive
    ensures Linked(rows, event, rows[i].bib, rows[i].chip)
  {
    assert OnBib(rows[i], event, rows[i].bib);
  }

  /** The map says exactly what the active rows say. */
  lemma {:induction false} ChipOfReadsRows(rows: seq<Mapping>, event: EventId, bib: Bib, chip: Chip)
    requires Indexed(rows)
    ensures Linked(rows, event, bib, chip) <==> bib in ChipOf(rows, event) && ChipOf(rows, event)[bib] == chip
  {
    if rows != [] {
      var n := |rows| - 1;
      var front := rows[..n];
      IndexedPrefix(rows);
      ChipOfReadsRows(front, event, bib, chip);
      if Linked(rows, event, bib, chip) {
        var i :| 0 <= i < |rows| && OnBib(rows[i], event, bib) && rows[i].chip == chip;
        if i < n {
          assert front[i] == rows[i];
          assert Linked(front, event, bib, chip);
        }
      }
      if bib in ChipOf(rows, event) && ChipOf(rows, event)[bib] == chip {
        if OnBib(rows[n], event, bib) {
          LinkedByRow(rows, event, n);
        } else {
          assert Linked(front, event, bib, chip);
          var i :| 0 <= i < |front| && OnBib(front[i], event, bib) && front[i].chip == chip;
          assert rows[i] == front[i];
        }
      }
    }
  }

  /** No chip is on two bibs. */
  lemma ChipOfIsInjective(rows: seq<Mapping>, event: EventId)
    requires Indexed(rows)
    ensures Injective(ChipOf(rows, event))
  {
    var m := ChipOf(rows, event);
    forall a, b | a in m && b in m && m[a] == m[b] ensures a == b {
      ChipOfReadsRows(rows, event, a, m[a]);
      ChipOfReadsRows(rows, event, b, m[b]);
      var i :| 0 <= i < |rows| && OnBib(rows[i], event, a) && rows[i].chip == m[a];
      var j :| 0 <= j < |rows| && OnBib(rows[j], event, b) && rows[j].chip == m[b];
    }
  }

  // ---------------------------------------------------------------------------------------------
  // An assignment on the map
  // ---------------------------------------------------------------------------------------------

  function Freed(m: map<Bib, Chip>, bib: Bib, chip: Chip): map<Bib, Chip> {
    map b | b in m && b != bib && m[b] != chip :: m[b]
  }

  /** What an assignment means: with replacement it always takes effect, without it only if both sides are free. */
  function Assigned(m: map<Bib, Chip>, bib: Bib, chip: Chip, replaceOld: bool): map<Bib, Chip> {
    if replaceOld then Freed(m, bib, chip)[bib := chip]
    else if bib in m || chip in m.Values then m
    else m[bib := chip]
  }

  /** The rows after one undisturbed assignment. */
  function AssignRows(rows: seq<Mapping>, event: EventId, bib: Bib, chip: Chip, replaceOld: bool): seq<Mapping> {
    Inserted(if replaceOld then WithoutChip(WithoutBib(rows, event, bib), event, chip) else rows, event, bib, chip)
  }

  lemma StatementKeepsIndexed(rows: seq<Mapping>, s: Statement)
    requires Indexed(rows)
    ensures Indexed(Execute(rows, s))
  {
  }

  /** The two deactivations free exactly the pairs that name the bib or the chip. */
  lemma FreedLinks(rows: seq<Mapping>, event: EventId, bib: Bib, chip: Chip, b: Bib, c: Chip)
    ensures Linked(WithoutChip(WithoutBib(rows, event, bib), event, chip), event, b, c) <==>
            Linked(rows, event, b, c) && b != bib && c != chip
  {
    var freed := WithoutChip(WithoutBib(rows, event, bib), event, chip);
    if Linked(freed, event, b, c) {
      var i :| 0 <= i < |freed| && OnBib(freed[i], event, b) && freed[i].chip == c;
      assert OnBib(rows[i], event, b) && rows[i].chip == c;
    }
    if Linked(rows, event, b, c) && b != bib && c != chip {
      var i :| 0 <= i < |rows| && OnBib(rows[i], event, b) && rows[i].chip == c;
      assert OnBib(freed[i], event, b) && freed[i].chip == c;
    }
  }

  lemma FreedRows(rows: seq<Mapping>, event: EventId, bib: Bib, chip: Chip)
    requires Indexed(rows)
    ensures var freed := WithoutChip(WithoutBib(rows, event, bib), event, chip);
            && Indexed(freed) && !Refused(freed, event, bib, chip)
            && ChipOf(freed, event) == Freed(ChipOf(rows, event), bib, chip)
  {
    var freed := WithoutChip(WithoutBib(rows, event, bib), event, chip);
    StatementKeepsIndexed(rows, DeactivateBib(event, bib));
    StatementKeepsIndexed(WithoutBib(rows, event, bib), DeactivateChip(event, chip));
    var m, f := ChipOf(rows, event), ChipOf(freed, event);
    forall b | b in f ensures b in m && m[b] == f[b] && b != bib && f[b] != chip {
      ChipOfReadsRows(freed, event, b, f[b]);
      FreedLinks(rows, event, bib, chip, b, f[b]);
      ChipOfReadsRows(rows, event, b, f[b]);
    }
    forall b | b in m && b != bib && m[b] != chip ensures b in f {
      ChipOfReadsRows(rows, event, b, m[b]);
      FreedLinks(rows, event, bib, chip, b, m[b]);
      ChipOfReadsRows(freed, event, b, m[b]);
    }
    assert f == Freed(m, bib, chip);
  }

  lemma RefusedExactlyWhen(rows: seq<Mapping>, event: EventId, bib: Bib, chip: Chip)
    requires Indexed(rows)
    ensures Refused(rows, event, bib, chip) <==> bib in ChipOf(rows, event) || chip in ChipOf(rows, event).Values
  {
    var m := ChipOf(rows, event);
    if i :| 0 <= i < |rows| && (OnBib(rows[i], event, bib) || OnChip(rows[i], event, chip)) {
      LinkedByRow(rows, event, i);
      ChipOfReadsRows(rows, event, rows[i].bib, rows[i].chip);
      assert rows[i].bib in m && m[rows[i].bib] == rows[i].chip;
    }
    if bib in m {
      ChipOfReadsRows(rows, event, bib, m[bib]);
      assert Linked(rows, event, bib, m[bib]);
    }
    if chip in m.Values {
      var b :| b in m && m[b] == chip;
      ChipOfReadsRows(rows, event, b, chip);
      var i :| 0 <= i < |rows| && OnBib(rows[i], event, b) && rows[i].chip == chip;
      assert OnChip(rows[i], event, chip);
    }
  }

  /** An undisturbed assignment does to the rows what it means on the map, and leaves every other event alone. */
  lemma AssignMeans(rows: seq<Mapping>, event: EventId, bib: Bib, chip: Chip, replaceOld: bool)
    requires Indexed(rows)
    ensures var after := AssignRows(rows, event, bib, chip, replaceOld);
            && Indexed(after)
            && ChipOf(after, event) == Assigned(ChipOf(rows, event), bib, chip, replaceOld)
            && (|after| == |rows| + 1 <==> replaceOld || !Refused(rows, event, bib, chip))
            && (forall i :: 0 <= i < |rows| && rows[i].event != event ==> after[i] == rows[i])
  {
    var freed := if replaceOld then WithoutChip(WithoutBib(rows, event, bib), event, chip) else rows;
    if replaceOld {
      FreedRows(rows, event, bib, chip);
    }
    StatementKeepsIndexed(freed, Insert(event, bib, chip));
    RefusedExactlyWhen(rows, event, bib, chip);
    assert Inserted(freed, event, bib, chip) != freed ==>
        Inserted(freed, event, bib, chip)[..|freed|] == freed;
  }

  // ---------------------------------------------------------------------------------------------
  // Whole logs
  // ---------------------------------------------------------------------------------------------

  datatype Assignment = Assignment(bib: Bib, chip: Chip, replaceOld: bool)

  /** The rows after a log of assignments made one after the other. */
  function AssignAll(rows: seq<Mapping>, event: EventId, log: seq<Assignment>): seq<Mapping> {
    if log == [] then rows
    else
      var last := log[|log| - 1];
      AssignRows(AssignAll(rows, event, log[..|log| - 1]), event, last.bib, last.chip, last.replaceOld)
  }

  /** Replaying the log on a simple map. */
  function Replay(log: seq<Assignment>): map<Bib, Chip> {
    if log == [] then map[]
    else
      var last := log[|log| - 1];
      Assigned(Replay(log[..|log| - 1]), last.bib, last.chip, last.replaceOld)
  }

  lemma {:induction false} RowsAgreeWithReplay(event: EventId, log: seq<Assignment>)
    ensures Indexed(AssignAll([], event, log))
    ensures ChipOf(AssignAll([], event, log), event) == Replay(log)
    ensures Injective(Replay(log))
  {
    if log != [] {
      var front, last := log[..|log| - 1], log[|log| - 1];
      RowsAgreeWithReplay(event, front);
      AssignMeans(AssignAll([], event, front), event, last.bib, last.chip, last.replaceOld);
    }
    ChipOfIsInjective(AssignAll([], event, log), event);
  }

  /** The assignment at `i` put its pair in place and nothing later named its bib or its chip. */
  ghost predicate StandsAt(log: seq<Assignment>, i: nat, bib: Bib, chip: Chip) {
    && i < |log| && log[i].bib == bib && log[i].chip == chip
    && forall j :: i < j < |log| ==> log[j].bib != bib && log[j].chip != chip
  }

  /** With replacement throughout, the last assignment naming a bib or a chip decides. */
  lemma {:induction false} LastAssignmentWins(log: seq<Assignment>, bib: Bib, chip: Chip)
    requires forall a :: a in log ==> a.replaceOld
    ensures bib in Replay(log) && Replay(log)[bib] == chip <==> exists i :: StandsAt(log, i, bib, chip)
  {
    if log != [] {
      var n := |log| - 1;
      var front, last := log[..n], log[n];
      LastAssignmentWins(front, bib, chip);
      if last.bib == bib && last.chip == chip {
        assert StandsAt(log, n, bib, chip);
      } else if last.bib != bib && last.chip != chip {
        forall i: nat ensures StandsAt(log, i, bib, chip) <==> StandsAt(front, i, bib, chip) {
        }
      } else {
        forall i: nat ensures !StandsAt(log, i, bib, chip) {
        }
      }
    }
  }

  // ---------------------------------------------------------------------------------------------
  // Interleaved assignments
  // ---------------------------------------------------------------------------------------------

  /** The statement deactivates an active row linking the bib to the chip. */
  predicate TurnsOff(s: Statement, event: EventId, bib: Bib, chip: Chip) {
    s == DeactivateBib(event, bib) || s == DeactivateChip(event, chip)
  }

  /** No statement from `k` on deactivates the pair. */
  ghost predicate KeptFrom(log: seq<Statement>, k: nat, event: EventId, bib: Bib, chip: Chip) {
    forall j :: k <= j < |log| ==> !TurnsOff(log[j], event, bib, chip)
  }

  /** Statement `k` inserted the pair, was not refused, and nothing later deactivates the pair. */
  ghost predicate StandingInsert(
    rows: seq<Mapping>, log: seq<Statement>, k: nat, event: EventId, bib: Bib, chip: Chip)
  {
    && k < |log| && log[k] == Insert(event, bib, chip)
    && !Refused(ExecuteAll(rows, log[..k]), event, bib, chip)
    && KeptFrom(log, k + 1, event, bib, chip)
  }

  lemma {:induction false} ExecuteLast(rows: seq<Mapping>, log: seq<Statement>)
    requires log != []
    ensures ExecuteAll(rows, log) == Execute(ExecuteAll(rows, log[..|log| - 1]), log[|log| - 1])
    decreases log
  {
    if |log| > 1 {
      ExecuteLast(Execute(rows, log[0]), log[1..]);
      assert log[1..][..|log| - 2] == log[..|log| - 1][1..];
    }
  }

  lemma LinkedAfterOne(rows: seq<Mapping>, s: Statement, event: EventId, bib: Bib, chip: Chip)
    ensures Linked(Execute(rows, s), event, bib, chip) <==>
            || (Linked(rows, event, bib, chip) && !TurnsOff(s, event, bib, chip))
            || (s == Insert(event, bib, chip) && !Refused(rows, event, bib, chip))
  {
    var after := Execute(rows, s);
    if i :| 0 <= i < |after| && OnBib(after[i], event, bib) && after[i].chip == chip {
      assert i < |rows| ==> OnBib(rows[i], event, bib) && rows[i].chip == chip;
    }
    if Linked(rows, event, bib, chip) && !TurnsOff(s, event, bib, chip) {
      var i :| 0 <= i < |rows| && OnBib(rows[i], event, bib) && rows[i].chip == chip;
      assert OnBib(after[i], event, bib) && after[i].chip == chip;
    }
    if s == Insert(event, bib, chip) && !Refused(rows, event, bib, chip) {
      assert OnBib(after[|rows|], event, bib);
    }
  }

  /** A pair is active after any statements exactly when an insert of it stands, or it was and none turned it off. */
  lemma {:induction false} LinkedAfterExactlyWhen(
    rows: seq<Mapping>, log: seq<Statement>, event: EventId, bib: Bib, chip: Chip)
    ensures Linked(ExecuteAll(rows, log), event, bib, chip) <==>
            || (exists k: nat :: StandingInsert(rows, log, k, event, bib, chip))
            || (Linked(rows, event, bib, chip) && KeptFrom(log, 0, event, bib, chip))
    decreases |log|
  {
    if log != [] {
      var n := |log| - 1;
      var front, last := log[..n], log[n];
      ExecuteLast(rows, log);
      LinkedAfterOne(ExecuteAll(rows, front), last, event, bib, chip);
      LinkedAfterExactlyWhen(rows, front, event, bib, chip);
      forall k: nat | k < n
        ensures StandingInsert(rows, log, k, event, bib, chip) <==>
                StandingInsert(rows, front, k, event, bib, chip) && !TurnsOff(last, event, bib, chip)
      {
        assert log[..k] == front[..k];
        KeptOneMore(log, k + 1, event, bib, chip);
      }
      KeptOneMore(log, 0, event, bib, chip);
      assert StandingInsert(rows, log, n, event, bib, chip) <==>
          last == Insert(event, bib, chip) && !Refused(ExecuteAll(rows, front), event, bib, chip);
    }
  }

  lemma KeptOneMore(log: seq<Statement>, k: nat, event: EventId, bib: Bib, chip: Chip)
    requires k < |log|
    ensures KeptFrom(log, k, event, bib, chip) <==>
            KeptFrom(log[..|log| - 1], k, event, bib, chip) && !TurnsOff(log[|log| - 1], event, bib, chip)
  {
  }

  /** An insert is refused exactly when an active pair names its bib or its chip. */
  lemma RefusedByPair(rows: seq<Mapping>, event: EventId, bib: Bib, chip: Chip)
    ensures Refused(rows, event, bib, chip) <==>
            exists b: Bib, c: Chip :: (b == bib || c == chip) && Linked(rows, event, b, c)
  {
    if i :| 0 <= i < |rows| && (OnBib(rows[i], event, bib) || OnChip(rows[i], event, chip)) {
      LinkedByRow(rows, event, i);
    }
    if b: Bib, c: Chip :| (b == bib || c == chip) && Linked(rows, event, b, c) {
      var i :| 0 <= i < |rows| && OnBib(rows[i], event, b) && rows[i].chip == c;
      assert OnBib(rows[i], event, bib) || OnChip(rows[i], event, chip);
    }
  }

  /**
   A replacement that has run its two deactivations, anywhere among the statements of other assignments, has its
   insert refused exactly when an accepted insert of another naming its bib or its chip still stands.
   */
  lemma ReplacementIsRefusedExactlyWhen(rows: seq<Mapping>, log: seq<Statement>, event: EventId, bib: Bib, chip: Chip)
    requires DeactivateBib(event, bib) in log && DeactivateChip(event, chip) in log
    ensures Refused(ExecuteAll(rows, log), event, bib, chip) <==>
            exists k: nat, b: Bib, c: Chip :: (b == bib || c == chip) && StandingInsert(rows, log, k, event, b, c)
  {
    InsertIsRefusedExactlyWhen(rows, log, event, bib, chip);
    var d, e :| 0 <= d < |log| && 0 <= e < |log|
                && log[d] == DeactivateBib(event, bib) && log[e] == DeactivateChip(event, chip);
    forall b: Bib, c: Chip | b == bib || c == chip ensures !KeptFrom(log, 0, event, b, c) {
      assert TurnsOff(log[d], event, b, c) || TurnsOff(log[e], event, b, c);
    }
  }

  /**
   After any statements an insert is refused exactly when an accepted insert naming its bib or its chip stands, or a
   row that was active before does and has not been turned off.
   */
  lemma InsertIsRefusedExactlyWhen(rows: seq<Mapping>, log: seq<Statement>, event: EventId, bib: Bib, chip: Chip)
    ensures Refused(ExecuteAll(rows, log), event, bib, chip) <==>
            || (exists k: nat, b: Bib, c: Chip :: (b == bib || c == chip) && StandingInsert(rows, log, k, event, b, c))
            || (exists b: Bib, c: Chip :: (b == bib || c == chip) && Linked(rows, event, b, c)
                                          && KeptFrom(log, 0, event, b, c))
  {
    var after := ExecuteAll(rows, log);
    RefusedByPair(after, event, bib, chip);
    if Refused(after, event, bib, chip) {
      var b: Bib, c: Chip :| (b == bib || c == chip) && Linked(after, event, b, c);
      LinkedAfterExactlyWhen(rows, log, event, b, c);
    }
    forall b: Bib, c: Chip | b == bib || c == chip
      ensures Linked(rows, event, b, c) && KeptFrom(log, 0, event, b, c) ==> Linked(after, event, b, c)
    {
      LinkedAfterExactlyWhen(rows, log, event, b, c);
    }
    forall k: nat, b: Bib, c: Chip | (b == bib || c == chip) && StandingInsert(rows, log, k, event, b, c)
      ensures Linked(after, event, b, c)
    {
      LinkedAfterExactlyWhen(rows, log, event, b, c);
    }
  }

  /**
   Two interleaved replacements of one bib: the second to insert is refused, although it had deactivated
   everything it found, and its pair is lost.
   */
  lemma InterleavedReplacementIsRefused(rows: seq<Mapping>, event: EventId, bib: Bib, first: Chip, second: Chip)
    requires Indexed(rows) && first != second
    ensures var after := ExecuteAll(rows, [DeactivateBib(event, bib), DeactivateChip(event, first),
                                           DeactivateBib(event, bib), DeactivateChip(event, second),
                                           Insert(event, bib, first), Insert(event, bib, second)]);
            bib in ChipOf(after, event) && ChipOf(after, event)[bib] == first
  {
    var freed := WithoutChip(WithoutBib(rows, event, bib), event, first);
    var again := WithoutChip(WithoutBib(freed, event, bib), event, second);
    FreedRows(rows, event, bib, first);
    FreedRows(freed, event, bib, second);
    assert !Refused(again, event, bib, first) by {
      RefusedExactlyWhen(freed, event, bib, first);
      RefusedExactlyWhen(again, event, bib, first);
    }
    var after := again + [Mapping(event, bib, first, true, ACTIVE)];
    assert OnBib(after[|again|], event, bib);
    var log := [DeactivateBib(event, bib), DeactivateChip(event, first), DeactivateBib(event, bib),
                DeactivateChip(event, second), Insert(event, bib, first), Insert(event, bib, second)];
    ExecuteSix(rows, log);
    assert ExecuteAll(rows, log) == after;
    StatementKeepsIndexed(again, Insert(event, bib, first));
    LinkedByRow(after, event, |again|);
    ChipOfReadsRows(after, event, bib, first);
  }

  lemma ExecuteSix(rows: seq<Mapping>, log: seq<Statement>)
    requires |log| == 6
    ensures ExecuteAll(rows, log) ==
            Execute(Execute(Execute(Execute(Execute(Execute(rows, log[0]), log[1]), log[2]), log[3]), log[4]), log[5])
  {
    var r1 := Execute(rows, log[0]);
    var r2 := Execute(r1, log[1]);
    var r3 := Execute(r2, log[2]);
    var r4 := Execute(r3, log[3]);
    var r5 := Execute(r4, log[4]);
    assert log[1..][1..] == log[2..] && log[2..][1..] == log[3..];
    assert log[3..][1..] == log[4..] && log[4..][1..] == log[5..];
    assert ExecuteAll(r5, log[5..]) == Execute(r5, log[5]);
    assert ExecuteAll(r4, log[4..]) == ExecuteAll(r5, log[5..]);
    assert ExecuteAll(r3, log[3..]) == ExecuteAll(r4, log[4..]);
    assert ExecuteAll(r2, log[2..]) == ExecuteAll(r3, log[3..]);
    assert ExecuteAll(r1, log[1..]) == ExecuteAll(r2, log[2..]);
  }

  // ---------------------------------------------------------------------------------------------
  // The table
  // ---------------------------------------------------------------------------------------------

  class MappingTable {
    var rows: seq<Mapping>

    constructor ()
      ensures rows == []
    {
      rows := [];
    }

    method DeactivateBibMappings(event: EventId, bib: Bib)
      modifies this
      ensures rows == WithoutBib(old(rows), event, bib)
    {
      for i := 0 to |rows|
        invariant |rows| == |old(rows)|
        invariant forall j :: 0 <= j < i ==> rows[j] == WithoutBib(old(rows), event, bib)[j]
        invariant forall j :: i <= j < |rows| ==> rows[j] == old(rows)[j]
      {
        if OnBib(rows[i], event, bib) {
          rows := rows[i := Off(rows[i])];
        }
      }
    }

    method DeactivateChipMappings(event: EventId, chip: Chip)
      modifies this
      ensures rows == WithoutChip(old(rows), event, chip)
    {
      for i := 0 to |rows|
        invariant |rows| == |old(rows)|
        invariant forall j :: 0 <= j < i ==> rows[j] == WithoutChip(old(rows), event, chip)[j]
        invariant forall j :: i <= j < |rows| ==> rows[j] == old(rows)[j]
      {
        if OnChip(rows[i], event, chip) {
          rows := rows[i := Off(rows[i])];
        }
      }
    }

    method InsertMapping(event: EventId, bib: Bib, chip: Chip) returns (ok: bool)
      modifies this
      ensures ok <==> !Refused(old(rows), event, bib, chip)
      ensures rows == Inserted(old(rows), event, bib, chip)
    {
      for i := 0 to |rows|
        invariant forall j :: 0 <= j < i ==> !OnBib(rows[j], event, bib) && !OnChip(rows[j], event, chip)
      {
        if OnBib(rows[i], event, bib) || OnChip(rows[i], event, chip) {
          return false;
        }
      }
      rows := rows + [Mapping(event, bib, chip, true, ACTIVE)];
      ok := true;
    }

    /** One assignment; with replacement it cannot fail. */
    method AssignMapping(event: EventId, bib: Bib, chip: Chip, replaceOld: bool) returns (ok: bool)
      requires Indexed(rows)
      modifies this
      ensures Indexed(rows) && rows == AssignRows(old(rows), event, bib, chip, replaceOld)
      ensures ChipOf(rows, event) == Assigned(ChipOf(old(rows), event), bib, chip, replaceOld)
      ensures ok <==> replaceOld || (bib !in ChipOf(old(rows), event) && chip !in ChipOf(old(rows), event).Values)
    {
      AssignMeans(rows, event, bib, chip, replaceOld);
      RefusedExactlyWhen(rows, event, bib, chip);
      if replaceOld {
        FreedRows(rows, event, bib, chip);
        DeactivateBibMappings(event, bib);
        DeactivateChipMappings(event, chip);
      }
      ok := InsertMapping(event, bib, chip);
    }

    method GetActiveMappingByBib(event: EventId, bib: Bib) returns (chip: Option<Chip>)
      requires Indexed(rows)
      ensures chip == if bib in ChipOf(rows, event) then Some(ChipOf(rows, event)[bib]) else None
    {
      for i := 0 to |rows|
        invariant forall j :: 0 <= j < i ==> !OnBib(rows[j], event, bib)
      {
        if OnBib(rows[i], event, bib) {
          LinkedByRow(rows, event, i);
          ChipOfReadsRows(rows, event, bib, rows[i].chip);
          return Some(rows[i].chip);
        }
      }
      if bib in ChipOf(rows, event) {
        ChipOfReadsRows(rows, event, bib, ChipOf(rows, event)[bib]);
      }
      return None;
    }

    method GetActiveMappingByChip(event: EventId, chip: Chip) returns (bib: Option<Bib>)
      requires Indexed(rows)
      ensures bib.Some? ==> bib.value in ChipOf(rows, event) && ChipOf(rows, event)[bib.value] == chip
      ensures bib.None? ==> chip !in ChipOf(rows, event).Values
    {
      for i := 0 to |rows|
        invariant forall j :: 0 <= j < i ==> !OnChip(rows[j], event, chip)
      {
        if OnChip(rows[i], event, chip) {
          LinkedByRow(rows, event, i);
          ChipOfReadsRows(rows, event, rows[i].bib, chip);
          return Some(rows[i].bib);
        }
      }
      NoBibOfChip(rows, event, chip);
      return None;
    }
  }

  lemma NoBibOfChip(rows: seq<Mapping>, event: EventId, chip: Chip)
    requires Indexed(rows) && forall j :: 0 <= j < |rows| ==> !OnChip(rows[j], event, chip)
    ensures chip !in ChipOf(rows, event).Values
  {
    var m := ChipOf(rows, event);
    forall b | b in m ensures m[b] != chip {
      ChipOfReadsRows(rows, event, b, m[b]);
      var i :| 0 <= i < |rows| && OnBib(rows[i], event, b) && rows[i].chip == m[b];
      assert !OnChip(rows[i], event, chip);
    }
  }
}
