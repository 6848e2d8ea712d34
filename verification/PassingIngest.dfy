/**
 Timing passings: deduplicated ingestion, then rounds that list some unprocessed passings and mark the
 ones that could be attributed to a bib.
 */
module PassingIngest {
  import opened Common

  // ---------------------------------------------------------------------------------------------
  // Ingestion
  // ---------------------------------------------------------------------------------------------

  datatype Observation = Observation(
    event: nat,
    provider: nat,
    externalReadId: Option<nat>,
    chip: nat,
    checkpoint: nat,
    observedAt: int,
    bib: Option<nat>)

  /** The two unique indexes: by the provider's read identifier, or by what was seen where and when. */
  datatype DedupeKey =
    | External(event: nat, provider: nat, readId: nat)
    | Fallback(event: nat, provider: nat, chip: nat, checkpoint: nat, observedAt: int)

  function KeyOf(o: Observation): DedupeKey {
    match o.externalReadId
    case Some(id) => External(o.event, o.provider, id)
    case None => Fallback(o.event, o.provider, o.chip, o.checkpoint, o.observedAt)
  }

  predicate Seen(stream: seq<Observation>, k: DedupeKey) {
    exists i :: 0 <= i < |stream| && KeyOf(stream[i]) == k
  }

  /** The first occurrence of each dedupe key, in order of arrival. */
  function FirstOccurrences(stream: seq<Observation>): seq<Observation> {
    if stream == [] then []
    else
      var front, last := stream[..|stream| - 1], stream[|stream| - 1];
      FirstOccurrences(front) + if Seen(front, KeyOf(last)) then [] else [last]
  }

  /** A stored passing is an observation that no earlier one of its key preceded. */
  ghost predicate FirstAt(stream: seq<Observation>, i: int) {
    0 <= i < |stream| && !Seen(stream[..i], KeyOf(stream[i]))
  }

  /** Nothing with a new key is dropped, and no key is kept twice. */
  lemma {:induction false} KeptKeys(stream: seq<Observation>, k: DedupeKey)
    ensures Seen(FirstOccurrences(stream), k) <==> Seen(stream, k)
  {
    if stream != [] {
      var front, last := stream[..|stream| - 1], stream[|stream| - 1];
      KeptKeys(front, k);
      SeenInFront(stream, k);
      var kept := FirstOccurrences(front);
      if Seen(front, KeyOf(last)) {
        assert FirstOccurrences(stream) == kept;
      } else {
        assert FirstOccurrences(stream) == kept + [last];
        SeenInFront(kept + [last], k);
        assert (kept + [last])[..|kept|] == kept;
      }
    }
  }

  lemma {:induction false} KeptOnce(stream: seq<Observation>)
    ensures forall i, j :: 0 <= i < j < |FirstOccurrences(stream)| ==>
                             KeyOf(FirstOccurrences(stream)[i]) != KeyOf(FirstOccurrences(stream)[j])
  {
    if stream != [] {
      var front, last := stream[..|stream| - 1], stream[|stream| - 1];
      KeptOnce(front);
      KeptKeys(front, KeyOf(last));
    }
  }

  /** What is kept is exactly the observations that no earlier one of their key preceded. */
  lemma {:induction false} KeptAreFirst(stream: seq<Observation>, o: Observation)
    ensures o in FirstOccurrences(stream) <==> exists i :: FirstAt(stream, i) && stream[i] == o
  {
    if stream != [] {
      var n := |stream| - 1;
      var front, last := stream[..n], stream[n];
      KeptAreFirst(front, o);
      forall i | 0 <= i < n ensures FirstAt(stream, i) <==> FirstAt(front, i) {
        assert stream[..i] == front[..i];
      }
      assert FirstAt(stream, n) <==> !Seen(front, KeyOf(last));
      if o in FirstOccurrences(front) {
        var i :| FirstAt(front, i) && front[i] == o;
        assert FirstAt(stream, i);
      }
      if i :| FirstAt(stream, i) && stream[i] == o {
        if i < n {
          assert FirstAt(front, i);
        }
      }
    }
  }

  lemma SeenInFront(stream: seq<Observation>, k: DedupeKey)
    requires stream != []
    ensures Seen(stream, k) <==> Seen(stream[..|stream| - 1], k) || KeyOf(stream[|stream| - 1]) == k
  {
    var n := |stream| - 1;
    if i :| 0 <= i < |stream| && KeyOf(stream[i]) == k {
      if i < n {
        assert stream[..n][i] == stream[i];
      }
    }
  }

  /** What ingesting a batch on top of stored passings stores. */
  function Ingested(stored: seq<Observation>, batch: seq<Observation>): seq<Observation>
    decreases batch
  {
    if batch == [] then stored
    else Ingested(if Seen(stored, KeyOf(batch[0])) then stored else stored + [batch[0]], batch[1..])
  }

  /** However a stream is cut into batches, what is stored is its first occurrences. */
  lemma {:induction false} BatchesDoNotMatter(before: seq<Observation>, batch: seq<Observation>)
    ensures Ingested(FirstOccurrences(before), batch) == FirstOccurrences(before + batch)
    decreases batch
  {
    if batch == [] {
      assert before + batch == before;
    } else {
      var next := before + [batch[0]];
      OneMoreIngested(before, batch[0]);
      assert Ingested(FirstOccurrences(before), batch) == Ingested(FirstOccurrences(next), batch[1..]);
      BatchesDoNotMatter(next, batch[1..]);
      HeadMovesOver(before, batch);
    }
  }

  lemma HeadMovesOver(before: seq<Observation>, batch: seq<Observation>)
    requires batch != []
    ensures before + batch == before + [batch[0]] + batch[1..]
  {
  }

  lemma OneMoreIngested(before: seq<Observation>, o: Observation)
    ensures FirstOccurrences(before + [o]) ==
            if Seen(FirstOccurrences(before), KeyOf(o)) then FirstOccurrences(before)
            else FirstOccurrences(before) + [o]
  {
    KeptKeys(before, KeyOf(o));
    assert (before + [o])[..|before|] == before;
  }

  /** Ingesting again anything whose keys have been seen changes nothing. */
  lemma {:induction false} ReingestingChangesNothing(before: seq<Observation>, again: seq<Observation>)
    requires forall o :: o in again ==> Seen(before, KeyOf(o))
    ensures Ingested(FirstOccurrences(before), again) == FirstOccurrences(before)
    decreases again
  {
    if again != [] {
      assert again[0] in again;
      KeptKeys(before, KeyOf(again[0]));
      ReingestingChangesNothing(before, again[1..]);
    }
  }

  lemma IngestNext(stored: seq<Observation>, batch: seq<Observation>, i: nat)
    requires i < |batch|
    ensures Ingested(stored, batch[i..]) ==
            Ingested(if Seen(stored, KeyOf(batch[i])) then stored else stored + [batch[i]], batch[i + 1..])
  {
    assert batch[i..][0] == batch[i] && batch[i..][1..] == batch[i + 1..];
  }

  datatype Passing = Passing(id: nat, observation: Observation)

  function Observations(rows: seq<Passing>): seq<Observation> {
    seq(|rows|, i requires 0 <= i < |rows| => rows[i].observation)
  }

  /** The timing_passings table. */
  class PassingTable {
    var rows: seq<Passing>
    var serial: nat

    constructor ()
      ensures rows == [] && Valid()
    {
      rows := [];
      serial := 0;
    }

    /** Identifiers come from a sequence that a refused insert also advances. */
    ghost predicate Valid()
      reads this
    {
      && (forall i :: 0 <= i < |rows| ==> rows[i].id < serial)
      && (forall i, j :: 0 <= i < j < |rows| ==> rows[i].id < rows[j].id)
    }

    /** An insert that does nothing when the dedupe key is taken. */
    method Insert(o: Observation) returns (inserted: bool)
      requires Valid()
      modifies this
      ensures Valid()
      ensures inserted <==> !Seen(Observations(old(rows)), KeyOf(o))
      ensures rows == if inserted then old(rows) + [Passing(old(serial), o)] else old(rows)
    {
      var id := serial;
      serial := serial + 1;
      for i := 0 to |rows|
        invariant forall j :: 0 <= j < i ==> KeyOf(Observations(rows)[j]) != KeyOf(o)
      {
        if KeyOf(rows[i].observation) == KeyOf(o) {
          assert KeyOf(Observations(rows)[i]) == KeyOf(o);
          return false;
        }
      }
      rows := rows + [Passing(id, o)];
      inserted := true;
    }

    /** Ingests a batch and reports how many passings were new. */
    method IngestPassings(batch: seq<Observation>) returns (ingested: nat)
      requires Valid()
      modifies this
      ensures Valid() && old(rows) <= rows
      ensures Observations(rows) == Ingested(Observations(old(rows)), batch)
      ensures ingested == |rows| - |old(rows)|
    {
      ingested := 0;
      for i := 0 to |batch|
        invariant Valid() && old(rows) <= rows
        invariant Ingested(Observations(rows), batch[i..]) == Ingested(Observations(old(rows)), batch)
        invariant ingested == |rows| - |old(rows)|
      {
        ghost var before := rows;
        IngestNext(Observations(before), batch, i);
        var inserted := Insert(batch[i]);
        if inserted {
          ingested := ingested + 1;
          assert Observations(rows) == Observations(before) + [batch[i]];
        }
      }
    }
  }

  // ---------------------------------------------------------------------------------------------
  // Rounds
  // ---------------------------------------------------------------------------------------------

  type Id = nat

  /** The unprocessed passings, in the order they are listed in. */
  function Unprocessed(order: seq<Id>, done: set<Id>): seq<Id> {
    if order == [] then []
    else Unprocessed(order[..|order| - 1], done)
         + if order[|order| - 1] in done then [] else [order[|order| - 1]]
  }

  function Listing(order: seq<Id>, done: set<Id>, limit: nat): seq<Id> {
    var todo := Unprocessed(order, done);
    if limit < |todo| then todo[..limit] else todo
  }

  /** One round: what is listed and can be attributed to a bib is marked. */
  function Round(order: seq<Id>, done: set<Id>, limit: nat, resolvable: set<Id>): set<Id> {
    done + set x | x in Listing(order, done, limit) && x in resolvable
  }

  function AfterRounds(order: seq<Id>, done: set<Id>, limit: nat, resolvable: set<Id>, n: nat): set<Id>
    decreases n
  {
    if n == 0 then done else AfterRounds(order, Round(order, done, limit, resolvable), limit, resolvable, n - 1)
  }

  /** Lists up to `limit` unprocessed passings and marks the resolvable ones. */
  method ProcessRound(order: seq<Id>, done: set<Id>, limit: nat, resolvable: set<Id>)
    returns (listed: seq<Id>, done': set<Id>)
    ensures listed == Listing(order, done, limit)
    ensures done' == Round(order, done, limit, resolvable)
  {
    listed := [];
    for i := 0 to |order|
      invariant listed == Listing(order[..i], done, limit)
    {
      assert order[..i + 1][..i] == order[..i];
      if |listed| < limit && order[i] !in done {
        listed := listed + [order[i]];
      }
    }
    assert order[..|order|] == order;
    done' := done;
    for i := 0 to |listed|
      invariant done' == done + set x | x in listed[..i] && x in resolvable
    {
      if listed[i] in resolvable {
        done' := done' + {listed[i]};
      }
    }
    assert listed[..|listed|] == listed;
  }

  lemma {:induction false} UnprocessedSplits(a: seq<Id>, b: seq<Id>, done: set<Id>)
    ensures Unprocessed(a + b, done) == Unprocessed(a, done) + Unprocessed(b, done)
  {
    if b == [] {
      assert a + b == a;
    } else {
      var n := |b| - 1;
      UnprocessedSplits(a, b[..n], done);
      assert (a + b)[..|a| + n] == a + b[..n];
    }
  }

  lemma {:induction false} UnprocessedElements(order: seq<Id>, done: set<Id>, x: Id)
    ensures x in Unprocessed(order, done) <==> x in order && x !in done
  {
    if order != [] {
      UnprocessedElements(order[..|order| - 1], done, x);
    }
  }

  lemma UnprocessedAround(order: seq<Id>, done: set<Id>, i: nat)
    requires i < |order| && order[i] !in done
    ensures Unprocessed(order, done) ==
            Unprocessed(order[..i], done) + [order[i]] + Unprocessed(order[i + 1..], done)
  {
    var before, x, after := order[..i], order[i], order[i + 1..];
    UnprocessedSplits(before, [x], done);
    UnprocessedSplits(before + [x], after, done);
    assert [x][..0] == [];
    assert Unprocessed([x], done) == [x];
    assert order == before + [x] + after;
  }

  /** A passing is listed exactly when it is unprocessed and fewer than `limit` unprocessed ones come before it. */
  lemma ListedExactlyWhen(order: seq<Id>, done: set<Id>, limit: nat, i: nat)
    requires Distinct(order) && i < |order|
    ensures order[i] in Listing(order, done, limit) <==>
            order[i] !in done && |Unprocessed(order[..i], done)| < limit
  {
    var x, todo := order[i], Unprocessed(order, done);
    var p := Unprocessed(order[..i], done);
    UnprocessedElements(order, done, x);
    if x !in done {
      UnprocessedElements(order[..i], done, x);
      UnprocessedAround(order, done, i);
      if |p| < limit {
        assert Listing(order, done, limit)[|p|] == x;
      } else {
        assert todo[..|p|] == p;
        assert Listing(order, done, limit) == p[..limit];
      }
    }
  }

  /** The passings nobody can be credited with, before position `i`. */
  function Stuck(order: seq<Id>, resolvable: set<Id>): seq<Id> {
    Unprocessed(order, resolvable)
  }

  lemma {:induction false} StuckStayUnprocessed(order: seq<Id>, done: set<Id>, resolvable: set<Id>)
    requires done <= resolvable
    ensures |Unprocessed(order, done)| >= |Stuck(order, resolvable)|
    ensures (forall x :: x in order && x in resolvable ==> x in done) ==>
              Unprocessed(order, done) == Stuck(order, resolvable)
  {
    if order != [] {
      StuckStayUnprocessed(order[..|order| - 1], done, resolvable);
    }
  }

  lemma {:induction false} RoundsMarkResolvable(order: seq<Id>, done: set<Id>, limit: nat, resolvable: set<Id>, n: nat)
    requires done <= resolvable
    ensures done <= AfterRounds(order, done, limit, resolvable, n) <= resolvable
    decreases n
  {
    if n > 0 {
      RoundsMarkResolvable(order, Round(order, done, limit, resolvable), limit, resolvable, n - 1);
    }
  }

  /** A passing with `limit` stuck ones before it is never listed, however many rounds are run. */
  lemma {:induction false} NeverProcessed(
    order: seq<Id>, done: set<Id>, limit: nat, resolvable: set<Id>, i: nat, n: nat)
    requires Distinct(order) && i < |order| && done <= resolvable && order[i] !in done
    requires |Stuck(order[..i], resolvable)| >= limit
    ensures order[i] !in AfterRounds(order, done, limit, resolvable, n)
    decreases n
  {
    if n > 0 {
      StuckStayUnprocessed(order[..i], done, resolvable);
      ListedExactlyWhen(order, done, limit, i);
      NeverProcessed(order, Round(order, done, limit, resolvable), limit, resolvable, i, n - 1);
    }
  }

  /** Resolvable passings still to be marked among the given ones. */
  function Waiting(order: seq<Id>, done: set<Id>, resolvable: set<Id>): set<Id> {
    set x | x in order && x in resolvable && x !in done
  }

  /** The earliest waiting passing of a prefix. */
  lemma {:induction false} EarliestWaiting(order: seq<Id>, done: set<Id>, resolvable: set<Id>) returns (j: nat)
    requires Waiting(order, done, resolvable) != {}
    ensures j < |order| && order[j] in Waiting(order, done, resolvable)
    ensures Waiting(order[..j], done, resolvable) == {}
  {
    var n := |order| - 1;
    if Waiting(order[..n], done, resolvable) == {} {
      j := n;
      forall x | x in Waiting(order, done, resolvable) ensures x in Waiting(order[..n], done, resolvable) + {order[n]} {
        assert x in order[..n] || x == order[n];
      }
      var x :| x in Waiting(order, done, resolvable);
    } else {
      j := EarliestWaiting(order[..n], done, resolvable);
      assert order[..n][..j] == order[..j];
      assert order[j] in order[..n];
    }
  }

  lemma {:induction false} StuckGrows(order: seq<Id>, resolvable: set<Id>, j: nat, i: nat)
    requires j <= i <= |order|
    ensures |Stuck(order[..j], resolvable)| <= |Stuck(order[..i], resolvable)|
  {
    UnprocessedSplits(order[..j], order[j..i], resolvable);
    assert order[..j] + order[j..i] == order[..i];
  }

  /** Each round marks at least one more of the waiting passings up to position `i`. */
  lemma RoundAdvances(order: seq<Id>, done: set<Id>, limit: nat, resolvable: set<Id>, i: nat)
    requires Distinct(order) && i < |order| && done <= resolvable
    requires |Stuck(order[..i], resolvable)| < limit
    requires Waiting(order[..i + 1], done, resolvable) != {}
    ensures |Waiting(order[..i + 1], Round(order, done, limit, resolvable), resolvable)| <
            |Waiting(order[..i + 1], done, resolvable)|
  {
    var prefix := order[..i + 1];
    var j := EarliestWaiting(prefix, done, resolvable);
    assert prefix[..j] == order[..j];
    StuckStayUnprocessed(order[..j], done, resolvable);
    forall x | x in order[..j] && x in resolvable ensures x in done {
      assert x !in Waiting(order[..j], done, resolvable);
    }
    StuckGrows(order, resolvable, j, i);
    ListedExactlyWhen(order, done, limit, j);
    var next := Round(order, done, limit, resolvable);
    assert order[j] in next;
    SubsetCardinality(Waiting(prefix, next, resolvable) + {order[j]}, Waiting(prefix, done, resolvable));
  }

  lemma {:induction false} ProcessedInTime(
    order: seq<Id>, done: set<Id>, limit: nat, resolvable: set<Id>, i: nat, n: nat)
    requires Distinct(order) && i < |order| && done <= resolvable && order[i] in resolvable
    requires |Stuck(order[..i], resolvable)| < limit
    requires |Waiting(order[..i + 1], done, resolvable)| <= n
    ensures order[i] in AfterRounds(order, done, limit, resolvable, n)
    decreases n
  {
    var prefix := order[..i + 1];
    assert order[i] in prefix;
    if order[i] in done {
      RoundsMarkResolvable(order, done, limit, resolvable, n);
    } else {
      assert order[i] in Waiting(prefix, done, resolvable);
      RoundAdvances(order, done, limit, resolvable, i);
      ProcessedInTime(order, Round(order, done, limit, resolvable), limit, resolvable, i, n - 1);
    }
  }

  /**
   A resolvable passing is eventually processed exactly when fewer than `limit` passings that resolve to
   nobody stand before it; it then takes at most one round per resolvable passing up to it.
   */
  lemma EventuallyProcessedExactlyWhen(order: seq<Id>, limit: nat, resolvable: set<Id>, i: nat)
    requires Distinct(order) && i < |order| && order[i] in resolvable
    ensures (exists n: nat :: order[i] in AfterRounds(order, {}, limit, resolvable, n)) <==>
            |Stuck(order[..i], resolvable)| < limit
  {
    if |Stuck(order[..i], resolvable)| < limit {
      var n := |Waiting(order[..i + 1], {}, resolvable)|;
      ProcessedInTime(order, {}, limit, resolvable, i, n);
    } else {
      forall n: nat ensures order[i] !in AfterRounds(order, {}, limit, resolvable, n) {
        NeverProcessed(order, {}, limit, resolvable, i, n);
      }
    }
  }

  // ---------------------------------------------------------------------------------------------
  // When every passing resolves
  // ---------------------------------------------------------------------------------------------

  lemma UnprocessedAfterPrefix(order: seq<Id>, k: nat)
    requires Distinct(order) && k <= |order|
    ensures Unprocessed(order, Elements(order[..k])) == order[k..]
  {
    var before, after := order[..k], order[k..];
    var done := Elements(before);
    forall i | 0 <= i < |after| ensures after[i] !in done {
      NotBefore(order, k, i);
    }
    forall i | 0 <= i < |before| ensures before[i] in done {
    }
    UnprocessedOfTwo(before, after, done);
    assert order == before + after;
  }

  lemma UnprocessedOfTwo(before: seq<Id>, after: seq<Id>, done: set<Id>)
    requires forall i :: 0 <= i < |before| ==> before[i] in done
    requires forall i :: 0 <= i < |after| ==> after[i] !in done
    ensures Unprocessed(before + after, done) == after
  {
    NothingUnprocessed(before, done);
    AllUnprocessed(after, done);
    UnprocessedSplits(before, after, done);
  }

  lemma NotBefore(order: seq<Id>, k: nat, i: nat)
    requires Distinct(order) && k + i < |order|
    ensures order[k..][i] !in Elements(order[..k])
  {
    forall j | 0 <= j < k ensures order[..k][j] != order[k + i] {
      assert order[..k][j] == order[j];
    }
  }

  lemma {:induction false} NothingUnprocessed(order: seq<Id>, done: set<Id>)
    requires forall i :: 0 <= i < |order| ==> order[i] in done
    ensures Unprocessed(order, done) == []
  {
    if order != [] {
      NothingUnprocessed(order[..|order| - 1], done);
    }
  }

  lemma {:induction false} AllUnprocessed(order: seq<Id>, done: set<Id>)
    requires forall i :: 0 <= i < |order| ==> order[i] !in done
    ensures Unprocessed(order, done) == order
  {
    if order != [] {
      AllUnprocessed(order[..|order| - 1], done);
    }
  }

  function Min(a: nat, b: nat): (m: nat)
    ensures m <= a && m <= b
  {
    if a < b then a else b
  }

  /** How many of `total` passings `n` rounds of `limit` cover. */
  function Covered(n: nat, limit: nat, total: nat): (k: nat)
    ensures k <= total
  {
    Min(n * limit, total)
  }

  lemma CoveredStep(n: nat, limit: nat, total: nat)
    ensures Covered(n + 1, limit, total) == Min(Covered(n, limit, total) + limit, total)
    ensures Covered(0, limit, total) == 0
  {
    assert (n + 1) * limit == n * limit + limit;
  }

  lemma ListingAfterPrefix(order: seq<Id>, limit: nat, k: nat)
    requires Distinct(order) && k <= |order|
    ensures Listing(order, Elements(order[..k]), limit) == order[k..Min(k + limit, |order|)]
    ensures Round(order, Elements(order[..k]), limit, Elements(order)) == Elements(order[..Min(k + limit, |order|)])
  {
    UnprocessedAfterPrefix(order, k);
    var m := Min(k + limit, |order|);
    assert order[..m] == order[..k] + order[k..m];
  }

  /**
   With every passing resolvable, round `n` lists just the `n`-th stretch of `limit` passings: each one is
   listed in exactly one round, and all are processed once the stretches cover them.
   */
  lemma {:induction false} RoundsCoverOnce(order: seq<Id>, limit: nat, n: nat)
    requires Distinct(order)
    ensures AfterRounds(order, {}, limit, Elements(order), n) == Elements(order[..Covered(n, limit, |order|)])
    ensures var k := Covered(n, limit, |order|);
            && Listing(order, AfterRounds(order, {}, limit, Elements(order), n), limit) ==
               order[k..Min(k + limit, |order|)]
            && Covered(n + 1, limit, |order|) == Min(k + limit, |order|)
  {
    CoveredStep(n, limit, |order|);
    ListingAfterPrefix(order, limit, Covered(n, limit, |order|));
    if n == 0 {
      assert Elements(order[..0]) == {};
    } else {
      RoundsCoverOnce(order, limit, n - 1);
      RoundsCompose(order, {}, limit, Elements(order), n - 1);
      CoveredStep(n - 1, limit, |order|);
      ListingAfterPrefix(order, limit, Covered(n - 1, limit, |order|));
    }
  }

  lemma {:induction false} RoundsCompose(order: seq<Id>, done: set<Id>, limit: nat, resolvable: set<Id>, n: nat)
    ensures AfterRounds(order, done, limit, resolvable, n + 1) ==
            Round(order, AfterRounds(order, done, limit, resolvable, n), limit, resolvable)
    decreases n
  {
    if n > 0 {
      RoundsCompose(order, Round(order, done, limit, resolvable), limit, resolvable, n - 1);
    }
  }
}
