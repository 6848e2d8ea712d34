/**
 A waitlist: positions are counted by rank, promotion walks over the first entries in rank order.
 */
module Waitlist {
  import opened Common

  type EntryId = nat

  datatype EntryStatus = WAITING | PROMOTED | EXPIRED | WITHDRAWN

  datatype Entry = Entry(rank: int, status: EntryStatus)

  type Entries = map<EntryId, Entry>

  function WaitingIds(entries: Entries): set<EntryId> {
    set e | e in entries && entries[e].status == WAITING
  }

  /** The WAITING entries with a smaller rank. */
  function AheadOf(entries: Entries, e: EntryId): set<EntryId>
    requires e in entries
  {
    set f | f in entries && entries[f].status == WAITING && entries[f].rank < entries[e].rank
  }

  /** The position shown to a participant: a count. */
  function Position(entries: Entries, e: EntryId): nat
    requires e in entries
  {
    |AheadOf(entries, e)|
  }

  /** Some WAITING entries in rank order, each once. */
  ghost predicate Ordered(entries: Entries, s: seq<EntryId>) {
    && Distinct(s)
    && (forall i :: 0 <= i < |s| ==> s[i] in WaitingIds(entries))
    && (forall i, j :: 0 <= i < j < |s| ==>
                         s[i] in entries && s[j] in entries && entries[s[i]].rank <= entries[s[j]].rank)
  }

  /** All WAITING entries in rank order. */
  ghost predicate FullListing(entries: Entries, s: seq<EntryId>) {
    Ordered(entries, s) && Elements(s) == WaitingIds(entries)
  }

  /** The first entries of a listing: nobody left out has a smaller rank. */
  ghost predicate FirstListed(entries: Entries, s: seq<EntryId>) {
    && Ordered(entries, s)
    && forall i, e :: 0 <= i < |s| && e in WaitingIds(entries) && e !in s ==> entries[s[i]].rank <= entries[e].rank
  }

  ghost predicate DistinctRanks(entries: Entries) {
    forall e, f :: e in WaitingIds(entries) && f in WaitingIds(entries) && e != f ==> entries[e].rank != entries[f].rank
  }

  // ---------------------------------------------------------------------------------------------
  // Positions
  // ---------------------------------------------------------------------------------------------

  /** The first place in a listing that holds the same rank. */
  ghost predicate FirstOfRank(entries: Entries, s: seq<EntryId>, k: nat, i: nat)
    requires FullListing(entries, s)
  {
    && k <= i < |s| && entries[s[k]].rank == entries[s[i]].rank
    && forall j :: 0 <= j < k ==> entries[s[j]].rank < entries[s[i]].rank
  }

  /** A position is the index of the first entry of the same rank. */
  lemma PositionIsFirstOfRank(entries: Entries, s: seq<EntryId>, k: nat, i: nat)
    requires FullListing(entries, s) && FirstOfRank(entries, s, k, i)
    ensures Position(entries, s[i]) == k
  {
    var ahead := AheadOf(entries, s[i]);
    forall j | k <= j < |s| ensures entries[s[j]].rank >= entries[s[i]].rank {
      assert j > k ==> entries[s[k]].rank <= entries[s[j]].rank;
    }
    forall e | e in ahead ensures e in Elements(s[..k]) {
      assert e in Elements(s);
      var j :| 0 <= j < |s| && s[j] == e;
      assert s[..k][j] == e;
    }
    forall e | e in Elements(s[..k]) ensures e in ahead {
      var j :| 0 <= j < k && s[..k][j] == e;
      assert s[j] == e;
    }
    assert ahead == Elements(s[..k]);
    DistinctCardinality(s[..k]);
  }

  lemma {:induction false} SomeFirstOfRank(entries: Entries, s: seq<EntryId>, i: nat, j: nat) returns (k: nat)
    requires FullListing(entries, s) && j <= i < |s| && entries[s[j]].rank == entries[s[i]].rank
    ensures FirstOfRank(entries, s, k, i) && k <= j
    decreases j
  {
    if j > 0 && entries[s[j - 1]].rank == entries[s[i]].rank {
      k := SomeFirstOfRank(entries, s, i, j - 1);
    } else {
      k := j;
      forall m | 0 <= m < j ensures entries[s[m]].rank < entries[s[i]].rank {
        assert m < j - 1 ==> entries[s[m]].rank <= entries[s[j - 1]].rank;
      }
    }
  }

  lemma EqualRanksShareAPosition(entries: Entries, e: EntryId, f: EntryId)
    requires e in entries && f in entries
    ensures entries[e].rank == entries[f].rank ==> Position(entries, e) == Position(entries, f)
  {
    if entries[e].rank == entries[f].rank {
      assert AheadOf(entries, e) == AheadOf(entries, f);
    }
  }

  /** Positions are list indexes for everybody exactly when no two waiting entries share a rank. */
  lemma PositionIsIndexExactlyWhen(entries: Entries, s: seq<EntryId>)
    requires FullListing(entries, s)
    ensures (forall i :: 0 <= i < |s| ==> Position(entries, s[i]) == i) <==> DistinctRanks(entries)
  {
    if DistinctRanks(entries) {
      forall i | 0 <= i < |s| ensures Position(entries, s[i]) == i {
        var k := SomeFirstOfRank(entries, s, i, i);
        PositionIsFirstOfRank(entries, s, k, i);
        assert s[k] in WaitingIds(entries) && s[i] in WaitingIds(entries);
      }
    }
    if forall i :: 0 <= i < |s| ==> Position(entries, s[i]) == i {
      forall e, f | e in WaitingIds(entries) && f in WaitingIds(entries) && e != f
        ensures entries[e].rank != entries[f].rank
      {
        assert e in Elements(s) && f in Elements(s);
        var i, j :| 0 <= i < |s| && 0 <= j < |s| && s[i] == e && s[j] == f;
        EqualRanksShareAPosition(entries, s[i], s[j]);
      }
    }
  }

  // ---------------------------------------------------------------------------------------------
  // Promotion
  // ---------------------------------------------------------------------------------------------

  function WithStatus(entries: Entries, ids: set<EntryId>, status: EntryStatus): Entries {
    map e | e in entries :: if e in ids then entries[e].(status := status) else entries[e]
  }

  /** Promoting entries moves everybody still waiting up by the number of them that were ahead. */
  lemma PromotionMovesUp(entries: Entries, promoted: set<EntryId>, e: EntryId)
    requires promoted <= WaitingIds(entries) && e in entries && e !in promoted
    ensures var after := WithStatus(entries, promoted, PROMOTED);
            Position(after, e) == Position(entries, e) - |promoted * AheadOf(entries, e)|
  {
    var after := WithStatus(entries, promoted, PROMOTED);
    assert AheadOf(after, e) == AheadOf(entries, e) - promoted;
    assert AheadOf(entries, e) == AheadOf(after, e) + promoted * AheadOf(entries, e);
  }

  /** With distinct ranks, promoting the first `k` of the list moves everybody else up by exactly `k`. */
  lemma PromotingFirstMovesUpByCount(entries: Entries, s: seq<EntryId>, k: nat, i: nat)
    requires FullListing(entries, s) && DistinctRanks(entries) && k <= i < |s|
    ensures var after := WithStatus(entries, Elements(s[..k]), PROMOTED);
            Position(after, s[i]) == Position(entries, s[i]) - k
    ensures FullListing(WithStatus(entries, Elements(s[..k]), PROMOTED), s[k..])
  {
    var first := Elements(s[..k]);
    forall e | e in first ensures e in AheadOf(entries, s[i]) {
      var j :| 0 <= j < k && s[..k][j] == e;
      assert s[j] == e && entries[s[j]].rank <= entries[s[i]].rank;
      assert s[j] != s[i] && s[j] in WaitingIds(entries) && s[i] in WaitingIds(entries);
    }
    assert first * AheadOf(entries, s[i]) == first;
    DistinctCardinality(s[..k]);
    forall j | 0 <= j < k ensures s[..k][j] != s[i] {
      assert s[..k][j] == s[j];
    }
    PromotionMovesUp(entries, first, s[i]);
    RestIsListing(entries, s, k);
  }

  lemma RestIsListing(entries: Entries, s: seq<EntryId>, k: nat)
    requires FullListing(entries, s) && k <= |s|
    ensures FullListing(WithStatus(entries, Elements(s[..k]), PROMOTED), s[k..])
  {
    var first := Elements(s[..k]);
    var after := WithStatus(entries, first, PROMOTED);
    forall i, j | k <= i < |s| && 0 <= j < k ensures s[..k][j] != s[i] {
      assert s[..k][j] == s[j];
    }
    assert Elements(s) == first + Elements(s[k..]) by {
      assert s == s[..k] + s[k..];
    }
    assert WaitingIds(after) == WaitingIds(entries) - first;
    assert Elements(s[k..]) == WaitingIds(after);
  }

  /** What the pool does for one entry: no slot, a slot but no grant, or both. */
  datatype PoolAnswer = EXHAUSTED | GRANT_FAILED | GRANTED

  /** How many entries are tried: promotion stops at the first one without a slot. */
  function Tried(answers: seq<PoolAnswer>): (n: nat)
    ensures n <= |answers|
    ensures forall i :: 0 <= i < n ==> answers[i] != EXHAUSTED
    ensures n < |answers| ==> answers[n] == EXHAUSTED
  {
    if answers == [] || answers[0] == EXHAUSTED then 0 else 1 + Tried(answers[1..])
  }

  function Granted(s: seq<EntryId>, answers: seq<PoolAnswer>, n: nat): set<EntryId>
    requires n <= |s| == |answers|
  {
    set i | 0 <= i < n && answers[i] == GRANTED :: s[i]
  }

  /** The entries a batch promotes. */
  function Promoted(s: seq<EntryId>, answers: seq<PoolAnswer>): set<EntryId>
    requires |s| == |answers|
  {
    Granted(s, answers, Tried(answers))
  }

  /** Everybody ahead of a promoted entry is promoted. */
  ghost predicate NobodyPassedOver(s: seq<EntryId>, promoted: set<EntryId>) {
    forall i, j :: 0 <= i < j < |s| && s[j] in promoted ==> s[i] in promoted
  }

  /** A batch passes nobody over exactly when no grant fails before another one succeeds. */
  lemma NobodyPassedOverExactlyWhen(s: seq<EntryId>, answers: seq<PoolAnswer>)
    requires Distinct(s) && |s| == |answers|
    ensures NobodyPassedOver(s, Promoted(s, answers)) <==>
            !exists i, j :: 0 <= i < j < Tried(answers) && answers[i] == GRANT_FAILED && answers[j] == GRANTED
  {
    var promoted := Promoted(s, answers);
    forall i | 0 <= i < |s| ensures s[i] in promoted <==> i < Tried(answers) && answers[i] == GRANTED {
    }
    if i, j :| 0 <= i < j < Tried(answers) && answers[i] == GRANT_FAILED && answers[j] == GRANTED {
      assert s[j] in promoted && s[i] !in promoted;
    }
  }

  class WaitlistTable {
    var entries: Entries
    var slotsReserved: nat

    constructor (entries: Entries)
      ensures this.entries == entries && slotsReserved == 0
    {
      this.entries := entries;
      slotsReserved := 0;
    }

    /** The first waiting entries in rank order. */
    method ListWaitingEntries(limit: nat) returns (s: seq<EntryId>)
      ensures FirstListed(entries, s)
      ensures |s| == if limit < |WaitingIds(entries)| then limit else |WaitingIds(entries)|
    {
      s := [];
      var left := WaitingIds(entries);
      while |s| < limit && left != {}
        invariant left <= WaitingIds(entries) && Elements(s) == WaitingIds(entries) - left
        invariant FirstListed(entries, s)
        invariant |s| <= limit && |s| + |left| == |WaitingIds(entries)|
        decreases |left|
      {
        var best := LowestRank(left);
        OneMoreListed(entries, s, left, best);
        s := s + [best];
        left := left - {best};
      }
    }

    method LowestRank(ids: set<EntryId>) returns (best: EntryId)
      requires ids != {} && ids <= WaitingIds(entries)
      ensures best in ids && forall e :: e in ids ==> entries[best].rank <= entries[e].rank
    {
      best :| best in ids;
      var left := ids - {best};
      while left != {}
        invariant best in ids && left <= ids
        invariant forall e :: e in ids - left ==> entries[best].rank <= entries[e].rank
        decreases |left|
      {
        var e :| e in left;
        if entries[e].rank < entries[best].rank {
          best := e;
        }
        left := left - {e};
      }
    }

    /**
     One batch of promotions over a listing.  With a pool, a slot is reserved before its grant is created,
     and a failed grant neither returns the slot nor stops the batch; without one everybody is promoted.
     */
    method PromoteBatch(s: seq<EntryId>, hasPool: bool, answers: seq<PoolAnswer>)
      requires Ordered(entries, s) && |s| == |answers|
      modifies this
      ensures entries == WithStatus(old(entries), if hasPool then Promoted(s, answers) else Elements(s), PROMOTED)
      ensures slotsReserved == old(slotsReserved) + if hasPool then Tried(answers) else 0
    {
      ghost var before := entries;
      ghost var effective := if hasPool then answers else seq(|s|, _ => GRANTED);
      ghost var n := Tried(effective);
      for i := 0 to |s|
        invariant i <= n
        invariant entries == WithStatus(before, Granted(s, effective, i), PROMOTED)
        invariant slotsReserved == old(slotsReserved) + if hasPool then i else 0
      {
        OneMoreAnswer(before, s, effective, i);
        if hasPool {
          if answers[i] == EXHAUSTED {
            break;
          }
          slotsReserved := slotsReserved + 1;
          if answers[i] == GRANT_FAILED {
            continue;
          }
        }
        entries := entries[s[i] := entries[s[i]].(status := PROMOTED)];
      }
      if !hasPool {
        assert Granted(s, effective, |s|) == Elements(s);
      }
    }
  }

  lemma OneMoreListed(entries: Entries, s: seq<EntryId>, left: set<EntryId>, best: EntryId)
    requires FirstListed(entries, s) && left <= WaitingIds(entries) && Elements(s) == WaitingIds(entries) - left
    requires best in left && forall e :: e in left ==> entries[best].rank <= entries[e].rank
    ensures FirstListed(entries, s + [best])
    ensures Elements(s + [best]) == WaitingIds(entries) - (left - {best})
  {
    assert best !in Elements(s);
    var more := s + [best];
    assert Elements(more) == Elements(s) + {best};
    forall i | 0 <= i < |s| ensures entries[s[i]].rank <= entries[best].rank {
      assert best in WaitingIds(entries) && best !in s;
    }
    forall i, e | 0 <= i < |more| && e in WaitingIds(entries) && e !in more
      ensures entries[more[i]].rank <= entries[e].rank
    {
      assert e !in Elements(more) && e !in s;
      assert e in left;
    }
  }

  lemma OneMoreAnswer(entries: Entries, s: seq<EntryId>, answers: seq<PoolAnswer>, i: nat)
    requires i < |s| == |answers| && s[i] in entries
    ensures Granted(s, answers, i + 1) == Granted(s, answers, i) + if answers[i] == GRANTED then {s[i]} else {}
    ensures var now := WithStatus(entries, Granted(s, answers, i), PROMOTED);
            WithStatus(entries, Granted(s, answers, i) + {s[i]}, PROMOTED) ==
            now[s[i] := now[s[i]].(status := PROMOTED)]
  {
  }
}
