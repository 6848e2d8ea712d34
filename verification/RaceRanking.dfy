/**
 The ranking passes over an event's race results.

 A pass orders the finished rows of each partition by two keys, the second one nullable with NULLS LAST,
 and writes one rank column.  `Ranking` is the window function as a mathematical count; `ResultTable.Rank`
 is the way it is computed, by sorting and walking, proved equal to the count.
 */
module RaceRanking {
  import opened Common

  type RowId = nat
  type EventId = nat

  /** A nullable text column that partitions rows. */
  type Label = Option<int>

  datatype RaceStatus = FINISHED | DNF | DNS | DSQ

  datatype Result = Result(
    event: EventId,
    status: RaceStatus,
    chipTime: Option<int>,
    gunTime: Option<int>,
    gender: Label,
    category: Label,
    ageGroup: Label,
    rankOverall: Option<nat>,
    rankGender: Option<nat>,
    rankCategory: Option<nat>,
    rankAgeGroup: Option<nat>)

  type Table = map<RowId, Result>

  datatype Pass = OVERALL | OVERALL_BY_CHIP | GENDER | CATEGORY | AGE_GROUP

  // ---------------------------------------------------------------------------------------------
  // The order
  // ---------------------------------------------------------------------------------------------

  /** What a row is ordered by: a time, then a nullable time. */
  datatype Key = Key(first: int, second: Option<int>)

  /** NULLS LAST. */
  predicate EarlierOrLast(a: Option<int>, b: Option<int>) {
    match (a, b)
    case (Some(x), Some(y)) => x < y
    case (Some(_), None) => true
    case (None, _) => false
  }

  predicate Before(a: Key, b: Key) {
    a.first < b.first || (a.first == b.first && EarlierOrLast(a.second, b.second))
  }

  function Coalesce(a: Option<int>, b: Option<int>): Option<int> {
    if a.Some? then a else b
  }

  /** The ordering key of a row, or None when both times are NULL. */
  function KeyOf(pass: Pass, r: Result): Option<Key> {
    var (first, second) :=
      match pass
      case OVERALL => (Coalesce(r.gunTime, r.chipTime), r.chipTime)
      case GENDER => (Coalesce(r.gunTime, r.chipTime), r.chipTime)
      case CATEGORY => (Coalesce(r.gunTime, r.chipTime), r.chipTime)
      case OVERALL_BY_CHIP => (Coalesce(r.chipTime, r.gunTime), r.gunTime)
      case AGE_GROUP => (Coalesce(r.chipTime, r.gunTime), r.chipTime);
    if first.Some? then Some(Key(first.value, second)) else None
  }

  /** The partition of a row, or None when the pass leaves the row out. */
  function PartitionOf(pass: Pass, r: Result): Label {
    match pass
    case OVERALL => Some(0)
    case OVERALL_BY_CHIP => Some(0)
    case GENDER => r.gender
    case CATEGORY => r.category
    case AGE_GROUP => r.ageGroup
  }

  predicate Eligible(pass: Pass, event: EventId, r: Result) {
    r.event == event && r.status == FINISHED && PartitionOf(pass, r).Some? && KeyOf(pass, r).Some?
  }

  // ---------------------------------------------------------------------------------------------
  // Ranks as counts
  // ---------------------------------------------------------------------------------------------

  /** The eligible rows of the same partition strictly before a row. */
  function Ahead(t: Table, event: EventId, pass: Pass, id: RowId): set<RowId>
    requires id in t && Eligible(pass, event, t[id])
  {
    set j | j in t && Eligible(pass, event, t[j]) && PartitionOf(pass, t[j]) == PartitionOf(pass, t[id])
            && Before(KeyOf(pass, t[j]).value, KeyOf(pass, t[id]).value)
  }

  function RankOf(t: Table, event: EventId, pass: Pass, id: RowId): nat
    requires id in t && Eligible(pass, event, t[id])
  {
    1 + |Ahead(t, event, pass, id)|
  }

  function Column(pass: Pass, r: Result): Option<nat> {
    match pass
    case OVERALL => r.rankOverall
    case OVERALL_BY_CHIP => r.rankOverall
    case GENDER => r.rankGender
    case CATEGORY => r.rankCategory
    case AGE_GROUP => r.rankAgeGroup
  }

  function WithColumn(pass: Pass, r: Result, rank: Option<nat>): Result {
    match pass
    case OVERALL => r.(rankOverall := rank)
    case OVERALL_BY_CHIP => r.(rankOverall := rank)
    case GENDER => r.(rankGender := rank)
    case CATEGORY => r.(rankCategory := rank)
    case AGE_GROUP => r.(rankAgeGroup := rank)
  }

  /** The table after a pass: eligible rows get their rank, every other row keeps what it had. */
  function Ranking(t: Table, event: EventId, pass: Pass): Table {
    map id | id in t ::
      if Eligible(pass, event, t[id]) then WithColumn(pass, t[id], Some(RankOf(t, event, pass, id))) else t[id]
  }

  // ---------------------------------------------------------------------------------------------
  // What a ranking is
  // ---------------------------------------------------------------------------------------------

  lemma BeforeIsStrictTotalOrder(a: Key, b: Key, c: Key)
    ensures !Before(a, a)
    ensures Before(a, b) && Before(b, c) ==> Before(a, c)
    ensures Before(a, b) || Before(b, a) || a == b
  {
  }

  ghost predicate Peers(t: Table, event: EventId, pass: Pass, i: RowId, j: RowId) {
    && i in t && j in t && Eligible(pass, event, t[i]) && Eligible(pass, event, t[j])
    && PartitionOf(pass, t[i]) == PartitionOf(pass, t[j])
  }

  /** Within a partition, ranks order rows exactly as their keys do: equal keys share a rank. */
  lemma RankFollowsKey(t: Table, event: EventId, pass: Pass, i: RowId, j: RowId)
    requires Peers(t, event, pass, i, j)
    ensures RankOf(t, event, pass, i) < RankOf(t, event, pass, j) <==>
            Before(KeyOf(pass, t[i]).value, KeyOf(pass, t[j]).value)
    ensures RankOf(t, event, pass, i) == RankOf(t, event, pass, j) <==> KeyOf(pass, t[i]) == KeyOf(pass, t[j])
  {
    var a, b := KeyOf(pass, t[i]).value, KeyOf(pass, t[j]).value;
    BeforeIsStrictTotalOrder(a, b, a);
    if Before(a, b) {
      StrictlyMoreAhead(t, event, pass, i, j);
    } else if Before(b, a) {
      StrictlyMoreAhead(t, event, pass, j, i);
    } else {
      assert Ahead(t, event, pass, i) == Ahead(t, event, pass, j);
    }
  }

  lemma StrictlyMoreAhead(t: Table, event: EventId, pass: Pass, i: RowId, j: RowId)
    requires Peers(t, event, pass, i, j)
    requires Before(KeyOf(pass, t[i]).value, KeyOf(pass, t[j]).value)
    ensures RankOf(t, event, pass, i) < RankOf(t, event, pass, j)
  {
    var ahead := Ahead(t, event, pass, i) + {i};
    forall k | k in ahead ensures k in Ahead(t, event, pass, j) {
      if k != i {
        BeforeIsStrictTotalOrder(KeyOf(pass, t[k]).value, KeyOf(pass, t[i]).value, KeyOf(pass, t[j]).value);
      }
    }
    BeforeIsStrictTotalOrder(KeyOf(pass, t[i]).value, KeyOf(pass, t[i]).value, KeyOf(pass, t[i]).value);
    assert i !in Ahead(t, event, pass, i);
    SubsetCardinality(ahead, Ahead(t, event, pass, j));
  }

  /** The rows of a partition with a smaller rank than `id` number exactly its rank less one. */
  lemma RankCountsSmallerRanks(t: Table, event: EventId, pass: Pass, id: RowId)
    requires id in t && Eligible(pass, event, t[id])
    ensures |set j | j in t && Peers(t, event, pass, j, id)
                     && Column(pass, Ranking(t, event, pass)[j]).value <
                        Column(pass, Ranking(t, event, pass)[id]).value|
            == Column(pass, Ranking(t, event, pass)[id]).value - 1
  {
    var smaller := set j | j in t && Peers(t, event, pass, j, id)
                     && Column(pass, Ranking(t, event, pass)[j]).value <
                        Column(pass, Ranking(t, event, pass)[id]).value;
    forall j | j in t && Peers(t, event, pass, j, id) ensures j in smaller <==> j in Ahead(t, event, pass, id) {
      RankFollowsKey(t, event, pass, j, id);
    }
    assert smaller == Ahead(t, event, pass, id);
  }

  /** Only the columns that ranking writes differ. */
  predicate SameFacts(a: Result, b: Result) {
    a == b.(rankOverall := a.rankOverall, rankGender := a.rankGender, rankCategory := a.rankCategory,
            rankAgeGroup := a.rankAgeGroup)
  }

  ghost predicate SameRace(t: Table, u: Table) {
    t.Keys == u.Keys && forall id :: id in t ==> SameFacts(t[id], u[id])
  }

  /** Ranks depend on the race, not on what the rank columns hold. */
  lemma RanksIgnoreColumns(t: Table, u: Table, event: EventId, pass: Pass, id: RowId)
    requires SameRace(t, u) && id in t
    ensures Eligible(pass, event, t[id]) <==> Eligible(pass, event, u[id])
    ensures Eligible(pass, event, t[id]) ==> RankOf(t, event, pass, id) == RankOf(u, event, pass, id)
  {
    assert forall j :: j in t ==> SameFacts(t[j], u[j]);
    if Eligible(pass, event, t[id]) {
      assert Ahead(t, event, pass, id) == Ahead(u, event, pass, id);
    }
  }

  /** A pass repeated changes nothing. */
  lemma RankingIsIdempotent(t: Table, event: EventId, pass: Pass)
    ensures Ranking(Ranking(t, event, pass), event, pass) == Ranking(t, event, pass)
  {
    var u := Ranking(t, event, pass);
    forall id | id in t ensures Ranking(u, event, pass)[id] == u[id] {
      RanksIgnoreColumns(t, u, event, pass, id);
    }
  }

  predicate OtherColumn(p: Pass, q: Pass) {
    p != q && !(p.OVERALL? && q.OVERALL_BY_CHIP?) && !(p.OVERALL_BY_CHIP? && q.OVERALL?)
  }

  lemma ColumnsCommute(p: Pass, q: Pass, r: Result, x: Option<nat>, y: Option<nat>)
    requires OtherColumn(p, q)
    ensures WithColumn(q, WithColumn(p, r, x), y) == WithColumn(p, WithColumn(q, r, y), x)
    ensures Column(p, WithColumn(q, r, y)) == Column(p, r)
  {
  }

  /** Passes over different columns, or over different events, can run in either order. */
  lemma RankingsCommute(t: Table, e: EventId, p: Pass, f: EventId, q: Pass)
    requires e != f || OtherColumn(p, q)
    ensures Ranking(Ranking(t, e, p), f, q) == Ranking(Ranking(t, f, q), e, p)
  {
    var u, v := Ranking(t, e, p), Ranking(t, f, q);
    forall id | id in t ensures Ranking(u, f, q)[id] == Ranking(v, e, p)[id] {
      RanksIgnoreColumns(t, u, f, q, id);
      RanksIgnoreColumns(t, v, e, p, id);
      if Eligible(p, e, t[id]) && Eligible(q, f, t[id]) {
        ColumnsCommute(p, q, t[id], Some(RankOf(t, e, p, id)), Some(RankOf(t, f, q, id)));
      }
    }
  }

  /** All four passes, as a recompute runs them. */
  function Recompute(t: Table, event: EventId): Table {
    Ranking(Ranking(Ranking(Ranking(t, event, OVERALL), event, GENDER), event, CATEGORY), event, AGE_GROUP)
  }

  /** What a pass leaves in each column of a row. */
  lemma ColumnsAfterPass(t: Table, event: EventId, pass: Pass, other: Pass, id: RowId)
    requires id in t && (pass == other || OtherColumn(other, pass))
    ensures SameRace(t, Ranking(t, event, pass))
    ensures Column(other, Ranking(t, event, pass)[id]) ==
            if pass == other && Eligible(pass, event, t[id]) then Some(RankOf(t, event, pass, id))
            else Column(other, t[id])
  {
    if pass != other {
      ColumnsCommute(other, pass, t[id], None,
                     if Eligible(pass, event, t[id]) then Some(RankOf(t, event, pass, id)) else None);
    }
  }

  /** After a recompute every column holds the rank its own pass gives on the race as it was. */
  lemma RecomputeRanksEveryColumn(t: Table, event: EventId, pass: Pass, id: RowId)
    requires pass != OVERALL_BY_CHIP && id in t
    ensures SameRace(t, Recompute(t, event))
    ensures Column(pass, Recompute(t, event)[id]) ==
            if Eligible(pass, event, t[id]) then Some(RankOf(t, event, pass, id)) else Column(pass, t[id])
  {
    var t1 := Ranking(t, event, OVERALL);
    var t2 := Ranking(t1, event, GENDER);
    var t3 := Ranking(t2, event, CATEGORY);
    ColumnsAfterPass(t, event, OVERALL, pass, id);
    ColumnsAfterPass(t1, event, GENDER, pass, id);
    ColumnsAfterPass(t2, event, CATEGORY, pass, id);
    ColumnsAfterPass(t3, event, AGE_GROUP, pass, id);
    RanksIgnoreColumns(t, t1, event, pass, id);
    RanksIgnoreColumns(t, t2, event, pass, id);
    RanksIgnoreColumns(t, t3, event, pass, id);
  }

  // ---------------------------------------------------------------------------------------------
  // Ranks across passes
  // ---------------------------------------------------------------------------------------------

  /**
   A gender or category rank never exceeds the overall rank, and within one gender or category the two
   columns order the rows alike.
   */
  lemma NarrowRanksAgree(t: Table, event: EventId, pass: Pass, i: RowId, j: RowId)
    requires (pass == GENDER || pass == CATEGORY) && Peers(t, event, pass, i, j)
    ensures Eligible(OVERALL, event, t[i]) && Eligible(OVERALL, event, t[j])
    ensures RankOf(t, event, pass, i) <= RankOf(t, event, OVERALL, i)
    ensures RankOf(t, event, pass, i) < RankOf(t, event, pass, j) <==>
            RankOf(t, event, OVERALL, i) < RankOf(t, event, OVERALL, j)
  {
    SubsetCardinality(Ahead(t, event, pass, i), Ahead(t, event, OVERALL, i));
    RankFollowsKey(t, event, pass, i, j);
    RankFollowsKey(t, event, OVERALL, i, j);
  }

  /** Gun and chip order coincide for a row exactly when it does not hold two different times. */
  lemma KeysAgreeExactlyWhen(r: Result)
    ensures KeyOf(AGE_GROUP, r) == KeyOf(OVERALL, r) <==>
            (r.gunTime.Some? && r.chipTime.Some? ==> r.gunTime == r.chipTime)
  {
  }

  /** Two rows in the order of one pass and in the order of another: before, after or level alike. */
  ghost predicate KeysOrderAlike(p: Pass, q: Pass, a: Result, b: Result)
    requires KeyOf(p, a).Some? && KeyOf(p, b).Some? && KeyOf(q, a).Some? && KeyOf(q, b).Some?
  {
    && (Before(KeyOf(p, a).value, KeyOf(p, b).value) <==> Before(KeyOf(q, a).value, KeyOf(q, b).value))
    && (Before(KeyOf(p, b).value, KeyOf(p, a).value) <==> Before(KeyOf(q, b).value, KeyOf(q, a).value))
  }

  ghost predicate ColumnsOrderAlike(t: Table, event: EventId, p: Pass, q: Pass, i: RowId, j: RowId)
    requires Peers(t, event, p, i, j) && Peers(t, event, q, i, j)
  {
    && (RankOf(t, event, p, i) < RankOf(t, event, p, j) <==> RankOf(t, event, q, i) < RankOf(t, event, q, j))
    && (RankOf(t, event, p, j) < RankOf(t, event, p, i) <==> RankOf(t, event, q, j) < RankOf(t, event, q, i))
  }

  /** Within an age group its column and the overall one order two rows alike exactly when the two keys do. */
  lemma AgeGroupOrderAgreesExactlyWhen(t: Table, event: EventId, i: RowId, j: RowId)
    requires Peers(t, event, AGE_GROUP, i, j)
    ensures Peers(t, event, OVERALL, i, j)
    ensures ColumnsOrderAlike(t, event, AGE_GROUP, OVERALL, i, j) <==> KeysOrderAlike(AGE_GROUP, OVERALL, t[i], t[j])
  {
    RankFollowsKey(t, event, AGE_GROUP, i, j);
    RankFollowsKey(t, event, AGE_GROUP, j, i);
    RankFollowsKey(t, event, OVERALL, i, j);
    RankFollowsKey(t, event, OVERALL, j, i);
  }

  /** On the times themselves: alike exactly when the gun never reverses the chip, and level chips have level guns. */
  lemma AgeGroupOrderAgreesOnTimes(t: Table, event: EventId, i: RowId, j: RowId)
    requires Peers(t, event, AGE_GROUP, i, j)
    requires t[i].gunTime.Some? && t[i].chipTime.Some? && t[j].gunTime.Some? && t[j].chipTime.Some?
    ensures Peers(t, event, OVERALL, i, j)
    ensures var a, b := t[i], t[j];
            ColumnsOrderAlike(t, event, AGE_GROUP, OVERALL, i, j) <==>
            && (a.chipTime.value < b.chipTime.value ==> a.gunTime.value <= b.gunTime.value)
            && (b.chipTime.value < a.chipTime.value ==> b.gunTime.value <= a.gunTime.value)
            && (a.chipTime == b.chipTime ==> a.gunTime == b.gunTime)
  {
    AgeGroupOrderAgreesExactlyWhen(t, event, i, j);
  }

  /** The part of a race that the rows of some set make up. */
  function SubRace(t: Table, ids: set<RowId>): Table {
    map id | id in t && id in ids :: t[id]
  }

  /** No row of the same age group that the overall order does not put ahead is ahead by chip time. */
  ghost predicate NobodyAheadByChipAlone(t: Table, event: EventId, id: RowId)
    requires id in t && Eligible(AGE_GROUP, event, t[id])
  {
    forall j :: Peers(t, event, AGE_GROUP, j, id)
                && Before(KeyOf(AGE_GROUP, t[j]).value, KeyOf(AGE_GROUP, t[id]).value) ==>
                  Before(KeyOf(OVERALL, t[j]).value, KeyOf(OVERALL, t[id]).value)
  }

  /**
   A row's age-group rank stays within its overall rank in every race among some of the finishers exactly when
   nobody of its age group is ahead of it by chip time alone.
   */
  lemma AgeGroupRankStaysWithinExactlyWhen(t: Table, event: EventId, id: RowId)
    requires id in t && Eligible(AGE_GROUP, event, t[id])
    ensures (forall ids: set<RowId> :: id in ids ==>
               RankOf(SubRace(t, ids), event, AGE_GROUP, id) <= RankOf(SubRace(t, ids), event, OVERALL, id)) <==>
            NobodyAheadByChipAlone(t, event, id)
  {
    if NobodyAheadByChipAlone(t, event, id) {
      forall ids: set<RowId> | id in ids
        ensures RankOf(SubRace(t, ids), event, AGE_GROUP, id) <= RankOf(SubRace(t, ids), event, OVERALL, id)
      {
        var u := SubRace(t, ids);
        forall j | j in Ahead(u, event, AGE_GROUP, id) ensures j in Ahead(u, event, OVERALL, id) {
          assert Peers(t, event, AGE_GROUP, j, id);
        }
        SubsetCardinality(Ahead(u, event, AGE_GROUP, id), Ahead(u, event, OVERALL, id));
      }
    } else {
      var j :| && Peers(t, event, AGE_GROUP, j, id)
               && Before(KeyOf(AGE_GROUP, t[j]).value, KeyOf(AGE_GROUP, t[id]).value)
               && !Before(KeyOf(OVERALL, t[j]).value, KeyOf(OVERALL, t[id]).value);
      TwoRowRaceExceeds(t, event, id, j);
    }
  }

  /** A race of two in which the other is ahead by chip time alone. */
  lemma TwoRowRaceExceeds(t: Table, event: EventId, id: RowId, j: RowId)
    requires Peers(t, event, AGE_GROUP, j, id)
    requires Before(KeyOf(AGE_GROUP, t[j]).value, KeyOf(AGE_GROUP, t[id]).value)
    requires !Before(KeyOf(OVERALL, t[j]).value, KeyOf(OVERALL, t[id]).value)
    ensures RankOf(SubRace(t, {id, j}), event, AGE_GROUP, id) > RankOf(SubRace(t, {id, j}), event, OVERALL, id)
  {
    var u := SubRace(t, {id, j});
    BeforeIsStrictTotalOrder(KeyOf(OVERALL, t[id]).value, KeyOf(OVERALL, t[id]).value, KeyOf(OVERALL, t[id]).value);
    assert Ahead(u, event, OVERALL, id) == {};
    assert j in Ahead(u, event, AGE_GROUP, id);
  }

  /** Two finishers of one age group: the first by gun time is second by chip time. */
  lemma AgeGroupRankCanExceedOverall()
    ensures exists t: Table, id ::
              && id in t && Eligible(AGE_GROUP, 1, t[id]) && Eligible(OVERALL, 1, t[id])
              && RankOf(t, 1, AGE_GROUP, id) > RankOf(t, 1, OVERALL, id)
  {
    var a := Result(1, FINISHED, Some(100), Some(100), None, None, Some(30), None, None, None, None);
    var b := a.(chipTime := Some(90), gunTime := Some(110));
    var t: Table := map[1 := a, 2 := b];
    assert Ahead(t, 1, AGE_GROUP, 1) == {2};
    assert Ahead(t, 1, OVERALL, 1) == {};
    assert RankOf(t, 1, AGE_GROUP, 1) > RankOf(t, 1, OVERALL, 1);
  }

  // ---------------------------------------------------------------------------------------------
  // Computing a pass: sort, then walk
  // ---------------------------------------------------------------------------------------------

  /** A row as the window function sees it. */
  datatype Entry = Entry(id: RowId, partition: int, key: Key)

  /** Partition by partition, each in key order. */
  predicate Precedes(a: Entry, b: Entry) {
    a.partition < b.partition || (a.partition == b.partition && Before(a.key, b.key))
  }

  ghost predicate SortedEntries(s: seq<Entry>) {
    forall i, j :: 0 <= i < j < |s| ==> !Precedes(s[j], s[i])
  }

  predicate EntryOf(e: Entry, t: Table, event: EventId, pass: Pass) {
    && e.id in t && Eligible(pass, event, t[e.id])
    && PartitionOf(pass, t[e.id]) == Some(e.partition) && KeyOf(pass, t[e.id]) == Some(e.key)
  }

  ghost predicate DistinctIds(s: seq<Entry>) {
    forall i, j :: 0 <= i < j < |s| ==> s[i].id != s[j].id
  }

  ghost predicate Listed(s: seq<Entry>, id: RowId) {
    exists i :: 0 <= i < |s| && s[i].id == id
  }

  /** The entries are those of the eligible rows, each once. */
  ghost predicate EntriesOf(s: seq<Entry>, t: Table, event: EventId, pass: Pass, ids: set<RowId>) {
    && DistinctIds(s)
    && (forall i :: 0 <= i < |s| ==> s[i].id in ids && EntryOf(s[i], t, event, pass))
    && (forall id :: id in ids && id in t && Eligible(pass, event, t[id]) ==> Listed(s, id))
  }

  /** Puts a new entry after everything it does not precede. */
  method Insert(s: seq<Entry>, e: Entry) returns (r: seq<Entry>, k: nat)
    requires SortedEntries(s)
    ensures SortedEntries(r)
    ensures k <= |s| && r == s[..k] + [e] + s[k..]
  {
    k := |s|;
    while k > 0 && Precedes(e, s[k - 1])
      invariant 0 <= k <= |s|
      invariant forall i :: k <= i < |s| ==> Precedes(e, s[i])
    {
      k := k - 1;
    }
    r := s[..k] + [e] + s[k..];
    if k > 0 {
      InsertAfter(s, e, k);
    }
  }

  /** What stands at or before an entry that `e` does not precede is not preceded by `e` either. */
  lemma InsertAfter(s: seq<Entry>, e: Entry, k: nat)
    requires SortedEntries(s) && 0 < k <= |s| && !Precedes(e, s[k - 1])
    ensures forall i :: 0 <= i < k ==> !Precedes(e, s[i])
  {
    forall i | 0 <= i < k ensures !Precedes(e, s[i]) {
      if i < k - 1 {
        assert !Precedes(s[k - 1], s[i]);
        BeforeIsStrictTotalOrder(e.key, s[i].key, s[k - 1].key);
        BeforeIsStrictTotalOrder(s[i].key, s[k - 1].key, e.key);
      }
    }
  }

  /** The eligible rows in window order. */
  method SortEntries(t: Table, event: EventId, pass: Pass) returns (s: seq<Entry>)
    ensures SortedEntries(s) && EntriesOf(s, t, event, pass, t.Keys)
  {
    s := [];
    var left := t.Keys;
    while left != {}
      invariant left <= t.Keys
      invariant SortedEntries(s) && EntriesOf(s, t, event, pass, t.Keys - left)
    {
      var id :| id in left;
      if Eligible(pass, event, t[id]) {
        var e := Entry(id, PartitionOf(pass, t[id]).value, KeyOf(pass, t[id]).value);
        var r, k := Insert(s, e);
        InsertedEntries(s, e, k, t, event, pass, t.Keys - left);
        s := r;
      }
      assert t.Keys - (left - {id}) == t.Keys - left + {id};
      left := left - {id};
    }
    assert t.Keys - left == t.Keys;
  }

  lemma InsertedAt(s: seq<Entry>, e: Entry, k: nat, i: nat)
    requires k <= |s| && i <= |s|
    ensures (s[..k] + [e] + s[k..])[i] == if i < k then s[i] else if i == k then e else s[i - 1]
  {
  }

  lemma InsertedDistinct(s: seq<Entry>, e: Entry, k: nat)
    requires k <= |s| && DistinctIds(s) && !Listed(s, e.id)
    ensures DistinctIds(s[..k] + [e] + s[k..])
  {
    var r := s[..k] + [e] + s[k..];
    forall i, j | 0 <= i < j < |r| ensures r[i].id != r[j].id {
      InsertedAt(s, e, k, i);
      InsertedAt(s, e, k, j);
    }
  }

  lemma InsertedListed(s: seq<Entry>, e: Entry, k: nat, id: RowId)
    requires k <= |s|
    ensures id == e.id || Listed(s, id) ==> Listed(s[..k] + [e] + s[k..], id)
  {
    var r := s[..k] + [e] + s[k..];
    InsertedAt(s, e, k, k);
    assert r[k].id == e.id;
    if id != e.id && Listed(s, id) {
      var i :| 0 <= i < |s| && s[i].id == id;
      InsertedAt(s, e, k, if i < k then i else i + 1);
      assert r[if i < k then i else i + 1].id == id;
    }
  }

  lemma InsertedEntries(
    s: seq<Entry>, e: Entry, k: nat, t: Table, event: EventId, pass: Pass, ids: set<RowId>)
    requires EntriesOf(s, t, event, pass, ids)
    requires e.id !in ids && EntryOf(e, t, event, pass)
    requires k <= |s|
    ensures EntriesOf(s[..k] + [e] + s[k..], t, event, pass, ids + {e.id})
  {
    var r := s[..k] + [e] + s[k..];
    InsertedDistinct(s, e, k);
    forall i | 0 <= i < |r| ensures r[i].id in ids + {e.id} && EntryOf(r[i], t, event, pass) {
      InsertedAt(s, e, k, i);
    }
    forall id | id in ids + {e.id} && id in t && Eligible(pass, event, t[id]) ensures Listed(r, id) {
      InsertedListed(s, e, k, id);
    }
  }

  /**
   The walk's bookkeeping at entry `i`: its partition starts at `start`, and the entries from `start` up
   to `peer` are those strictly ahead of it.
   */
  ghost predicate WalkedTo(s: seq<Entry>, start: nat, peer: nat, i: nat) {
    && start <= peer <= i < |s|
    && (forall j :: 0 <= j < start ==> s[j].partition != s[i].partition)
    && (forall j :: start <= j <= i ==> s[j].partition == s[i].partition)
    && (forall j :: start <= j < peer ==> Before(s[j].key, s[i].key))
    && (forall j :: peer <= j <= i ==> s[j].key == s[i].key)
  }

  /** The walk's numbers give the rank. */
  lemma WalkCounts(s: seq<Entry>, t: Table, event: EventId, pass: Pass, start: nat, peer: nat, i: nat)
    requires SortedEntries(s) && EntriesOf(s, t, event, pass, t.Keys)
    requires WalkedTo(s, start, peer, i)
    ensures RankOf(t, event, pass, s[i].id) == 1 + peer - start
  {
    var ahead := Ahead(t, event, pass, s[i].id);
    var ids := IdsBetween(s, start, peer);
    forall j | 0 <= j < |s| ensures s[j].id in ahead <==> start <= j < peer {
      BeforeIsStrictTotalOrder(s[j].key, s[i].key, s[j].key);
      assert j > i ==> !Precedes(s[j], s[i]);
    }
    forall id | id in ahead ensures id in ids {
      assert Listed(s, id);
      var j :| 0 <= j < |s| && s[j].id == id;
    }
    forall id | id in ids ensures id in ahead {
      var j :| start <= j < peer && s[j].id == id;
    }
    assert ids == ahead;
    IdsBetweenCount(s, start, peer);
  }

  ghost function IdsBetween(s: seq<Entry>, lo: nat, hi: nat): set<RowId>
    requires lo <= hi <= |s|
  {
    set j | lo <= j < hi :: s[j].id
  }

  lemma {:induction false} IdsBetweenCount(s: seq<Entry>, lo: nat, hi: nat)
    requires lo <= hi <= |s|
    requires DistinctIds(s)
    ensures |IdsBetween(s, lo, hi)| == hi - lo
    decreases hi
  {
    if lo < hi {
      IdsBetweenCount(s, lo, hi - 1);
      assert IdsBetween(s, lo, hi) == IdsBetween(s, lo, hi - 1) + {s[hi - 1].id};
    }
  }

  /** Moving on from one entry to the next: a new partition, a new key, or one more peer. */
  lemma WalkOn(s: seq<Entry>, start: nat, peer: nat, i: nat)
    requires SortedEntries(s) && i + 1 < |s| && WalkedTo(s, start, peer, i)
    ensures s[i + 1].partition != s[i].partition ==> WalkedTo(s, i + 1, i + 1, i + 1)
    ensures s[i + 1].partition == s[i].partition && s[i + 1].key != s[i].key ==> WalkedTo(s, start, i + 1, i + 1)
    ensures s[i + 1].partition == s[i].partition && s[i + 1].key == s[i].key ==> WalkedTo(s, start, peer, i + 1)
  {
    assert !Precedes(s[i + 1], s[i]);
    BeforeIsStrictTotalOrder(s[i + 1].key, s[i].key, s[i].key);
    if s[i + 1].partition != s[i].partition {
      forall j | 0 <= j < i + 1 ensures s[j].partition != s[i + 1].partition {
        assert !Precedes(s[i], s[j]) || j == i;
      }
    } else {
      forall j | start <= j < i ensures Before(s[i].key, s[i + 1].key) ==> Before(s[j].key, s[i + 1].key) {
        BeforeIsStrictTotalOrder(s[j].key, s[i].key, s[i + 1].key);
      }
    }
  }

  /** The number that the walk gives to entry `i`. */
  ghost predicate WalkedRank(s: seq<Entry>, i: nat, rank: nat) {
    exists start: nat, peer: nat :: WalkedTo(s, start, peer, i) && rank == 1 + peer - start
  }

  /** Walks over the sorted entries and numbers them. */
  method Walk(s: seq<Entry>) returns (ranks: seq<nat>)
    requires SortedEntries(s)
    ensures |ranks| == |s| && forall i :: 0 <= i < |s| ==> WalkedRank(s, i, ranks[i])
  {
    ranks := [];
    var start, peer := 0, 0;
    for i := 0 to |s|
      invariant if i == 0 then start == 0 && peer == 0 else WalkedTo(s, start, peer, i - 1)
      invariant |ranks| == i && forall j :: 0 <= j < i ==> WalkedRank(s, j, ranks[j])
    {
      if i > 0 {
        WalkOn(s, start, peer, i - 1);
        if s[i].partition != s[i - 1].partition {
          start, peer := i, i;
        } else if s[i].key != s[i - 1].key {
          peer := i;
        }
      }
      assert WalkedTo(s, start, peer, i);
      ranks := ranks + [1 + peer - start];
    }
  }

  /** What the walk gives to an entry is its row's rank. */
  lemma WalkedRankIsRank(s: seq<Entry>, t: Table, event: EventId, pass: Pass, i: nat, rank: nat)
    requires SortedEntries(s) && EntriesOf(s, t, event, pass, t.Keys) && i < |s| && WalkedRank(s, i, rank)
    ensures rank == RankOf(t, event, pass, s[i].id)
  {
    var start: nat, peer: nat :| WalkedTo(s, start, peer, i) && rank == 1 + peer - start;
    WalkCounts(s, t, event, pass, start, peer, i);
  }

  /** The race_results table. */
  class ResultTable {
    var rows: Table

    constructor (rows: Table)
      ensures this.rows == rows
    {
      this.rows := rows;
    }

    /** One ranking pass in place. */
    method Rank(event: EventId, pass: Pass)
      modifies this
      ensures rows == Ranking(old(rows), event, pass)
    {
      ghost var before := rows;
      var s := SortEntries(rows, event, pass);
      var ranks := Walk(s);
      for i := 0 to |s|
        invariant rows == RankedUpTo(before, event, pass, s, i)
      {
        RankOneMore(before, event, pass, s, i);
        WalkedRankIsRank(s, before, event, pass, i, ranks[i]);
        rows := rows[s[i].id := WithColumn(pass, rows[s[i].id], Some(ranks[i]))];
      }
      RankedAll(before, event, pass, s);
    }

    /** The four passes of a recompute: every column holds its own pass's rank on the race as it was. */
    method RecomputeRanks(event: EventId)
      modifies this
      ensures SameRace(old(rows), rows)
      ensures forall id, pass: Pass :: id in old(rows) && pass != OVERALL_BY_CHIP ==>
                Column(pass, rows[id]) ==
                if Eligible(pass, event, old(rows)[id]) then Some(RankOf(old(rows), event, pass, id))
                else Column(pass, old(rows)[id])
    {
      ghost var race := rows;
      Rank(event, OVERALL);
      Rank(event, GENDER);
      Rank(event, CATEGORY);
      Rank(event, AGE_GROUP);
      forall id, pass: Pass | id in race && pass != OVERALL_BY_CHIP
        ensures SameRace(race, rows)
        ensures Column(pass, rows[id]) ==
                if Eligible(pass, event, race[id]) then Some(RankOf(race, event, pass, id)) else Column(pass, race[id])
      {
        RecomputeRanksEveryColumn(race, event, pass, id);
      }
    }
  }

  /** The table once the first `n` entries have been written. */
  ghost function RankedUpTo(t: Table, event: EventId, pass: Pass, s: seq<Entry>, n: nat): Table
    requires n <= |s| && EntriesOf(s, t, event, pass, t.Keys)
  {
    map id | id in t ::
      if id in IdsBetween(s, 0, n) then WithColumn(pass, t[id], Some(RankOf(t, event, pass, id))) else t[id]
  }

  lemma RankOneMore(t: Table, event: EventId, pass: Pass, s: seq<Entry>, n: nat)
    requires n < |s| && EntriesOf(s, t, event, pass, t.Keys)
    ensures var u := RankedUpTo(t, event, pass, s, n);
            && s[n].id in u && u[s[n].id] == t[s[n].id]
            && RankedUpTo(t, event, pass, s, n + 1) ==
                 u[s[n].id := WithColumn(pass, t[s[n].id], Some(RankOf(t, event, pass, s[n].id)))]
  {
    assert IdsBetween(s, 0, n + 1) == IdsBetween(s, 0, n) + {s[n].id};
  }

  lemma RankedAll(t: Table, event: EventId, pass: Pass, s: seq<Entry>)
    requires EntriesOf(s, t, event, pass, t.Keys)
    ensures RankedUpTo(t, event, pass, s, |s|) == Ranking(t, event, pass)
  {
    forall id | id in t ensures id in IdsBetween(s, 0, |s|) <==> Eligible(pass, event, t[id]) {
      if Eligible(pass, event, t[id]) {
        assert Listed(s, id);
      }
    }
  }
}
