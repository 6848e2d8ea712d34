/**
 The ballot draw: a Fisher-Yates shuffle of the applied entries, outcomes by position, and the rows a
 draw records.

 The random source is the sequence of numbers it yields; the digest of a result is kept as the triple it
 digests, so that equal digests mean equal triples.
 */
module BallotDraw {
  import opened Common

  type EntryId = nat

  // ---------------------------------------------------------------------------------------------
  // The shuffle
  // ---------------------------------------------------------------------------------------------

  /** `draws[i]` is the number drawn for position `i`, at most `i`; position 0 draws nothing. */
  predicate ValidDraws(draws: seq<nat>, n: nat) {
    |draws| == n && forall i :: 0 <= i < n ==> draws[i] <= i
  }

  function Swap(s: seq<EntryId>, i: nat, j: nat): (r: seq<EntryId>)
    requires i < |s| && j < |s|
    ensures |r| == |s|
  {
    s[i := s[j]][j := s[i]]
  }

  /** The shuffle from position `i` down to position 1. */
  function ShuffleFrom(s: seq<EntryId>, draws: seq<nat>, i: nat): (r: seq<EntryId>)
    requires ValidDraws(draws, |s|) && i <= |s|
    ensures |r| == |s|
    decreases i
  {
    if i <= 1 then s else ShuffleFrom(Swap(s, i - 1, draws[i - 1]), draws, i - 1)
  }

  function Shuffled(s: seq<EntryId>, draws: seq<nat>): seq<EntryId>
    requires ValidDraws(draws, |s|)
  {
    ShuffleFrom(s, draws, |s|)
  }

  predicate Permutation(a: seq<EntryId>, b: seq<EntryId>) {
    multiset(a) == multiset(b)
  }

  lemma SwapPermutes(s: seq<EntryId>, i: nat, j: nat)
    requires i < |s| && j < |s|
    ensures Permutation(Swap(s, i, j), s)
  {
  }

  lemma {:induction false} ShuffleKeeps(s: seq<EntryId>, draws: seq<nat>, i: nat)
    requires ValidDraws(draws, |s|) && i <= |s|
    ensures Permutation(ShuffleFrom(s, draws, i), s)
    ensures forall k :: i <= k < |s| ==> ShuffleFrom(s, draws, i)[k] == s[k]
    ensures i > 1 ==> ShuffleFrom(s, draws, i)[i - 1] == s[draws[i - 1]]
    decreases i
  {
    if i > 1 {
      var t := Swap(s, i - 1, draws[i - 1]);
      SwapPermutes(s, i - 1, draws[i - 1]);
      ShuffleKeeps(t, draws, i - 1);
      assert ShuffleFrom(s, draws, i) == ShuffleFrom(t, draws, i - 1);
    }
  }

  lemma IndexOf(s: seq<EntryId>, x: EntryId) returns (j: nat)
    requires x in s
    ensures j < |s| && s[j] == x
  {
    j :| j < |s| && s[j] == x;
  }

  /** Agreement above a position makes the rest a permutation of the positions below. */
  lemma RestPermutes(s: seq<EntryId>, target: seq<EntryId>, i: nat)
    requires Permutation(s, target) && i <= |s| == |target|
    requires forall k :: i <= k < |s| ==> target[k] == s[k]
    ensures Permutation(s[..i], target[..i])
  {
    assert s == s[..i] + s[i..] && target == target[..i] + target[i..];
    assert s[i..] == target[i..];
    assert multiset(s) == multiset(s[..i]) + multiset(s[i..]);
    assert multiset(target) == multiset(target[..i]) + multiset(target[i..]);
    forall x ensures multiset(s[..i])[x] == multiset(target[..i])[x] {
      assert multiset(s)[x] == multiset(target)[x];
    }
  }

  lemma RestBelow(s: seq<EntryId>, target: seq<EntryId>, i: nat) returns (j: nat)
    requires Permutation(s, target) && 0 < i <= |s|
    requires |target| == |s| && forall k :: i <= k < |s| ==> target[k] == s[k]
    ensures j < i && s[j] == target[i - 1]
  {
    RestPermutes(s, target, i);
    assert target[..i][i - 1] in multiset(target[..i]);
    j := IndexOf(s[..i], target[i - 1]);
  }

  /** Only the draws below the position matter. */
  lemma {:induction false} ShuffleReadsBelow(s: seq<EntryId>, a: seq<nat>, b: seq<nat>, i: nat)
    requires ValidDraws(a, |s|) && ValidDraws(b, |s|) && i <= |s|
    requires forall k :: 0 <= k < i ==> a[k] == b[k]
    ensures ShuffleFrom(s, a, i) == ShuffleFrom(s, b, i)
    decreases i
  {
    if i > 1 {
      ShuffleReadsBelow(Swap(s, i - 1, a[i - 1]), a, b, i - 1);
    }
  }

  /** One more draw, before the ones already found. */
  lemma DrawBefore(s: seq<EntryId>, rest: seq<nat>, i: nat, j: nat)
    requires ValidDraws(rest, |s|) && 1 < i <= |s| && j < i
    ensures ValidDraws(rest[i - 1 := j], |s|)
    ensures ShuffleFrom(s, rest[i - 1 := j], i) == ShuffleFrom(Swap(s, i - 1, j), rest, i - 1)
  {
    ShuffleReadsBelow(Swap(s, i - 1, j), rest, rest[i - 1 := j], i - 1);
  }

  /** Swapping the wanted entry into place extends the agreement by one position. */
  lemma SwapAgrees(s: seq<EntryId>, target: seq<EntryId>, i: nat, j: nat)
    requires Permutation(s, target) && |target| == |s| && 0 < i <= |s| && j < i && s[j] == target[i - 1]
    requires forall k :: i <= k < |s| ==> target[k] == s[k]
    ensures Permutation(Swap(s, i - 1, j), target)
    ensures forall k :: i - 1 <= k < |s| ==> target[k] == Swap(s, i - 1, j)[k]
  {
    SwapPermutes(s, i - 1, j);
  }

  /** Every permutation can be drawn. */
  lemma {:induction false} DrawsFor(s: seq<EntryId>, target: seq<EntryId>, i: nat) returns (draws: seq<nat>)
    requires Permutation(s, target) && |target| == |s| && i <= |s|
    requires forall k :: i <= k < |s| ==> target[k] == s[k]
    ensures ValidDraws(draws, |s|) && ShuffleFrom(s, draws, i) == target
    decreases i
  {
    if i == 0 {
      draws := seq(|s|, _ => 0);
    } else {
      var j := RestBelow(s, target, i);
      if i == 1 {
        draws := seq(|s|, _ => 0);
      } else {
        SwapAgrees(s, target, i, j);
        var rest := DrawsFor(Swap(s, i - 1, j), target, i - 1);
        DrawBefore(s, rest, i, j);
        draws := rest[i - 1 := j];
      }
    }
  }

  /** Different draws give different orders. */
  lemma {:induction false} DrawsAreUnique(s: seq<EntryId>, a: seq<nat>, b: seq<nat>, i: nat)
    requires Distinct(s) && ValidDraws(a, |s|) && ValidDraws(b, |s|) && i <= |s|
    requires ShuffleFrom(s, a, i) == ShuffleFrom(s, b, i)
    ensures forall k :: 0 <= k < i ==> a[k] == b[k]
    decreases i
  {
    if i > 1 {
      ShuffleKeeps(s, a, i);
      ShuffleKeeps(s, b, i);
      assert s[a[i - 1]] == s[b[i - 1]];
      var t := Swap(s, i - 1, a[i - 1]);
      DrawsAreUnique(t, a, b, i - 1);
    }
  }

  /** Fisher-Yates is fair: it yields permutations only, and each from exactly one sequence of draws. */
  lemma ShuffleIsBijective(s: seq<EntryId>, target: seq<EntryId>)
    requires Distinct(s)
    ensures Permutation(s, target) <==> exists draws :: ValidDraws(draws, |s|) && Shuffled(s, draws) == target
    ensures forall a, b :: ValidDraws(a, |s|) && ValidDraws(b, |s|) && Shuffled(s, a) == Shuffled(s, b) ==> a == b
  {
    if Permutation(s, target) {
      assert |target| == |multiset(target)| == |s|;
      var draws := DrawsFor(s, target, |s|);
      assert Shuffled(s, draws) == target;
    }
    forall draws | ValidDraws(draws, |s|) ensures Permutation(Shuffled(s, draws), s) {
      ShuffleKeeps(s, draws, |s|);
    }
    forall a, b | ValidDraws(a, |s|) && ValidDraws(b, |s|) && Shuffled(s, a) == Shuffled(s, b) ensures a == b {
      DrawsAreUnique(s, a, b, |s|);
    }
  }

  /** The shuffle in place. */
  method Shuffle(entries: seq<EntryId>, draws: seq<nat>) returns (out: array<EntryId>)
    requires ValidDraws(draws, |entries|)
    ensures fresh(out) && out[..] == Shuffled(entries, draws)
    ensures Permutation(out[..], entries)
  {
    ShuffleKeeps(entries, draws, |entries|);
    out := new EntryId[|entries|];
    for k := 0 to |entries|
      invariant forall j :: 0 <= j < k ==> out[j] == entries[j]
    {
      out[k] := entries[k];
    }
    assert out[..] == entries;
    var i := out.Length - 1;
    while i > 0
      invariant -1 <= i < out.Length
      invariant ShuffleFrom(out[..], draws, i + 1) == Shuffled(entries, draws)
    {
      var j := draws[i];
      ghost var before := out[..];
      out[i], out[j] := out[j], out[i];
      assert out[..] == Swap(before, i, j);
      i := i - 1;
    }
  }

  // ---------------------------------------------------------------------------------------------
  // Outcomes
  // ---------------------------------------------------------------------------------------------

  datatype Outcome = WINNER | WAITLISTED | NOT_SELECTED

  datatype Digest = Digest(seed: nat, rank: nat, entry: EntryId)

  datatype DrawResult = DrawResult(entry: EntryId, outcome: Outcome, rank: nat, digest: Digest)

  function OutcomeAt(i: nat, quota: nat, waitlistSize: nat): Outcome {
    if i < quota then WINNER else if i < quota + waitlistSize then WAITLISTED else NOT_SELECTED
  }

  /** Outcomes by position in the shuffled order. */
  function Assign(seed: nat, shuffled: seq<EntryId>, quota: nat, waitlistSize: nat): seq<DrawResult> {
    seq(|shuffled|, i requires 0 <= i < |shuffled| =>
      DrawResult(shuffled[i], OutcomeAt(i, quota, waitlistSize), i, Digest(seed, i, shuffled[i])))
  }

  /** The rows a draw writes: each result goes to the entry at the same position of the listing. */
  function Recorded(listed: seq<EntryId>, results: seq<DrawResult>): seq<DrawResult>
    requires |listed| == |results|
  {
    seq(|listed|, i requires 0 <= i < |listed| => results[i].(entry := listed[i]))
  }

  predicate Verifies(seed: nat, row: DrawResult) {
    row.digest == Digest(seed, row.rank, row.entry)
  }

  function Draw(seed: nat, listed: seq<EntryId>, draws: seq<nat>, quota: nat, waitlistSize: nat): seq<DrawResult>
    requires ValidDraws(draws, |listed|)
  {
    Recorded(listed, Assign(seed, Shuffled(listed, draws), quota, waitlistSize))
  }

  function Winners(rows: seq<DrawResult>): set<EntryId> {
    set i | 0 <= i < |rows| && rows[i].outcome == WINNER :: rows[i].entry
  }

  function First(s: seq<EntryId>, n: nat): seq<EntryId> {
    if n < |s| then s[..n] else s
  }

  /** The assigned winners are the first `quota` of the shuffled order. */
  lemma AssignedWinners(seed: nat, shuffled: seq<EntryId>, quota: nat, waitlistSize: nat)
    ensures Winners(Assign(seed, shuffled, quota, waitlistSize)) == Elements(First(shuffled, quota))
  {
    var rows := Assign(seed, shuffled, quota, waitlistSize);
    forall x | x in Winners(rows) ensures x in Elements(First(shuffled, quota)) {
      var i :| 0 <= i < |rows| && rows[i].outcome == WINNER && rows[i].entry == x;
      assert First(shuffled, quota)[i] == x;
    }
    forall x | x in Elements(First(shuffled, quota)) ensures x in Winners(rows) {
      var i :| 0 <= i < |First(shuffled, quota)| && First(shuffled, quota)[i] == x;
      assert rows[i].outcome == WINNER && rows[i].entry == x;
    }
  }

  /** The recorded winners are the first `quota` of the listing, whatever was drawn. */
  lemma RecordedWinners(seed: nat, listed: seq<EntryId>, draws: seq<nat>, quota: nat, waitlistSize: nat)
    requires ValidDraws(draws, |listed|)
    ensures Winners(Draw(seed, listed, draws, quota, waitlistSize)) == Elements(First(listed, quota))
  {
    var rows := Draw(seed, listed, draws, quota, waitlistSize);
    AssignedWinners(seed, listed, quota, waitlistSize);
    var plain := Assign(seed, listed, quota, waitlistSize);
    assert forall i :: 0 <= i < |rows| ==> rows[i].outcome == plain[i].outcome && rows[i].entry == plain[i].entry;
    forall x ensures x in Winners(rows) <==> x in Winners(plain) {
      if x in Winners(rows) {
        var i :| 0 <= i < |rows| && rows[i].outcome == WINNER && rows[i].entry == x;
        assert plain[i].outcome == WINNER && plain[i].entry == x;
      }
      if x in Winners(plain) {
        var i :| 0 <= i < |plain| && plain[i].outcome == WINNER && plain[i].entry == x;
        assert rows[i].outcome == WINNER && rows[i].entry == x;
      }
    }
    assert Winners(rows) == Winners(plain);
  }

  lemma {:induction false} ShuffleKeepsDistinct(s: seq<EntryId>, draws: seq<nat>, i: nat)
    requires ValidDraws(draws, |s|) && i <= |s| && Distinct(s)
    ensures Distinct(ShuffleFrom(s, draws, i))
    decreases i
  {
    if i > 1 {
      ShuffleKeepsDistinct(Swap(s, i - 1, draws[i - 1]), draws, i - 1);
    }
  }

  /** A draw below `q` for a position from `q` on moves an entry out of the first `q` for good. */
  lemma DrawnOutStaysOut(s: seq<EntryId>, draws: seq<nat>, i: nat, q: nat)
    requires ValidDraws(draws, |s|) && q < i <= |s| && Distinct(s) && draws[i - 1] < q
    ensures s[draws[i - 1]] in Elements(s[..q]) && s[draws[i - 1]] !in Elements(ShuffleFrom(s, draws, i)[..q])
  {
    ShuffleKeeps(s, draws, i);
    ShuffleKeepsDistinct(s, draws, i);
    assert s[..q][draws[i - 1]] == s[draws[i - 1]];
  }

  /** The shuffle permutes the first `q` among themselves exactly when no later position draws one of them. */
  lemma {:induction false} FirstStayExactlyWhen(s: seq<EntryId>, draws: seq<nat>, i: nat, q: nat)
    requires ValidDraws(draws, |s|) && i <= |s| && q <= |s| && Distinct(s)
    ensures Elements(ShuffleFrom(s, draws, i)[..q]) == Elements(s[..q]) <==>
            forall k :: q <= k < i ==> draws[k] >= q
    decreases i
  {
    if i <= q || i <= 1 {
      ShuffleKeeps(s, draws, i);
      RestPermutes(s, ShuffleFrom(s, draws, i), q);
      SameElements(s[..q], ShuffleFrom(s, draws, i)[..q]);
    } else if draws[i - 1] < q {
      DrawnOutStaysOut(s, draws, i, q);
    } else {
      var t := Swap(s, i - 1, draws[i - 1]);
      assert t[..q] == s[..q];
      FirstStayExactlyWhen(t, draws, i - 1, q);
    }
  }

  lemma SameElements(a: seq<EntryId>, b: seq<EntryId>)
    requires Permutation(a, b)
    ensures Elements(a) == Elements(b)
  {
    assert forall x :: x in a <==> x in multiset(a);
    assert forall x :: x in b <==> x in multiset(b);
  }

  /** The recorded winners are the drawn ones exactly when no position from `quota` on draws one below it. */
  lemma WinnersAreDrawnExactlyWhen(seed: nat, listed: seq<EntryId>, draws: seq<nat>, quota: nat, waitlistSize: nat)
    requires ValidDraws(draws, |listed|) && Distinct(listed)
    ensures Winners(Draw(seed, listed, draws, quota, waitlistSize))
            == Winners(Assign(seed, Shuffled(listed, draws), quota, waitlistSize)) <==>
            forall k :: quota <= k < |listed| ==> draws[k] >= quota
  {
    RecordedWinners(seed, listed, draws, quota, waitlistSize);
    AssignedWinners(seed, Shuffled(listed, draws), quota, waitlistSize);
    if quota < |listed| {
      FirstStayExactlyWhen(listed, draws, |listed|, quota);
    } else {
      ShuffleKeeps(listed, draws, |listed|);
      SameElements(listed, Shuffled(listed, draws));
    }
  }

  lemma {:induction false} OwnDrawsKeepOrder(s: seq<EntryId>, draws: seq<nat>, i: nat)
    requires ValidDraws(draws, |s|) && i <= |s| && forall k :: 0 <= k < i ==> draws[k] == k
    ensures ShuffleFrom(s, draws, i) == s
    decreases i
  {
    if i > 1 {
      assert Swap(s, i - 1, draws[i - 1]) == s;
      OwnDrawsKeepOrder(s, draws, i - 1);
    }
  }

  /** A shuffle moves nothing exactly when every position draws itself. */
  lemma NothingMovesExactlyWhen(s: seq<EntryId>, draws: seq<nat>)
    requires ValidDraws(draws, |s|) && Distinct(s)
    ensures Shuffled(s, draws) == s <==> forall k :: 0 <= k < |s| ==> draws[k] == k
  {
    var own := seq(|s|, k => k);
    OwnDrawsKeepOrder(s, own, |s|);
    if Shuffled(s, draws) == s {
      DrawsAreUnique(s, draws, own, |s|);
    } else if forall k :: 0 <= k < |s| ==> draws[k] == k {
      OwnDrawsKeepOrder(s, draws, |s|);
      assert false;
    }
  }

  /** The recorded row of an entry verifies exactly when the shuffle left the entry in place. */
  lemma RowVerifiesExactlyWhen(seed: nat, listed: seq<EntryId>, draws: seq<nat>, quota: nat, waitlistSize: nat, i: nat)
    requires ValidDraws(draws, |listed|) && i < |listed|
    ensures Verifies(seed, Draw(seed, listed, draws, quota, waitlistSize)[i]) <==>
            Shuffled(listed, draws)[i] == listed[i]
  {
    var row := Draw(seed, listed, draws, quota, waitlistSize)[i];
    assert row.entry == listed[i] && row.digest == Digest(seed, row.rank, Shuffled(listed, draws)[i]);
  }

  /** Every recorded row verifies exactly when every position drew itself. */
  lemma RowsVerifyExactlyWhen(seed: nat, listed: seq<EntryId>, draws: seq<nat>, quota: nat, waitlistSize: nat)
    requires ValidDraws(draws, |listed|) && Distinct(listed)
    ensures (forall i :: 0 <= i < |listed| ==> Verifies(seed, Draw(seed, listed, draws, quota, waitlistSize)[i])) <==>
            forall k :: 0 <= k < |listed| ==> draws[k] == k
  {
    NothingMovesExactlyWhen(listed, draws);
    forall i | 0 <= i < |listed|
      ensures Verifies(seed, Draw(seed, listed, draws, quota, waitlistSize)[i]) <==>
              Shuffled(listed, draws)[i] == listed[i]
    {
      RowVerifiesExactlyWhen(seed, listed, draws, quota, waitlistSize, i);
    }
  }

  /** A draw of one winner out of two whose recorded winner is not the drawn one; neither row verifies. */
  lemma DrawThatFails(seed: nat)
    ensures var rows := Draw(seed, [1, 2], [0, 0], 1, 0);
            && Winners(rows) == {1} && Winners(Assign(seed, Shuffled([1, 2], [0, 0]), 1, 0)) == {2}
            && forall i :: 0 <= i < 2 ==> !Verifies(seed, rows[i])
  {
    assert Shuffled([1, 2], [0, 0]) == [2, 1] by {
      assert Swap([1, 2], 1, 0) == [2, 1];
      assert ShuffleFrom([2, 1], [0, 0], 1) == [2, 1];
    }
    RecordedWinners(seed, [1, 2], [0, 0], 1, 0);
    AssignedWinners(seed, [2, 1], 1, 0);
    assert First([1, 2], 1) == [1] && First([2, 1], 1) == [2];
    RowVerifiesExactlyWhen(seed, [1, 2], [0, 0], 1, 0, 0);
    RowVerifiesExactlyWhen(seed, [1, 2], [0, 0], 1, 0, 1);
  }

  /** As many winners as the quota allows, as far as the entries go. */
  lemma WinnerCount(seed: nat, listed: seq<EntryId>, draws: seq<nat>, quota: nat, waitlistSize: nat)
    requires ValidDraws(draws, |listed|) && Distinct(listed)
    ensures |Winners(Draw(seed, listed, draws, quota, waitlistSize))| == if quota < |listed| then quota else |listed|
  {
    RecordedWinners(seed, listed, draws, quota, waitlistSize);
    DistinctCardinality(First(listed, quota));
  }
}
