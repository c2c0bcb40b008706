/** The `pickup_spots` table as an in-memory sequence of rows in insertion
    order, and the two aggregates the points query computes over it: the rows
    of one user (`WHERE user_id = ...`) and the sum of their points. */
module Ledger {
  import opened Common

  /** One row of `pickup_spots`. Latitude and longitude are carried, not computed with. */
  datatype PickupSpot = PickupSpot(
    id: nat,
    userId: int,
    latitude: real,
    longitude: real,
    createdAt: Timestamp,
    photoUrl: string,
    address: Option<string>,
    isDisposed: bool,
    points: nat
  )

  /** The rows of `userId`, in table order. */
  function RowsOf(rows: seq<PickupSpot>, userId: int): (mine: seq<PickupSpot>)
    ensures |mine| <= |rows|
    ensures forall p :: p in mine ==> p in rows && p.userId == userId
    ensures forall i :: 0 <= i < |rows| && rows[i].userId == userId ==> rows[i] in mine
    decreases |rows|
  {
    if rows == [] then []
    else
      var last := rows[|rows| - 1];
      RowsOf(rows[..|rows| - 1], userId) + (if last.userId == userId then [last] else [])
  }

  /** The filter is exact: each row of `userId` is listed as often as the
      table holds it, and no other row is listed. */
  lemma {:induction false} RowsOfCounts(rows: seq<PickupSpot>, userId: int, p: PickupSpot)
    ensures multiset(RowsOf(rows, userId))[p] == if p.userId == userId then multiset(rows)[p] else 0
    decreases |rows|
  {
    if rows != [] {
      var last := rows[|rows| - 1];
      assert rows == rows[..|rows| - 1] + [last];
      RowsOfCounts(rows[..|rows| - 1], userId, p);
    }
  }

  /** The sum of the points of `rows`. */
  function SumPoints(rows: seq<PickupSpot>): nat
    decreases |rows|
  {
    if rows == [] then 0 else SumPoints(rows[..|rows| - 1]) + rows[|rows| - 1].points
  }

  /** `SELECT SUM(points) ... WHERE user_id = userId`, with a NULL sum read
      as 0. No user holds more points than the whole table. */
  function TotalFor(rows: seq<PickupSpot>, userId: int): (total: nat)
    ensures total <= SumPoints(rows)
  {
    TotalAtMostSum(rows, userId);
    SumPoints(RowsOf(rows, userId))
  }

  lemma {:induction false} TotalAtMostSum(rows: seq<PickupSpot>, userId: int)
    ensures SumPoints(RowsOf(rows, userId)) <= SumPoints(rows)
    decreases |rows|
  {
    if rows != [] {
      var last := rows[|rows| - 1];
      TotalAtMostSum(rows[..|rows| - 1], userId);
      SumPointsAppend(RowsOf(rows[..|rows| - 1], userId), if last.userId == userId then [last] else []);
    }
  }

  lemma {:induction false} SumPointsAppend(a: seq<PickupSpot>, b: seq<PickupSpot>)
    ensures SumPoints(a + b) == SumPoints(a) + SumPoints(b)
    decreases |b|
  {
    if b == [] {
      assert a + b == a;
    } else {
      assert (a + b)[..|a + b| - 1] == a + b[..|b| - 1];
      SumPointsAppend(a, b[..|b| - 1]);
    }
  }

  lemma {:induction false} RowsOfAppend(a: seq<PickupSpot>, b: seq<PickupSpot>, userId: int)
    ensures RowsOf(a + b, userId) == RowsOf(a, userId) + RowsOf(b, userId)
    decreases |b|
  {
    if b == [] {
      assert a + b == a;
    } else {
      assert (a + b)[..|a + b| - 1] == a + b[..|b| - 1];
      RowsOfAppend(a, b[..|b| - 1], userId);
    }
  }

  /** The total of a user is additive over any split of the table. */
  lemma TotalForAppend(a: seq<PickupSpot>, b: seq<PickupSpot>, userId: int)
    ensures TotalFor(a + b, userId) == TotalFor(a, userId) + TotalFor(b, userId)
  {
    RowsOfAppend(a, b, userId);
    SumPointsAppend(RowsOf(a, userId), RowsOf(b, userId));
  }

  /** Appending one row changes only its own user's total, by its points. */
  lemma TotalAfterInsert(rows: seq<PickupSpot>, row: PickupSpot, userId: int)
    ensures TotalFor(rows + [row], userId)
            == TotalFor(rows, userId) + (if row.userId == userId then row.points else 0)
  {
    TotalForAppend(rows, [row], userId);
    assert RowsOf([row], userId) == RowsOf([], userId) + (if row.userId == userId then [row] else []);
  }

  /** A user without rows has no rows listed and a total of 0. */
  lemma {:induction false} NoRowsNoPoints(rows: seq<PickupSpot>, userId: int)
    requires forall i :: 0 <= i < |rows| ==> rows[i].userId != userId
    ensures RowsOf(rows, userId) == [] && TotalFor(rows, userId) == 0
    decreases |rows|
  {
    if rows != [] {
      NoRowsNoPoints(rows[..|rows| - 1], userId);
    }
  }

  /** A sequence is its prefix, its element at `k`, and its suffix. */
  lemma SplitAt<T>(b: seq<T>, k: nat)
    requires k < |b|
    ensures b == (b[..k] + [b[k]]) + b[k + 1..]
  {
  }

  /** Taking out the row at `k` takes out its points. */
  lemma SumPointsRemoveAt(b: seq<PickupSpot>, k: nat)
    requires k < |b|
    ensures SumPoints(b) == SumPoints(b[..k] + b[k + 1..]) + b[k].points
  {
    var pre, post := b[..k], b[k + 1..];
    calc {
      SumPoints(b);
      { SplitAt(b, k); }
      SumPoints((pre + [b[k]]) + post);
      { SumPointsAppend(pre + [b[k]], post); }
      SumPoints(pre + [b[k]]) + SumPoints(post);
      { assert (pre + [b[k]])[..|pre|] == pre; }
      SumPoints(pre) + b[k].points + SumPoints(post);
      { SumPointsAppend(pre, post); }
      SumPoints(pre + post) + b[k].points;
    }
  }

  /** Taking out the row at `k` takes out one copy of it. */
  lemma MultisetRemoveAt(b: seq<PickupSpot>, k: nat)
    requires k < |b|
    ensures multiset(b[..k] + b[k + 1..]) == multiset(b) - multiset{b[k]}
  {
    SplitAt(b, k);
    assert multiset(b) == multiset(b[..k]) + multiset{b[k]} + multiset(b[k + 1..]);
  }

  /** A user's total is the sum of the points of that user's rows, in any order. */
  lemma {:induction false} SumPointsPermutation(a: seq<PickupSpot>, b: seq<PickupSpot>)
    requires multiset(a) == multiset(b)
    ensures SumPoints(a) == SumPoints(b)
    decreases |a|
  {
    if a != [] {
      var last := a[|a| - 1];
      assert a == a[..|a| - 1] + [last];
      assert last in multiset(b);
      var k :| 0 <= k < |b| && b[k] == last;
      SumPointsRemoveAt(b, k);
      MultisetRemoveAt(b, k);
      assert multiset(a[..|a| - 1]) == multiset(a) - multiset{last};
      SumPointsPermutation(a[..|a| - 1], b[..k] + b[k + 1..]);
    }
  }
}
