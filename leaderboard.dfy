/**
 * Leaderboard rows and their ordering. Every revision hands the rows to
 * pandas' `sort_values` on the average column; that library sort is modelled
 * here by an insertion sort whose contract is the only thing the bot relies
 * on: the rows come out ascending by average and are a permutation of the
 * rows that went in. No order among rows with equal averages is promised.
 */
module Leaderboard {

  /**
   * One leaderboard line: name, games, streak and average of one user. The
   * user id is not shown by the bot; it records whose line this is.
   */
  datatype Row = Row(userId: int, name: string, games: int, streak: int, avg: real)

  /** Lower averages (fewer tries) rank first. */
  ghost predicate SortedByAvg(rows: seq<Row>)
  {
    forall i, j :: 0 <= i < j < |rows| ==> rows[i].avg <= rows[j].avg
  }

  /** Every row of `rows` has an average of at least `lo`. */
  ghost predicate AtLeast(lo: real, rows: seq<Row>)
  {
    forall k :: 0 <= k < |rows| ==> lo <= rows[k].avg
  }

  /** Places `x` into an already ordered sequence of rows. */
  function Insert(x: Row, rows: seq<Row>): (r: seq<Row>)
    requires SortedByAvg(rows)
    ensures SortedByAvg(r)
    ensures multiset(r) == multiset(rows) + multiset{x}
    ensures forall lo :: AtLeast(lo, rows) && lo <= x.avg ==> AtLeast(lo, r)
  {
    if rows == [] then [x]
    else if x.avg <= rows[0].avg then [x] + rows
    else
      assert rows == [rows[0]] + rows[1..];
      assert AtLeast(rows[0].avg, rows[1..]);
      [rows[0]] + Insert(x, rows[1..])
  }

  /** The rows ordered ascending by average, as `sort_values(by=['Avg.'])` returns them. */
  function SortByAvg(rows: seq<Row>): (r: seq<Row>)
    ensures SortedByAvg(r)
    ensures multiset(r) == multiset(rows)
    ensures |r| == |rows|
  {
    if rows == [] then []
    else
      assert rows == [rows[0]] + rows[1..];
      Insert(rows[0], SortByAvg(rows[1..]))
  }
}
