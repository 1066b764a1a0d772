/**
 * Lists of ids that grow only by adding an id that is not there yet.
 */
module Membership {
  /** No member is listed twice. */
  predicate Distinct(s: seq<int>)
  {
    forall i, j :: 0 <= i < j < |s| ==> s[i] != s[j]
  }

  /**
   * Adding an id to a list only when it is absent: the bot's `is_in_chat`
   * followed by `append`, and the document store's `$addToSet`.
   */
  function Joined(members: seq<int>, userId: int): (r: seq<int>)
    ensures userId in r && members <= r
    ensures forall x :: x in r <==> x in members || x == userId
  {
    if userId in members then members else members + [userId]
  }

  /** An id in a list without repeats occurs in it exactly once. */
  lemma {:induction false} DistinctCountsOnce(s: seq<int>, x: int)
    requires Distinct(s) && x in s
    ensures multiset(s)[x] == 1
  {
    if s[0] == x {
      assert x !in s[1..];
    } else {
      assert x in s[1..];
      DistinctCountsOnce(s[1..], x);
    }
    assert s == [s[0]] + s[1..];
  }

  /** Joining keeps a list free of repeats, so the id is listed exactly once. */
  lemma JoinedListsOnce(members: seq<int>, userId: int)
    requires Distinct(members)
    ensures Distinct(Joined(members, userId))
    ensures multiset(Joined(members, userId))[userId] == 1
  {
    DistinctCountsOnce(Joined(members, userId), userId);
  }
}
