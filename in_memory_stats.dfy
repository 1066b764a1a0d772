/**
 * The value of one in-memory `WordleStats` record (utils/score_handler.py and
 * handlers/score_handler.py keep the same five fields), and the lazy streak
 * decay both revisions apply when stats are read.
 */
module InMemoryStats {
  import opened Leaderboard

  /** `_username`, `_num_games`, `_streak`, `_score_avg`, `_last_game`. */
  datatype Stats = Stats(username: string, numGames: int, streak: int, scoreAvg: real, lastGame: int)

  /**
   * How `update_stats` ended: the duplicate-edition message, a counted
   * result (`None`), or the ZeroDivisionError raised when the incremented
   * game count is zero.
   */
  datatype Outcome = AlreadyComputed | Counted | DivisionByZero

  /** The record a first result creates. */
  function Initial(username: string, edition: int, tries: real): Stats
  {
    Stats(username, 1, 1, tries, edition)
  }

  /**
   * `update_streak`: a record whose last game is older than the chat's latest
   * edition loses its streak; the flag says whether that happened.
   */
  function Decayed(s: Stats, latest: int): (Stats, bool)
  {
    if s.lastGame < latest then (s.(streak := 0), true) else (s, false)
  }

  /** The decay touches the streak only, exactly when the record is stale, and reports it. */
  lemma DecayedResets(s: Stats, latest: int)
    ensures var (d, reset) := Decayed(s, latest);
      && (reset <==> s.lastGame < latest)
      && d.streak == (if reset then 0 else s.streak)
      && d.(streak := s.streak) == s
  {
  }

  /** Applying the decay twice is the same as applying it once, and reports the same. */
  lemma DecayedIdempotent(s: Stats, latest: int)
    ensures Decayed(Decayed(s, latest).0, latest) == Decayed(s, latest)
  {
  }

  /** A record that was just submitted for the chat's latest edition keeps its streak. */
  lemma DecayedSparesLatest(s: Stats, latest: int)
    requires s.lastGame >= latest
    ensures Decayed(s, latest) == (s, false)
  {
  }

  /** Every member of a chat after the decay pass. */
  function DecayAll(users: map<int, Stats>, latest: int): (r: map<int, Stats>)
    ensures r.Keys == users.Keys
    ensures forall id :: id in users && users[id].lastGame < latest ==> r[id] == users[id].(streak := 0)
    ensures forall id :: id in users && users[id].lastGame >= latest ==> r[id] == users[id]
  {
    map id | id in users :: Decayed(users[id], latest).0
  }

  /** Some member of the chat is stale, so the decay pass resets at least one streak. */
  predicate AnyStale(users: map<int, Stats>, latest: int)
  {
    exists id :: id in users && users[id].lastGame < latest
  }

  /** Some member among `ids` is stale. */
  predicate StaleAmong(users: map<int, Stats>, ids: set<int>, latest: int)
  {
    exists id :: id in ids && id in users && users[id].lastGame < latest
  }

  /** Looking at one more member adds its own staleness to the flag. */
  lemma StaleAmongAdd(users: map<int, Stats>, ids: set<int>, id: int, latest: int)
    requires id in users
    ensures StaleAmong(users, ids + {id}, latest) <==> StaleAmong(users, ids, latest) || users[id].lastGame < latest
  {
    if users[id].lastGame < latest {
      assert id in ids + {id};
    }
  }

  /** The decay pass changes the chat exactly when some member is stale. */
  lemma DecayAllChangesIffStale(users: map<int, Stats>, latest: int)
    ensures DecayAll(users, latest) != users <==> exists id :: id in users && users[id].lastGame < latest && users[id].streak != 0
  {
    if exists id :: id in users && users[id].lastGame < latest && users[id].streak != 0 {
      var id :| id in users && users[id].lastGame < latest && users[id].streak != 0;
      assert DecayAll(users, latest)[id].streak == 0;
    } else {
      assert forall id :: id in users ==> Decayed(users[id], latest).0 == users[id];
    }
  }

  /** Partway through the decay pass: the members in `done` are decayed, the others untouched. */
  ghost predicate PartlyDecayed(current: map<int, Stats>, start: map<int, Stats>, final: map<int, Stats>, done: set<int>)
  {
    && current.Keys == start.Keys == final.Keys
    && forall id :: id in current ==> current[id] == if id in done then final[id] else start[id]
  }

  /** Decaying one more member moves the pass forward by that member. */
  lemma PartlyDecayedAdd(current: map<int, Stats>, start: map<int, Stats>, final: map<int, Stats>, done: set<int>, id: int)
    requires PartlyDecayed(current, start, final, done) && id in current
    ensures PartlyDecayed(current[id := final[id]], start, final, done + {id})
  {
  }

  /** Once every member is done, the chat is the fully decayed one. */
  lemma PartlyDecayedAll(current: map<int, Stats>, start: map<int, Stats>, final: map<int, Stats>, done: set<int>)
    requires PartlyDecayed(current, start, final, done) && done == current.Keys
    ensures current == final
  {
    assert forall id :: id in current ==> current[id] == final[id];
  }

  /** One leaderboard row: the member's name, game count, streak and average. */
  function RowOf(id: int, s: Stats): Row
  {
    Row(id, s.username, s.numGames, s.streak, s.scoreAvg)
  }

  /**
   * `rows` is a leaderboard of `users`: ascending by average, no row twice,
   * every row showing one member's stats, and every member shown.
   */
  ghost predicate IsLeaderboard(rows: seq<Row>, users: map<int, Stats>)
  {
    && SortedByAvg(rows)
    && |rows| == |users|
    && (forall r :: multiset(rows)[r] <= 1)
    && (forall r :: r in rows ==> r.userId in users && r == RowOf(r.userId, users[r.userId]))
    && (forall id :: id in users ==> RowOf(id, users[id]) in rows)
  }

  /** A value that occurs at two positions of a sequence occurs at least twice in its multiset. */
  lemma {:induction false} TwoPositionsCountTwice<T>(s: seq<T>, i: nat, j: nat)
    requires i < j < |s| && s[i] == s[j]
    ensures multiset(s)[s[i]] >= 2
  {
    assert s == s[..j] + [s[j]] + s[j + 1..];
    assert s[i] in s[..j];
    assert multiset(s)[s[i]] == multiset(s[..j])[s[i]] + 1 + multiset(s[j + 1..])[s[i]];
  }

  /** On a leaderboard every member holds exactly one rank. */
  lemma LeaderboardRanksDistinct(rows: seq<Row>, users: map<int, Stats>)
    requires IsLeaderboard(rows, users)
    ensures forall i, j :: 0 <= i < j < |rows| ==> rows[i].userId != rows[j].userId
  {
    forall i, j | 0 <= i < j < |rows|
      ensures rows[i].userId != rows[j].userId
    {
      if rows[i].userId == rows[j].userId {
        assert rows[i] in rows && rows[j] in rows;
        assert rows[i] == rows[j];
        TwoPositionsCountTwice(rows, i, j);
        assert false;
      }
    }
  }

  /** `rows` holds, once each, the rows of exactly the members in `ids`. */
  ghost predicate RowsOf(rows: seq<Row>, users: map<int, Stats>, ids: set<int>)
  {
    && ids <= users.Keys
    && |rows| == |ids|
    && (forall r :: multiset(rows)[r] <= 1)
    && (forall r :: r in rows ==> r.userId in ids && r == RowOf(r.userId, users[r.userId]))
    && (forall id :: id in ids ==> RowOf(id, users[id]) in rows)
  }

  /** Appending the row of one more member keeps the rows one per member. */
  lemma RowsOfAdd(rows: seq<Row>, users: map<int, Stats>, ids: set<int>, id: int)
    requires RowsOf(rows, users, ids) && id in users && id !in ids
    ensures RowsOf(rows + [RowOf(id, users[id])], users, ids + {id})
  {
    var row := RowOf(id, users[id]);
    assert row !in rows;
    var rows' := rows + [row];
    forall r | r in rows'
      ensures r.userId in ids + {id} && r == RowOf(r.userId, users[r.userId])
    {
      if r != row {
        assert r in rows;
      }
    }
  }

  /**
   * Partway through the decay pass over a chat that held `start`: the
   * members in `done` are decayed, and the flag says whether one of them was
   * stale.
   */
  ghost predicate DecayProgress(start: map<int, Stats>, latest: int, done: set<int>, current: map<int, Stats>, updated: bool)
  {
    && PartlyDecayed(current, start, DecayAll(start, latest), done)
    && (updated <==> StaleAmong(start, done, latest))
  }

  /** A set of members with no member in it is empty (so a non-empty one has a member to pick). */
  lemma NoMemberIsEmpty(ids: set<int>)
    ensures (forall id :: id !in ids) ==> ids == {}
  {
    if forall id :: id !in ids {
      assert forall id :: id in ids <==> id in {};
      assert ids == {};
    }
  }

  /** Taking one member off the to-do list adds it to the members done. */
  lemma TakeOne(keys: set<int>, todo: set<int>, id: int)
    requires id in todo && todo <= keys
    ensures id !in keys - todo && (keys - todo) + {id} == keys - (todo - {id})
  {
  }

  /** Before the pass nothing is done. */
  lemma DecayProgressStart(start: map<int, Stats>, latest: int)
    ensures start.Keys - start.Keys == {}
    ensures DecayProgress(start, latest, {}, start, false)
    ensures RowsOf([], DecayAll(start, latest), {})
  {
  }

  /** Decaying member `id` moves the pass forward by that member. */
  lemma DecayProgressStep(start: map<int, Stats>, latest: int, done: set<int>, current: map<int, Stats>,
                          updated: bool, id: int)
    requires DecayProgress(start, latest, done, current, updated) && id in current && id !in done
    ensures current[id] == start[id]
    ensures var d := Decayed(current[id], latest);
      && d.0 == DecayAll(start, latest)[id]
      && DecayProgress(start, latest, done + {id}, current[id := d.0], updated || d.1)
  {
    PartlyDecayedAdd(current, start, DecayAll(start, latest), done, id);
    StaleAmongAdd(start, done, id, latest);
  }

  /** Once every member is done, the chat is fully decayed and the flag is complete. */
  lemma DecayProgressDone(start: map<int, Stats>, latest: int, done: set<int>, current: map<int, Stats>, updated: bool)
    requires DecayProgress(start, latest, done, current, updated) && done == start.Keys
    ensures start.Keys - {} == start.Keys
    ensures current == DecayAll(start, latest)
    ensures updated <==> AnyStale(start, latest)
  {
    PartlyDecayedAll(current, start, DecayAll(start, latest), done);
    assert StaleAmong(start, done, latest) == AnyStale(start, latest);
  }

  /** Sorting the rows of all members by average yields a leaderboard. */
  lemma SortedRowsAreLeaderboard(rows: seq<Row>, users: map<int, Stats>)
    requires RowsOf(rows, users, users.Keys)
    ensures IsLeaderboard(SortByAvg(rows), users)
  {
    var sorted := SortByAvg(rows);
    assert |users.Keys| == |users|;
    assert forall r :: r in sorted <==> r in rows by {
      forall r
        ensures r in sorted <==> r in rows
      {
        assert r in sorted <==> r in multiset(sorted);
        assert r in rows <==> r in multiset(rows);
      }
    }
  }
}
