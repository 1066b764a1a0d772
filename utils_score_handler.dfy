/**
 * utils/score_handler.py: the in-memory `WordleStats` record of one user in
 * one chat. Results are folded in through the property setters; there is no
 * retroactive switch, so a result for an older edition is always counted.
 */
module UtilsScoreHandler {
  import opened Averages
  import opened InMemoryStats
  import opened MessageHandler

  /**
   * What `update_stats` does to a record: the new record and how the call
   * ended. On a ZeroDivisionError the streak, last game and game count have
   * already been written, the average has not.
   */
  function Updated(s: Stats, edition: int, tries: real): (Stats, Outcome)
  {
    if edition == s.lastGame then (s, AlreadyComputed)
    else
      var streak := if edition > s.lastGame then (if edition == s.lastGame + 1 then s.streak + 1 else 1) else s.streak;
      var lastGame := if edition > s.lastGame then edition else s.lastGame;
      var t := s.(streak := streak, lastGame := lastGame, numGames := s.numGames + 1);
      if s.numGames + 1 == 0 then (t, DivisionByZero)
      else (t.(scoreAvg := FoldIn(s.scoreAvg, s.numGames, tries)), Counted)
  }

  class WordleStats {
    var username: string
    var numGames: int
    var streak: int
    var scoreAvg: real
    var lastGame: int

    /** The record's five fields as a value. */
    function Value(): Stats
      reads this
    {
      Stats(username, numGames, streak, scoreAvg, lastGame)
    }

    /** A first result: one game, streak one, the result as the average. */
    constructor (username: string, edition: int, tries: real)
      ensures Value() == Initial(username, edition, tries)
    {
      this.username := username;
      numGames := 1;
      streak := 1;
      scoreAvg := tries;
      lastGame := edition;
    }

    method SetUsername(username: string)
      modifies this
      ensures Value() == old(Value()).(username := username)
    {
      this.username := username;
    }

    method SetNumGames(numGames: int)
      modifies this
      ensures Value() == old(Value()).(numGames := numGames)
    {
      this.numGames := numGames;
    }

    method SetStreak(streak: int)
      modifies this
      ensures Value() == old(Value()).(streak := streak)
    {
      this.streak := streak;
    }

    method SetScoreAvg(scoreAvg: real)
      modifies this
      ensures Value() == old(Value()).(scoreAvg := scoreAvg)
    {
      this.scoreAvg := scoreAvg;
    }

    /** The `last_game` setter only ever moves the value forward. */
    method SetLastGame(edition: int)
      modifies this
      ensures lastGame >= old(lastGame) && lastGame >= edition
      ensures lastGame == old(lastGame) || lastGame == edition
      ensures Value() == old(Value()).(lastGame := lastGame)
    {
      if edition > lastGame {
        lastGame := edition;
      }
    }

    /** `update_stats`, step by step through the setters. */
    method UpdateStats(edition: int, tries: real) returns (outcome: Outcome)
      modifies this
      ensures (Value(), outcome) == Updated(old(Value()), edition, tries)
    {
      ghost var before := Value();
      if edition == lastGame {
        return AlreadyComputed;
      } else if edition >= lastGame {
        if edition == lastGame + 1 {
          SetStreak(streak + 1);
        } else {
          SetStreak(1);
        }
        SetLastGame(edition);
      }
      SetNumGames(numGames + 1);
      if numGames == 0 {
        return DivisionByZero;
      }
      var avg := (scoreAvg * (numGames - 1) as real + tries) / numGames as real;
      assert (before.numGames + 1) as real == numGames as real;
      assert avg == FoldIn(before.scoreAvg, before.numGames, tries);
      SetScoreAvg(avg);
      return Counted;
    }

    /** `update_streak`: the lazy decay against the chat's latest edition. */
    method UpdateStreak(latest: int) returns (reset: bool)
      modifies this
      ensures (Value(), reset) == Decayed(old(Value()), latest)
    {
      if lastGame < latest {
        SetStreak(0);
        return true;
      } else {
        return false;
      }
    }

    /**
     * `print_stats`: decays the record first, then reports it (the text
     * formatting is not modelled) with the flag of that decay.
     */
    method PrintStats(latest: int) returns (stats: Stats, updated: bool)
      modifies this
      ensures (stats, updated) == Decayed(old(Value()), latest) && Value() == stats
    {
      updated := UpdateStreak(latest);
      stats := Value();
    }
  }

  /**
   * The case split of `update_stats`: a repeated edition changes nothing; any
   * other result adds a game; a newer edition extends the streak when it is
   * the next one and restarts it otherwise; an older one keeps streak and
   * last game.
   */
  lemma UpdatedCases(s: Stats, edition: int, tries: real)
    ensures var (r, outcome) := Updated(s, edition, tries);
      && (edition == s.lastGame <==> outcome == AlreadyComputed)
      && (edition == s.lastGame ==> r == s)
      && (edition != s.lastGame ==> r.numGames == s.numGames + 1 && r.username == s.username)
      && (edition == s.lastGame + 1 ==> r.streak == s.streak + 1 && r.lastGame == edition)
      && (edition > s.lastGame + 1 ==> r.streak == 1 && r.lastGame == edition)
      && (edition < s.lastGame ==> r.streak == s.streak && r.lastGame == s.lastGame)
      && (outcome == DivisionByZero <==> edition != s.lastGame && s.numGames == -1)
  {
  }

  /** A counted result moves the average to the weighted mean and, from sane values, keeps it in `[0, 7]`. */
  lemma UpdatedAverage(s: Stats, edition: int, tries: real)
    requires edition != s.lastGame && s.numGames >= 0
    ensures var (r, outcome) := Updated(s, edition, tries);
      && outcome == Counted
      && r.scoreAvg * r.numGames as real == s.scoreAvg * s.numGames as real + tries
      && (0.0 <= s.scoreAvg <= MaxAvg && 0.0 <= tries <= MaxAvg ==> 0.0 <= r.scoreAvg <= MaxAvg)
  {
  }

  /** The last game played never moves backwards: it becomes the larger of the two editions. */
  lemma UpdatedLastGameMonotone(s: Stats, edition: int, tries: real)
    ensures Updated(s, edition, tries).0.lastGame == if edition > s.lastGame then edition else s.lastGame
  {
  }

  /** The record after a sequence of results, each passed to `update_stats` in turn. */
  function Feed(s: Stats, games: seq<Score>): Stats
  {
    if games == [] then s
    else
      var g := games[|games| - 1];
      Updated(Feed(s, games[..|games| - 1]), g.edition, g.tries).0
  }

  /** The tries of those results in `games` that were counted (not repeats of the last edition). */
  function CountedTries(s: Stats, games: seq<Score>): seq<real>
  {
    if games == [] then []
    else
      var front, g := games[..|games| - 1], games[|games| - 1];
      if g.edition == Feed(s, front).lastGame then CountedTries(s, front) else CountedTries(s, front) + [g.tries]
  }

  /** A counted result adds one game and folds its tries into the average. */
  lemma UpdatedCounts(s: Stats, edition: int, tries: real)
    requires edition != s.lastGame && s.numGames != -1
    ensures Updated(s, edition, tries).0.numGames == s.numGames + 1
    ensures Updated(s, edition, tries).0.scoreAvg == FoldIn(s.scoreAvg, s.numGames, tries)
  {
  }

  /** `Running` of a history extended by one result folds that result in. */
  lemma RunningStep(ts: seq<real>, t: real)
    requires |ts| > 0
    ensures Running(ts + [t]) == FoldIn(Running(ts), |ts|, t)
  {
    assert (ts + [t])[..|ts|] == ts;
  }

  /** The stored count and average are those of the counted history, folded in one at a time. */
  lemma {:induction false} FeedIsRunning(username: string, e0: int, t0: real, games: seq<Score>)
    ensures var ts := [t0] + CountedTries(Initial(username, e0, t0), games);
      var f := Feed(Initial(username, e0, t0), games);
      f.numGames == |ts| && f.scoreAvg == Running(ts)
  {
    var init := Initial(username, e0, t0);
    if games != [] {
      var front, g := games[..|games| - 1], games[|games| - 1];
      FeedIsRunning(username, e0, t0, front);
      var prevTs := [t0] + CountedTries(init, front);
      var prev := Feed(init, front);
      assert Feed(init, games) == Updated(prev, g.edition, g.tries).0;
      if g.edition != prev.lastGame {
        var ts := prevTs + [g.tries];
        assert CountedTries(init, games) == CountedTries(init, front) + [g.tries];
        assert [t0] + CountedTries(init, games) == ts;
        assert ts[..|ts| - 1] == prevTs;
        RunningStep(prevTs, g.tries);
        UpdatedCounts(prev, g.edition, g.tries);
      } else {
        assert CountedTries(init, games) == CountedTries(init, front);
      }
    }
  }

  /**
   * Whatever order the results arrive in, the stored game count is the number
   * of counted results and the stored average is their plain mean.
   */
  lemma FeedAverageIsMean(username: string, e0: int, t0: real, games: seq<Score>)
    ensures var ts := [t0] + CountedTries(Initial(username, e0, t0), games);
      var f := Feed(Initial(username, e0, t0), games);
      f.numGames == |ts| && f.scoreAvg == Mean(ts)
  {
    FeedIsRunning(username, e0, t0, games);
    RunningIsMean([t0] + CountedTries(Initial(username, e0, t0), games));
  }

  /** The last game recorded is the newest edition ever submitted. */
  lemma {:induction false} FeedLastGameIsMax(s: Stats, games: seq<Score>)
    ensures var f := Feed(s, games);
      && f.lastGame >= s.lastGame
      && (forall i :: 0 <= i < |games| ==> games[i].edition <= f.lastGame)
      && (f.lastGame == s.lastGame || exists i :: 0 <= i < |games| && games[i].edition == f.lastGame)
  {
    if games != [] {
      var front := games[..|games| - 1];
      FeedLastGameIsMax(s, front);
      var f := Feed(s, games);
      var prev := Feed(s, front);
      if f.lastGame != prev.lastGame {
        assert games[|games| - 1].edition == f.lastGame;
      } else if f.lastGame != s.lastGame {
        var i :| 0 <= i < |front| && front[i].edition == prev.lastGame;
        assert games[i].edition == f.lastGame;
      }
    }
  }

  /** Results for consecutive editions, one a day, build a streak of that many days and are all counted. */
  lemma {:induction false} ConsecutiveStreak(username: string, e0: int, t0: real, games: seq<Score>)
    requires forall i :: 0 <= i < |games| ==> games[i].edition == e0 + i + 1
    ensures var init := Initial(username, e0, t0);
      var f := Feed(init, games);
      && f.streak == |games| + 1
      && f.lastGame == e0 + |games|
      && |CountedTries(init, games)| == |games|
  {
    if games != [] {
      ConsecutiveStreak(username, e0, t0, games[..|games| - 1]);
    }
  }
}
