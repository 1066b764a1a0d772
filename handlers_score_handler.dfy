/**
 * handlers/score_handler.py: the same in-memory `WordleStats` record as the
 * utils revision, except that the `score_avg` setter silently ignores any
 * value above 7.0.
 */
module HandlersScoreHandler {
  import opened Averages
  import opened InMemoryStats
  import UtilsScoreHandler

  /**
   * What `update_stats` does to a record in this revision: as in the utils
   * revision, but a new average above 7.0 is dropped by the setter while the
   * game count still goes up.
   */
  function Updated(s: Stats, edition: int, tries: real): (Stats, Outcome)
  {
    if edition == s.lastGame then (s, AlreadyComputed)
    else
      var streak := if edition > s.lastGame then (if edition == s.lastGame + 1 then s.streak + 1 else 1) else s.streak;
      var lastGame := if edition > s.lastGame then edition else s.lastGame;
      var t := s.(streak := streak, lastGame := lastGame, numGames := s.numGames + 1);
      if s.numGames + 1 == 0 then (t, DivisionByZero)
      else
        var avg := FoldIn(s.scoreAvg, s.numGames, tries);
        (t.(scoreAvg := if avg <= MaxAvg then avg else s.scoreAvg), Counted)
  }

  class WordleStats {
    var username: string
    var numGames: int
    var streak: int
    var scoreAvg: real
    var lastGame: int

    /** The record's five fields as a value. */
    function Value(): Stats
      reads this
    {
      Stats(username, numGames, streak, scoreAvg, lastGame)
    }

    /** A first result: one game, streak one, the result as the average. */
    constructor (username: string, edition: int, tries: real)
      ensures Value() == Initial(username, edition, tries)
    {
      this.username := username;
      numGames := 1;
      streak := 1;
      scoreAvg := tries;
      lastGame := edition;
    }

    method SetUsername(username: string)
      modifies this
      ensures Value() == old(Value()).(username := username)
    {
      this.username := username;
    }

    method SetNumGames(numGames: int)
      modifies this
      ensures Value() == old(Value()).(numGames := numGames)
    {
      this.numGames := numGames;
    }

    method SetStreak(streak: int)
      modifies this
      ensures Value() == old(Value()).(streak := streak)
    {
      this.streak := streak;
    }

    /** The guarded setter: a value above 7.0 leaves the average as it was. */
    method SetScoreAvg(scoreAvg: real)
      modifies this
      ensures this.scoreAvg == if scoreAvg <= MaxAvg then scoreAvg else old(this.scoreAvg)
      ensures old(this.scoreAvg) <= MaxAvg ==> this.scoreAvg <= MaxAvg
      ensures Value() == old(Value()).(scoreAvg := this.scoreAvg)
    {
      if scoreAvg <= 7.0 {
        this.scoreAvg := scoreAvg;
      }
    }

    /** The `last_game` setter only ever moves the value forward. */
    method SetLastGame(edition: int)
      modifies this
      ensures lastGame >= old(lastGame) && lastGame >= edition
      ensures lastGame == old(lastGame) || lastGame == edition
      ensures Value() == old(Value()).(lastGame := lastGame)
    {
      if edition > lastGame {
        lastGame := edition;
      }
    }

    /** `update_stats`, step by step through the setters. */
    method UpdateStats(edition: int, tries: real) returns (outcome: Outcome)
      modifies this
      ensures (Value(), outcome) == Updated(old(Value()), edition, tries)
    {
      ghost var before := Value();
      if edition == lastGame {
        return AlreadyComputed;
      } else if edition >= lastGame {
        if edition == lastGame + 1 {
          SetStreak(streak + 1);
        } else {
          SetStreak(1);
        }
        SetLastGame(edition);
      }
      SetNumGames(numGames + 1);
      if numGames == 0 {
        return DivisionByZero;
      }
      var avg := (scoreAvg * (numGames - 1) as real + tries) / numGames as real;
      assert (before.numGames + 1) as real == numGames as real;
      assert avg == FoldIn(before.scoreAvg, before.numGames, tries);
      SetScoreAvg(avg);
      return Counted;
    }

    /** `update_streak`: the lazy decay against the chat's latest edition. */
    method UpdateStreak(latest: int) returns (reset: bool)
      modifies this
      ensures (Value(), reset) == Decayed(old(Value()), latest)
    {
      if lastGame < latest {
        SetStreak(0);
        return true;
      } else {
        return false;
      }
    }

    /**
     * `print_stats`: decays the record first, then reports it (the text
     * formatting is not modelled) with the flag of that decay.
     */
    method PrintStats(latest: int) returns (stats: Stats, updated: bool)
      modifies this
      ensures (stats, updated) == Decayed(old(Value()), latest) && Value() == stats
    {
      updated := UpdateStreak(latest);
      stats := Value();
    }
  }

  /** Whatever the result, an average that was at most 7.0 stays at most 7.0. */
  lemma GuardKeepsAverageBounded(s: Stats, edition: int, tries: real)
    requires s.scoreAvg <= MaxAvg
    ensures Updated(s, edition, tries).0.scoreAvg <= MaxAvg
  {
  }

  /**
   * The guard drops a counted result whose weighted mean exceeds 7.0: the
   * game is still counted, the average is not moved.
   */
  lemma GuardDropsLargeMean(s: Stats, edition: int, tries: real)
    requires edition != s.lastGame && s.numGames != -1
    requires FoldIn(s.scoreAvg, s.numGames, tries) > MaxAvg
    ensures Updated(s, edition, tries).0 == UtilsScoreHandler.Updated(s, edition, tries).0.(scoreAvg := s.scoreAvg)
  {
  }

  /**
   * From sane values (a non-negative count, average and tries within
   * `[0, 7]`) the guard never fires, and this revision behaves exactly like
   * the utils revision, so everything proved there holds here too.
   */
  lemma AgreesWithUtilsInRange(s: Stats, edition: int, tries: real)
    requires s.numGames >= 0 && 0.0 <= s.scoreAvg <= MaxAvg && 0.0 <= tries <= MaxAvg
    ensures Updated(s, edition, tries) == UtilsScoreHandler.Updated(s, edition, tries)
  {
    if edition != s.lastGame {
      UtilsScoreHandler.UpdatedAverage(s, edition, tries);
    }
  }
}
