/**
 * classes/WordleStats.py: the newest revision, where every user is one
 * document of a collection keyed by user id. The collection is a map here;
 * `insert_one`, `update_one` with `$inc`/`$set`/`$addToSet`, `update_many`
 * and `delete_one` become reassignments of that map, and a raised exception
 * becomes an `Err` result.
 */
module ClassesWordleStats {
  import opened Wrappers
  import opened Averages
  import opened Leaderboard
  import opened InMemoryStats
  import opened Membership

  /** One user document. */
  datatype UserRecord = UserRecord(
    username: string,
    numGames: int,
    streak: int,
    scoreAvg: real,
    lastGame: int,
    lastActiveChat: int,
    memberOfChats: seq<int>,
    toggleRetroactive: bool,
    warning: bool)

  /** The `UserData` named tuple that `get_user_data` returns. */
  datatype UserData = UserData(
    username: string,
    numGames: int,
    streak: int,
    scoreAvg: real,
    lastGame: int,
    lastActiveChat: int,
    toggleRetroactive: bool)

  /** The exceptions the class raises, and Python's ZeroDivisionError. */
  datatype Error = UserNotFound | InvalidAvg | RetroactiveOff | ZeroDivision

  /** The commands of `manual_update`. */
  datatype ManualCommand =
    | SetName(name: string)
    | SetGames(games: int)
    | SetStreak(streak: int)
    | SetAverage(avg: real)
    | Adjust(oldGames: int, oldAvg: real)

  /** The record as `get_user_data` reports it. */
  function Summary(u: UserRecord): UserData
  {
    UserData(u.username, u.numGames, u.streak, u.scoreAvg, u.lastGame, u.lastActiveChat, u.toggleRetroactive)
  }

  /** The leaderboard fields of a record. */
  function StatsOf(u: UserRecord): Stats
  {
    Stats(u.username, u.numGames, u.streak, u.scoreAvg, u.lastGame)
  }

  /** `streak_check`: the filter for records whose streak has lapsed. */
  predicate StreakCheck(latest: int, lastGame: int)
  {
    lastGame <= latest - 2
  }

  /** `member_of_chat`: the `$addToSet` of a chat id to the record's chats. */
  function MemberOfChat(u: UserRecord, chatId: int): UserRecord
  {
    u.(memberOfChats := Joined(u.memberOfChats, chatId))
  }

  /** The document `insert_user_data` inserts. */
  function NewRecord(username: string, edition: int, tries: real, chatId: int): UserRecord
  {
    UserRecord(username, 1, 1, tries, edition, chatId, [chatId], false, true)
  }

  /** The `$set` of a streak to 0 for one record that `streak_check` selects. */
  function Decay(u: UserRecord, latest: int): UserRecord
  {
    if StreakCheck(latest, u.lastGame) then u.(streak := 0) else u
  }

  /** The members of a chat, as the leaderboard sees them. */
  function ChatStats(db: map<int, UserRecord>, chatId: int): map<int, Stats>
  {
    map id | id in db && chatId in db[id].memberOfChats :: StatsOf(db[id])
  }

  /** `insert_chat_member` on the collection: a no-op for an unknown user. */
  function WithMember(db: map<int, UserRecord>, userId: int, chatId: int): map<int, UserRecord>
  {
    if userId in db then db[userId := MemberOfChat(db[userId], chatId)] else db
  }

  /** The `update_many` of `print_leaderboard`: every lapsed member of the chat. */
  function DecayChat(db: map<int, UserRecord>, chatId: int, latest: int): map<int, UserRecord>
  {
    map id | id in db :: if chatId in db[id].memberOfChats then Decay(db[id], latest) else db[id]
  }

  /**
   * The `update_stats` update document: `$inc` of the game count and, when
   * `incStreak`, of the streak; `$set` of the average, of the streak to 1
   * when `resetStreak`, and of the last game when one is given; and the
   * `$addToSet` of the chat.
   */
  function ApplyUpdate(u: UserRecord, incStreak: bool, resetStreak: bool, lastGame: Option<int>, avg: real, chatId: int): UserRecord
  {
    MemberOfChat(u.(
      numGames := u.numGames + 1,
      streak := if incStreak then u.streak + 1 else if resetStreak then 1 else u.streak,
      scoreAvg := avg,
      lastGame := if lastGame.Some? then lastGame.value else u.lastGame), chatId)
  }

  /** What `update_stats` returns and the record it leaves. */
  datatype Submission = Submission(record: UserRecord, update: bool, message: bool)

  /**
   * The outcome of one share for a user, case by case: a new user; the same
   * edition again (only the active chat moves); a newer edition (next one
   * extends the streak, a gap restarts it); an older edition, refused unless
   * retroactive updates are on, and then counted without touching streak or
   * last game.
   */
  function Submit(rec: Option<UserRecord>, username: string, edition: int, tries: real, chatId: int): Result<Submission, Error>
  {
    if rec.None? then Ok(Submission(NewRecord(username, edition, tries, chatId), true, true))
    else
      var u := rec.value;
      if edition == u.lastGame then
        if u.lastActiveChat == chatId then Ok(Submission(u, false, true))
        else Ok(Submission(MemberOfChat(u.(lastActiveChat := chatId), chatId), false, false))
      else if edition < u.lastGame && !u.toggleRetroactive then Err(RetroactiveOff)
      else if u.numGames + 1 == 0 then Err(ZeroDivision)
      else
        var counted := MemberOfChat(u.(numGames := u.numGames + 1, scoreAvg := FoldIn(u.scoreAvg, u.numGames, tries)), chatId);
        if edition == u.lastGame + 1 then Ok(Submission(counted.(streak := u.streak + 1, lastGame := edition), true, false))
        else if edition > u.lastGame then Ok(Submission(counted.(streak := 1, lastGame := edition), true, false))
        else Ok(Submission(counted, true, false))
  }

  /** The record a successful `manual_update` leaves, before the `$addToSet`. */
  function SetField(u: UserRecord, cmd: ManualCommand): UserRecord
    requires !cmd.Adjust?
  {
    match cmd
    case SetName(n) => u.(username := n)
    case SetGames(g) => u.(numGames := g)
    case SetStreak(k) => u.(streak := k)
    case SetAverage(a) => u.(scoreAvg := a)
  }

  /**
   * The outcome of `manual_update`: the checks in the order the source makes
   * them, then the record and, for `adjust`, the new game count and average.
   */
  function ManualUpdated(rec: Option<UserRecord>, chatId: int, cmd: ManualCommand): Result<(UserRecord, Option<(int, real)>), Error>
  {
    if cmd.Adjust? then
      if rec.None? then Err(UserNotFound)
      else if cmd.oldAvg > MaxAvg then Err(InvalidAvg)
      else if rec.value.numGames + cmd.oldGames == 0 then Err(ZeroDivision)
      else
        var u := rec.value;
        var n := u.numGames + cmd.oldGames;
        var avg := Merge(cmd.oldAvg, cmd.oldGames, u.scoreAvg, u.numGames);
        Ok((MemberOfChat(u.(scoreAvg := avg, numGames := n), chatId), Some((n, avg))))
    else if cmd.SetAverage? && cmd.avg > MaxAvg then Err(InvalidAvg)
    else if rec.None? then Err(UserNotFound)
    else Ok((MemberOfChat(SetField(rec.value, cmd), chatId), None))
  }

  /** The record after `toggle`: one of the two switches flipped. */
  function Toggled(u: UserRecord, retroactive: bool): UserRecord
  {
    if retroactive then u.(toggleRetroactive := !u.toggleRetroactive) else u.(warning := !u.warning)
  }

  class WordleStats {
    var db: map<int, UserRecord>

    constructor (db: map<int, UserRecord>)
      ensures this.db == db
    {
      this.db := db;
    }

    /**
     * `toggle`: flips the retroactive switch or the warning switch and
     * returns its new state (an unknown user makes the lookup fail).
     */
    method Toggle(userId: int, retroactive: bool) returns (newState: bool)
      requires userId in db
      modifies this
      ensures db == old(db)[userId := Toggled(old(db)[userId], retroactive)]
      ensures newState == if retroactive then !old(db)[userId].toggleRetroactive else !old(db)[userId].warning
    {
      var oldState := if retroactive then db[userId].toggleRetroactive else db[userId].warning;
      newState := !oldState;
      if retroactive {
        db := db[userId := db[userId].(toggleRetroactive := newState)];
      } else {
        db := db[userId := db[userId].(warning := newState)];
      }
    }

    /** `get_user_data`: the record's summary, or `UserNotFound`. */
    function GetUserData(userId: int): (r: Result<UserData, Error>)
      reads this
      ensures r.Err? <==> userId !in db
      ensures r.Err? ==> r.error == UserNotFound
      ensures r.Ok? ==> r.value == Summary(db[userId])
    {
      if userId in db then Ok(Summary(db[userId])) else Err(UserNotFound)
    }

    /** `insert_user_data`: a first record; the collection refuses a second one with the same id. */
    method InsertUserData(userId: int, username: string, edition: int, tries: real, chatId: int)
      requires userId !in db
      modifies this
      ensures db == old(db)[userId := NewRecord(username, edition, tries, chatId)]
    {
      db := db[userId := NewRecord(username, edition, tries, chatId)];
    }

    /**
     * `update_stats`: the update document is assembled step by step from
     * the comparison of the edition with the stored last game, then applied.
     * Returns `(update, message)`.
     */
    method UpdateStats(userId: int, chatId: int, edition: int, tries: real, username: string)
      returns (r: Result<(bool, bool), Error>)
      modifies this
      ensures var s := Submit(if userId in old(db) then Some(old(db)[userId]) else None, username, edition, tries, chatId);
        && (s.Ok? ==> r == Ok((s.value.update, s.value.message)) && db == old(db)[userId := s.value.record])
        && (s.Err? ==> r == Err(s.error) && db == old(db))
    {
      var user := GetUserData(userId);
      if user.Err? {
        InsertUserData(userId, username, edition, tries, chatId);
        return Ok((true, true));
      }
      var u := user.value;
      var incStreak, resetStreak, lastGameUpdate := true, true, Some(edition);
      if edition == u.lastGame {
        if db[userId].lastActiveChat != chatId {
          db := db[userId := MemberOfChat(db[userId].(lastActiveChat := chatId), chatId)];
        }
        return Ok((false, u.lastActiveChat == chatId));
      } else if edition > u.lastGame {
        if edition == u.lastGame + 1 {
          resetStreak := false;
        } else {
          incStreak := false;
        }
      } else {
        incStreak, resetStreak, lastGameUpdate := false, false, None;
        if !u.toggleRetroactive {
          return Err(RetroactiveOff);
        }
      }
      if u.numGames + 1 == 0 {
        return Err(ZeroDivision);
      }
      var newAvg := FoldIn(u.scoreAvg, u.numGames, tries);
      db := db[userId := ApplyUpdate(db[userId], incStreak, resetStreak, lastGameUpdate, newAvg, chatId)];
      return Ok((true, false));
    }

    /**
     * `manual_update`: sets one field or merges earlier games into the
     * record, adding the chat to the record's chats. Returns the new game
     * count and average for `adjust`.
     */
    method ManualUpdate(userId: int, chatId: int, cmd: ManualCommand) returns (r: Result<Option<(int, real)>, Error>)
      modifies this
      ensures var m := ManualUpdated(if userId in old(db) then Some(old(db)[userId]) else None, chatId, cmd);
        && (m.Ok? ==> r == Ok(m.value.1) && db == old(db)[userId := m.value.0])
        && (m.Err? ==> r == Err(m.error) && db == old(db))
    {
      if !cmd.Adjust? {
        if cmd.SetAverage? && cmd.avg > MaxAvg {
          return Err(InvalidAvg);
        }
        if userId !in db {
          return Err(UserNotFound);
        }
        db := db[userId := MemberOfChat(SetField(db[userId], cmd), chatId)];
        return Ok(None);
      }
      var user := GetUserData(userId);
      if user.Err? {
        return Err(user.error);
      }
      var scoreAvg, numGames := user.value.scoreAvg, user.value.numGames;
      if cmd.oldAvg > MaxAvg {
        return Err(InvalidAvg);
      }
      var newGames := numGames + cmd.oldGames;
      if newGames == 0 {
        return Err(ZeroDivision);
      }
      var newAvg := Merge(cmd.oldAvg, cmd.oldGames, scoreAvg, numGames);
      db := db[userId := MemberOfChat(db[userId].(scoreAvg := newAvg, numGames := newGames), chatId)];
      return Ok(Some((newGames, newAvg)));
    }

    /** `insert_chat_member`: the `$addToSet` of the chat; no effect for an unknown user. */
    method InsertChatMember(userId: int, chatId: int)
      modifies this
      ensures db == WithMember(old(db), userId, chatId)
    {
      if userId in db {
        db := db[userId := MemberOfChat(db[userId], chatId)];
      }
    }

    /**
     * `print_stats`: joins the user to the chat, lets a lapsed streak fall to
     * 0, and reports the record (the text is not modelled).
     */
    method PrintStats(userId: int, chatId: int, latest: int) returns (r: Result<UserData, Error>)
      modifies this
      ensures userId !in old(db) ==> r == Err(UserNotFound) && db == old(db)
      ensures userId in old(db) ==>
        && db == old(db)[userId := Decay(MemberOfChat(old(db)[userId], chatId), latest)]
        && r == Ok(Summary(db[userId]))
    {
      InsertChatMember(userId, chatId);
      if userId in db && StreakCheck(latest, db[userId].lastGame) {
        db := db[userId := db[userId].(streak := 0)];
      }
      r := GetUserData(userId);
    }

    /** `clear`: deletes the record, or `UserNotFound` when nothing was deleted. */
    method Clear(userId: int) returns (r: Result<(), Error>)
      modifies this
      ensures userId in old(db) <==> r.Ok?
      ensures r.Err? ==> r.error == UserNotFound
      ensures db == old(db) - {userId}
    {
      if userId !in db {
        return Err(UserNotFound);
      }
      db := db - {userId};
      return Ok(());
    }

    /**
     * `get_chat_data`: one row per record that lists the chat, read off the
     * records (in no promised order), or `UserNotFound` when there is none.
     */
    method GetChatData(chatId: int) returns (r: Result<seq<Row>, Error>)
      ensures r.Err? <==> ChatStats(db, chatId) == map[]
      ensures r.Err? ==> r.error == UserNotFound
      ensures r.Ok? ==> RowsOf(r.value, ChatStats(db, chatId), ChatStats(db, chatId).Keys)
    {
      var members := ChatStats(db, chatId);
      var rows := [];
      var todo := members.Keys;
      while todo != {}
        invariant todo <= members.Keys
        invariant RowsOf(rows, members, members.Keys - todo)
        decreases todo
      {
        NoMemberIsEmpty(todo);
        var id :| id in todo;
        RowsOfAdd(rows, members, members.Keys - todo, id);
        TakeOne(members.Keys, todo, id);
        rows := rows + [RowOf(id, members[id])];
        todo := todo - {id};
      }
      assert members.Keys - {} == members.Keys;
      if rows == [] {
        NoMemberIsEmpty(members.Keys);
        return Err(UserNotFound);
      }
      return Ok(rows);
    }

    /**
     * `print_leaderboard`: joins the requesting user to the chat, lets every
     * lapsed streak in the chat fall to 0, and ranks the chat's members by
     * average; a chat without members gives `UserNotFound`.
     */
    method PrintLeaderboard(userId: int, chatId: int, latest: int) returns (r: Result<seq<Row>, Error>)
      modifies this
      ensures db == DecayChat(WithMember(old(db), userId, chatId), chatId, latest)
      ensures r.Err? <==> ChatStats(db, chatId) == map[]
      ensures r.Err? ==> r.error == UserNotFound
      ensures r.Ok? ==> IsLeaderboard(r.value, ChatStats(db, chatId))
    {
      InsertChatMember(userId, chatId);
      db := DecayChat(db, chatId, latest);
      var chatData := GetChatData(chatId);
      if chatData.Err? {
        return chatData;
      }
      SortedRowsAreLeaderboard(chatData.value, ChatStats(db, chatId));
      return Ok(SortByAvg(chatData.value));
    }
  }

  /** An unknown user gets the starting record and `(True, True)`. */
  lemma SubmitNewUser(username: string, edition: int, tries: real, chatId: int)
    ensures var s := Submit(None, username, edition, tries, chatId);
      && s.Ok? && s.value.update && s.value.message
      && var u := s.value.record;
      && u.numGames == 1 && u.streak == 1 && u.scoreAvg == tries && u.lastGame == edition
      && u.lastActiveChat == chatId && u.memberOfChats == [chatId]
      && !u.toggleRetroactive && u.warning
  {
  }

  /**
   * The same edition again counts nothing: only a different chat becomes
   * the active one (and joins the record's chats), and the message flag
   * says whether the share came from the active chat.
   */
  lemma SubmitSameEdition(u: UserRecord, username: string, tries: real, chatId: int)
    ensures var s := Submit(Some(u), username, u.lastGame, tries, chatId);
      && s.Ok? && !s.value.update
      && (s.value.message <==> u.lastActiveChat == chatId)
      && StatsOf(s.value.record) == StatsOf(u)
      && (u.lastActiveChat == chatId ==> s.value.record == u)
      && (u.lastActiveChat != chatId ==> s.value.record == MemberOfChat(u.(lastActiveChat := chatId), chatId))
  {
  }

  /**
   * A counted share adds one game and folds the tries into the mean; a next
   * edition extends the streak, a gap restarts it, an older edition keeps
   * streak and last game; the chat joins the record's chats and nothing else
   * changes.
   */
  lemma SubmitCounted(u: UserRecord, username: string, edition: int, tries: real, chatId: int)
    requires edition != u.lastGame && u.numGames + 1 != 0
    requires edition < u.lastGame ==> u.toggleRetroactive
    ensures var s := Submit(Some(u), username, edition, tries, chatId);
      && s.Ok? && s.value.update && !s.value.message
      && var t := s.value.record;
      && t.numGames == u.numGames + 1
      && t.scoreAvg * (u.numGames + 1) as real == u.scoreAvg * u.numGames as real + tries
      && (edition == u.lastGame + 1 ==> t.streak == u.streak + 1 && t.lastGame == edition)
      && (edition > u.lastGame + 1 ==> t.streak == 1 && t.lastGame == edition)
      && (edition < u.lastGame ==> t.streak == u.streak && t.lastGame == u.lastGame)
      && t.memberOfChats == Joined(u.memberOfChats, chatId)
      && t.username == u.username && t.lastActiveChat == u.lastActiveChat
      && t.toggleRetroactive == u.toggleRetroactive && t.warning == u.warning
  {
  }

  /** An older edition is refused, with nothing written, exactly when retroactive updates are off. */
  lemma SubmitOlderEdition(u: UserRecord, username: string, edition: int, tries: real, chatId: int)
    requires edition < u.lastGame
    ensures Submit(Some(u), username, edition, tries, chatId) == Err(RetroactiveOff) <==> !u.toggleRetroactive
  {
  }

  /** The last game never moves back, and a counted newer edition becomes the last game. */
  lemma SubmitLastGameMonotone(rec: Option<UserRecord>, username: string, edition: int, tries: real, chatId: int)
    requires rec.Some?
    ensures var s := Submit(rec, username, edition, tries, chatId);
      s.Ok? ==> s.value.record.lastGame == if edition > rec.value.lastGame then edition else rec.value.lastGame
  {
  }

  /** Starting from an average in [0, 7] with tries in [0, 7], a counted share keeps it there. */
  lemma SubmitKeepsAverageBounded(rec: Option<UserRecord>, username: string, edition: int, tries: real, chatId: int)
    requires 0.0 <= tries <= MaxAvg
    requires rec.Some? ==> 0 <= rec.value.numGames && 0.0 <= rec.value.scoreAvg <= MaxAvg
    ensures var s := Submit(rec, username, edition, tries, chatId);
      s.Ok? ==> 0.0 <= s.value.record.scoreAvg <= MaxAvg
  {
  }

  /**
   * Once a share of a new user or of an edition not older than the last
   * game has been counted, sharing the same edition again from the same
   * chat counts nothing, whatever the tries: no game, no average change.
   */
  lemma SameShareCountsOnce(rec: Option<UserRecord>, username: string, edition: int, tries: real, tries': real, chatId: int)
    requires rec.Some? ==> edition > rec.value.lastGame
    requires Submit(rec, username, edition, tries, chatId).Ok?
    ensures var first := Submit(rec, username, edition, tries, chatId).value.record;
      var again := Submit(Some(first), username, edition, tries', chatId);
      && again.Ok? && !again.value.update
      && StatsOf(again.value.record) == StatsOf(first)
  {
    var first := Submit(rec, username, edition, tries, chatId).value.record;
    assert first.lastGame == edition;
    SubmitSameEdition(first, username, tries', chatId);
  }

  /**
   * With retroactive updates on, the same older edition is counted every
   * time it is shared: nothing records which older editions were counted.
   */
  lemma OlderShareCountsEachTime(u: UserRecord, username: string, edition: int, tries: real, chatId: int)
    requires edition < u.lastGame && u.toggleRetroactive && 0 <= u.numGames
    ensures var first := Submit(Some(u), username, edition, tries, chatId);
      && first.Ok?
      && var again := Submit(Some(first.value.record), username, edition, tries, chatId);
      && again.Ok? && again.value.update
      && again.value.record.numGames == u.numGames + 2
  {
    SubmitCounted(u, username, edition, tries, chatId);
    var first := Submit(Some(u), username, edition, tries, chatId).value.record;
    SubmitCounted(first, username, edition, tries, chatId);
  }

  /**
   * The errors of `manual_update`, both ways: an average above 7.0 is
   * refused before anything else for `average` and after the user lookup
   * for `adjust`; a missing user is reported otherwise; an `adjust` that
   * leaves zero games divides by zero. A success joins the chat and never
   * touches the last game.
   */
  lemma ManualUpdateErrors(rec: Option<UserRecord>, chatId: int, cmd: ManualCommand)
    ensures var m := ManualUpdated(rec, chatId, cmd);
      && (m == Err(InvalidAvg) <==>
            (cmd.SetAverage? && cmd.avg > MaxAvg) || (cmd.Adjust? && rec.Some? && cmd.oldAvg > MaxAvg))
      && (m == Err(UserNotFound) <==> rec.None? && !(cmd.SetAverage? && cmd.avg > MaxAvg))
      && (m == Err(ZeroDivision) <==>
            cmd.Adjust? && rec.Some? && cmd.oldAvg <= MaxAvg && rec.value.numGames + cmd.oldGames == 0)
      && (m.Ok? ==> rec.Some? && chatId in m.value.0.memberOfChats && m.value.0.lastGame == rec.value.lastGame)
      && (m.Ok? ==> (m.value.1.Some? <==> cmd.Adjust?))
  {
  }

  /**
   * `adjust` merges two histories: when the record holds the mean of the
   * counted results and the command carries the length and mean of earlier
   * ones, the record afterwards holds the length and mean of all of them,
   * and those are what the call returns.
   */
  lemma AdjustMeanOfAll(u: UserRecord, chatId: int, earlier: seq<real>, counted: seq<real>)
    requires |earlier| > 0 && |counted| > 0
    requires u.numGames == |counted| && u.scoreAvg == Mean(counted) && Mean(earlier) <= MaxAvg
    ensures var m := ManualUpdated(Some(u), chatId, Adjust(|earlier|, Mean(earlier)));
      && m.Ok?
      && m.value.0.numGames == |earlier + counted| && m.value.0.scoreAvg == Mean(earlier + counted)
      && m.value.1 == Some((|earlier + counted|, Mean(earlier + counted)))
  {
    MergeIsMeanOfConcat(earlier, counted);
  }

  /** No successful manual update takes an average in [0, 7] out of that range, given non-negative inputs. */
  lemma ManualKeepsAverageBounded(u: UserRecord, chatId: int, cmd: ManualCommand)
    requires 0 <= u.numGames && 0.0 <= u.scoreAvg <= MaxAvg
    requires cmd.SetAverage? ==> 0.0 <= cmd.avg
    requires cmd.Adjust? ==> 0 <= cmd.oldGames && 0.0 <= cmd.oldAvg
    ensures var m := ManualUpdated(Some(u), chatId, cmd);
      m.Ok? ==> 0.0 <= m.value.0.scoreAvg <= MaxAvg
  {
  }

  /** `toggle` twice on the same switch restores the record. */
  lemma ToggleTwice(u: UserRecord, retroactive: bool)
    ensures Toggled(Toggled(u, retroactive), retroactive) == u
    ensures Toggled(u, retroactive) != u
  {
  }

  /**
   * The leaderboard decay sets the streak to 0 exactly for the chat's
   * members whose last game is at least two editions old, changes no other
   * field, and a second pass changes nothing.
   */
  lemma DecayChatResetsLapsed(db: map<int, UserRecord>, chatId: int, latest: int)
    ensures var d := DecayChat(db, chatId, latest);
      && d.Keys == db.Keys
      && (forall id :: id in db ==> d[id] == db[id].(streak := d[id].streak))
      && (forall id :: id in db ==>
            (d[id].streak == 0 || d[id].streak == db[id].streak)
            && (chatId in db[id].memberOfChats && StreakCheck(latest, db[id].lastGame) ==> d[id].streak == 0)
            && (!(chatId in db[id].memberOfChats && StreakCheck(latest, db[id].lastGame)) ==> d[id] == db[id]))
      && DecayChat(d, chatId, latest) == d
  {
    var d := DecayChat(db, chatId, latest);
    assert DecayChat(d, chatId, latest) == d by {
      forall id | id in d
        ensures DecayChat(d, chatId, latest)[id] == d[id]
      {
      }
    }
  }

  /**
   * The newest revision gives one edition of grace: whatever it decays the
   * in-memory revisions decay too, but a last game one edition behind the
   * latest keeps its streak here and loses it there.
   */
  lemma GraceDay(s: Stats, latest: int)
    ensures StreakCheck(latest, s.lastGame) ==> Decayed(s, latest).1
    ensures s.lastGame == latest - 1 ==> Decayed(s, latest).1 && !StreakCheck(latest, s.lastGame)
  {
  }

  /** The user who asks for the leaderboard is on it, if they have a record. */
  lemma RequesterOnLeaderboard(db: map<int, UserRecord>, userId: int, chatId: int, latest: int)
    requires userId in db
    ensures userId in ChatStats(DecayChat(WithMember(db, userId, chatId), chatId, latest), chatId)
  {
    var w := WithMember(db, userId, chatId);
    assert chatId in w[userId].memberOfChats;
    var d := DecayChat(w, chatId, latest);
    assert d[userId].memberOfChats == w[userId].memberOfChats;
  }
}
