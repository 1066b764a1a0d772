/**
 * handlers/global_db_handler.py: the bot's state as a map from chat id to
 * that chat's `ChatDB`, and the command handlers that read and change it.
 * Replies are returned as values; the Telegram messages and the JSON file
 * are not modelled.
 */
module HandlersGlobalDbHandler {
  import opened Wrappers
  import opened Leaderboard
  import opened Averages
  import opened InMemoryStats
  import opened MessageHandler
  import opened HandlersScoreHandler
  import opened HandlersChatDbHandler

  /**
   * The `update_data` commands with their inputs: `name`, `games`, `streak`,
   * and any other command, which sets the score average.
   */
  datatype SetCommand = Name(name: string) | Games(games: int) | Streak(streak: int) | Average(avg: real)

  /** Replies of `update_data`. */
  datatype UpdateReply = NoUpdateData | Changed | AverageTooLarge

  /** Replies of `clear_data`: "No user/chat data to clear!" or one of the two confirmations. */
  datatype ClearReply = NothingToClear(ofUser: bool) | ClearedChat | ClearedUser

  /** Replies of `print_scores`: the no-data message, one member's stats, or the chat's ranking. */
  datatype ScoresReply = NoScoreData | UserStats(stats: Stats, updated: bool) | Ranking(rows: seq<Row>, updated: bool)

  /**
   * What one `update_data` command does to a record, and the reply: an
   * average above 7.0 is refused by the guarded setter and reported.
   */
  function Applied(s: Stats, cmd: SetCommand): (Stats, UpdateReply)
  {
    match cmd
    case Name(n) => (s.(username := n), Changed)
    case Games(g) => (s.(numGames := g), Changed)
    case Streak(k) => (s.(streak := k), Changed)
    case Average(a) =>
      if a > MaxAvg then (s, AverageTooLarge) else (s.(scoreAvg := a), Changed)
  }

  /**
   * A command changes exactly the field it names, an average is stored iff
   * it is at most 7.0, and the refusal is the only reply that leaves the
   * record as it was.
   */
  lemma AppliedChangesOnlyItsField(s: Stats, cmd: SetCommand)
    ensures var (t, reply) := Applied(s, cmd);
      && (reply == AverageTooLarge <==> cmd.Average? && cmd.avg > MaxAvg)
      && (reply == AverageTooLarge ==> t == s)
      && t.lastGame == s.lastGame
      && (cmd.Name? ==> t == s.(username := cmd.name))
      && (cmd.Games? ==> t == s.(numGames := cmd.games))
      && (cmd.Streak? ==> t == s.(streak := cmd.streak))
      && (cmd.Average? ==> (t.scoreAvg == cmd.avg <==> cmd.avg <= MaxAvg || cmd.avg == s.scoreAvg))
  {
  }

  /** No command can raise a stored average above 7.0. */
  lemma AppliedKeepsAverageBounded(s: Stats, cmd: SetCommand)
    requires s.scoreAvg <= MaxAvg
    ensures Applied(s, cmd).0.scoreAvg <= MaxAvg
  {
  }

  class GlobalDB {
    var globalData: map<int, ChatDB>

    /** Every chat is well formed and no two chats share an object. */
    ghost predicate Valid()
      reads this, globalData.Values
    {
      && (forall c :: c in globalData ==> globalData[c].Valid())
      && (forall c, d :: c in globalData && d in globalData && c != d ==> globalData[c].Repr() !! globalData[d].Repr())
    }

    constructor ()
      ensures Valid() && globalData == map[]
    {
      globalData := map[];
    }

    /** `get_chat_data`: the chat's table, or `None`. */
    function GetChatData(chatId: int): (r: Option<ChatDB>)
      reads this
      ensures r.Some? <==> chatId in globalData
      ensures r.Some? ==> r.value == globalData[chatId]
    {
      if chatId in globalData then Some(globalData[chatId]) else None
    }

    /**
     * `update_data`: an unknown chat gets the no-data reply; otherwise the
     * member's record takes the command. The record is read before its
     * `None` check, so the member must exist in a known chat.
     */
    method UpdateData(chatId: int, userId: int, cmd: SetCommand) returns (reply: UpdateReply)
      requires Valid()
      requires chatId in globalData ==> userId in globalData[chatId].chatData
      modifies if chatId in globalData then {globalData[chatId].chatData[userId]} else {}
      ensures Valid() && globalData == old(globalData)
      ensures chatId !in globalData ==> reply == NoUpdateData
      ensures chatId in globalData ==>
        var chat := globalData[chatId];
        && chat.chatData == old(chat.chatData)
        && (chat.Users()[userId], reply) == Applied(old(chat.Users())[userId], cmd)
        && chat.Users() == old(chat.Users())[userId := chat.Users()[userId]]
    {
      var chatData := GetChatData(chatId);
      if chatData.None? {
        return NoUpdateData;
      }
      var chat := chatData.value;
      ghost var before := chat.Users();
      var userData := chat.GetUserData(userId).value;
      match cmd {
        case Name(n) =>
          userData.SetUsername(n);
          reply := Changed;
        case Games(g) =>
          userData.SetNumGames(g);
          reply := Changed;
        case Streak(k) =>
          userData.SetStreak(k);
          reply := Changed;
        case Average(a) =>
          userData.SetScoreAvg(a);
          reply := if a > MaxAvg then AverageTooLarge else Changed;
      }
      forall other | other in chat.chatData && other != userId
        ensures chat.Users()[other] == before[other]
      {
        assert chat.chatData[other] != userData;
      }
      assert chat.Users() == before[userId := userData.Value()];
    }

    /**
     * `clear_data`: user id 0 removes the whole chat; any other id removes
     * only that member. A missing chat or member gets the matching
     * no-data reply and nothing changes.
     */
    method ClearData(chatId: int, userId: int) returns (reply: ClearReply)
      requires Valid()
      modifies this, if chatId in globalData then {globalData[chatId]} else {}
      ensures Valid()
      ensures chatId !in old(globalData) ==> reply == NothingToClear(userId != 0) && globalData == old(globalData)
      ensures chatId in old(globalData) && userId == 0 ==> reply == ClearedChat && globalData == old(globalData) - {chatId}
      ensures chatId in old(globalData) && userId != 0 ==>
        var chat := old(globalData)[chatId];
        && globalData == old(globalData)
        && (userId !in old(chat.chatData) ==> reply == NothingToClear(true) && chat.Users() == old(chat.Users()))
        && (userId in old(chat.chatData) ==> reply == ClearedUser && chat.Users() == old(chat.Users()) - {userId})
        && chat.chatData == old(chat.chatData) - {userId}
        && chat.latestGame == old(chat.latestGame)
    {
      var chatData := GetChatData(chatId);
      if chatData.None? {
        return NothingToClear(userId != 0);
      } else if userId == 0 {
        globalData := globalData - {chatId};
        return ClearedChat;
      } else {
        var chat := chatData.value;
        var userData := chat.GetUserData(userId);
        if userData.None? {
          return NothingToClear(true);
        }
        chat.Clear(userId);
        assert chat.Repr() <= old(chat.Repr());
        return ClearedUser;
      }
    }

    /** The unknown-chat branch of `add_score`: a new table holding only this member. */
    method StartChat(chatId: int, userId: int, username: string, edition: int, tries: real)
      requires Valid() && chatId !in globalData
      modifies this
      ensures Valid()
      ensures chatId in globalData && fresh(globalData[chatId])
      ensures globalData == old(globalData)[chatId := globalData[chatId]]
      ensures globalData[chatId].latestGame == edition
      ensures globalData[chatId].Users() == map[userId := Initial(username, edition, tries)]
    {
      var stats := new WordleStats(username, edition, tries);
      var chat := new ChatDB(edition, stats, userId);
      globalData := globalData[chatId := chat];
    }

    /** The known-chat branch of `add_score`: the score goes to `update_user_data`. */
    method ScoreInChat(chatId: int, userId: int, username: string, edition: int, tries: real) returns (r: Added)
      requires Valid() && chatId in globalData
      modifies globalData[chatId].Repr()
      ensures Valid() && globalData == old(globalData)
      ensures forall c :: c in globalData && c != chatId ==> globalData[c].Users() == old(globalData[c].Users())
      ensures
        var chat := globalData[chatId];
        && chat.latestGame == (if edition > old(chat.latestGame) then edition else old(chat.latestGame))
        && (userId !in old(chat.chatData) ==>
              r == NewUser && chat.Users() == old(chat.Users())[userId := Initial(username, edition, tries)])
        && (userId in old(chat.chatData) ==>
              && r.Existing? && chat.chatData == old(chat.chatData)
              && (chat.Users()[userId], r.outcome) == Updated(old(chat.Users())[userId], edition, tries)
              && chat.Users() == old(chat.Users())[userId := chat.Users()[userId]])
    {
      var chat := globalData[chatId];
      r := chat.UpdateUserData(userId, username, edition, tries);
      assert chat.Repr() <= old(chat.Repr()) + set o: object | o in chat.Repr() && fresh(o);
    }

    /**
     * `add_score`: the share is parsed (a message that does not parse makes
     * the source fail). An unknown chat gets a new table holding only this
     * member, with the share's edition as its latest; a known chat passes
     * the score to `update_user_data`. No other chat changes.
     */
    method AddScore(chatId: int, userId: int, message: string, username: string) returns (r: Added)
      requires Valid() && ExtractScore(EmojiTiles, message).Some?
      modifies this, if chatId in globalData then globalData[chatId].Repr() else {}
      ensures Valid()
      ensures forall c :: c in old(globalData) && c != chatId ==>
        c in globalData && globalData[c] == old(globalData[c]) && globalData[c].Users() == old(globalData[c].Users())
      ensures chatId !in old(globalData) ==>
        var sc := ExtractScore(EmojiTiles, message).value;
        && r == NewUser
        && chatId in globalData && fresh(globalData[chatId])
        && globalData == old(globalData)[chatId := globalData[chatId]]
        && globalData[chatId].latestGame == sc.edition
        && globalData[chatId].Users() == map[userId := Initial(username, sc.edition, sc.tries)]
      ensures chatId in old(globalData) ==>
        var sc := ExtractScore(EmojiTiles, message).value;
        var chat := old(globalData)[chatId];
        && globalData == old(globalData)
        && chat.latestGame == (if sc.edition > old(chat.latestGame) then sc.edition else old(chat.latestGame))
        && (userId !in old(chat.chatData) ==>
              r == NewUser && chat.Users() == old(chat.Users())[userId := Initial(username, sc.edition, sc.tries)])
        && (userId in old(chat.chatData) ==>
              && r.Existing? && chat.chatData == old(chat.chatData)
              && (chat.Users()[userId], r.outcome) == Updated(old(chat.Users())[userId], sc.edition, sc.tries)
              && chat.Users() == old(chat.Users())[userId := chat.Users()[userId]])
    {
      var sc := ExtractScore(EmojiTiles, message).value;
      var chatData := GetChatData(chatId);
      if chatData.None? {
        StartChat(chatId, userId, username, sc.edition, sc.tries);
        return NewUser;
      } else {
        r := ScoreInChat(chatId, userId, username, sc.edition, sc.tries);
      }
    }

    /** The member branch of `print_scores`: the member's `print_stats` against the chat's latest edition. */
    method MemberStats(chatId: int, userId: int) returns (stats: Stats, updated: bool)
      requires Valid() && chatId in globalData && userId in globalData[chatId].chatData
      modifies globalData[chatId].chatData[userId]
      ensures Valid() && globalData == old(globalData)
      ensures
        var chat := globalData[chatId];
        && chat.chatData == old(chat.chatData) && chat.latestGame == old(chat.latestGame)
        && (stats, updated) == Decayed(old(chat.Users())[userId], chat.latestGame)
        && chat.Users() == old(chat.Users())[userId := stats]
    {
      var chat := globalData[chatId];
      ghost var before := chat.Users();
      var userData := chat.chatData[userId];
      stats, updated := userData.PrintStats(chat.latestGame);
      forall other | other in chat.chatData && other != userId
        ensures chat.Users()[other] == before[other]
      {
        assert chat.chatData[other] != userData;
      }
      assert chat.Users() == before[userId := stats];
    }

    /**
     * `print_scores`: the no-data reply for an unknown chat or, when a user
     * id is given, for a member who has no record; otherwise that member's
     * decayed stats, or with user id 0 the chat's decayed ranking (an empty
     * chat makes the ranking fail, so it must have members).
     */
    method PrintScores(chatId: int, userId: int) returns (reply: ScoresReply)
      requires Valid()
      requires chatId in globalData && userId == 0 ==> globalData[chatId].chatData != map[]
      modifies if chatId in globalData then globalData[chatId].Repr() else {}
      ensures Valid() && globalData == old(globalData)
      ensures chatId !in globalData ==> reply == NoScoreData
      ensures chatId in globalData ==>
        var chat := globalData[chatId];
        && chat.chatData == old(chat.chatData) && chat.latestGame == old(chat.latestGame)
        && (userId != 0 && userId !in chat.chatData ==> reply == NoScoreData && chat.Users() == old(chat.Users()))
        && (userId != 0 && userId in chat.chatData ==>
              && reply.UserStats?
              && (reply.stats, reply.updated) == Decayed(old(chat.Users())[userId], chat.latestGame)
              && chat.Users() == old(chat.Users())[userId := reply.stats])
        && (userId == 0 ==>
              && reply.Ranking?
              && chat.Users() == DecayAll(old(chat.Users()), chat.latestGame)
              && (reply.updated <==> AnyStale(old(chat.Users()), chat.latestGame))
              && IsLeaderboard(reply.rows, chat.Users()))
    {
      var chatData := GetChatData(chatId);
      if chatData.None? {
        return NoScoreData;
      }
      var chat := chatData.value;
      var userData := chat.GetUserData(userId);
      if userId != 0 && userData.None? {
        return NoScoreData;
      } else if userId != 0 {
        var stats, updated := MemberStats(chatId, userId);
        reply := UserStats(stats, updated);
      } else {
        var rows, updated := chat.PrintLeaderboard();
        reply := Ranking(rows, updated);
      }
    }
  }
}
