/**
 * handlers/chat_db_handler.py: one chat's table of `WordleStats` records
 * (the handlers revision, with the guarded average), keyed by user id, with
 * the newest edition seen in the chat.
 */
module HandlersChatDbHandler {
  import opened Wrappers
  import opened Leaderboard
  import opened InMemoryStats
  import opened HandlersScoreHandler

  /** What `update_user_data` returns: `True` for a new member, else what `update_stats` returned. */
  datatype Added = NewUser | Existing(outcome: Outcome)

  class ChatDB {
    var latestGame: int
    var chatData: map<int, WordleStats>

    /** Each member has a record object of its own. */
    ghost predicate Valid()
      reads this
    {
      forall a, b :: a in chatData && b in chatData && a != b ==> chatData[a] != chatData[b]
    }

    /** The objects this table owns. */
    ghost function Repr(): set<object>
      reads this
    {
      {this} + chatData.Values
    }

    /** The members' records as values. */
    ghost function Users(): map<int, Stats>
      reads this, chatData.Values
    {
      map id | id in chatData :: chatData[id].Value()
    }

    constructor (latestGame: int, initStats: WordleStats, userId: int)
      ensures Valid()
      ensures this.latestGame == latestGame && chatData == map[userId := initStats]
      ensures Users() == map[userId := initStats.Value()]
    {
      this.latestGame := latestGame;
      chatData := map[userId := initStats];
    }

    /** The `latest_game` setter only ever moves the value forward. */
    method SetLatestGame(edition: int)
      modifies this
      ensures latestGame == if edition > old(latestGame) then edition else old(latestGame)
      ensures chatData == old(chatData)
    {
      if edition > latestGame {
        latestGame := edition;
      }
    }

    /** `get_user_data`: the member's record, or `None`. */
    function GetUserData(userId: int): (r: Option<WordleStats>)
      reads this
      ensures r.Some? <==> userId in chatData
      ensures r.Some? ==> r.value == chatData[userId]
    {
      if userId in chatData then Some(chatData[userId]) else None
    }

    /** `clear`: removes exactly that member (a missing member raises KeyError). */
    method Clear(userId: int)
      requires Valid() && userId in chatData
      modifies this
      ensures Valid()
      ensures chatData == old(chatData) - {userId} && latestGame == old(latestGame)
      ensures Users() == old(Users()) - {userId}
    {
      chatData := chatData - {userId};
    }

    /**
     * `update_user_data`: raises the chat's latest edition first, then either
     * starts a record for a new member or passes the result to that member's
     * `update_stats`. No other member changes.
     */
    method UpdateUserData(userId: int, username: string, edition: int, tries: real) returns (r: Added)
      requires Valid()
      modifies Repr()
      ensures Valid()
      ensures latestGame == if edition > old(latestGame) then edition else old(latestGame)
      ensures userId !in old(chatData) ==>
        && r == NewUser
        && Users() == old(Users())[userId := Initial(username, edition, tries)]
        && userId in chatData && fresh(chatData[userId])
        && chatData == old(chatData)[userId := chatData[userId]]
      ensures userId in old(chatData) ==>
        && r.Existing?
        && chatData == old(chatData)
        && (Users()[userId], r.outcome) == Updated(old(Users())[userId], edition, tries)
        && Users() == old(Users())[userId := Users()[userId]]
    {
      ghost var before := Users();
      SetLatestGame(edition);
      var userData := GetUserData(userId);
      if userData.None? {
        var stats := new WordleStats(username, edition, tries);
        chatData := chatData[userId := stats];
        return NewUser;
      } else {
        var outcome := userData.value.UpdateStats(edition, tries);
        forall id | id in chatData && id != userId
          ensures Users()[id] == before[id]
        {
          assert chatData[id] != userData.value;
        }
        assert Users() == before[userId := userData.value.Value()];
        return Existing(outcome);
      }
    }

    /** The function `print_leaderboard` maps over the members: decay one member. */
    method DecayMember(id: int) returns (reset: bool)
      requires Valid() && id in chatData
      modifies chatData[id]
      ensures Valid() && chatData == old(chatData)
      ensures Users() == old(Users())[id := Decayed(old(Users())[id], latestGame).0]
      ensures reset <==> old(Users())[id].lastGame < latestGame
    {
      ghost var before := Users();
      var userData := chatData[id];
      reset := userData.UpdateStreak(latestGame);
      forall other | other in chatData && other != id
        ensures Users()[other] == before[other]
      {
        assert chatData[other] != userData;
      }
      assert Users() == before[id := userData.Value()];
    }

    /** One turn of the decay map: decay a member still to do and record its flag. */
    method DecayStep(id: int, todo: set<int>, updated: bool,
                     ghost start: map<int, Stats>, ghost current: map<int, Stats>)
      returns (updated': bool, ghost current': map<int, Stats>)
      requires Valid() && start.Keys == chatData.Keys && id in todo && todo <= chatData.Keys
      requires Users() == current && DecayProgress(start, latestGame, start.Keys - todo, current, updated)
      modifies Repr() - {this}
      ensures Users() == current' && DecayProgress(start, latestGame, start.Keys - (todo - {id}), current', updated')
    {
      var reset := DecayMember(id);
      DecayProgressStep(start, latestGame, start.Keys - todo, current, updated, id);
      TakeOne(start.Keys, todo, id);
      updated' := updated || reset;
      current' := Users();
    }

    /**
     * `map(lambda x: x.update_streak(...), ...)` followed by `any`: decay
     * every member and report whether some streak was reset.
     */
    method DecayMembers() returns (updated: bool)
      requires Valid()
      modifies Repr()
      ensures Valid() && chatData == old(chatData) && latestGame == old(latestGame)
      ensures Users() == DecayAll(old(Users()), latestGame)
      ensures updated <==> AnyStale(old(Users()), latestGame)
    {
      ghost var start := Users();
      ghost var current := start;
      updated := false;
      var todo := chatData.Keys;
      DecayProgressStart(start, latestGame);
      while todo != {}
        modifies Repr() - {this}
        invariant chatData == old(chatData) && latestGame == old(latestGame)
        invariant start.Keys == chatData.Keys && todo <= chatData.Keys
        invariant Users() == current && DecayProgress(start, latestGame, start.Keys - todo, current, updated)
        decreases todo
      {
        NoMemberIsEmpty(todo);
        var id :| id in todo;
        updated, current := DecayStep(id, todo, updated, start, current);
        todo := todo - {id};
      }
      DecayProgressDone(start, latestGame, start.Keys - todo, current, updated);
    }

    /** The DataFrame rows of `print_leaderboard`: one row per member, read off the records. */
    method CollectRows() returns (rows: seq<Row>)
      requires Valid()
      ensures RowsOf(rows, Users(), Users().Keys)
    {
      rows := [];
      var todo := chatData.Keys;
      while todo != {}
        invariant todo <= chatData.Keys
        invariant RowsOf(rows, Users(), chatData.Keys - todo)
        decreases todo
      {
        NoMemberIsEmpty(todo);
        var id :| id in todo;
        RowsOfAdd(rows, Users(), chatData.Keys - todo, id);
        TakeOne(chatData.Keys, todo, id);
        rows := rows + [RowOf(id, chatData[id].Value())];
        todo := todo - {id};
      }
      assert chatData.Keys - {} == Users().Keys;
    }

    /**
     * `print_leaderboard`: every member is decayed against the chat's latest
     * edition, the flag says whether any streak was reset, and the rows are
     * ranked by numeric average. An empty chat makes the DataFrame column
     * assignment fail, so the chat must have members.
     */
    method PrintLeaderboard() returns (rows: seq<Row>, updated: bool)
      requires Valid() && chatData != map[]
      modifies Repr()
      ensures Valid() && chatData == old(chatData) && latestGame == old(latestGame)
      ensures Users() == DecayAll(old(Users()), latestGame)
      ensures updated <==> AnyStale(old(Users()), latestGame)
      ensures IsLeaderboard(rows, Users())
    {
      updated := DecayMembers();
      var unsorted := CollectRows();
      SortedRowsAreLeaderboard(unsorted, Users());
      rows := SortByAvg(unsorted);
    }
  }
}
