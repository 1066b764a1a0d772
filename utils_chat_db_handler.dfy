/**
 * utils/chat_db_handler.py: one chat's table of `WordleStats` records, keyed
 * by user id, with the newest edition seen in the chat.
 */
module UtilsChatDbHandler {
  import opened Wrappers
  import opened Leaderboard
  import opened InMemoryStats
  import opened UtilsScoreHandler

  /** What `update_user_data` returns: `True` for a new member, else what `update_stats` returned. */
  datatype Added = NewUser | Existing(outcome: Outcome)

  /** What `print_leaderboard` shows: the no-data message, or the ranked rows. */
  datatype Board = NoData | Board(rows: seq<Row>)

  class ChatDB {
    var latestGame: int
    var chatData: map<int, WordleStats>

    /** Each member has a record object of its own. */
    ghost predicate Valid()
      reads this
    {
      forall a, b :: a in chatData && b in chatData && a != b ==> chatData[a] != chatData[b]
    }

    /** The objects this table owns. */
    ghost function Repr(): set<object>
      reads this
    {
      {this} + chatData.Values
    }

    /** The members' records as values. */
    ghost function Users(): map<int, Stats>
      reads this, chatData.Values
    {
      map id | id in chatData :: chatData[id].Value()
    }

    constructor (latestGame: int, initStats: WordleStats, userId: int)
      ensures Valid()
      ensures this.latestGame == latestGame && chatData == map[userId := initStats]
      ensures Users() == map[userId := initStats.Value()]
    {
      this.latestGame := latestGame;
      chatData := map[userId := initStats];
    }

    /** The `latest_game` setter only ever moves the value forward. */
    method SetLatestGame(edition: int)
      modifies this
      ensures latestGame == if edition > old(latestGame) then edition else old(latestGame)
      ensures chatData == old(chatData)
    {
      if edition > latestGame {
        latestGame := edition;
      }
    }

    /** `get_user_data`: the member's record, or `None`. */
    function GetUserData(userId: int): (r: Option<WordleStats>)
      reads this
      ensures r.Some? <==> userId in chatData
      ensures r.Some? ==> r.value == chatData[userId]
    {
      if userId in chatData then Some(chatData[userId]) else None
    }

    /** `clear`: removes exactly that member (a missing member raises KeyError). */
    method Clear(userId: int)
      requires Valid() && userId in chatData
      modifies this
      ensures Valid()
      ensures chatData == old(chatData) - {userId} && latestGame == old(latestGame)
      ensures Users() == old(Users()) - {userId}
    {
      chatData := chatData - {userId};
    }

    /**
     * `update_user_data`: raises the chat's latest edition first, then either
     * starts a record for a new member or passes the result to that member's
     * `update_stats`. No other member changes.
     */
    method UpdateUserData(userId: int, username: string, edition: int, tries: real) returns (r: Added)
      requires Valid()
      modifies Repr()
      ensures Valid()
      ensures latestGame == if edition > old(latestGame) then edition else old(latestGame)
      ensures userId !in old(chatData) ==>
        && r == NewUser
        && Users() == old(Users())[userId := Initial(username, edition, tries)]
        && userId in chatData && fresh(chatData[userId])
        && chatData == old(chatData)[userId := chatData[userId]]
      ensures userId in old(chatData) ==>
        && r.Existing?
        && chatData == old(chatData)
        && (Users()[userId], r.outcome) == Updated(old(Users())[userId], edition, tries)
        && Users() == old(Users())[userId := Users()[userId]]
    {
      ghost var before := Users();
      SetLatestGame(edition);
      var userData := GetUserData(userId);
      if userData.None? {
        var stats := new WordleStats(username, edition, tries);
        chatData := chatData[userId := stats];
        return NewUser;
      } else {
        var outcome := userData.value.UpdateStats(edition, tries);
        forall id | id in chatData && id != userId
          ensures Users()[id] == before[id]
        {
          assert chatData[id] != userData.value;
        }
        assert Users() == before[userId := userData.value.Value()];
        return Existing(outcome);
      }
    }

    /** The loop body of `print_leaderboard`: decay one member and read off its row. */
    method DecayMember(id: int) returns (reset: bool, row: Row)
      requires Valid() && id in chatData
      modifies chatData[id]
      ensures Valid() && chatData == old(chatData)
      ensures Users() == old(Users())[id := Decayed(old(Users())[id], latestGame).0]
      ensures reset <==> old(Users())[id].lastGame < latestGame
      ensures row == RowOf(id, Users()[id])
    {
      ghost var before := Users();
      var userData := chatData[id];
      reset := userData.UpdateStreak(latestGame);
      forall other | other in chatData && other != id
        ensures Users()[other] == before[other]
      {
        assert chatData[other] != userData;
      }
      assert Users() == before[id := userData.Value()];
      row := RowOf(id, userData.Value());
    }

    /**
     * One turn of the decay loop: decay a member still to do and record its
     * row and flag.
     */
    method DecayStep(id: int, todo: set<int>, rows: seq<Row>, updated: bool,
                     ghost start: map<int, Stats>, ghost current: map<int, Stats>)
      returns (rows': seq<Row>, updated': bool, ghost current': map<int, Stats>)
      requires Valid() && start.Keys == chatData.Keys && id in todo && todo <= chatData.Keys
      requires Users() == current && DecayProgress(start, latestGame, start.Keys - todo, current, updated)
      requires RowsOf(rows, DecayAll(start, latestGame), start.Keys - todo)
      modifies Repr() - {this}
      ensures Users() == current' && DecayProgress(start, latestGame, start.Keys - (todo - {id}), current', updated')
      ensures RowsOf(rows', DecayAll(start, latestGame), start.Keys - (todo - {id}))
    {
      ghost var done := start.Keys - todo;
      var reset, row := DecayMember(id);
      DecayProgressStep(start, latestGame, done, current, updated, id);
      RowsOfAdd(rows, DecayAll(start, latestGame), done, id);
      TakeOne(start.Keys, todo, id);
      rows' := rows + [row];
      updated' := updated || reset;
      current' := Users();
    }

    /**
     * The loop of `print_leaderboard`: decay every member in turn, collecting
     * its row and whether its streak was reset.
     */
    method DecayMembers() returns (rows: seq<Row>, updated: bool)
      requires Valid()
      modifies Repr()
      ensures Valid() && chatData == old(chatData) && latestGame == old(latestGame)
      ensures Users() == DecayAll(old(Users()), latestGame)
      ensures RowsOf(rows, Users(), Users().Keys)
      ensures updated <==> AnyStale(old(Users()), latestGame)
    {
      ghost var start := Users();
      ghost var current := start;
      rows := [];
      updated := false;
      var todo := chatData.Keys;
      DecayProgressStart(start, latestGame);
      while todo != {}
        modifies Repr() - {this}
        invariant chatData == old(chatData) && latestGame == old(latestGame)
        invariant start.Keys == chatData.Keys && todo <= chatData.Keys
        invariant Users() == current && DecayProgress(start, latestGame, start.Keys - todo, current, updated)
        invariant RowsOf(rows, DecayAll(start, latestGame), start.Keys - todo)
        decreases todo
      {
        NoMemberIsEmpty(todo);
        var id :| id in todo;
        rows, updated, current := DecayStep(id, todo, rows, updated, start, current);
        todo := todo - {id};
      }
      DecayProgressDone(start, latestGame, start.Keys - todo, current, updated);
    }

    /**
     * `print_leaderboard`: an empty chat gets the no-data message and no
     * change; otherwise every member is decayed against the chat's latest
     * edition, the flag says whether any streak was reset, and the rows are
     * ranked by average.
     */
    method PrintLeaderboard() returns (board: Board, updated: bool)
      requires Valid()
      modifies Repr()
      ensures Valid() && chatData == old(chatData) && latestGame == old(latestGame)
      ensures Users() == DecayAll(old(Users()), latestGame)
      ensures old(chatData) == map[] <==> board == NoData
      ensures board == NoData ==> !updated
      ensures board.Board? ==> (updated <==> AnyStale(old(Users()), latestGame))
      ensures board.Board? ==> IsLeaderboard(board.rows, Users())
    {
      if chatData == map[] {
        return NoData, false;
      }
      var rows;
      rows, updated := DecayMembers();
      SortedRowsAreLeaderboard(rows, Users());
      board := Board(SortByAvg(rows));
    }
  }
}
