/**
 * bot/global_db_handler.py: one map of user records for the whole bot, the
 * member list of each chat, and the newest edition seen anywhere. The user
 * record this revision builds and updates belongs to none of the record
 * classes in the repository, so its construction and its `update_stats` are
 * parameters here; the record itself is a `Stats` value.
 */
module BotGlobalDbHandler {
  import opened Wrappers
  import opened Averages
  import opened InMemoryStats
  import opened MessageHandler
  import opened Membership

  /**
   * The `update_data` commands: `name`, `games`, `streak`, `average`, and
   * any other command, which merges `old_games` earlier games of average
   * `old_avg` into the record.
   */
  datatype BotCommand =
    | SetName(name: string)
    | SetGames(games: int)
    | SetStreak(streak: int)
    | SetAverage(avg: real)
    | Adjust(oldGames: int, oldAvg: real)

  /** Replies of `update_data`; `ZeroGames` is the ZeroDivisionError of a merge into zero games. */
  datatype UpdateReply = NoUpdateData | Changed | AverageTooLarge | ZeroGames

  /** Replies of `clear_data`. */
  datatype ClearReply = NothingToClear | ClearedUser

  /**
   * What `add_score` did with the record: a new record, or the pair the
   * record's `update_stats` returned. The "already computed" reply is sent
   * when `update` is false and `sameChat` true.
   */
  datatype BotAdded = NewRecord | Existing(update: bool, sameChat: bool)

  /** The member list of a chat, empty for a chat never seen. */
  function Members(chatUsers: map<int, seq<int>>, chatId: int): seq<int>
  {
    if chatId in chatUsers then chatUsers[chatId] else []
  }

  /** The members of a list that still have a record, in list order (`filter` over `get_user_data`). */
  function PresentMembers(members: seq<int>, users: map<int, Stats>): (r: seq<int>)
    ensures |r| <= |members|
    ensures forall id :: id in r <==> id in members && id in users
  {
    if members == [] then []
    else (if members[0] in users then [members[0]] else []) + PresentMembers(members[1..], users)
  }

  /** When every member has a record, nobody is dropped and the order is the list's. */
  lemma {:induction false} PresentMembersAll(members: seq<int>, users: map<int, Stats>)
    requires forall id :: id in members ==> id in users
    ensures PresentMembers(members, users) == members
  {
    if members != [] {
      var head := members[0];
      assert head in members;
      assert forall id :: id in members[1..] ==> id in members;
      PresentMembersAll(members[1..], users);
      assert PresentMembers(members, users) == [members[0]] + PresentMembers(members[1..], users);
      assert members == [members[0]] + members[1..];
    }
  }

  /** A single member is kept exactly when it has a record. */
  lemma PresentMembersSingle(id: int, users: map<int, Stats>)
    ensures PresentMembers([id], users) == if id in users then [id] else []
  {
    assert [id][1..] == [];
  }

  /**
   * The filter works list piece by list piece: the members of a joined list
   * that are kept are those kept from each part, in the list's order.
   */
  lemma {:induction false} PresentMembersAppend(a: seq<int>, b: seq<int>, users: map<int, Stats>)
    ensures PresentMembers(a + b, users) == PresentMembers(a, users) + PresentMembers(b, users)
  {
    if a == [] {
      assert a + b == b;
    } else {
      assert (a + b)[0] == a[0];
      assert (a + b)[1..] == a[1..] + b;
      PresentMembersAppend(a[1..], b, users);
    }
  }

  /** A member's record as `update_data` leaves it, with the reply. */
  function Edited(s: Stats, cmd: BotCommand): (Stats, UpdateReply)
  {
    match cmd
    case SetName(n) => (s.(username := n), Changed)
    case SetGames(g) => (s.(numGames := g), Changed)
    case SetStreak(k) => (s.(streak := k), Changed)
    case SetAverage(a) => (s.(scoreAvg := a), if a > MaxAvg then AverageTooLarge else Changed)
    case Adjust(g, a) =>
      if s.numGames + g == 0 then (s, ZeroGames)
      else (s.(numGames := s.numGames + g, scoreAvg := Merge(a, g, s.scoreAvg, s.numGames)), Changed)
  }

  /**
   * The `average` command stores its value even when it is above 7.0: the
   * refusal is only a reply, sent after the assignment.
   */
  lemma AverageStoredBeforeCheck(s: Stats, a: real)
    ensures Edited(s, SetAverage(a)).0.scoreAvg == a
    ensures Edited(s, SetAverage(a)).1 == AverageTooLarge <==> a > MaxAvg
  {
  }

  /**
   * `adjust` merges two histories: with the record holding the mean of the
   * counted results and the command carrying the mean and length of earlier
   * ones, the record afterwards holds the mean and length of all of them.
   */
  lemma AdjustMergesHistories(s: Stats, earlier: seq<real>, counted: seq<real>)
    requires |earlier| > 0 && |counted| > 0
    requires s.numGames == |counted| && s.scoreAvg == Mean(counted)
    ensures var (t, reply) := Edited(s, Adjust(|earlier|, Mean(earlier)));
      reply == Changed && t.numGames == |earlier + counted| && t.scoreAvg == Mean(earlier + counted)
  {
    MergeIsMeanOfConcat(earlier, counted);
  }

  /** A merge of in-range averages over non-negative game counts stays in [0, 7]. */
  lemma AdjustKeepsAverageBounded(s: Stats, g: int, a: real)
    requires 0 <= s.numGames && 0 <= g && 0.0 <= s.scoreAvg <= MaxAvg && 0.0 <= a <= MaxAvg
    ensures 0.0 <= Edited(s, Adjust(g, a)).0.scoreAvg <= MaxAvg
  {
  }

  class GlobalDB {
    var latestGame: int
    var chatUsers: map<int, seq<int>>
    var userData: map<int, Stats>

    constructor (initGame: int, initChats: map<int, seq<int>>, initUsers: map<int, Stats>)
      ensures latestGame == initGame && chatUsers == initChats && userData == initUsers
    {
      latestGame := initGame;
      chatUsers := initChats;
      userData := initUsers;
    }

    /** The `latest_game` setter only ever moves the value forward. */
    method RaiseLatestGame(edition: int)
      modifies this
      ensures latestGame == if edition > old(latestGame) then edition else old(latestGame)
      ensures chatUsers == old(chatUsers) && userData == old(userData)
    {
      if edition > latestGame {
        latestGame := edition;
      }
    }

    /** `set_latest_game`: overrides the value, backwards too. */
    method SetLatestGame(latest: int)
      modifies this
      ensures latestGame == latest
      ensures chatUsers == old(chatUsers) && userData == old(userData)
    {
      latestGame := latest;
    }

    /** `restart`: the edition back to 0 and both maps emptied. */
    method Restart()
      modifies this
      ensures latestGame == 0 && chatUsers == map[] && userData == map[]
    {
      latestGame := 0;
      chatUsers := map[];
      userData := map[];
    }

    /** `get_chat_members`: the chat's member list, or `None`. */
    function GetChatMembers(chatId: int): (r: Option<seq<int>>)
      reads this
      ensures r.Some? <==> chatId in chatUsers
      ensures r.Some? ==> r.value == chatUsers[chatId]
    {
      if chatId in chatUsers then Some(chatUsers[chatId]) else None
    }

    /** `get_user_data`: the user's record, or `None`. */
    function GetUserData(userId: int): (r: Option<Stats>)
      reads this
      ensures r.Some? <==> userId in userData
      ensures r.Some? ==> r.value == userData[userId]
    {
      if userId in userData then Some(userData[userId]) else None
    }

    /**
     * `get_chat_data`: a chat never seen is registered with no members and
     * gives `None`; otherwise the records of the members that still have
     * one, in member-list order.
     */
    method GetChatData(chatId: int) returns (r: Option<seq<Stats>>)
      modifies this
      ensures latestGame == old(latestGame) && userData == old(userData)
      ensures chatId !in old(chatUsers) ==> r == None && chatUsers == old(chatUsers)[chatId := []]
      ensures chatId in old(chatUsers) ==>
        var present := PresentMembers(old(chatUsers)[chatId], userData);
        && chatUsers == old(chatUsers)
        && r.Some? && |r.value| == |present|
        && forall i :: 0 <= i < |present| ==> r.value[i] == userData[present[i]]
    {
      var members := GetChatMembers(chatId);
      if members.None? {
        chatUsers := chatUsers[chatId := []];
        return None;
      }
      var users := userData;
      var present := PresentMembers(members.value, users);
      r := Some(seq(|present|, i requires 0 <= i < |present| => users[present[i]]));
    }

    /** `is_in_chat`: a chat never seen is registered with no members and gives `False`. */
    method IsInChat(chatId: int, userId: int) returns (b: bool)
      modifies this
      ensures latestGame == old(latestGame) && userData == old(userData)
      ensures b <==> userId in Members(old(chatUsers), chatId)
      ensures chatUsers == old(chatUsers)[chatId := Members(old(chatUsers), chatId)]
    {
      var members := GetChatMembers(chatId);
      if members.None? {
        chatUsers := chatUsers[chatId := []];
        return false;
      }
      return userId in members.value;
    }

    /** The membership step of `add_score`: `is_in_chat`, then an `append` only when absent. */
    method JoinChat(chatId: int, userId: int)
      modifies this
      ensures latestGame == old(latestGame) && userData == old(userData)
      ensures chatUsers == old(chatUsers)[chatId := Joined(Members(old(chatUsers), chatId), userId)]
      ensures Distinct(Members(old(chatUsers), chatId)) ==>
        Distinct(chatUsers[chatId]) && multiset(chatUsers[chatId])[userId] == 1
    {
      var inChat := IsInChat(chatId, userId);
      if !inChat {
        chatUsers := chatUsers[chatId := chatUsers[chatId] + [userId]];
      }
      if Distinct(Members(old(chatUsers), chatId)) {
        JoinedListsOnce(Members(old(chatUsers), chatId), userId);
      }
    }

    /**
     * `add_score`: the share is parsed (a message that does not parse makes
     * the source fail), the latest edition is raised to the share's whatever
     * happens next, the user joins the chat's member list once, and the
     * record is created or passed to its `update_stats`.
     */
    method AddScore(chatId: int, userId: int, username: string, text: string,
                    create: (string, int, real, int) -> Stats,
                    update: (Stats, int, real, int) -> (Stats, bool, bool))
      returns (r: BotAdded)
      requires ExtractScore(EmojiTiles, text).Some?
      modifies this
      ensures var sc := ExtractScore(EmojiTiles, text).value;
        latestGame == if sc.edition > old(latestGame) then sc.edition else old(latestGame)
      ensures chatUsers == old(chatUsers)[chatId := Joined(Members(old(chatUsers), chatId), userId)]
      ensures Distinct(Members(old(chatUsers), chatId)) ==>
        Distinct(chatUsers[chatId]) && multiset(chatUsers[chatId])[userId] == 1
      ensures userId !in old(userData) ==>
        var sc := ExtractScore(EmojiTiles, text).value;
        r == NewRecord && userData == old(userData)[userId := create(username, sc.edition, sc.tries, chatId)]
      ensures userId in old(userData) ==>
        var sc := ExtractScore(EmojiTiles, text).value;
        var u := update(old(userData)[userId], sc.edition, sc.tries, chatId);
        r == Existing(u.1, u.2) && userData == old(userData)[userId := u.0]
    {
      var userRecord := GetUserData(userId);
      var sc := ExtractScore(EmojiTiles, text).value;
      RaiseLatestGame(sc.edition);
      JoinChat(chatId, userId);
      if userRecord.None? {
        userData := userData[userId := create(username, sc.edition, sc.tries, chatId)];
        r := NewRecord;
      } else {
        var (record, updated, sameChat) := update(userRecord.value, sc.edition, sc.tries, chatId);
        userData := userData[userId := record];
        r := Existing(updated, sameChat);
      }
    }

    /**
     * `update_data`: a user without a record gets the no-data reply and
     * nothing changes; otherwise the record takes the command.
     */
    method UpdateData(userId: int, cmd: BotCommand) returns (reply: UpdateReply)
      modifies this
      ensures latestGame == old(latestGame) && chatUsers == old(chatUsers)
      ensures userId !in old(userData) ==> reply == NoUpdateData && userData == old(userData)
      ensures userId in old(userData) ==>
        var (t, rep) := Edited(old(userData)[userId], cmd);
        reply == rep && userData == old(userData)[userId := t]
    {
      var userRecord := GetUserData(userId);
      if userRecord.None? {
        return NoUpdateData;
      }
      var s := userRecord.value;
      match cmd {
        case SetName(n) =>
          userData := userData[userId := s.(username := n)];
          reply := Changed;
        case SetGames(g) =>
          userData := userData[userId := s.(numGames := g)];
          reply := Changed;
        case SetStreak(k) =>
          userData := userData[userId := s.(streak := k)];
          reply := Changed;
        case SetAverage(a) =>
          userData := userData[userId := s.(scoreAvg := a)];
          reply := if a > MaxAvg then AverageTooLarge else Changed;
        case Adjust(oldGames, oldAvg) =>
          var newGames := s.numGames + oldGames;
          if newGames == 0 {
            return ZeroGames;
          }
          var newAvg := Merge(oldAvg, oldGames, s.scoreAvg, s.numGames);
          userData := userData[userId := s.(numGames := newGames, scoreAvg := newAvg)];
          reply := Changed;
      }
    }

    /** `clear_data`: removes the user's record only; member lists keep the id. */
    method ClearData(userId: int) returns (reply: ClearReply)
      modifies this
      ensures latestGame == old(latestGame) && chatUsers == old(chatUsers)
      ensures userId !in old(userData) ==> reply == NothingToClear && userData == old(userData)
      ensures userId in old(userData) ==> reply == ClearedUser && userData == old(userData) - {userId}
    {
      var userRecord := GetUserData(userId);
      if userRecord.None? {
        return NothingToClear;
      }
      userData := userData - {userId};
      return ClearedUser;
    }
  }

  /**
   * A cleared user drops out of `get_chat_data` while staying on the
   * member list.
   */
  lemma ClearedUserSkipped(members: seq<int>, users: map<int, Stats>, userId: int)
    ensures userId !in PresentMembers(members, users - {userId})
    ensures forall id :: id in PresentMembers(members, users - {userId}) <==> id in PresentMembers(members, users) && id != userId
  {
  }
}
