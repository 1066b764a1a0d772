# Wordle score bot: a Dafny model of its score keeping

The Wordle Telegram bot reads the share text that Wordle produces, for example
`Wordle 100 3/6` followed by a blank line and rows of coloured squares. It keeps
per-user statistics from these shares: the number of games, the current streak,
the mean number of tries (a failed game counts as 7) and the last edition played.
It shows one user's statistics, or a chat's leaderboard sorted by mean tries,
and it accepts manual corrections.

The repository holds four revisions of this logic. This project models each of
them in its own module.

- **In-memory revision, first form** (`utils/score_handler.py`,
  `utils/chat_db_handler.py`). A `WordleStats` object per user and a `ChatDB` per
  chat. A chat maps user ids to those objects.
  - Modules `UtilsScoreHandler` and `UtilsChatDbHandler`.
  - Both are classes whose methods update their fields.
- **In-memory revision, second form** (`handlers/score_handler.py`,
  `handlers/chat_db_handler.py`, `handlers/global_db_handler.py`). The same shape,
  plus a `GlobalDB` mapping chat ids to `ChatDB` objects.
  - The average setter refuses values above 7.
  - Modules `HandlersScoreHandler`, `HandlersChatDbHandler` and
    `HandlersGlobalDbHandler`. The object graph is modelled with dynamic frames: a
    chat owns its stats objects, and chats own disjoint sets of objects.
- **Single-table revision** (`bot/global_db_handler.py`). One table of user
  records and one table of chat member lists.
  - Module `BotGlobalDbHandler`. The tables are `map` fields of a class.
- **Document-store revision** (`classes/WordleStats.py`). One collection of user
  documents. Each document records the chats the user belongs to, a switch for
  retroactive (older-edition) updates and a warning switch.
  - Module `ClassesWordleStats`. The collection is a `map` field of a class.
  - Each database update is stated as a function on the collection.

Shared modules:

- `MessageHandler`: parses the share text (`extract_score`) and the command text
  (`extract_command`) of `utils/message_handler.py`.
- `Averages`: the running-mean and merge arithmetic that every revision uses, with
  its link to the arithmetic mean of the results.
- `InMemoryStats`: the statistics record as a value, and the streak decay the two
  in-memory revisions share.
- `Leaderboard`: a row and the sort by mean tries.
- `Membership`: the add-to-list-if-absent step that registers chat members.
- `Wrappers`: `Option` and `Result`.

How source constructs map to Dafny:

- Python's floats are `real`. Editions, counts and ids are `int`.
- A Python crash becomes a precondition of the member. These are: a `KeyError`, a
  dereference of `None`, a failed regex match used as a match object, and a
  column assignment on an empty `DataFrame`.
- Exceptions the code raises on purpose become `Err` values, as does the
  `ZeroDivisionError` that a manual adjustment can reach.

The share grammar is
`Wordle\s(\d+)\s([0-6X])/6\n{2}(?:[tiles]+\r?\n){1,6}`, applied with
`re.match`. It has no end anchor, so one tile row already decides the match.
The parser is therefore specified by the text's prefix: the header, a blank
line and one tile row.

## Model

| member | source | states |
|---|---|---|
| MessageHandler.TriesValue | utils/message_handler.py:8-12 | the tries are in [0, 7], and they are 7.0 exactly for `X` |
| MessageHandler.ExtractScore | utils/message_handler.py:3-14 | a parsed score has a non-negative edition and tries in [0, 7] |
| MessageHandler.ExtractScoreOfShare | utils/message_handler.py:5-14 | every text that starts with a well-formed share parses to that share's edition and tries, whatever follows |
| MessageHandler.ExtractScoreIsShare | utils/message_handler.py:5-14 | every parse comes from a well-formed share at the head of the text |
| MessageHandler.ExtractScoreMatchesGrammar | utils/message_handler.py:5-14 | the parser succeeds with score (e, t) if and only if the text starts with a share of edition e and tries t |
| MessageHandler.AsWrittenTilesMissEmoji | utils/message_handler.py:6 | the tile classes as written share no character with the five emoji squares |
| MessageHandler.AsWrittenRejectsEveryEmojiShare | utils/message_handler.py:6 | with either tile class as written, no text that starts with an emoji share is parsed |
| MessageHandler.AsWrittenRejectsSampleShare | utils/message_handler.py:6 | a concrete real share (edition 100, three tries) is rejected by both classes as written |
| MessageHandler.EmojiTilesReadSampleShare | utils/message_handler.py:5-14 | with the emoji class the same share reads as edition 100 in 3.0 tries |
| MessageHandler.ExtractCommand | utils/message_handler.py:16-19 | no command if and only if there is no `/`; a command consists only of `@` and word characters |
| MessageHandler.ExtractCommandOfBotCommand | utils/message_handler.py:16-19 | `/name@Bot` and `/name` followed by a non-word character yield exactly `name` |
| Averages.FoldIn | utils/score_handler.py:88-90 | the new mean times (n+1) equals the old mean times n plus the tries; a mean in [0, 7] stays there |
| Averages.Merge | bot/global_db_handler.py:171-182 | the merged mean times the total count equals the sum of both weighted means, and it stays in [0, 7] |
| Averages.RunningIsMean | utils/score_handler.py:88-90 | folding results in one at a time gives their arithmetic mean |
| Averages.MergeIsMeanOfConcat | bot/global_db_handler.py:171-182 | merging the means of two histories gives the mean of the joined history |
| Averages.SumPermutation | classes/WordleStats.py:136-142 | any rearrangement of a history of results has the same sum |
| Averages.MeanOrderIndependent | classes/WordleStats.py:136-142 | any rearrangement of a history of results has the same length and the same mean |
| Averages.LateResultCountsTheSame | classes/WordleStats.py:136-142 | a result folded in after results of later editions leaves the same mean as if it had come in edition order |
| Leaderboard.SortByAvg | handlers/chat_db_handler.py:54-56 | the rows come out ascending by mean tries and are a permutation of the input |
| Membership.Joined | classes/WordleStats.py:12-13 | the id is in the result, nothing is lost, and nothing else is added |
| Membership.JoinedListsOnce | bot/global_db_handler.py:81-83 | a list without repeats stays without repeats, and lists the id exactly once |
| InMemoryStats.Decayed | utils/score_handler.py:93-98 | the decay rule: a record whose last game is before the chat's latest edition gets streak 0 and the flag; any other record is kept, without the flag (DecayedResets, DecayedIdempotent) |
| InMemoryStats.DecayedResets | utils/score_handler.py:93-98 | the streak is set to 0 exactly when the last game is before the latest edition; nothing else changes |
| InMemoryStats.DecayedIdempotent | utils/score_handler.py:93-98 | a second decay leaves the record as the first did and reports the same flag again |
| InMemoryStats.DecayedSparesLatest | handlers/score_handler.py:90-95 | a user who played the latest edition keeps their streak |
| InMemoryStats.DecayAll | handlers/chat_db_handler.py:46 | the members stay the same; a member behind the latest edition has streak 0 and is otherwise unchanged; every other member is unchanged |
| InMemoryStats.DecayAllChangesIffStale | utils/chat_db_handler.py:52-56 | the decay changes the chat if and only if some member behind the latest edition still had a streak |
| InMemoryStats.LeaderboardRanksDistinct | utils/chat_db_handler.py:58-63 | no member appears twice on a leaderboard |
| InMemoryStats.SortedRowsAreLeaderboard | utils/chat_db_handler.py:58-63 | sorting the rows of all members gives a leaderboard: ascending, one row per member, each row matching that member's record |
| UtilsScoreHandler.Updated | utils/score_handler.py:77-90 | the share-update rule: a repeated edition is refused; a newer edition extends or restarts the streak and becomes the last game; an older one keeps both; every counted share adds a game and folds the tries into the mean, except that a count of -1 stops at the division by zero (its cases: UpdatedCases, UpdatedAverage, FeedAverageIsMean) |
| UtilsScoreHandler.WordleStats.constructor | utils/score_handler.py:22-27 | a new user has one game, a streak of 1, the tries as mean, and the edition as last game |
| UtilsScoreHandler.WordleStats.SetUsername | utils/score_handler.py:51-54 | sets the name only |
| UtilsScoreHandler.WordleStats.SetNumGames | utils/score_handler.py:56-59 | sets the game count only |
| UtilsScoreHandler.WordleStats.SetStreak | utils/score_handler.py:61-64 | sets the streak only |
| UtilsScoreHandler.WordleStats.SetScoreAvg | utils/score_handler.py:66-69 | sets the mean only, without a range check |
| UtilsScoreHandler.WordleStats.SetLastGame | utils/score_handler.py:71-74 | sets the last game only |
| UtilsScoreHandler.WordleStats.UpdateStats | utils/score_handler.py:77-90 | the new record and the outcome are those of the share-update rule |
| UtilsScoreHandler.WordleStats.UpdateStreak | utils/score_handler.py:93-98 | the new record and the flag are those of the decay rule |
| UtilsScoreHandler.WordleStats.PrintStats | utils/score_handler.py:100-111 | decays the record first, then reports the decayed record and whether it changed |
| UtilsScoreHandler.UpdatedCases | utils/score_handler.py:77-87 | a repeated edition (and only it) counts nothing and changes nothing; the next edition extends the streak; a later one restarts it at 1; an older one keeps streak and last game; a counted share adds one game; division by zero exactly when the count was -1 |
| UtilsScoreHandler.UpdatedAverage | utils/score_handler.py:88-90 | a counted share folds the tries into the mean |
| UtilsScoreHandler.UpdatedLastGameMonotone | utils/score_handler.py:77-87 | the last game becomes the larger of itself and the shared edition, never moving back |
| UtilsScoreHandler.FeedIsRunning | utils/score_handler.py:77-90 | after a sequence of shares the mean is the running mean of the counted tries |
| UtilsScoreHandler.FeedAverageIsMean | utils/score_handler.py:77-90 | after a sequence of shares, the games are the initial game plus the counted shares, and the mean is their arithmetic mean |
| UtilsScoreHandler.FeedLastGameIsMax | utils/score_handler.py:80-87 | after any sequence of shares the last game is the largest edition seen, the starting one included |
| UtilsScoreHandler.ConsecutiveStreak | utils/score_handler.py:80-83 | k consecutive editions after the first give a streak of k+1, are all counted, and end on the last of them |
| HandlersScoreHandler.Updated | handlers/score_handler.py:75-88 | the same rule, except that a computed mean above 7 is not stored (GuardKeepsAverageBounded, GuardDropsLargeMean, AgreesWithUtilsInRange) |
| HandlersScoreHandler.WordleStats.constructor | handlers/score_handler.py:19-24 | a new user has one game, a streak of 1, the tries as mean, and the edition as last game |
| HandlersScoreHandler.WordleStats.SetUsername | handlers/score_handler.py:48-51 | sets the name only |
| HandlersScoreHandler.WordleStats.SetNumGames | handlers/score_handler.py:53-56 | sets the game count only |
| HandlersScoreHandler.WordleStats.SetStreak | handlers/score_handler.py:58-61 | sets the streak only |
| HandlersScoreHandler.WordleStats.SetScoreAvg | handlers/score_handler.py:63-67 | stores the mean only when it is at most 7; otherwise nothing changes |
| HandlersScoreHandler.WordleStats.SetLastGame | handlers/score_handler.py:69-72 | sets the last game only |
| HandlersScoreHandler.WordleStats.UpdateStats | handlers/score_handler.py:75-88 | the new record and the outcome are those of the share-update rule with the guarded mean |
| HandlersScoreHandler.WordleStats.UpdateStreak | handlers/score_handler.py:90-95 | the new record and the flag are those of the decay rule |
| HandlersScoreHandler.WordleStats.PrintStats | handlers/score_handler.py:97-108 | decays the record first, then reports the decayed record and whether it changed |
| HandlersScoreHandler.GuardKeepsAverageBounded | handlers/score_handler.py:63-67 | a guarded update never leaves a mean above 7 when it starts at most 7 |
| HandlersScoreHandler.GuardDropsLargeMean | handlers/score_handler.py:86-88 | a computed mean above 7 is dropped: the old mean stays while the game count still rises |
| HandlersScoreHandler.AgreesWithUtilsInRange | handlers/score_handler.py:75-88 | for means and tries in [0, 7] the two in-memory revisions update identically |
| UtilsChatDbHandler.ChatDB.constructor | utils/chat_db_handler.py:7-9 | the chat starts with the one user and the given latest edition |
| UtilsChatDbHandler.ChatDB.SetLatestGame | utils/chat_db_handler.py:17-20 | the latest edition only moves forward |
| UtilsChatDbHandler.ChatDB.GetUserData | utils/chat_db_handler.py:23-24 | returns the member's object, or none for a non-member |
| UtilsChatDbHandler.ChatDB.Clear | utils/chat_db_handler.py:26-28 | removes exactly that member |
| UtilsChatDbHandler.ChatDB.UpdateUserData | utils/chat_db_handler.py:30-39 | raises the latest edition, then adds a new member or applies the share-update rule to the existing one; other members are unchanged |
| UtilsChatDbHandler.ChatDB.DecayMember | utils/chat_db_handler.py:52-53 | decays one member and no other |
| UtilsChatDbHandler.ChatDB.DecayStep | utils/chat_db_handler.py:52-56 | one loop step keeps the partly-decayed invariant |
| UtilsChatDbHandler.ChatDB.DecayMembers | utils/chat_db_handler.py:52-56 | every member is decayed and gets exactly one row matching its new record; the flag is set if and only if some member is behind the latest edition |
| UtilsChatDbHandler.ChatDB.PrintLeaderboard | utils/chat_db_handler.py:43-63 | an empty chat has no board; otherwise the members are decayed and the board lists each once, ascending by mean |
| HandlersChatDbHandler.ChatDB.constructor | handlers/chat_db_handler.py:7-9 | the chat starts with the one user and the given latest edition |
| HandlersChatDbHandler.ChatDB.SetLatestGame | handlers/chat_db_handler.py:17-20 | the latest edition only moves forward |
| HandlersChatDbHandler.ChatDB.GetUserData | handlers/chat_db_handler.py:23-24 | returns the member's object, or none for a non-member |
| HandlersChatDbHandler.ChatDB.Clear | handlers/chat_db_handler.py:26-28 | removes exactly that member |
| HandlersChatDbHandler.ChatDB.UpdateUserData | handlers/chat_db_handler.py:30-39 | raises the latest edition, then adds a new member or applies the guarded share-update rule; other members are unchanged |
| HandlersChatDbHandler.ChatDB.DecayMember | handlers/chat_db_handler.py:46 | decays one member and no other |
| HandlersChatDbHandler.ChatDB.DecayStep | handlers/chat_db_handler.py:46 | one step of the decay over the members keeps the progress invariant |
| HandlersChatDbHandler.ChatDB.DecayMembers | handlers/chat_db_handler.py:46 | every member is decayed; the flag is set if and only if some member is behind the latest edition |
| HandlersChatDbHandler.ChatDB.CollectRows | handlers/chat_db_handler.py:47-51 | one row per member, each matching that member's record |
| HandlersChatDbHandler.ChatDB.PrintLeaderboard | handlers/chat_db_handler.py:43-57 | decays every member; the flag is set if and only if some member is behind the latest edition; the rows are a leaderboard of the decayed chat |
| HandlersGlobalDbHandler.Applied | handlers/global_db_handler.py:40-49 | the command rule: a command sets its own field, and an average above 7 is refused by the guarded setter and reported (AppliedChangesOnlyItsField) |
| HandlersGlobalDbHandler.AppliedChangesOnlyItsField | handlers/global_db_handler.py:40-49 | each command changes only its own field, and a mean above 7 leaves the record and is reported |
| HandlersGlobalDbHandler.AppliedKeepsAverageBounded | handlers/global_db_handler.py:46-49 | no command takes the mean above 7 |
| HandlersGlobalDbHandler.GlobalDB.constructor | handlers/global_db_handler.py:22-23 | starts with no chats |
| HandlersGlobalDbHandler.GlobalDB.GetChatData | handlers/global_db_handler.py:26-27 | returns the chat object, or none for an unknown chat |
| HandlersGlobalDbHandler.GlobalDB.UpdateData | handlers/global_db_handler.py:29-51 | an unknown chat reports no data; otherwise only the user's record changes, as the command says |
| HandlersGlobalDbHandler.GlobalDB.ClearData | handlers/global_db_handler.py:53-72 | user id 0 removes the chat; any other id removes that member; an unknown chat or member is reported and nothing changes |
| HandlersGlobalDbHandler.GlobalDB.StartChat | handlers/global_db_handler.py:89-96 | a new chat object holding only the new user, with latest edition set to the share's edition |
| HandlersGlobalDbHandler.GlobalDB.ScoreInChat | handlers/global_db_handler.py:97-105 | the chat's share update happens; every other chat is unchanged |
| HandlersGlobalDbHandler.GlobalDB.AddScore | handlers/global_db_handler.py:74-105 | the parsed share either starts the chat or updates it; other chats are unchanged |
| HandlersGlobalDbHandler.GlobalDB.MemberStats | handlers/global_db_handler.py:124-126 | the user's record is decayed and reported; the rest of the chat and the other chats are unchanged |
| HandlersGlobalDbHandler.GlobalDB.PrintScores | handlers/global_db_handler.py:107-132 | no data for an unknown chat or member; else the member's decayed stats, or for user 0 the chat's leaderboard |
| BotGlobalDbHandler.PresentMembers | bot/global_db_handler.py:48-56 | keeps exactly the members that have a record, never more than the list (order: PresentMembersAppend) |
| BotGlobalDbHandler.PresentMembersSingle | bot/global_db_handler.py:53-56 | a single member is kept exactly when it has a record |
| BotGlobalDbHandler.PresentMembersAppend | bot/global_db_handler.py:53-56 | the members kept from a joined list are those kept from each part, in list order |
| BotGlobalDbHandler.PresentMembersAll | bot/global_db_handler.py:48-56 | when every member has a record, the list comes back whole |
| BotGlobalDbHandler.Edited | bot/global_db_handler.py:158-185 | the edit rule: set commands store their value, an average above 7 is stored and then reported, and `adjust` merges the two histories unless they hold zero games (AverageStoredBeforeCheck, AdjustMergesHistories) |
| BotGlobalDbHandler.AverageStoredBeforeCheck | bot/global_db_handler.py:164-170 | `average` stores the value even when it is above 7, and reports that case |
| BotGlobalDbHandler.AdjustMergesHistories | bot/global_db_handler.py:171-182 | `adjust` leaves the length and mean of the joined history |
| BotGlobalDbHandler.AdjustKeepsAverageBounded | bot/global_db_handler.py:171-182 | `adjust` of means in [0, 7] with non-negative counts stays in [0, 7] |
| BotGlobalDbHandler.GlobalDB.constructor | bot/global_db_handler.py:28-31 | holds the given latest edition and tables |
| BotGlobalDbHandler.GlobalDB.RaiseLatestGame | bot/global_db_handler.py:39-42 | the latest edition only moves forward |
| BotGlobalDbHandler.GlobalDB.SetLatestGame | bot/global_db_handler.py:225-227 | the latest edition is overwritten, even backwards |
| BotGlobalDbHandler.GlobalDB.Restart | bot/global_db_handler.py:219-223 | empties both tables and zeroes the latest edition |
| BotGlobalDbHandler.GlobalDB.GetChatMembers | bot/global_db_handler.py:45-46 | returns the chat's list, or none for an unknown chat |
| BotGlobalDbHandler.GlobalDB.GetUserData | bot/global_db_handler.py:58-59 | returns the user's record, or none for an unknown user |
| BotGlobalDbHandler.GlobalDB.GetChatData | bot/global_db_handler.py:48-56 | an unknown chat gets an empty list registered and yields none; otherwise the records of the members that have one |
| BotGlobalDbHandler.GlobalDB.IsInChat | bot/global_db_handler.py:61-67 | true if and only if the user is listed; an unknown chat is registered empty |
| BotGlobalDbHandler.GlobalDB.JoinChat | bot/global_db_handler.py:81-83 | the user is added to the chat's list if absent; a list without repeats lists them once |
| BotGlobalDbHandler.GlobalDB.AddScore | bot/global_db_handler.py:69-101 | raises the latest edition, registers the member, then creates or updates the user's one record |
| BotGlobalDbHandler.GlobalDB.UpdateData | bot/global_db_handler.py:147-188 | an unknown user reports no data; otherwise the record and reply are those of the edit rule |
| BotGlobalDbHandler.GlobalDB.ClearData | bot/global_db_handler.py:190-201 | removes exactly the user's record, or reports nothing to clear |
| BotGlobalDbHandler.ClearedUserSkipped | bot/global_db_handler.py:48-56 | after a clear, the user drops out of every chat's data while staying listed |
| ClassesWordleStats.StreakCheck | classes/WordleStats.py:8-9 | the lapse filter: a last game at least two editions before the latest (GraceDay) |
| ClassesWordleStats.MemberOfChat | classes/WordleStats.py:12-13 | the add-to-set of a chat to a record's chats (Membership.Joined) |
| ClassesWordleStats.DecayChat | classes/WordleStats.py:238-241 | the leaderboard's update of many: lapsed members of the chat get streak 0 (DecayChatResetsLapsed) |
| ClassesWordleStats.Submit | classes/WordleStats.py:101-160 | the submission rule, case by case: new user, same edition, refused older edition, counted share (SubmitNewUser, SubmitSameEdition, SubmitOlderEdition, SubmitCounted) |
| ClassesWordleStats.ManualUpdated | classes/WordleStats.py:162-197 | the manual-update rule with its checks in source order (ManualUpdateErrors, AdjustMeanOfAll) |
| ClassesWordleStats.Toggled | classes/WordleStats.py:63-69 | flips the retroactive switch or the warning switch (ToggleTwice) |
| ClassesWordleStats.WordleStats.constructor | classes/WordleStats.py:41-42 | holds the given collection |
| ClassesWordleStats.WordleStats.Toggle | classes/WordleStats.py:63-69 | flips exactly one switch of one record and returns its new state |
| ClassesWordleStats.WordleStats.GetUserData | classes/WordleStats.py:71-84 | the summary of the record, or `UserNotFound` |
| ClassesWordleStats.WordleStats.InsertUserData | classes/WordleStats.py:86-99 | inserts the starting record: one game, streak 1, member of the chat, retroactive off, warning on |
| ClassesWordleStats.WordleStats.UpdateStats | classes/WordleStats.py:101-160 | the collection and the flags are those of the submission rule; its errors leave the collection unchanged |
| ClassesWordleStats.WordleStats.ManualUpdate | classes/WordleStats.py:162-197 | the collection and the result are those of the manual-update rule; its errors leave the collection unchanged |
| ClassesWordleStats.WordleStats.InsertChatMember | classes/WordleStats.py:235-236 | adds the chat to a known user's chats, once; an unknown user is untouched |
| ClassesWordleStats.WordleStats.PrintStats | classes/WordleStats.py:199-215 | adds the chat to a known user's chats, sets a lapsed streak (last game at least two editions back) to 0 and reports the record; an unknown user gets `UserNotFound` and nothing changes |
| ClassesWordleStats.WordleStats.Clear | classes/WordleStats.py:217-220 | deletes exactly the user's record, or reports `UserNotFound` |
| ClassesWordleStats.WordleStats.GetChatData | classes/WordleStats.py:223-233 | one row per member of the chat; an error if and only if the chat has none |
| ClassesWordleStats.WordleStats.PrintLeaderboard | classes/WordleStats.py:238-252 | adds the requester to the chat, decays the lapsed members, and returns a leaderboard of the chat, or an error if it is empty |
| ClassesWordleStats.SubmitNewUser | classes/WordleStats.py:152-160 | an unknown user gets the starting record and both flags set |
| ClassesWordleStats.SubmitSameEdition | classes/WordleStats.py:124-128 | a repeated edition counts nothing; from another chat, only the active chat moves |
| ClassesWordleStats.SubmitCounted | classes/WordleStats.py:129-151 | a counted share adds a game and folds the tries into the mean; next edition extends the streak; a gap restarts it; an older edition keeps streak and last game |
| ClassesWordleStats.SubmitOlderEdition | classes/WordleStats.py:136-139 | an older edition is refused if and only if retroactive updates are off |
| ClassesWordleStats.SubmitLastGameMonotone | classes/WordleStats.py:121-149 | the last game becomes the larger of itself and the edition |
| ClassesWordleStats.SubmitKeepsAverageBounded | classes/WordleStats.py:141-142 | a counted share keeps a mean in [0, 7] there |
| ClassesWordleStats.SameShareCountsOnce | classes/WordleStats.py:124-128 | the same current share sent twice counts once |
| ClassesWordleStats.OlderShareCountsEachTime | classes/WordleStats.py:136-150 | with retroactive updates on, the same older share counts every time it is sent |
| ClassesWordleStats.ManualUpdateErrors | classes/WordleStats.py:162-197 | each error case, both ways, in the order the checks run; a success joins the chat and keeps the last game |
| ClassesWordleStats.AdjustMeanOfAll | classes/WordleStats.py:176-194 | `adjust` leaves and returns the length and mean of the joined history |
| ClassesWordleStats.ManualKeepsAverageBounded | classes/WordleStats.py:170-194 | no successful manual update takes a mean in [0, 7] out of it, for non-negative inputs |
| ClassesWordleStats.ToggleTwice | classes/WordleStats.py:63-69 | a toggle always changes the record, and toggling twice restores it |
| ClassesWordleStats.DecayChatResetsLapsed | classes/WordleStats.py:238-241 | exactly the chat's members at least two editions behind get streak 0; nothing else changes; a second pass is a no-op |
| ClassesWordleStats.GraceDay | classes/WordleStats.py:8-9 | this revision decays only what the in-memory ones decay, and spares a player one edition behind |
| ClassesWordleStats.RequesterOnLeaderboard | classes/WordleStats.py:238-242 | a requester who has a record is on the chat's leaderboard |

## Left out

- Sending Telegram messages and formatting text: reply strings, Markdown escaping,
  tables and emoji. Replies are modelled as datatypes naming the case.
- Persistence: the JSON save and load of the in-memory revisions, MongoDB and its
  cursors, and the connection setup. The collection is a `map`, and each database
  update is the function it computes.
- `main.py`, `bot.py`, `utils/global_db_handler.py`, `utils/messages.py`,
  `bot/messages.py`, `handlers/mongo_db_handler.py` and `utils/load_mongo_db.py`
  are not part of this model.
- Floating point: averages are exact `real` values, so the model has no rounding.
- MessageHandler.ExtractCommand: `\w` is taken as ASCII letters, digits and `_`
  only. Python's `\w` also takes Unicode letters, so for `/stätistik` the source
  returns `stätistik` where the model returns `st`.
- MessageHandler.ExtractScore: `\d` is taken as the ASCII digits only. Python also
  accepts other Unicode decimal digits there and in `int()`.
- Every AddScore method (`HandlersGlobalDbHandler.GlobalDB.AddScore`,
  `BotGlobalDbHandler.GlobalDB.AddScore`) parses with the corrected emoji tile
  class, not the class as written (see Findings).
- InMemoryStats.SortedRowsAreLeaderboard: the utils revision and the document
  revision sort the formatted strings of the averages, for example `"3.500"`
  (`utils/chat_db_handler.py:55`, `classes/WordleStats.py:246-250`). The model
  sorts the numbers. The two orders agree for averages in [0, 10) up to rounding
  to three decimals.
- The order of rows with equal averages is not stated.
- Python dict order and database cursor order are not modelled. Members are
  handled as a key set.
- BotGlobalDbHandler.GlobalDB.AddScore: the record class this revision constructs
  is not among the files. Creating and updating a record are therefore parameters
  of the method, and the record is the plain `Stats` value.
- `print_scores` and `print_leaderboard` of `bot/global_db_handler.py`: besides
  formatting the records that `get_chat_data` and `get_user_data` return (both
  modelled), they call the record class's `update_streak` and `print_stats`
  (`bot/global_db_handler.py:105-106`, `135-136`), which decay streaks and decide
  whether to save. That lazy decay belongs to the record class, which is not
  among the files, so it is left out with that class.
- BotGlobalDbHandler.GlobalDB.constructor: the mutable default arguments of the
  Python constructor, which different instances would share, are not modelled.
- BotGlobalDbHandler.GlobalDB.UpdateData: the unused `chat_id` parameter is
  dropped.
- ClassesWordleStats.WordleStats.ManualUpdate: an unknown command name, a
  `KeyError` in the source, cannot be written with the command datatype.
- ClassesWordleStats.WordleStats.InsertUserData: requires an absent user, where
  the database would raise a duplicate-key error.
- ClassesWordleStats.WordleStats.Toggle: requires a known user, where the source
  fails on the missing document.
- HandlersGlobalDbHandler.GlobalDB.UpdateData: requires the user to be a member of
  a known chat. The source dereferences the missing record at
  `handlers/global_db_handler.py:36` before its own check.
- HandlersGlobalDbHandler.GlobalDB.PrintScores: requires a non-empty chat for the
  leaderboard, because the source fails on an empty `DataFrame`.
- Aliasing:
  - In the bot revision, records are values, so two names never share one record.
  - In the handlers revision, chats own disjoint objects.
  - Neither revision's source promises this.
- Concurrency between Telegram handlers is not modelled.

## Findings

| source | as written | input that shows it | evidently intended | confidence | as-written member | corrected member |
|---|---|---|---|---|---|---|
| utils/message_handler.py:6 | the tile class is the UTF-8 bytes of the emoji squares read back as Windows-1254 characters (`ğŸŸ¨…`), so no real tile row matches and the match object is `None` | `Wordle 100 3/6` followed by a blank line and the rows `⬛🟩🟨⬛⬛` and `🟩🟩🟩🟩🟩` | the class of the five emoji squares and U+FE0F, as `bot.py:42` writes it; the share reads as edition 100 in 3 tries | high, not executed | MessageHandler.AsWrittenRejectsEveryEmojiShare | MessageHandler.ExtractScoreMatchesGrammar |
| handlers/global_db_handler.py:78 | the same class read back as Windows-1252 characters (`ðŸŸ¨…`), so `add_score` fails on every real share | the same share | the same emoji class | high, not executed | MessageHandler.AsWrittenRejectsSampleShare | MessageHandler.EmojiTilesReadSampleShare |
