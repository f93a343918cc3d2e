# AOS Discord bot: the sheet-backed cogs, modelled in Dafny

This project models the state-changing core of a Discord bot that runs an
esports community. The bot keeps its records in Google Sheets. The cogs
modelled here are:

- **Availability polls.** `availablescheduler.py` serves both leagues and
  `alavailabilityscheduler.py` serves the AL league. Each posts seven day
  messages, Sunday first, with eight time-slot reactions. It records the
  posted messages, deletes them together with their reaction records, lists
  one day's availability per user, and tallies the reactions per day and slot.
- **XP levels** (`levels/xp.py`). XP within a level, levels that cost
  `100 * level`, XP for chat and for whole minutes in voice, the level-up
  loop, `/rank`, and the top-ten leaderboard by total XP.
- **The giveaway sheet.** The entry modal adds a user's top frags and
  executions to the existing row, or appends a new row. `/leaderboard` and
  `/today` rank the rows three ways and show the top ten.
- **Match scheduling** (`matchscheduler.py`). The next match id comes from
  the "meta" sheet's A2 cell. The announcement is built, and the same row is
  appended to "matches" and "matcharchive".
- **Lineups** (`setlineup.py`). The scheduled match is looked up, one or two
  modals collect shooters and subs, and a pending-lineup map carries the
  context between the two modals. Finalising posts the lineup and replaces
  the match's rows in the "lineups" sheet.
- **Tickets** (`tickets.py`). An in-memory counter names the ticket
  channels, the permission overwrites are built, and `/closeticket` applies
  its name test.

A worksheet is a `Sheets.Worksheet` object whose `rows` field the methods
reassign. `delete_rows`, `append_row`, `append_rows`, `clear` and
`update("A{i}:D{i}")` are its methods. Python's `IndexError`, `ValueError`
and `int()` failures are modelled as explicit outcomes. Discord itself is not
modelled. These are parameters of the operations instead:

- the guild's emojis, roles and channels;
- which messages can be deleted;
- the ids Discord assigns;
- today's weekday, timestamps and dates.

Modules:

| module | file | models |
|---|---|---|
| `Text` | text.dfy | `strip`, `upper`/`lower`, `startswith`, `isdigit`, `int()`, `str()`, `:03` padding, `split(' ', 1)` |
| `Sheets` | sheets.dfy | the worksheet, header lookup, bottom-up row deletion, "keep the header, drop the selected rows" |
| `Ranking` | ranking.dfy | `sorted(..., reverse=True)[:10]`: a stable descending sort and its first ten |
| `Polls` | polls.dfy | the pieces both availability schedulers share |
| `AvailabilityScheduler` | availability_scheduler.dfy | `availablescheduler/availablescheduler.py` |
| `ALScheduler` | al_scheduler.dfy | `ALScheduler/alavailabilityscheduler.py` |
| `Levels` | levels.dfy | `levels/xp.py` |
| `Giveaway` | giveaway.dfy | `giveaway/giveaway.py` |
| `Today` | today.dfy | `today/today.py` |
| `MatchScheduler` | match_scheduler.dfy | `matchscheduler/matchscheduler.py` |
| `Lineup` | lineup.dfy | `setlineup/setlineup.py` |
| `Tickets` | tickets.dfy | `ticketsystem/tickets.py` |

## Model

| member | source | states |
|---|---|---|
| Text.IntRoundTrip | giveaway/giveaway.py:37-45 | `int(str(n)) == n` for every integer, so a number written to the sheet parses back to itself |
| Text.UnsignedParse | giveaway/giveaway.py:27-28 | `int()` of a stripped digit string, underscores between digits allowed, is its decimal value |
| Text.NegativeRoundTrip | giveaway/giveaway.py:37 | `int("-" + digits)` is the negated value |
| Text.StripIdempotent | giveaway/giveaway.py:27-28 | stripping an already stripped text changes nothing |
| Text.ParseRejects | giveaway/giveaway.py:27-28 | `int()` raises ValueError on a text whose stripped form holds a character other than a digit, an underscore or a leading sign |
| Text.Pad3RoundTrip | ticketsystem/tickets.py:47 | the digits of `f"{n:03}"` read back as `n` |
| Text.Pad3Injective | ticketsystem/tickets.py:47 | different numbers give different `:03` strings |
| Sheets.HeaderIndex | ALScheduler/alavailabilityscheduler.py:137-139 | `header.index(name)` is the first position holding `name`; None exactly when `name` is absent (the ValueError) |
| Sheets.Overwrite | giveaway/giveaway.py:45 | an `update` of the leading cells replaces exactly those cells and keeps the rest of the row |
| Sheets.Worksheet.UpdateLeading | giveaway/giveaway.py:45 | `update(f"A{i}:D{i}", [new_row])` rewrites row `i` only, by Overwrite |
| Sheets.Worksheet.DeleteRows | availablescheduler/availablescheduler.py:98 | `delete_rows(i)` removes the i-th row (1-based) and shifts the rest up |
| Sheets.DeleteEach | availablescheduler/availablescheduler.py:97-101 | deleting ascending positions from the bottom up gives Drop of those positions |
| Sheets.DeleteSelected | availablescheduler/availablescheduler.py:93-101 | deleting the positions `i + 2` of the selected data rows, bottom up, leaves the header plus exactly the unselected rows in order (Purge) |
| Sheets.PurgeIdempotent | setlineup/setlineup.py:104-106 | a second delete of the same selection changes nothing |
| Ranking.SortDescProperties | levels/xp.py:94 | the descending sort is a permutation and sorted by non-increasing key |
| Ranking.SortDescStable | levels/xp.py:94 | the sort is stable: the items sharing a key keep their input order |
| Ranking.TopTenProperties | levels/xp.py:94 | `[:10]` keeps `min(n, 10)` items, sorted, drawn from the input, and none left out outranks one kept |
| Ranking.TopTenStable | giveaway/giveaway.py:118-120 | among equal keys, the top ten keep a prefix of the input order |
| Polls.DaysBack | availablescheduler/availablescheduler.py:44 | `(weekday + 1) % 7` lies in 0..6 and is 0 exactly on Sunday |
| Polls.PostedWeekIsSundayToSaturday | availablescheduler/availablescheduler.py:43-48 | whatever the weekday, the i-th posted day is the i-th of SUNDAY..SATURDAY |
| Polls.FindMissingEmoji | availablescheduler/availablescheduler.py:33-41 | the loop reports nothing iff all eight slot emojis exist, else the first missing slot name |
| Polls.DeleteMessages | availablescheduler/availablescheduler.py:84-90 | the count of deleted messages is the number of distinct tracked ids still deletable, at most the number of ids |
| Polls.CanonicalListing | availablescheduler/availablescheduler.py:134-136 | a user's listed slots are exactly the picked slot names, in 5PM..12AM order, each once, whatever the order or repetition of the picks |
| Polls.GroupUsers | availablescheduler/availablescheduler.py:129-132 | the `setdefault(uid, []).append(time)` loop builds the grouping function and every key has an entry |
| Polls.EntriesMeaning | availablescheduler/availablescheduler.py:127-136 | each grouped user is listed once, in order of first appearance, with exactly the slot names among their own pairs |
| AvailabilityScheduler.Scheduler.SendAvailability | availablescheduler/availablescheduler.py:30-63 | a missing emoji stops before anything is written and names the first missing slot; otherwise the index sheet gains one row per posted day whose write went through |
| AvailabilityScheduler.Scheduler.DeleteAvailability | availablescheduler/availablescheduler.py:69-106 | an unreadable index row ends with nothing deleted; otherwise it counts the deletable messages, and either an unreadable record leaves both sheets as they were, or both sheets lose exactly the selected rows |
| AvailabilityScheduler.Scheduler.ListAvailability | availablescheduler/availablescheduler.py:116-143 | crashes iff some row is too short for the cells read; no data iff no relevant record; else one line per user with the canonical slots, sent to #availability iff it exists |
| AvailabilityScheduler.Scheduler.CheckAvailability | availablescheduler/availablescheduler.py:152-175 | fails iff some row has more than seven cells; else a 7x8 table whose cells count the league's seven-cell records of that day and slot, and the report lines |
| AvailabilityScheduler.RelevantOf | availablescheduler/availablescheduler.py:119 | the comprehension fails iff some row is unreadable, else it yields the (user, emoji) pairs of the relevant rows |
| AvailabilityScheduler.RenderListing | availablescheduler/availablescheduler.py:134-136 | the output loop yields the canonical entries of the grouped users and the listing text |
| AvailabilityScheduler.IndexRowsContents | availablescheduler/availablescheduler.py:46-61 | every index row a post writes is selected by the delete of that league and channel, and with every write through they are the seven labelled rows, Sunday first |
| AvailabilityScheduler.PostThenDelete | availablescheduler/availablescheduler.py:54-101 | deleting after a post leaves the index as deleting before it would |
| AvailabilityScheduler.PollIdsMatchPositions | availablescheduler/availablescheduler.py:79-82 | one message id is collected per selected index row |
| AvailabilityScheduler.SecondDeleteSelectsNothing | availablescheduler/availablescheduler.py:79-101 | after a delete, a second one selects no index row and no record |
| AvailabilityScheduler.ListingMeaning | availablescheduler/availablescheduler.py:119-136 | listed users are exactly those with a relevant record, in first-appearance order, each with exactly the slot names of their relevant records |
| AvailabilityScheduler.ListedButNotCounted | availablescheduler/availablescheduler.py:119-165 | a record whose text starts with the day but goes on is listed for that day and never counted for it |
| ALScheduler.Scheduler.Post | ALScheduler/alavailabilityscheduler.py:44-76 | a missing emoji leaves the tracked messages alone; otherwise the channel's entry is reset to the seven posted ids mapped to their day names |
| ALScheduler.Scheduler.Delete | ALScheduler/alavailabilityscheduler.py:79-116 | an untracked channel changes nothing; an empty sheet fails after the deletes; otherwise the sheet keeps its header and the rows not on the tracked messages, and the channel's entry is emptied |
| ALScheduler.Scheduler.ListAvailability | ALScheduler/alavailabilityscheduler.py:129-175 | a missing header or column fails; a short row fails; else no data iff no row of the day, or one quoted line per user with the canonical slots |
| ALScheduler.DeleteTracked | ALScheduler/alavailabilityscheduler.py:87-97 | the count is the number of tracked ids whose message could be deleted |
| ALScheduler.KeepRows | ALScheduler/alavailabilityscheduler.py:103-106 | the kept rows are the header and the data rows with five or more cells not on a tracked message |
| ALScheduler.PairsOnDay | ALScheduler/alavailabilityscheduler.py:143-152 | the row loop fails iff a row of six or more cells is too short for the columns read, else it yields the day's (user, emoji) pairs |
| ALScheduler.RenderUsers | ALScheduler/alavailabilityscheduler.py:158-164 | the reorder and output loops give the canonical entries and one quoted line each |
| ALScheduler.DayMapContents | ALScheduler/alavailabilityscheduler.py:62-74 | the tracked entry maps every posted id, and with distinct ids exactly seven, to its day, Sunday first |
| ALScheduler.CleanupKeeps | ALScheduler/alavailabilityscheduler.py:103-109 | after the rewrite the header stays and a row is kept iff it has five or more cells and an untracked message id |
| ALScheduler.SecondDeleteKeepsSheet | ALScheduler/alavailabilityscheduler.py:84-111 | a rewrite with no tracked ids after a cleanup changes nothing |
| ALScheduler.ListingMeaning | ALScheduler/alavailabilityscheduler.py:143-164 | listed users are those with a row of the day, in first-appearance order, each with exactly their slot names |
| Levels.LevelsBelowClosedForm | levels/xp.py:20-24 | the XP of the levels below `l` is `50 * l * (l - 1)` |
| Levels.LevelDeterminedByTotal | levels/xp.py:20-36 | two settled entries with the same total XP have the same level and XP |
| Levels.VoiceGainPerMinute | levels/xp.py:55-56 | a voice session of m minutes and r < 60 seconds earns `10 * m` |
| Levels.LevelUp | levels/xp.py:26-36 | the loop keeps the total XP, ends with XP below the level's cost, and announces each level reached once, in order |
| Levels.LevelSystem.Touch | levels/xp.py:14 | the defaultdict access inserts the fresh entry (0 XP, level 1) on first access only |
| Levels.LevelSystem.HandleLevelUp | levels/xp.py:26-36 | only the user's entry changes; its total XP is kept, its XP ends below the level's cost, and the announced levels are the old level + 1 up to the new one, in order |
| Levels.LevelSystem.OnMessage | levels/xp.py:38-44 | bots and direct messages change nothing; otherwise only the user's entry changes, inserted at the end of the order on first access: the total grows by exactly 5, the level does not drop, the entry is settled and the announced levels are each level gained, in order |
| Levels.LevelSystem.OnVoiceStateUpdate | levels/xp.py:46-59 | only the user's entry changes, inserted at the end of the order on first access; joining records the time; leaving after a join adds the per-minute gain, clears it and never lowers the level |
| Levels.LevelSystem.Rank | levels/xp.py:79-89 | the only change is the fresh entry a first access inserts at the end of the order; reports the level, the XP, the level's cost `100 * level` and total `50 * level * (level - 1) + xp` |
| Levels.LevelSystem.Leaderboard | levels/xp.py:92-102 | the board is the top ten of the entries by total XP, with one field per entry numbered from 1 |
| Levels.Fields | levels/xp.py:96-100 | one embed field per entry, numbered from 1, the name falling back to "User id" |
| Levels.TopTenFromItems | levels/xp.py:94 | every leaderboard entry is a tracked user with their own data |
| Levels.LeftOutRanksLower | levels/xp.py:94 | no user left off the board has a higher total than one on it |
| Levels.LeaderboardProperties | levels/xp.py:92-100 | at most ten users, non-increasing totals, each with their own entry, none left out ranking higher |
| Giveaway.Find | giveaway/giveaway.py:35-36 | the first data row whose username cell matches case-insensitively after strip; NotFound when none does; Crashed when a row before a match is too short |
| Giveaway.GiveawayModal.Submit | giveaway/giveaway.py:23-63 | succeeds iff the fields parse and the sheet has the header column, and the sheet becomes the upsert; otherwise it is unchanged |
| Giveaway.WrittenNumberReadsBack | giveaway/giveaway.py:37-45 | a number the modal writes parses back to itself on the next submission |
| Giveaway.UpsertLeavesRow | giveaway/giveaway.py:35-51 | after a submission the user has a row and the header is kept |
| Giveaway.UpsertAccumulates | giveaway/giveaway.py:35-51 | two upserts for one user equal one upsert of the sums |
| Giveaway.SubmitAccumulates | giveaway/giveaway.py:30-51 | with the username header in column A, recording two submissions for one user leaves the sheet that recording the summed numbers once would |
| Giveaway.UpdatedRowFound | giveaway/giveaway.py:35-47 | after the update the same row is still the user's first match and its B and D cells read back as the written numbers |
| Giveaway.BlankFieldIsZero | giveaway/giveaway.py:27-28 | a field of whitespace only, of any kind `strip()` removes, counts as 0 |
| Giveaway.PrintedFieldIsItself | giveaway/giveaway.py:27-28 | a field holding a printed integer counts as that integer |
| Giveaway.NonIntegerField | giveaway/giveaway.py:27-28 | a field whose stripped text holds a character `int()` rejects is not a number |
| Giveaway.NonIntegerFails | giveaway/giveaway.py:27-28 | either field holding such a character fails the whole submission, whatever the sheet |
| Giveaway.UpsertUpdates | giveaway/giveaway.py:35-47 | the first matching row gets the username, the summed frags and executions and an empty C cell; every other row and the cells after D are kept |
| Giveaway.UpsertAppends | giveaway/giveaway.py:49-51 | with no match one row `[username, frag, "", exec]` is appended and the rest is kept |
| Giveaway.ParseBoard | giveaway/giveaway.py:110-116 | the parsing loop computes Board |
| Giveaway.BoardMeaning | giveaway/giveaway.py:110-116 | parsing succeeds iff every data row has four cells, and each entry is read from its row |
| Giveaway.FormatColumn | giveaway/giveaway.py:128-136 | the column text is the heading and one ranked line per entry joined by blank lines |
| Giveaway.ColumnLines | giveaway/giveaway.py:129-133 | one line per entry after the heading |
| Giveaway.GiveawayForm.Leaderboard | giveaway/giveaway.py:102-150 | the reply is the leaderboard reply of the sheet's data rows |
| Giveaway.LeaderboardOutcomes | giveaway/giveaway.py:105-116 | "No data found" iff there are no data rows; failure iff some row has fewer than four cells |
| Giveaway.CountOfWritten | giveaway/giveaway.py:113-115 | `isdigit` reads a written non-negative number back and a negative or empty cell as 0 |
| Giveaway.RankingOrder | giveaway/giveaway.py:118-120 | each column holds min(n, 10) entries by non-increasing score |
| Giveaway.RankingDrawnFrom | giveaway/giveaway.py:118-120 | every ranked entry is a data entry, and none left out outscores one ranked |
| Giveaway.RankingKeepsTies | giveaway/giveaway.py:118-120 | ranked entries with equal scores keep their sheet order |
| Today.PlaceLines | today/today.py:45-54 | one line per user after the heading |
| Today.Users | today/today.py:48 | the users of the entries, in order |
| Today.FormatPlaces | today/today.py:45-55 | the column text is the heading and one placing line per user joined by blank lines |
| Today.TodayCog.Today | today/today.py:25-69 | the reply is the `/today` reply of the sheet's data rows |
| Today.PlaceLinesShape | today/today.py:45-54 | the first line is the heading and line i + 1 places user i |
| Today.Crowns | today/today.py:49-54 | the first place has the black crown, the second the white one, and every other place starts `**#n ` |
| Today.ScoresNotShown | today/today.py:45-55 | two rankings with the same users in the same order give the same column |
| Today.TodayOutcomes | today/today.py:28-39 | "No data found" iff no data rows; failure iff some row has fewer than four cells |
| MatchScheduler.RoleName | matchscheduler/matchscheduler.py:40 | "Capo" exactly for HC, "Soldier" otherwise |
| MatchScheduler.ArchiveNext | matchscheduler/matchscheduler.py:48-49 | at least 1, above every digit id in the archive, and either 1 or one above one of them |
| MatchScheduler.ScheduledRow | matchscheduler/matchscheduler.py:63-89 | eleven cells with the match id at index 8, the message id at 9 and the channel id at 10 |
| MatchScheduler.MatchScheduleModal.Submit | matchscheduler/matchscheduler.py:29-92 | schedules iff the channel exists and A2 parses; then the id is A2 + 1, A2 holds it, both sheets gain the same row and the announcement names the id and role; otherwise nothing changes |
| MatchScheduler.NextIdFollows | matchscheduler/matchscheduler.py:51-53 | the id written back to A2 makes the next submission take the following id |
| MatchScheduler.AnnouncementEndsWithId | matchscheduler/matchscheduler.py:55-58 | the announcement ends with "ID: id" and the role mention |
| Lineup.FindMatchAsWritten | setlineup/setlineup.py:138-144 | the lookup as written returns the first data row whose last cell is the id; it crashes on an empty row reached before any match; none is found only when every row is non-empty and ends in another value |
| Lineup.FindMatch | setlineup/setlineup.py:138-144 | the corrected lookup returns the first data row whose ninth cell is the id; it crashes on a row without a ninth cell reached before any match; none is found only when every row has another id |
| Lineup.AsWrittenMissesScheduledMatch | setlineup/setlineup.py:140 | the lookup as written misses a row the match scheduler wrote with id 7, and the corrected one finds it |
| Lineup.AsWrittenFindsNoScheduledMatch | setlineup/setlineup.py:140 | on scheduler-written rows whose channel id is not the match id the lookup as written finds nothing |
| Lineup.ScheduledMatchIsFound | setlineup/setlineup.py:140 | the corrected lookup finds the row the match scheduler appended |
| Lineup.PlayerCount | setlineup/setlineup.py:146-151 | 4 for "4v4", 6 for "5v5+" and "6v6", 5 otherwise |
| Lineup.ShootersMatchCount | setlineup/setlineup.py:26-29 | one modal holds the count of 4 or 5; 6 needs the second modal's sixth field |
| Lineup.BuildEmojiMap | setlineup/setlineup.py:153-156 | the map has exactly the four names, each the guild emoji or `:name:` |
| Lineup.EmojiTextHasNoSpace | setlineup/setlineup.py:156 | emoji texts hold no space, so `split(' ', 1)[1]` yields the entered name |
| Lineup.SetLineupAsWritten | setlineup/setlineup.py:134-162 | as written the first modal never opens: a missing match is reported, and a crashed lookup or a found match ends in the error reply |
| Lineup.AsWrittenNeverOpensModal | setlineup/setlineup.py:135-162 | even on a row whose last cell is the id, the command as written fails while the corrected one finds the row |
| Lineup.SetLineup | setlineup/setlineup.py:134-162 | corrected for both findings below: a crashed lookup fails, a missing match is reported, else the first modal opens with the row, the counts, the key and the emoji map |
| Lineup.Prefixed | setlineup/setlineup.py:32 | each shooter line is the emoji, a space and the entered name |
| Lineup.PrefixedIsSpaced | setlineup/setlineup.py:32 | every prefixed line has a space to split at |
| Lineup.StoredNameIsEntered | setlineup/setlineup.py:108-111 | the sheet stores exactly the entered name of each line |
| Lineup.LineupFlow.SubmitFirst | setlineup/setlineup.py:31-45 | more than five players stores the context for the second modal; otherwise the lineup is finalised at once |
| Lineup.LineupFlow.SubmitSecond | setlineup/setlineup.py:58-69 | an expired key changes nothing; otherwise the sixth shooter and two subs are added and the lineup is finalised |
| Lineup.LineupFlow.Finalize | setlineup/setlineup.py:71-111 | a missing key posts nothing; otherwise the context is popped, the message posted and, when the sheet is readable, the match's rows replaced |
| Lineup.AppendLines | setlineup/setlineup.py:108-111 | the sheet gains one row per line, numbered from 1 |
| Lineup.DeleteMatchRows | setlineup/setlineup.py:101-106 | a short row fails with the sheet unchanged; otherwise exactly the match's rows go |
| Lineup.LineRowsOfMatch | setlineup/setlineup.py:108-111 | every written row carries the match id in column B |
| Lineup.LineRowsShape | setlineup/setlineup.py:108-111 | row k is `[timestamp, id, f"{kind} {k+1}", name]`, the name being the text after the first space |
| Lineup.FinalizeReplaces | setlineup/setlineup.py:101-111 | the other matches' rows are unchanged and the match's rows are exactly the new players and subs |
| Lineup.PlaceholdersNotWritten | setlineup/setlineup.py:83-86 | with no subs entered, the sheet gets only the player rows: the placeholder subs of the message are not written |
| Tickets.CloseDeletes | ticketsystem/tickets.py:24-33 | the channel is deleted iff its name starts with "ticket" |
| Tickets.TicketSystem.constructor | ticketsystem/tickets.py:12 | the counter starts at 0 |
| Tickets.TicketSystem.OpenTicket | ticketsystem/tickets.py:43-75 | the counter is incremented, the channel is named from it in "Tickets", the category is created iff missing, and the overwrites are set |
| Tickets.Overwrites | ticketsystem/tickets.py:57-65 | @everyone cannot read, the opener can read and send, the Staff role can when it exists, and nobody else has an overwrite |
| Tickets.TicketNamesDistinct | ticketsystem/tickets.py:45-47 | tickets with different numbers get different names |
| Tickets.CreatedTicketsCanBeClosed | ticketsystem/tickets.py:28-47 | every channel the cog creates passes the close test |
| Tickets.ClosePrefixOnly | ticketsystem/tickets.py:28 | every name starting with "ticket" passes the close test, including ones no ticket number gives; a name not starting with "t" never does |
| Tickets.TicketNameShape | ticketsystem/tickets.py:47 | "ticket-" then at least three digits that read back as the number |

## Left out

- Discord itself: messages, reactions, modals, embeds, permissions, deferrals and follow-ups. What the cogs read from Discord is a parameter. What they send is a result value, or is not modelled where it is only a confirmation.
- The gspread client and the network. A worksheet is an in-memory sequence of rows. `get_all_values` returns them as strings. `append_row` pads nothing and writes numbers as their decimal text.
- Clocks. Dates, timestamps, today's weekday and voice join times are inputs; voice times are whole seconds.
- `track_voice_time` (levels/xp.py:61-72), the one-minute timer: it needs the bot's task loop and guild membership lookups.
- The JSON file that caches `sent_messages` (alavailabilityscheduler.py:40-41). The tracked map starts from the cached value given to the constructor.
- Concurrency between the bot's coroutines. Each command runs to completion on the state it started from.
- Text.Upper, Text.Lower: only ASCII letters are case-mapped, and `isdigit` accepts only ASCII digits. Python also maps and accepts other Unicode characters.
- AvailabilityScheduler.Scheduler.SendAvailability: an `append_row` that fails is only logged, so it is modelled as each day's `indexed` flag.
- AvailabilityScheduler.Scheduler.CheckAvailability: the nested defaultdict is modelled as a 7x8 table of counts. A day or slot outside the fixed lists is never printed, so it is not kept.
- ALScheduler.Scheduler.ListAvailability: the reorder pass (alavailabilityscheduler.py:158-159) is merged into the output loop. Together they compute the same lines.
- giveaway.py does not parse as written. The string at lines 134-136 is broken across lines, and `setup` is fused onto line 150. The model uses the evidently intended `"\n\n".join(lines)` and a separate `setup`.
- Giveaway.GiveawayModal.Submit: the announcement sent to the giveaway channel (giveaway.py:53-59) and the reply text are not modelled.
- MatchScheduler.MatchScheduleModal.Submit: the archive maximum (matchscheduler.py:47-49) is computed and then overwritten, so it has no effect on the outcome; it is modelled by ArchiveNext. A failure after the deferral only sends a message when the response is not done, which it always is, so a failure is silent. `Failed` carries no text.
- The HC scheduler, results, player information, match voice channels, the activity log and voice auto-channels are not part of this model. Neither is the bot's entry point.

## Findings

| source | as written | input that shows it | evidently intended | confidence | as-written member | corrected member |
|---|---|---|---|---|---|---|
| setlineup/setlineup.py:140 | `/setlineup` looks up the match by `row[-1] == str(match_id)`. The last cell of a row the match scheduler writes is the announcement's channel id (matchscheduler.py:74), so no scheduled match is ever found. | A "matches" row appended by the match scheduler for match id 7, whose last cell is the channel id 1360237474454175814. `/setlineup 7` answers "Match ID not found." | Compare the match id cell, index 8 (column I), where the scheduler writes the id (matchscheduler.py:72); the lineup message then shows that id | not executed | Lineup.AsWrittenFindsNoScheduledMatch | Lineup.ScheduledMatchIsFound |
| setlineup/setlineup.py:135-162 | The command answers with `defer` (line 135) and later calls `interaction.response.send_modal` (line 159). discord.py refuses a second response to an interaction, so the `except` branch replies "❌ Error: …" and the lineup modal never opens. | `/setlineup` for any match the lookup finds. | Open the modal as the first response (no `defer`), so the lineup flow starts | not executed | Lineup.SetLineupAsWritten | Lineup.SetLineup |
