/** The availability cog for both leagues: posting the week's seven poll
    messages with an index row each, deleting a channel's polls together with
    their reaction records, listing one day's availability per user, and
    tallying the reactions per day and slot.

    Sheets: `records` ("availability") holds one row per reaction,
    `[timestamp, user_name, user_id, emoji, message_id, message_text, league]`;
    `index` ("currentavailability") holds one row per posted poll message,
    `[league, channel_id, message_id, label]`. Both have a header row. */
module AvailabilityScheduler {
  import opened Wrappers
  import opened Text
  import opened Sheets
  import opened Polls

  /** One day's poll message as Discord returned it: its id, the `MM/DD`
      date of its day, and whether its index row was written (a failing
      `append_row` is only logged). */
  datatype PostedDay = PostedDay(messageId: string, date: string, indexed: bool)

  datatype PostOutcome = EmojiNotFound(name: string) | PostedFor(league: string)

  /** `f"{DAY} {MM/DD} | {league}"` for the i-th posted day. */
  function Label(weekday: int, i: int, date: string, league: string): string
    requires 0 <= weekday < 7 && 0 <= i < 7
  {
    PostedDayName(weekday, i) + " " + date + " | " + league
  }

  /** The index rows one post writes, in day order. */
  function IndexRows(league: string, channel: string, weekday: int, days: seq<PostedDay>): seq<Row>
    requires 0 <= weekday < 7 && |days| <= 7
  {
    if days == [] then []
    else
      var i := |days| - 1;
      IndexRows(league, channel, weekday, days[..i])
        + (if days[i].indexed then [[league, channel, days[i].messageId, Label(weekday, i, days[i].date, league)]] else [])
  }

  /** The index loop reads `row[0]`, then `row[1]` when the league matches,
      then `row[2]` when the channel matches too: a row too short for the
      reads it gets raises IndexError. */
  predicate IndexRowUnreadable(row: Row, league: string, channel: string) {
    |row| == 0 || (row[0] == league && (|row| == 1 || (row[1] == channel && |row| == 2)))
  }

  /** An index row of this league and channel. */
  predicate IndexSelected(row: Row, league: string, channel: string) {
    |row| >= 3 && row[0] == league && row[1] == channel
  }

  function IndexPick(league: string, channel: string): Row -> bool {
    row => IndexSelected(row, league, channel)
  }

  /** `msg_ids_to_delete`: the message ids of the selected index rows. */
  function PollIds(data: seq<Row>, league: string, channel: string): seq<string> {
    if data == [] then []
    else
      var row := data[|data| - 1];
      PollIds(data[..|data| - 1], league, channel) + (if IndexSelected(row, league, channel) then [row[2]] else [])
  }

  /** The record comprehension reads `row[4]`, then `row[6]` when the
      message id is one of the poll's. */
  predicate RecordUnreadable(row: Row, ids: seq<string>, league: string) {
    |row| < 5 || (row[4] in ids && |row| < 7)
  }

  /** A reaction record on one of the deleted messages, in this league. */
  predicate RecordSelected(row: Row, ids: seq<string>, league: string) {
    |row| >= 7 && row[4] in ids && row[6] == league
  }

  function RecordPick(ids: seq<string>, league: string): Row -> bool {
    row => RecordSelected(row, ids, league)
  }

  /** The listing comprehension reads `r[5]`, then `r[6]` when the text
      starts with the day. */
  predicate ListingUnreadable(row: Row, league: string, day: string) {
    |row| < 6 || (StartsWith(row[5], day) && |row| < 7)
  }

  predicate Relevant(row: Row, league: string, day: string) {
    |row| >= 7 && StartsWith(row[5], day) && row[6] == league
  }

  /** (user_id, emoji) of each relevant record, in sheet order. */
  function RelevantPairs(data: seq<Row>, league: string, day: string): seq<(string, string)> {
    if data == [] then []
    else
      var row := data[|data| - 1];
      RelevantPairs(data[..|data| - 1], league, day) + (if Relevant(row, league, day) then [(row[2], row[3])] else [])
  }

  /** `f"<@{uid}>: {', '.join(ordered)}\n"` for each entry. */
  function Lines(entries: seq<(string, seq<string>)>): string {
    if entries == [] then ""
    else
      var (uid, times) := entries[|entries| - 1];
      Lines(entries[..|entries| - 1]) + "<@" + uid + ">: " + Join(", ", times) + "\n"
  }

  function ListingText(day: string, entries: seq<(string, seq<string>)>): string {
    "**" + day + "**\n" + Lines(entries)
  }

  /** One more entry adds its line at the end of the listing. */
  lemma ListingStep(day: string, entries: seq<(string, seq<string>)>, uid: string, times: seq<string>)
    ensures ListingText(day, entries + [(uid, times)])
         == ListingText(day, entries) + "<@" + uid + ">: " + Join(", ", times) + "\n"
  {
    assert (entries + [(uid, times)])[..|entries|] == entries;
  }

  datatype Listing =
    | ListingCrashed
    | NoData(league: string, day: string)
    | Listed(entries: seq<(string, seq<string>)>, text: string, toChannel: bool)

  /** The tally rule: a complete 7-column row of the league whose upper-cased
      message text is exactly `day` and whose emoji is `slot`. */
  predicate Counted(row: Row, league: string, day: string, slot: string) {
    |row| == 7 && row[6] == league && Upper(row[5]) == day && row[3] == slot
  }

  function Tally(data: seq<Row>, league: string, day: string, slot: string): nat {
    if data == [] then 0
    else Tally(data[..|data| - 1], league, day, slot) + (if Counted(data[|data| - 1], league, day, slot) then 1 else 0)
  }

  /** `counts[day].get(time, 0)` */
  function CountIn(counts: map<(string, string), nat>, day: string, slot: string): nat {
    if (day, slot) in counts then counts[(day, slot)] else 0
  }

  function SlotCells(counts: seq<nat>, k: nat): seq<string>
    requires k <= |counts| && k <= |SlotOrder|
  {
    if k == 0 then [] else SlotCells(counts, k - 1) + [SlotOrder[k - 1] + " " + NatToString(counts[k - 1])]
  }

  /** The header line followed by one line per day, joined by newlines. */
  function ReportLines(league: string, table: seq<seq<nat>>): seq<string>
    requires |table| <= |WeekDays|
    requires forall d :: 0 <= d < |table| ==> |table[d]| == |SlotOrder|
  {
    if table == [] then ["**AOS CURRENT " + league + " AVAILABILITY**"]
    else
      var d := |table| - 1;
      ReportLines(league, table[..d]) + ["**" + WeekDays[d] + ":** " + Join(" | ", SlotCells(table[d], |SlotOrder|))]
  }

  datatype Report = CheckCrashed | Counts(table: seq<seq<nat>>, text: string)

  class Scheduler {
    const records: Worksheet
    const index: Worksheet

    constructor (records: Worksheet, index: Worksheet)
      requires records != index
      ensures this.records == records && this.index == index
    {
      this.records := records;
      this.index := index;
    }

    /** `sendavailability`: the emoji check, then one message and one index
        row per day of the week that starts on Sunday. */
    method SendAvailability(league: string, channel: string, guildEmojis: set<string>, weekday: int, days: seq<PostedDay>)
      returns (out: PostOutcome)
      requires 0 <= weekday < 7 && |days| == 7
      modifies index
      ensures out.EmojiNotFound? <==> exists k :: 0 <= k < |SlotOrder| && SlotOrder[k] !in guildEmojis
      ensures out.EmojiNotFound? ==> index.rows == old(index.rows)
      ensures out.EmojiNotFound? ==> exists k :: FirstMissingAt(guildEmojis, k) && SlotOrder[k] == out.name
      ensures out.PostedFor? ==> out.league == league
      ensures out.PostedFor? ==> index.rows == old(index.rows) + IndexRows(league, channel, weekday, days)
    {
      var missing := FindMissingEmoji(guildEmojis);
      if missing.Some? {
        return EmojiNotFound(missing.value);
      }
      var i := 0;
      while i < 7
        invariant 0 <= i <= 7
        invariant index.rows == old(index.rows) + IndexRows(league, channel, weekday, days[..i])
      {
        var text := Label(weekday, i, days[i].date, league);
        if days[i].indexed {
          index.AppendRow([league, channel, days[i].messageId, text]);
        }
        assert days[..i + 1][..i] == days[..i];
        i := i + 1;
      }
      assert days[..7] == days;
      return PostedFor(league);
    }

    /** `deleteavailability`: select the channel's index rows, delete their
        messages, then delete the matching reaction records and the index
        rows, each from the bottom up. An IndexError is caught and ends the
        command early with the count reached so far. */
    method DeleteAvailability(league: string, channel: string, deletable: set<string>) returns (deleted: nat)
      requires records != index
      modifies records, index
      ensures var data := Data(old(index.rows));
        if exists j :: 0 <= j < |data| && IndexRowUnreadable(data[j], league, channel) then
          deleted == 0 && records.rows == old(records.rows) && index.rows == old(index.rows)
        else
          var ids := PollIds(data, league, channel);
          var recs := Data(old(records.rows));
          && deleted == |Elems(ids) * deletable|
          && if exists j :: 0 <= j < |recs| && RecordUnreadable(recs[j], ids, league) then
               records.rows == old(records.rows) && index.rows == old(index.rows)
             else
               && records.rows == Purge(old(records.rows), RecordPick(ids, league))
               && index.rows == Purge(old(index.rows), IndexPick(league, channel))
    {
      var data := Data(index.rows);
      var toDelete: seq<nat> := [];
      var ids: seq<string> := [];
      var i := 0;
      while i < |data|
        invariant 0 <= i <= |data|
        invariant toDelete == Positions(data[..i], IndexPick(league, channel))
        invariant ids == PollIds(data[..i], league, channel)
        invariant forall j :: 0 <= j < i ==> !IndexRowUnreadable(data[j], league, channel)
      {
        var row := data[i];
        assert data[..i + 1][..i] == data[..i];
        if |row| == 0 || (row[0] == league && (|row| == 1 || (row[1] == channel && |row| == 2))) {
          assert IndexRowUnreadable(data[i], league, channel);
          return 0;
        }
        if row[0] == league && row[1] == channel {
          toDelete := toDelete + [i + 2];
          ids := ids + [row[2]];
        }
        i := i + 1;
      }
      assert data[..i] == data;
      deleted := DeleteMessages(ids, deletable);

      var recs := Data(records.rows);
      if exists j :: 0 <= j < |recs| && RecordUnreadable(recs[j], ids, league) {
        return;
      }
      var recordRows := Positions(recs, RecordPick(ids, league));
      PositionsSelect(recs, RecordPick(ids, league));
      PositionsSelect(data, IndexPick(league, channel));
      DeleteSelected(records.rows, RecordPick(ids, league));
      DeleteSelected(index.rows, IndexPick(league, channel));
      DeleteEach(records, recordRows);
      DeleteEach(index, toDelete);
    }

    /** `availability`: the relevant records grouped by user in order of
        first appearance, each user's slots in the canonical order; sent to
        the #availability channel when there is one. */
    method ListAvailability(league: string, day: string, hasChannel: bool) returns (out: Listing)
      ensures var data := Data(records.rows);
        && (out.ListingCrashed? <==> exists j :: 0 <= j < |data| && ListingUnreadable(data[j], league, day))
        && (out.NoData? ==> out == NoData(league, day) && RelevantPairs(data, league, day) == [])
        && (out.Listed? ==>
              var g := Grouped(RelevantPairs(data, league, day));
              && RelevantPairs(data, league, day) != []
              && Complete(g)
              && out.entries == EntriesOf(g, g.order)
              && out.text == ListingText(day, out.entries)
              && out.toChannel == hasChannel)
    {
      var found := RelevantOf(Data(records.rows), league, day);
      if found.None? {
        return ListingCrashed;
      }
      if found.value == [] {
        return NoData(league, day);
      }
      var users := GroupUsers(found.value);
      var entries, text := RenderListing(day, users);
      return Listed(entries, text, hasChannel);
    }

    /** `checkavailability`: the per-day, per-slot tally of the league's
        records. Unpacking a row of more than seven cells raises ValueError,
        which ends the command without a reply. */
    method CheckAvailability(league: string) returns (out: Report)
      ensures var data := Data(records.rows);
        && (out.CheckCrashed? <==> exists j :: 0 <= j < |data| && |data[j]| > 7)
        && (out.Counts? ==>
              && |out.table| == |WeekDays|
              && (forall d :: 0 <= d < |WeekDays| ==> |out.table[d]| == |SlotOrder|)
              && (forall d, t :: 0 <= d < |WeekDays| && 0 <= t < |SlotOrder| ==>
                    out.table[d][t] == Tally(data, league, WeekDays[d], SlotOrder[t]))
              && out.text == Join("\n", ReportLines(league, out.table)))
    {
      var data := Data(records.rows);
      var counts: map<(string, string), nat> := map[];
      var i := 0;
      while i < |data|
        invariant 0 <= i <= |data|
        invariant forall j :: 0 <= j < i ==> |data[j]| <= 7
        invariant forall day, slot :: CountIn(counts, day, slot) == Tally(data[..i], league, day, slot)
      {
        var row := data[i];
        assert data[..i + 1][..i] == data[..i];
        if |row| < 7 {
          i := i + 1;
          continue;
        }
        if |row| > 7 {
          return CheckCrashed;
        }
        if row[6] == league {
          var key := (Upper(row[5]), row[3]);
          counts := counts[key := CountIn(counts, key.0, key.1) + 1];
        }
        i := i + 1;
      }
      assert data[..i] == data;
      var table := seq(7, d requires 0 <= d < 7 => seq(8, t requires 0 <= t < 8 => CountIn(counts, WeekDays[d], SlotOrder[t])));
      return Counts(table, Join("\n", ReportLines(league, table)));
    }
  }

  /** `[r for r in rows if r[5].startswith(day) and r[6] == league]`, with
      the IndexError a short row raises as None. */
  method RelevantOf(data: seq<Row>, league: string, day: string) returns (found: Option<seq<(string, string)>>)
    ensures found.None? <==> exists j :: 0 <= j < |data| && ListingUnreadable(data[j], league, day)
    ensures found.Some? ==> found.value == RelevantPairs(data, league, day)
  {
    var pairs: seq<(string, string)> := [];
    var i := 0;
    while i < |data|
      invariant 0 <= i <= |data|
      invariant pairs == RelevantPairs(data[..i], league, day)
      invariant forall j :: 0 <= j < i ==> !ListingUnreadable(data[j], league, day)
    {
      var row := data[i];
      assert data[..i + 1][..i] == data[..i];
      if |row| < 6 || (StartsWith(row[5], day) && |row| < 7) {
        assert ListingUnreadable(data[i], league, day);
        return None;
      }
      if StartsWith(row[5], day) && row[6] == league {
        pairs := pairs + [(row[2], row[3])];
      }
      i := i + 1;
    }
    assert data[..i] == data;
    return Some(pairs);
  }

  /** The loop over `users.items()` that appends one line per user. */
  method RenderListing(day: string, users: Groups) returns (entries: seq<(string, seq<string>)>, text: string)
    requires Complete(users)
    ensures entries == EntriesOf(users, users.order)
    ensures text == ListingText(day, entries)
  {
    entries := [];
    text := "**" + day + "**\n";
    var n := 0;
    while n < |users.order|
      invariant 0 <= n <= |users.order|
      invariant entries == EntriesOf(users, users.order[..n])
      invariant text == ListingText(day, entries)
    {
      var uid := users.order[n];
      var ordered := Canonical(users.slots[uid]);
      EntriesOfStep(users, users.order, n);
      ListingStep(day, entries, uid, ordered);
      entries := entries + [(uid, ordered)];
      text := text + "<@" + uid + ">: " + Join(", ", ordered) + "\n";
      n := n + 1;
    }
    assert users.order[..n] == users.order;
  }

  /** A post writes, for each day whose index row went through, the row
      `[league, channel, message id, "DAY MM/DD | league"]` with the days
      running Sunday to Saturday; every such row is one the delete of this
      league and channel selects. */
  lemma {:induction false} IndexRowsContents(league: string, channel: string, weekday: int, days: seq<PostedDay>)
    requires 0 <= weekday < 7 && |days| <= 7
    ensures forall r :: r in IndexRows(league, channel, weekday, days) ==> IndexSelected(r, league, channel)
    ensures (forall i :: 0 <= i < |days| ==> days[i].indexed) ==>
      var rows := IndexRows(league, channel, weekday, days);
      && |rows| == |days|
      && forall i :: 0 <= i < |days| ==>
           rows[i] == [league, channel, days[i].messageId, WeekDays[i] + " " + days[i].date + " | " + league]
  {
    if days != [] {
      var i := |days| - 1;
      IndexRowsContents(league, channel, weekday, days[..i]);
      PostedWeekIsSundayToSaturday(weekday, i);
    }
  }

  /** Deleting after a post leaves the index exactly as deleting before it
      would have: the post's rows are all selected. */
  lemma PostThenDelete(rows: seq<Row>, league: string, channel: string, weekday: int, days: seq<PostedDay>)
    requires rows != [] && 0 <= weekday < 7 && |days| <= 7
    ensures Purge(rows + IndexRows(league, channel, weekday, days), IndexPick(league, channel))
         == Purge(rows, IndexPick(league, channel))
  {
    var added := IndexRows(league, channel, weekday, days);
    var pick := IndexPick(league, channel);
    IndexRowsContents(league, channel, weekday, days);
    assert (rows + added)[1..] == rows[1..] + added;
    WithoutAppend(rows[1..], added, pick);
    if Without(added, pick) != [] {
      var r := Without(added, pick)[0];
      WithoutKeeps(added, pick, r);
      assert false;
    }
  }

  lemma {:induction false} PollIdsMatchPositions(data: seq<Row>, league: string, channel: string)
    ensures |PollIds(data, league, channel)| == |Positions(data, IndexPick(league, channel))|
  {
    if data != [] {
      PollIdsMatchPositions(data[..|data| - 1], league, channel);
    }
  }

  /** After a complete delete, running it again selects no index row and no
      message id, so it deletes no record and no index row. */
  lemma SecondDeleteSelectsNothing(index: seq<Row>, records: seq<Row>, league: string, channel: string)
    requires index != []
    ensures var after := Purge(index, IndexPick(league, channel));
      && Positions(Data(after), IndexPick(league, channel)) == []
      && PollIds(Data(after), league, channel) == []
      && Purge(records, RecordPick([], league)) == records
  {
    var pick := IndexPick(league, channel);
    var after := Purge(index, pick);
    assert Data(after) == Without(index[1..], pick);
    NothingLeftToSelect(index[1..], pick);
    PollIdsMatchPositions(Data(after), league, channel);
    if records != [] {
      WithoutNone(records[1..], RecordPick([], league));
      assert records == [records[0]] + records[1..];
    }
  }

  lemma {:induction false} RelevantPairsMembers(data: seq<Row>, league: string, day: string, uid: string, t: string)
    ensures (uid, t) in RelevantPairs(data, league, day) <==>
      exists j :: 0 <= j < |data| && Relevant(data[j], league, day) && data[j][2] == uid && data[j][3] == t
  {
    if data != [] {
      var init := data[..|data| - 1];
      RelevantPairsMembers(init, league, day, uid, t);
      if exists j :: 0 <= j < |data| && Relevant(data[j], league, day) && data[j][2] == uid && data[j][3] == t {
        var j :| 0 <= j < |data| && Relevant(data[j], league, day) && data[j][2] == uid && data[j][3] == t;
        if j < |init| {
          assert init[j] == data[j];
        }
      }
      if exists j :: 0 <= j < |init| && Relevant(init[j], league, day) && init[j][2] == uid && init[j][3] == t {
        var j :| 0 <= j < |init| && Relevant(init[j], league, day) && init[j][2] == uid && init[j][3] == t;
        assert data[j] == init[j];
      }
    }
  }

  /** The listing names each user with a relevant record once, in order of
      first appearance, and gives exactly the slot names that user reacted
      with on a record of that league whose text starts with the day. */
  lemma ListingMeaning(data: seq<Row>, league: string, day: string, i: int, t: string)
    requires var g := Grouped(RelevantPairs(data, league, day)); 0 <= i < |EntriesOf(g, g.order)|
    ensures var pairs := RelevantPairs(data, league, day);
      var g := Grouped(pairs);
      var e := EntriesOf(g, g.order);
      && |e| == |FirstAppearance(pairs)|
      && e[i].0 == FirstAppearance(pairs)[i]
      && (t in e[i].1 <==> (t in SlotOrder
            && exists j :: 0 <= j < |data| && Relevant(data[j], league, day) && data[j][2] == e[i].0 && data[j][3] == t))
  {
    var pairs := RelevantPairs(data, league, day);
    var g := Grouped(pairs);
    EntriesMeaning(pairs, i, t);
    RelevantPairsMembers(data, league, day, EntriesOf(g, g.order)[i].0, t);
  }

  /** The quirk between the two reads of the day: a record whose text starts
      with the day name but goes on after it is listed for that day and never
      counted for it. */
  lemma ListedButNotCounted(row: Row, league: string, d: int, slot: string)
    requires 0 <= d < |WeekDays|
    requires |row| == 7 && row[6] == league && row[3] == slot
    requires StartsWith(row[5], WeekDays[d]) && |row[5]| > |WeekDays[d]|
    ensures Relevant(row, league, WeekDays[d])
    ensures !Counted(row, league, WeekDays[d], slot)
  {
  }
}
