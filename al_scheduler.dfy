/** The AL availability cog: the poll messages are tracked in memory, per
    channel, as a map from message id to day name; deleting them rewrites the
    "alavailability" sheet without their reaction records; the per-day listing
    finds its columns by header name. */
module ALScheduler {
  import opened Wrappers
  import opened Text
  import opened Sheets
  import opened Polls

  datatype PostOutcome = EmojiNotFound(name: string) | Posted

  datatype DeleteOutcome = Untracked | SheetMissing(deleted: nat) | Cleaned(deleted: nat)

  datatype Listing =
    | Failed
    | NoData(day: string)
    | Listed(entries: seq<(string, seq<string>)>, text: string, posted: bool)

  /** The tracked entry one post leaves for its channel: each message id
      mapped to the upper-cased name of its day. */
  function DayMap(ids: seq<string>, weekday: int): map<string, string>
    requires 0 <= weekday < 7 && |ids| <= 7
  {
    if ids == [] then map[]
    else DayMap(ids[..|ids| - 1], weekday)[ids[|ids| - 1] := PostedDayName(weekday, |ids| - 1)]
  }

  /** A data row the rewrite keeps: it has a message id column and that id
      is not one of the channel's tracked messages. */
  predicate Kept(row: Row, ids: set<string>) {
    |row| >= 5 && row[4] !in ids
  }

  function Stale(ids: set<string>): Row -> bool {
    row => !Kept(row, ids)
  }

  /** The positions of the "User ID", "Emoji" and "Message Text" columns. */
  datatype Columns = Columns(user: nat, emoji: nat, text: nat)

  function ColumnsOf(header: Row): Option<Columns> {
    match (HeaderIndex(header, "User ID"), HeaderIndex(header, "Emoji"), HeaderIndex(header, "Message Text"))
    case (Some(u), Some(e), Some(t)) => Some(Columns(u, e, t))
    case _ => None
  }

  /** `row[idx_message_text].strip().upper() == day`, on a row of at least
      six cells. */
  predicate OnDay(row: Row, c: Columns, day: string) {
    |row| >= 6 && c.text < |row| && Upper(Strip(row[c.text])) == day
  }

  /** A row of six or more cells raises IndexError when a column it is read
      at lies beyond its end. */
  predicate Unreadable(row: Row, c: Columns, day: string) {
    |row| >= 6 && (c.text >= |row| || (Upper(Strip(row[c.text])) == day && (c.user >= |row| || c.emoji >= |row|)))
  }

  /** A row on the day whose user and emoji cells are there to be read. */
  predicate Listable(row: Row, c: Columns, day: string) {
    OnDay(row, c, day) && c.user < |row| && c.emoji < |row|
  }

  /** (stripped user id, stripped emoji) */
  function PairOf(row: Row, c: Columns): (string, string)
    requires c.user < |row| && c.emoji < |row|
  {
    (Strip(row[c.user]), Strip(row[c.emoji]))
  }

  /** The pairs of the rows on the day, in sheet order. */
  function DayPairs(data: seq<Row>, c: Columns, day: string): seq<(string, string)> {
    if data == [] then []
    else
      var row := data[|data| - 1];
      DayPairs(data[..|data| - 1], c, day) + (if Listable(row, c, day) then [PairOf(row, c)] else [])
  }

  /** `', '.join(f'"{e}"' for e in emojis)` */
  function Quoted(times: seq<string>): seq<string> {
    if times == [] then [] else Quoted(times[..|times| - 1]) + ["\"" + times[|times| - 1] + "\""]
  }

  /** One output line per listed user. */
  function UserLines(entries: seq<(string, seq<string>)>): seq<string> {
    if entries == [] then []
    else
      var (uid, times) := entries[|entries| - 1];
      UserLines(entries[..|entries| - 1]) + ["<@" + uid + ">: " + Join(", ", Quoted(times))]
  }

  /** One more entry adds its line at the end. */
  lemma UserLinesStep(entries: seq<(string, seq<string>)>, uid: string, times: seq<string>)
    ensures UserLines(entries + [(uid, times)]) == UserLines(entries) + ["<@" + uid + ">: " + Join(", ", Quoted(times))]
  {
    assert (entries + [(uid, times)])[..|entries|] == entries;
  }

  class Scheduler {
    /** `sent_messages`: channel id to {message id: day name}. */
    var sentMessages: map<string, map<string, string>>
    const sheet: Worksheet

    constructor (sheet: Worksheet, cached: map<string, map<string, string>>)
      ensures this.sheet == sheet && sentMessages == cached
    {
      this.sheet := sheet;
      sentMessages := cached;
    }

    /** `alavailabilityscheduler`: the emoji check, then the channel's entry
        is reset and filled with the seven posted message ids. */
    method Post(channel: string, guildEmojis: set<string>, weekday: int, ids: seq<string>) returns (out: PostOutcome)
      requires 0 <= weekday < 7 && |ids| == 7
      modifies this
      ensures out.EmojiNotFound? <==> exists k :: 0 <= k < |SlotOrder| && SlotOrder[k] !in guildEmojis
      ensures out.EmojiNotFound? ==> sentMessages == old(sentMessages)
      ensures out.EmojiNotFound? ==> exists k :: FirstMissingAt(guildEmojis, k) && SlotOrder[k] == out.name
      ensures out.Posted? ==> sentMessages == old(sentMessages)[channel := DayMap(ids, weekday)]
    {
      var missing := FindMissingEmoji(guildEmojis);
      if missing.Some? {
        return EmojiNotFound(missing.value);
      }
      sentMessages := sentMessages[channel := map[]];
      var i := 0;
      while i < 7
        invariant 0 <= i <= 7
        invariant sentMessages == old(sentMessages)[channel := DayMap(ids[..i], weekday)]
      {
        assert ids[..i + 1][..i] == ids[..i];
        sentMessages := sentMessages[channel := sentMessages[channel][ids[i] := PostedDayName(weekday, i)]];
        i := i + 1;
      }
      assert ids[..7] == ids;
      return Posted;
    }

    /** `deletealavailability`: for a tracked channel, delete its messages,
        rewrite the sheet as the header and the kept rows, and empty the
        channel's entry. Reading the header of an empty sheet raises
        IndexError after the messages are gone. */
    method Delete(channel: string, deletable: set<string>) returns (out: DeleteOutcome)
      modifies this, sheet
      ensures channel !in old(sentMessages) ==>
        out == Untracked && sentMessages == old(sentMessages) && sheet.rows == old(sheet.rows)
      ensures channel in old(sentMessages) && old(sheet.rows) == [] ==>
        var ids := old(sentMessages)[channel].Keys;
        out == SheetMissing(|ids * deletable|) && sentMessages == old(sentMessages) && sheet.rows == old(sheet.rows)
      ensures channel in old(sentMessages) && old(sheet.rows) != [] ==>
        var ids := old(sentMessages)[channel].Keys;
        && out == Cleaned(|ids * deletable|)
        && sheet.rows == Purge(old(sheet.rows), Stale(ids))
        && sentMessages == old(sentMessages)[channel := map[]]
    {
      if channel !in sentMessages {
        return Untracked;
      }
      var ids := sentMessages[channel].Keys;
      var deleted := DeleteTracked(ids, deletable);
      var all := sheet.rows;
      if all == [] {
        return SheetMissing(deleted);
      }
      var keep := KeepRows(all[0], all[1..], ids);
      sheet.Clear();
      sheet.AppendRows(keep);
      sentMessages := sentMessages[channel := map[]];
      return Cleaned(deleted);
    }

    /** `alavailability`: any exception (no header, a missing column name, a
        short row) ends in the generic error reply. */
    method ListAvailability(day: string, hasChannel: bool) returns (out: Listing)
      ensures sheet.rows == [] || ColumnsOf(sheet.rows[0]).None? ==> out == Failed
      ensures sheet.rows != [] && ColumnsOf(sheet.rows[0]).Some? ==>
        var c := ColumnsOf(sheet.rows[0]).value;
        var data := sheet.rows[1..];
        var pairs := DayPairs(data, c, day);
        var g := Grouped(pairs);
        && (out == Failed <==> exists j :: 0 <= j < |data| && Unreadable(data[j], c, day))
        && (out.NoData? ==> out.day == day && pairs == [])
        && (out.Listed? ==>
              && pairs != []
              && out.entries == EntriesOf(g, g.order)
              && out.text == Join("\n", ["**" + day + "**\n"] + UserLines(out.entries))
              && out.posted == hasChannel)
    {
      if sheet.rows == [] {
        return Failed;
      }
      var columns := ColumnsOf(sheet.rows[0]);
      if columns.None? {
        return Failed;
      }
      var found := PairsOnDay(sheet.rows[1..], columns.value, day);
      if found.None? {
        return Failed;
      }
      if found.value == [] {
        return NoData(day);
      }
      var users := GroupUsers(found.value);
      var entries, output := RenderUsers(day, users);
      return Listed(entries, Join("\n", output), hasChannel);
    }
  }

  /** The message deletion loop: every tracked id is tried once and counted
      when its message could be deleted. */
  method DeleteTracked(ids: set<string>, deletable: set<string>) returns (deleted: nat)
    ensures deleted == |ids * deletable|
    ensures deleted <= |ids|
  {
    deleted := 0;
    var rest := ids;
    while rest != {}
      invariant rest <= ids
      invariant deleted == |(ids - rest) * deletable|
      invariant deleted <= |ids| - |rest|
      decreases |rest|
    {
      var id :| id in rest;
      DeletedStep(ids, rest, deletable, id);
      if id in deletable {
        deleted := deleted + 1;
      }
      rest := rest - {id};
    }
    assert ids - rest == ids;
  }

  /** Trying one more tracked id adds one to the count exactly when that
      message could be deleted. */
  lemma DeletedStep(ids: set<string>, rest: set<string>, deletable: set<string>, id: string)
    requires rest <= ids && id in rest
    ensures |(ids - (rest - {id})) * deletable|
         == |(ids - rest) * deletable| + (if id in deletable then 1 else 0)
    ensures |rest - {id}| == |rest| - 1
  {
    var before := (ids - rest) * deletable;
    assert id !in before;
    if id in deletable {
      assert (ids - (rest - {id})) * deletable == before + {id};
    } else {
      assert (ids - (rest - {id})) * deletable == before;
    }
  }

  /** The `rows_to_keep` loop. */
  method KeepRows(header: Row, data: seq<Row>, ids: set<string>) returns (keep: seq<Row>)
    ensures keep == Purge([header] + data, Stale(ids))
  {
    keep := [header];
    var i := 0;
    while i < |data|
      invariant 0 <= i <= |data|
      invariant keep == [header] + Without(data[..i], Stale(ids))
    {
      assert data[..i + 1][..i] == data[..i];
      if |data[i]| >= 5 && data[i][4] !in ids {
        keep := keep + [data[i]];
      }
      i := i + 1;
    }
    assert data[..i] == data;
    assert ([header] + data)[1..] == data;
  }

  /** The row loop of the listing, with the IndexError a short row raises as None. */
  method PairsOnDay(data: seq<Row>, c: Columns, day: string) returns (found: Option<seq<(string, string)>>)
    ensures found.None? <==> exists j :: 0 <= j < |data| && Unreadable(data[j], c, day)
    ensures found.Some? ==> found.value == DayPairs(data, c, day)
  {
    var pairs: seq<(string, string)> := [];
    var i := 0;
    while i < |data|
      invariant 0 <= i <= |data|
      invariant pairs == DayPairs(data[..i], c, day)
      invariant forall j :: 0 <= j < i ==> !Unreadable(data[j], c, day)
    {
      var row := data[i];
      assert data[..i + 1][..i] == data[..i];
      if |row| >= 6 {
        if c.text >= |row| {
          assert Unreadable(data[i], c, day);
          return None;
        }
        if Upper(Strip(row[c.text])) == day {
          if c.user >= |row| || c.emoji >= |row| {
            assert Unreadable(data[i], c, day);
            return None;
          }
          pairs := pairs + [PairOf(row, c)];
        }
      }
      i := i + 1;
    }
    assert data[..i] == data;
    return Some(pairs);
  }

  /** The reordering pass and the output loop: one line per user, with the
      slots in the canonical order and each quoted. */
  method RenderUsers(day: string, users: Groups) returns (entries: seq<(string, seq<string>)>, output: seq<string>)
    requires Complete(users)
    ensures entries == EntriesOf(users, users.order)
    ensures output == ["**" + day + "**\n"] + UserLines(entries)
  {
    entries := [];
    output := ["**" + day + "**\n"];
    var n := 0;
    while n < |users.order|
      invariant 0 <= n <= |users.order|
      invariant entries == EntriesOf(users, users.order[..n])
      invariant output == ["**" + day + "**\n"] + UserLines(entries)
    {
      var uid := users.order[n];
      var ordered := Canonical(users.slots[uid]);
      EntriesOfStep(users, users.order, n);
      UserLinesStep(entries, uid, ordered);
      entries := entries + [(uid, ordered)];
      output := output + ["<@" + uid + ">: " + Join(", ", Quoted(ordered))];
      n := n + 1;
    }
    assert users.order[..n] == users.order;
  }

  lemma {:induction false} DistinctElems(ids: seq<string>)
    requires Distinct(ids)
    ensures |Elems(ids)| == |ids|
  {
    if ids != [] {
      var init := ids[..|ids| - 1];
      DistinctElems(init);
      assert Elems(ids) == Elems(init) + {ids[|ids| - 1]};
    }
  }

  lemma {:induction false} DayMapKeys(ids: seq<string>, weekday: int)
    requires 0 <= weekday < 7 && |ids| <= 7
    ensures DayMap(ids, weekday).Keys == Elems(ids)
  {
    if ids != [] {
      var init := ids[..|ids| - 1];
      DayMapKeys(init, weekday);
      assert Elems(ids) == Elems(init) + {ids[|ids| - 1]};
    }
  }

  lemma {:induction false} DayMapDays(ids: seq<string>, weekday: int)
    requires 0 <= weekday < 7 && |ids| <= 7 && Distinct(ids)
    ensures forall i :: 0 <= i < |ids| ==> ids[i] in DayMap(ids, weekday) && DayMap(ids, weekday)[ids[i]] == WeekDays[i]
  {
    if ids != [] {
      var init := ids[..|ids| - 1];
      assert Distinct(init);
      DayMapDays(init, weekday);
      PostedWeekIsSundayToSaturday(weekday, |ids| - 1);
    }
  }

  /** A post tracks every posted message under its day, Sunday first; with
      Discord's distinct message ids that is exactly seven entries. */
  lemma DayMapContents(ids: seq<string>, weekday: int)
    requires 0 <= weekday < 7 && |ids| <= 7
    ensures DayMap(ids, weekday).Keys == Elems(ids)
    ensures Distinct(ids) ==> |DayMap(ids, weekday)| == |ids|
    ensures Distinct(ids) ==> forall i :: 0 <= i < |ids| ==> DayMap(ids, weekday)[ids[i]] == WeekDays[i]
  {
    DayMapKeys(ids, weekday);
    if Distinct(ids) {
      DistinctElems(ids);
      assert |DayMap(ids, weekday).Keys| == |DayMap(ids, weekday)|;
      DayMapDays(ids, weekday);
    }
  }

  /** After the rewrite the sheet holds its header and exactly the data
      rows of five or more cells whose message id is not tracked, in their
      order; a shorter row is dropped whatever it holds. */
  lemma CleanupKeeps(rows: seq<Row>, ids: set<string>, row: Row)
    requires rows != []
    ensures var after := Purge(rows, Stale(ids));
      && after[0] == rows[0]
      && (row in after[1..] <==> row in rows[1..] && |row| >= 5 && row[4] !in ids)
  {
    WithoutKeeps(rows[1..], Stale(ids), row);
  }

  /** A second delete in the same channel has no tracked ids left; its
      rewrite then changes nothing, since the short rows are already gone. */
  lemma SecondDeleteKeepsSheet(rows: seq<Row>, ids: set<string>)
    requires rows != []
    ensures Purge(Purge(rows, Stale(ids)), Stale({})) == Purge(rows, Stale(ids))
  {
    var kept := Without(rows[1..], Stale(ids));
    forall i | 0 <= i < |kept| ensures !Stale({})(kept[i]) {
      WithoutKeeps(rows[1..], Stale(ids), kept[i]);
    }
    WithoutNone(kept, Stale({}));
    assert Purge(rows, Stale(ids))[1..] == kept;
  }

  /** Row `row` lists user `uid` with slot `t` on the day. */
  predicate Gives(row: Row, c: Columns, day: string, uid: string, t: string) {
    Listable(row, c, day) && PairOf(row, c) == (uid, t)
  }

  /** Some row of `data` lists user `uid` with slot `t` on the day. */
  predicate GivenIn(data: seq<Row>, c: Columns, day: string, uid: string, t: string) {
    exists j :: 0 <= j < |data| && Gives(data[j], c, day, uid, t)
  }

  lemma GivenInSnoc(data: seq<Row>, c: Columns, day: string, uid: string, t: string)
    requires data != []
    ensures GivenIn(data, c, day, uid, t)
        <==> GivenIn(data[..|data| - 1], c, day, uid, t) || Gives(data[|data| - 1], c, day, uid, t)
  {
    var init := data[..|data| - 1];
    if GivenIn(data, c, day, uid, t) {
      var j :| 0 <= j < |data| && Gives(data[j], c, day, uid, t);
      if j < |init| {
        assert init[j] == data[j];
      }
    }
    if GivenIn(init, c, day, uid, t) {
      var j :| 0 <= j < |init| && Gives(init[j], c, day, uid, t);
      assert data[j] == init[j];
    }
  }

  lemma {:induction false} DayPairsMembers(data: seq<Row>, c: Columns, day: string, uid: string, t: string)
    ensures (uid, t) in DayPairs(data, c, day) <==> GivenIn(data, c, day, uid, t)
  {
    if data != [] {
      DayPairsMembers(data[..|data| - 1], c, day, uid, t);
      GivenInSnoc(data, c, day, uid, t);
    }
  }

  /** Each listed user appears once, in order of first appearance, with
      exactly the slot names they reacted with on a row of that day. */
  lemma ListingMeaning(data: seq<Row>, c: Columns, day: string, i: int, t: string)
    requires var g := Grouped(DayPairs(data, c, day)); 0 <= i < |EntriesOf(g, g.order)|
    ensures var pairs := DayPairs(data, c, day);
      var g := Grouped(pairs);
      var e := EntriesOf(g, g.order);
      && |e| == |FirstAppearance(pairs)|
      && e[i].0 == FirstAppearance(pairs)[i]
      && (t in e[i].1 <==> t in SlotOrder && exists j :: 0 <= j < |data| && Gives(data[j], c, day, e[i].0, t))
  {
    var pairs := DayPairs(data, c, day);
    var g := Grouped(pairs);
    EntriesMeaning(pairs, i, t);
    DayPairsMembers(data, c, day, EntriesOf(g, g.order)[i].0, t);
  }
}
