/** The lineup cog: `/setlineup` looks up a scheduled match, a first modal
    collects up to five shooters, a second one (for six-player lineups) the
    sixth shooter and two subs; the collected context waits in a module-level
    dict between the two modals. Finalizing posts the lineup and replaces the
    match's rows of the "lineups" sheet. */
module Lineup {
  import opened Wrappers
  import opened Text
  import opened Sheets
  import opened MatchScheduler

  // ---------------------------------------------------------------------
  // Finding the match

  datatype Lookup = LookupCrashed | NoMatch | MatchRow(row: Row)

  /** The lookup as written: the first data row whose LAST cell is
      `str(match_id)`; an empty row raises IndexError. */
  function FindMatchAsWritten(data: seq<Row>, matchId: int): (r: Lookup)
    ensures r.MatchRow? ==> r.row in data
    ensures r.MatchRow? ==> EndsWithId(r.row, matchId)
    ensures r.MatchRow? ==> exists k :: 0 <= k < |data| && data[k] == r.row && EarlierMissLast(data, k, matchId)
    ensures r.LookupCrashed? ==> exists k :: 0 <= k < |data| && |data[k]| == 0 && EarlierMissLast(data, k, matchId)
    ensures r.NoMatch? ==> EarlierMissLast(data, |data|, matchId)
  {
    if data == [] then NoMatch
    else if |data[0]| == 0 then LookupCrashed
    else if EndsWithId(data[0], matchId) then MatchRow(data[0])
    else
      var r := FindMatchAsWritten(data[1..], matchId);
      ShiftEarlierMissLast(data, matchId, r);
      r
  }

  /** `row[-1] == str(match_id)` on a non-empty row. */
  predicate EndsWithId(row: Row, matchId: int) {
    |row| > 0 && row[|row| - 1] == IntToString(matchId)
  }

  /** Every row before `k` is non-empty and its last cell is not the id. */
  predicate EarlierMissLast(data: seq<Row>, k: int, matchId: int)
    requires 0 <= k <= |data|
  {
    forall j :: 0 <= j < k ==> |data[j]| > 0 && !EndsWithId(data[j], matchId)
  }

  lemma ShiftEarlierMissLast(data: seq<Row>, matchId: int, r: Lookup)
    requires data != [] && |data[0]| > 0 && !EndsWithId(data[0], matchId)
    requires r.MatchRow? ==> exists k :: 0 <= k < |data[1..]| && data[1..][k] == r.row && EarlierMissLast(data[1..], k, matchId)
    requires r.LookupCrashed? ==> exists k :: 0 <= k < |data[1..]| && |data[1..][k]| == 0 && EarlierMissLast(data[1..], k, matchId)
    requires r.NoMatch? ==> EarlierMissLast(data[1..], |data| - 1, matchId)
    ensures r.MatchRow? ==> exists k :: 0 <= k < |data| && data[k] == r.row && EarlierMissLast(data, k, matchId)
    ensures r.LookupCrashed? ==> exists k :: 0 <= k < |data| && |data[k]| == 0 && EarlierMissLast(data, k, matchId)
    ensures r.NoMatch? ==> EarlierMissLast(data, |data|, matchId)
  {
    if r.NoMatch? {
      MissLastCons(data, |data| - 1, matchId);
    } else if r.MatchRow? {
      var k :| 0 <= k < |data[1..]| && data[1..][k] == r.row && EarlierMissLast(data[1..], k, matchId);
      MissLastCons(data, k, matchId);
      assert data[k + 1] == data[1..][k];
    } else {
      var k :| 0 <= k < |data[1..]| && |data[1..][k]| == 0 && EarlierMissLast(data[1..], k, matchId);
      MissLastCons(data, k, matchId);
      assert data[k + 1] == data[1..][k];
    }
  }

  lemma MissLastCons(data: seq<Row>, k: int, matchId: int)
    requires data != [] && |data[0]| > 0 && !EndsWithId(data[0], matchId)
    requires 0 <= k < |data| && EarlierMissLast(data[1..], k, matchId)
    ensures EarlierMissLast(data, k + 1, matchId)
  {
    forall j | 0 <= j < k + 1 ensures |data[j]| > 0 && !EndsWithId(data[j], matchId) {
      if j > 0 {
        assert data[j] == data[1..][j - 1];
      }
    }
  }

  /** The row holds the match id where the scheduler writes it, in column 9. */
  predicate HasId(row: Row, matchId: int) {
    |row| > 8 && row[8] == IntToString(matchId)
  }

  /** The corrected lookup: the first data row whose ninth cell is
      `str(match_id)`; a row too short to have one raises IndexError. */
  function FindMatch(data: seq<Row>, matchId: int): (r: Lookup)
    ensures r.MatchRow? ==> r.row in data && HasId(r.row, matchId)
    ensures r.MatchRow? ==> exists k :: 0 <= k < |data| && data[k] == r.row && EarlierMiss(data, k, matchId)
    ensures r.LookupCrashed? ==> exists k :: 0 <= k < |data| && |data[k]| <= 8 && EarlierMiss(data, k, matchId)
    ensures r.NoMatch? ==> EarlierMiss(data, |data|, matchId)
  {
    if data == [] then NoMatch
    else if |data[0]| <= 8 then LookupCrashed
    else if HasId(data[0], matchId) then MatchRow(data[0])
    else
      var r := FindMatch(data[1..], matchId);
      ShiftEarlierMiss(data, matchId, r);
      r
  }

  /** Every row before `k` has a ninth cell, and it is not the id. */
  predicate EarlierMiss(data: seq<Row>, k: int, matchId: int)
    requires 0 <= k <= |data|
  {
    forall j :: 0 <= j < k ==> |data[j]| > 8 && !HasId(data[j], matchId)
  }

  lemma ShiftEarlierMiss(data: seq<Row>, matchId: int, r: Lookup)
    requires data != [] && |data[0]| > 8 && !HasId(data[0], matchId)
    requires r.MatchRow? ==> exists k :: 0 <= k < |data[1..]| && data[1..][k] == r.row && EarlierMiss(data[1..], k, matchId)
    requires r.LookupCrashed? ==> exists k :: 0 <= k < |data[1..]| && |data[1..][k]| <= 8 && EarlierMiss(data[1..], k, matchId)
    requires r.NoMatch? ==> EarlierMiss(data[1..], |data| - 1, matchId)
    ensures r.MatchRow? ==> exists k :: 0 <= k < |data| && data[k] == r.row && EarlierMiss(data, k, matchId)
    ensures r.LookupCrashed? ==> exists k :: 0 <= k < |data| && |data[k]| <= 8 && EarlierMiss(data, k, matchId)
    ensures r.NoMatch? ==> EarlierMiss(data, |data|, matchId)
  {
    if r.NoMatch? {
      MissCons(data, |data| - 1, matchId);
    } else if r.MatchRow? {
      var k :| 0 <= k < |data[1..]| && data[1..][k] == r.row && EarlierMiss(data[1..], k, matchId);
      MissCons(data, k, matchId);
      assert data[k + 1] == data[1..][k];
    } else {
      var k :| 0 <= k < |data[1..]| && |data[1..][k]| <= 8 && EarlierMiss(data[1..], k, matchId);
      MissCons(data, k, matchId);
      assert data[k + 1] == data[1..][k];
    }
  }

  lemma MissCons(data: seq<Row>, k: int, matchId: int)
    requires data != [] && |data[0]| > 8 && !HasId(data[0], matchId)
    requires 0 <= k < |data| && EarlierMiss(data[1..], k, matchId)
    ensures EarlierMiss(data, k + 1, matchId)
  {
    forall j | 0 <= j < k + 1 ensures |data[j]| > 8 && !HasId(data[j], matchId) {
      if j > 0 {
        assert data[j] == data[1..][j - 1];
      }
    }
  }

  /** A row the scheduler writes for match `id`: the id is in column 9 and
      the announcement's channel id is last. */
  function SampleRow(id: int): Row {
    ScheduledRow("2025-05-01 19:00:00", "capo", "05/01", "7PM", "Rivals", "AL", "OBJ", "5v5",
                 id, "1370000000000000001", "1360237474454175814")
  }

  /** As written, a match the scheduler wrote is not found by its id, since
      the last cell holds the channel id; the corrected lookup finds it. */
  lemma AsWrittenMissesScheduledMatch()
    ensures FindMatchAsWritten([SampleRow(7)], 7) == NoMatch
    ensures FindMatch([SampleRow(7)], 7) == MatchRow(SampleRow(7))
  {
    var row := SampleRow(7);
    assert IntToString(7) == "7";
    assert row[|row| - 1] == "1360237474454175814";
    assert |row[|row| - 1]| != |IntToString(7)|;
  }

  /** As written, no scheduled match is ever found while its channel id
      differs from the text of the id asked for. */
  lemma {:induction false} AsWrittenFindsNoScheduledMatch(data: seq<Row>, matchId: int)
    requires forall k :: 0 <= k < |data| ==> |data[k]| == 11 && data[k][10] != IntToString(matchId)
    ensures FindMatchAsWritten(data, matchId) == NoMatch
  {
    if data != [] {
      AsWrittenFindsNoScheduledMatch(data[1..], matchId);
    }
  }

  /** A match the scheduler appends is found by its id by the corrected
      lookup, when no earlier row carries that id. */
  lemma {:induction false} ScheduledMatchIsFound(data: seq<Row>, timestamp: string, user: string, date: string,
                                                 time: string, enemy: string, league: string, matchType: string,
                                                 players: string, id: int, messageId: string, channelId: string)
    requires forall k :: 0 <= k < |data| ==> |data[k]| > 8 && !HasId(data[k], id)
    ensures var row := ScheduledRow(timestamp, user, date, time, enemy, league, matchType, players, id, messageId, channelId);
      FindMatch(data + [row], id) == MatchRow(row)
  {
    var row := ScheduledRow(timestamp, user, date, time, enemy, league, matchType, players, id, messageId, channelId);
    if data == [] {
      assert data + [row] == [row];
    } else {
      assert (data + [row])[1..] == data[1..] + [row];
      ScheduledMatchIsFound(data[1..], timestamp, user, date, time, enemy, league, matchType, players, id, messageId, channelId);
    }
  }

  // ---------------------------------------------------------------------
  // The command and its context

  /** `{"4v4": 4, "5v5": 5, "5v5+": 6, "6v6": 6}.get(lineup_type, 5)` */
  function PlayerCount(lineupType: string): (r: nat)
    ensures 4 <= r <= 6
    ensures r > 5 <==> lineupType == "5v5+" || lineupType == "6v6"
    ensures r == 4 <==> lineupType == "4v4"
  {
    if lineupType == "4v4" then 4
    else if lineupType == "5v5" then 5
    else if lineupType == "5v5+" then 6
    else if lineupType == "6v6" then 6
    else 5
  }

  function Min(a: nat, b: nat): nat {
    if a <= b then a else b
  }

  /** The first modal asks for `min(count, 5)` shooters and the second one for
      one more exactly when the count is above five, so the lineup always
      gets as many shooters as its type calls for. */
  lemma ShootersMatchCount(lineupType: string)
    ensures var c := PlayerCount(lineupType);
      Min(c, 5) + (if c > 5 then 1 else 0) == c
  {
  }

  /** A custom guild emoji: `str(emoji)` is `<:name:id>`, or `<a:name:id>`
      when it is animated. */
  datatype CustomEmoji = CustomEmoji(id: nat, animated: bool)

  const EmojiNames: seq<string> := ["AOSgold", "D9", "ShadowJam", "Weed_Gold"]

  function EmojiText(name: string, guild: map<string, CustomEmoji>): string {
    if name in guild then
      (if guild[name].animated then "<a:" else "<:") + name + ":" + NatToString(guild[name].id) + ">"
    else ":" + name + ":"
  }

  /** The `emoji_map` loop. */
  method BuildEmojiMap(guild: map<string, CustomEmoji>) returns (emojis: map<string, string>)
    ensures emojis.Keys == set n | n in EmojiNames
    ensures forall n :: n in emojis ==> emojis[n] == EmojiText(n, guild)
  {
    emojis := map[];
    for i := 0 to |EmojiNames|
      invariant emojis.Keys == set n | n in EmojiNames[..i]
      invariant forall n :: n in emojis ==> emojis[n] == EmojiText(n, guild)
    {
      emojis := emojis[EmojiNames[i] := EmojiText(EmojiNames[i], guild)];
      assert EmojiNames[..i + 1] == EmojiNames[..i] + [EmojiNames[i]];
    }
  }

  /** Rendered emojis never contain a space. */
  lemma EmojiTextHasNoSpace(name: string, guild: map<string, CustomEmoji>)
    requires name in EmojiNames
    ensures forall i :: 0 <= i < |EmojiText(name, guild)| ==> EmojiText(name, guild)[i] != ' '
  {
    var s := EmojiText(name, guild);
    if name in guild {
      var head := (if guild[name].animated then "<a:" else "<:") + name + ":";
      var digits := NatToString(guild[name].id);
      assert s == head + digits + ">";
      assert IsDigits(digits);
      forall i | 0 <= i < |s| ensures s[i] != ' ' {
        if i < |head| {
          assert s[i] == head[i];
        } else if i < |head| + |digits| {
          assert s[i] == digits[i - |head|];
        }
      }
    }
  }

  /** `f"{interaction.user.id}_{match_id}"` */
  function Key(userId: string, matchId: int): string {
    userId + "_" + IntToString(matchId)
  }

  /** The first modal, with what it was built from. */
  datatype FirstModal = FirstModal(matchRow: Row, emojis: map<string, string>, playerCount: nat,
                                   matchId: int, key: string, fields: nat)

  datatype CommandOutcome = CommandFailed | MatchNotFound | Opened(modal: FirstModal)

  /** `setlineup`, on the data rows of the "matches" sheet, corrected: the
      lookup reads the id cell and the modal is the interaction's response. */
  method SetLineup(data: seq<Row>, matchId: int, lineupType: string, guild: map<string, CustomEmoji>, userId: string)
    returns (outcome: CommandOutcome)
    ensures FindMatch(data, matchId).LookupCrashed? <==> outcome.CommandFailed?
    ensures FindMatch(data, matchId).NoMatch? <==> outcome.MatchNotFound?
    ensures outcome.Opened? ==>
      && FindMatch(data, matchId) == MatchRow(outcome.modal.matchRow)
      && outcome.modal.playerCount == PlayerCount(lineupType)
      && outcome.modal.fields == Min(PlayerCount(lineupType), 5)
      && outcome.modal.key == Key(userId, matchId)
      && outcome.modal.matchId == matchId
      && ModalReady(outcome.modal)
      && forall n :: n in EmojiNames ==> outcome.modal.emojis[n] == EmojiText(n, guild)
  {
    var found := FindMatch(data, matchId);
    if found.LookupCrashed? {
      return CommandFailed;
    }
    if found.NoMatch? {
      return MatchNotFound;
    }
    var count := PlayerCount(lineupType);
    var emojis := BuildEmojiMap(guild);
    assert forall n :: n in EmojiNames ==> n in emojis;
    outcome := Opened(FirstModal(found.row, emojis, count, matchId, Key(userId, matchId), Min(count, 5)));
  }

  /** `setlineup` as written: the last-cell lookup, and after the `defer`
      the `send_modal` call raises for an interaction already answered, so
      the `except` branch replies with the error whenever a match is found.
      The first modal never opens. */
  function SetLineupAsWritten(data: seq<Row>, matchId: int): (r: CommandOutcome)
    ensures !r.Opened?
    ensures r.MatchNotFound? <==> FindMatchAsWritten(data, matchId).NoMatch?
    ensures r.CommandFailed? <==> FindMatchAsWritten(data, matchId).MatchRow? || FindMatchAsWritten(data, matchId).LookupCrashed?
  {
    match FindMatchAsWritten(data, matchId)
    case LookupCrashed => CommandFailed
    case NoMatch => MatchNotFound
    case MatchRow(_) => CommandFailed
  }

  /** On a row where the last cell does hold the id, the command as written
      still fails, while the corrected command opens the modal for the row
      that carries the id in its ninth cell. */
  lemma AsWrittenNeverOpensModal(row: Row, matchId: int)
    requires |row| > 8 && HasId(row, matchId) && row[|row| - 1] == IntToString(matchId)
    ensures SetLineupAsWritten([row], matchId) == CommandFailed
    ensures FindMatch([row], matchId) == MatchRow(row)
  {
    assert FindMatchAsWritten([row], matchId) == MatchRow(row);
  }

  /** What the first modal carries into the dict: the emojis by name and a
      match row with its ninth cell. */
  predicate ModalReady(m: FirstModal) {
    && (forall n :: n in EmojiNames ==> n in m.emojis)
    && |m.matchRow| > 8
    && m.fields == Min(m.playerCount, 5)
  }

  /** An entry of `TEMP_LINEUPS`. */
  datatype Context = Context(matchRow: Row, emojis: map<string, string>, shooters: seq<string>,
                             subs: Option<seq<string>>, matchId: int, playerCount: nat)

  /** Every line names its player after a space. */
  predicate Spaced(lines: seq<string>) {
    forall i :: 0 <= i < |lines| ==> AfterFirstSpace(lines[i]).Some?
  }

  predicate ContextReady(c: Context) {
    && (forall n :: n in EmojiNames ==> n in c.emojis)
    && |c.matchRow| > 8
    && Spaced(c.shooters)
    && (c.subs.Some? ==> Spaced(c.subs.value))
  }

  /** `f"{emoji} {value}"` for every value. */
  function Prefixed(emoji: string, values: seq<string>): (r: seq<string>)
    ensures |r| == |values|
    ensures forall i :: 0 <= i < |values| ==> r[i] == emoji + " " + values[i]
  {
    seq(|values|, i requires 0 <= i < |values| => emoji + " " + values[i])
  }

  lemma PrefixedIsSpaced(emoji: string, values: seq<string>)
    ensures Spaced(Prefixed(emoji, values))
  {
    forall i | 0 <= i < |values| ensures AfterFirstSpace(Prefixed(emoji, values)[i]).Some? {
      AfterFirstSpaceSome(emoji, values[i]);
    }
  }

  lemma {:induction false} AfterFirstSpaceSome(prefix: string, v: string)
    ensures AfterFirstSpace(prefix + " " + v).Some?
  {
    if prefix != [] {
      assert (prefix + " " + v)[1..] == prefix[1..] + " " + v;
      AfterFirstSpaceSome(prefix[1..], v);
    } else {
      assert prefix + " " + v == " " + v;
    }
  }

  /** The value stored for a line is the value entered, because no rendered
      emoji contains a space. */
  lemma StoredNameIsEntered(name: string, guild: map<string, CustomEmoji>, values: seq<string>, i: nat)
    requires name in EmojiNames && i < |values|
    ensures AfterFirstSpace(Prefixed(EmojiText(name, guild), values)[i]) == Some(values[i])
  {
    EmojiTextHasNoSpace(name, guild);
    AfterFirstSpaceOfPrefixed(EmojiText(name, guild), values[i]);
  }

  // ---------------------------------------------------------------------
  // The posted lineup and the sheet rows

  /** The message `finalize_lineup` posts. The "ID:" shown is the match row's
      ninth cell, the one the corrected lookup matched. */
  function Message(c: Context): string
    requires ContextReady(c)
  {
    var row := c.matchRow;
    var matchLine := "# " + c.emojis["AOSgold"] + " " + row[2] + " | " + row[3] + " | " + row[4] + " | "
      + row[5] + " | " + row[6] + " | ID: " + row[8];
    var d9 := Repeat(c.emojis["D9"], 10);
    var subs := match c.subs
      case Some(s) => s
      case None => [c.emojis["Weed_Gold"] + " Sub1", c.emojis["Weed_Gold"] + " Sub2"];
    matchLine + "\n" + d9 + "\n**Shooters:**\n" + Join("\n", c.shooters) + "\n"
      + d9 + "\n**Subs:**\n" + Join("\n", subs) + "\n" + d9
  }

  /** A lineup row of the match: `[timestamp, match_id, f"{kind} {n}", name]`. */
  function LineupRow(timestamp: string, id: string, kind: string, n: nat, line: string): Row
    requires AfterFirstSpace(line).Some?
  {
    [timestamp, id, kind + " " + NatToString(n), AfterFirstSpace(line).value]
  }

  /** The rows one append loop writes. */
  function LineRows(timestamp: string, id: string, kind: string, lines: seq<string>): (r: seq<Row>)
    requires Spaced(lines)
    ensures |r| == |lines|
  {
    if lines == [] then []
    else
      var last := LineupRow(timestamp, id, kind, |lines|, lines[|lines| - 1]);
      LineRows(timestamp, id, kind, lines[..|lines| - 1]) + [last]
  }

  /** `row[1] == match_id`, on a row that has a second cell. */
  function MatchPick(id: string): Row -> bool {
    row => |row| >= 2 && row[1] == id
  }

  function OtherPick(id: string): Row -> bool {
    row => !(|row| >= 2 && row[1] == id)
  }

  /** The subs `ctx.get("subs", [])` writes. */
  function SubsOf(c: Context): seq<string> {
    match c.subs
    case Some(s) => s
    case None => []
  }

  /** The lineups sheet after finalizing: the match's old rows removed and
      the shooters, then the subs, appended. */
  function Replaced(rows: seq<Row>, c: Context, timestamp: string): seq<Row>
    requires ContextReady(c)
  {
    var id := IntToString(c.matchId);
    Purge(rows, MatchPick(id)) + LineRows(timestamp, id, "Player", c.shooters)
      + LineRows(timestamp, id, "Sub", SubsOf(c))
  }

  /** The comprehension over the data rows raises IndexError on a row with
      fewer than two cells. */
  predicate SheetUnreadable(rows: seq<Row>) {
    exists k :: 1 <= k < |rows| && |rows[k]| < 2
  }

  datatype Finish = MissingData | Posted(message: string, written: bool)

  /** The append loop `for i, line in enumerate(lines, 1)`. */
  method AppendLines(sheet: Worksheet, timestamp: string, id: string, kind: string, lines: seq<string>)
    requires Spaced(lines)
    modifies sheet
    ensures sheet.rows == old(sheet.rows) + LineRows(timestamp, id, kind, lines)
  {
    for i := 0 to |lines|
      invariant sheet.rows == old(sheet.rows) + LineRows(timestamp, id, kind, lines[..i])
    {
      assert lines[..i + 1][..i] == lines[..i];
      sheet.AppendRow(LineupRow(timestamp, id, kind, i + 1, lines[i]));
    }
    assert lines[..|lines|] == lines;
  }

  /** The `to_delete` comprehension and the bottom-up deletes. */
  method DeleteMatchRows(sheet: Worksheet, id: string) returns (ok: bool)
    modifies sheet
    ensures ok <==> !SheetUnreadable(old(sheet.rows))
    ensures ok ==> sheet.rows == Purge(old(sheet.rows), MatchPick(id))
    ensures !ok ==> sheet.rows == old(sheet.rows)
  {
    var data := Data(sheet.rows);
    var toDelete: seq<nat> := [];
    for i := 0 to |data|
      invariant toDelete == Positions(data[..i], MatchPick(id))
      invariant forall k :: 0 <= k < i ==> |data[k]| >= 2
    {
      assert data[..i + 1][..i] == data[..i];
      if |data[i]| < 2 {
        assert |sheet.rows[i + 1]| < 2;
        return false;
      }
      if data[i][1] == id {
        toDelete := toDelete + [i + 2];
      }
    }
    assert data[..|data|] == data;
    assert !SheetUnreadable(sheet.rows) by {
      forall k | 1 <= k < |sheet.rows| ensures |sheet.rows[k]| >= 2 {
        assert sheet.rows[k] == data[k - 1];
      }
    }
    PositionsSelect(data, MatchPick(id));
    DeleteSelected(sheet.rows, MatchPick(id));
    DeleteEach(sheet, toDelete);
    return true;
  }

  /** `TEMP_LINEUPS` and the "lineups" sheet the contexts write to. */
  class LineupFlow {
    var pending: map<string, Context>
    const sheet: Worksheet

    predicate Valid()
      reads this
    {
      forall k :: k in pending ==> ContextReady(pending[k])
    }

    constructor (sheet: Worksheet)
      ensures pending == map[] && this.sheet == sheet && Valid()
    {
      pending := map[];
      this.sheet := sheet;
    }

    /** `finalize_lineup`: pops the context, posts the lineup and replaces
        the match's rows; without a context it reports missing data. The
        sheet is left as it was when a data row is too short to read. */
    method Finalize(key: string, timestamp: string) returns (finish: Finish)
      requires Valid()
      modifies this, sheet
      ensures Valid()
      ensures key !in old(pending) ==>
        finish == MissingData && pending == old(pending) && sheet.rows == old(sheet.rows)
      ensures key in old(pending) ==>
        && pending == old(pending) - {key}
        && finish == Posted(Message(old(pending)[key]), !SheetUnreadable(old(sheet.rows)))
        && sheet.rows == if SheetUnreadable(old(sheet.rows)) then old(sheet.rows)
                         else Replaced(old(sheet.rows), old(pending)[key], timestamp)
    {
      if key !in pending {
        return MissingData;
      }
      var c := pending[key];
      pending := pending - {key};
      var message := Message(c);
      var id := IntToString(c.matchId);
      var ok := DeleteMatchRows(sheet, id);
      if !ok {
        return Posted(message, false);
      }
      AppendLines(sheet, timestamp, id, "Player", c.shooters);
      AppendLines(sheet, timestamp, id, "Sub", SubsOf(c));
      finish := Posted(message, true);
    }

    /** `LineupModal1.on_submit`: stores the context, then opens the second
        modal when more than five players are needed and finalizes
        otherwise. */
    method SubmitFirst(modal: FirstModal, values: seq<string>, timestamp: string) returns (second: bool, finish: Finish)
      requires Valid() && ModalReady(modal) && |values| == modal.fields
      modifies this, sheet
      ensures Valid()
      ensures var c := Context(modal.matchRow, modal.emojis, Prefixed(modal.emojis["ShadowJam"], values),
                               None, modal.matchId, modal.playerCount);
        && ContextReady(c)
        && second == (modal.playerCount > 5)
        && (second ==> pending == old(pending)[modal.key := c] && sheet.rows == old(sheet.rows))
        && (!second ==>
              && pending == old(pending) - {modal.key}
              && finish == Posted(Message(c), !SheetUnreadable(old(sheet.rows)))
              && sheet.rows == if SheetUnreadable(old(sheet.rows)) then old(sheet.rows)
                               else Replaced(old(sheet.rows), c, timestamp))
    {
      var names := Prefixed(modal.emojis["ShadowJam"], values);
      PrefixedIsSpaced(modal.emojis["ShadowJam"], values);
      var c := Context(modal.matchRow, modal.emojis, names, None, modal.matchId, modal.playerCount);
      pending := pending[modal.key := c];
      if modal.playerCount > 5 {
        return true, MissingData;
      }
      second := false;
      finish := Finalize(modal.key, timestamp);
    }

    /** `LineupModal2.on_submit`: adds the sixth shooter and the two subs to
        the stored context and finalizes; a missing context gives "Context
        expired." and changes nothing. */
    method SubmitSecond(key: string, player6: string, sub1: string, sub2: string, timestamp: string)
      returns (expired: bool, finish: Finish)
      requires Valid()
      modifies this, sheet
      ensures Valid()
      ensures expired <==> key !in old(pending)
      ensures expired ==> pending == old(pending) && sheet.rows == old(sheet.rows)
      ensures !expired ==>
        var old_c := old(pending)[key];
        var c := old_c.(shooters := old_c.shooters + [old_c.emojis["ShadowJam"] + " " + player6],
                        subs := Some(Prefixed(old_c.emojis["Weed_Gold"], [sub1, sub2])));
        && ContextReady(c)
        && pending == old(pending) - {key}
        && finish == Posted(Message(c), !SheetUnreadable(old(sheet.rows)))
        && sheet.rows == if SheetUnreadable(old(sheet.rows)) then old(sheet.rows)
                         else Replaced(old(sheet.rows), c, timestamp)
    {
      if key !in pending {
        return true, MissingData;
      }
      var c := pending[key];
      var gold := c.emojis["Weed_Gold"];
      var shooter := c.emojis["ShadowJam"] + " " + player6;
      AfterFirstSpaceSome(c.emojis["ShadowJam"], player6);
      PrefixedIsSpaced(gold, [sub1, sub2]);
      var next := c.(shooters := c.shooters + [shooter], subs := Some(Prefixed(gold, [sub1, sub2])));
      assert Spaced(next.shooters) by {
        forall i | 0 <= i < |next.shooters| ensures AfterFirstSpace(next.shooters[i]).Some? {
          if i < |c.shooters| {
            assert next.shooters[i] == c.shooters[i];
          }
        }
      }
      pending := pending[key := next];
      expired := false;
      finish := Finalize(key, timestamp);
    }
  }

  // ---------------------------------------------------------------------
  // What finalizing leaves in the sheet

  /** Every row of the new lineup belongs to the match. */
  lemma {:induction false} LineRowsOfMatch(timestamp: string, id: string, kind: string, lines: seq<string>)
    requires Spaced(lines)
    ensures forall k :: 0 <= k < |lines| ==> MatchPick(id)(LineRows(timestamp, id, kind, lines)[k])
  {
    if lines != [] {
      var init := lines[..|lines| - 1];
      assert Spaced(init) by {
        assert forall i :: 0 <= i < |init| ==> init[i] == lines[i];
      }
      LineRowsOfMatch(timestamp, id, kind, init);
    }
  }

  /** Row k of a written block is `[timestamp, id, f"{kind} {k + 1}", name]`
      with the name after the line's first space. */
  lemma {:induction false} LineRowsShape(timestamp: string, id: string, kind: string, lines: seq<string>, k: nat)
    requires Spaced(lines) && k < |lines|
    ensures LineRows(timestamp, id, kind, lines)[k]
         == [timestamp, id, kind + " " + NatToString(k + 1), AfterFirstSpace(lines[k]).value]
  {
    var init := lines[..|lines| - 1];
    if k < |init| {
      assert Spaced(init) by {
        assert forall i :: 0 <= i < |init| ==> init[i] == lines[i];
      }
      LineRowsShape(timestamp, id, kind, init, k);
    }
  }

  /** Without `drop` on data rows that `drop` never holds for, they are kept. */
  lemma {:induction false} WithoutAll(data: seq<Row>, drop: Row -> bool)
    requires forall i :: 0 <= i < |data| ==> drop(data[i])
    ensures Without(data, drop) == []
  {
    if data != [] {
      WithoutAll(data[..|data| - 1], drop);
    }
  }

  /** After finalizing, the rows of every other match are exactly as before
      (header included), and the rows of this match are exactly the new
      players followed by the new subs. */
  lemma FinalizeReplaces(rows: seq<Row>, c: Context, timestamp: string)
    requires ContextReady(c) && rows != []
    ensures var id := IntToString(c.matchId);
      var after := Replaced(rows, c, timestamp);
      && Purge(after, MatchPick(id)) == Purge(rows, MatchPick(id))
      && Without(after[1..], OtherPick(id))
         == LineRows(timestamp, id, "Player", c.shooters) + LineRows(timestamp, id, "Sub", SubsOf(c))
  {
    var id := IntToString(c.matchId);
    var players := LineRows(timestamp, id, "Player", c.shooters);
    var subs := LineRows(timestamp, id, "Sub", SubsOf(c));
    var added := players + subs;
    assert Replaced(rows, c, timestamp) == Purge(rows, MatchPick(id)) + added;
    LineRowsOfMatch(timestamp, id, "Player", c.shooters);
    LineRowsOfMatch(timestamp, id, "Sub", SubsOf(c));
    forall i | 0 <= i < |added| ensures MatchPick(id)(added[i]) {
      if i >= |players| { assert added[i] == subs[i - |players|]; }
    }
    OthersKeptAfterAppend(rows, added, id);
    MatchRowsAfterAppend(rows, added, id);
  }

  /** Appending rows of match `id` after removing its old ones leaves the
      other matches' rows as they were. */
  lemma OthersKeptAfterAppend(rows: seq<Row>, added: seq<Row>, id: string)
    requires rows != [] && forall i :: 0 <= i < |added| ==> MatchPick(id)(added[i])
    ensures Purge(Purge(rows, MatchPick(id)) + added, MatchPick(id)) == Purge(rows, MatchPick(id))
  {
    var rest := Without(rows[1..], MatchPick(id));
    var after := Purge(rows, MatchPick(id)) + added;
    assert after[1..] == rest + added;
    WithoutAppend(rest, added, MatchPick(id));
    WithoutAll(added, MatchPick(id));
    WithoutIdempotent(rows[1..], MatchPick(id));
    assert Without(rest + added, MatchPick(id)) == rest;
  }

  /** ...and leaves exactly the appended rows as the rows of match `id`. */
  lemma MatchRowsAfterAppend(rows: seq<Row>, added: seq<Row>, id: string)
    requires rows != [] && forall i :: 0 <= i < |added| ==> MatchPick(id)(added[i])
    ensures Without((Purge(rows, MatchPick(id)) + added)[1..], OtherPick(id)) == added
  {
    var rest := Without(rows[1..], MatchPick(id));
    assert (Purge(rows, MatchPick(id)) + added)[1..] == rest + added;
    WithoutAppend(rest, added, OtherPick(id));
    WithoutNone(added, OtherPick(id));
    forall i | 0 <= i < |rest| ensures OtherPick(id)(rest[i]) {
      WithoutKeeps(rows[1..], MatchPick(id), rest[i]);
    }
    WithoutAll(rest, OtherPick(id));
  }

  /** Without a second modal the "Sub1"/"Sub2" placeholders are only shown:
      the rows written for the match are the shooters' alone. */
  lemma PlaceholdersNotWritten(rows: seq<Row>, c: Context, timestamp: string)
    requires ContextReady(c) && c.subs.None?
    ensures Replaced(rows, c, timestamp)
         == Purge(rows, MatchPick(IntToString(c.matchId))) + LineRows(timestamp, IntToString(c.matchId), "Player", c.shooters)
  {
  }
}
