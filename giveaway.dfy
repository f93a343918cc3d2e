/** The giveaway cog: a modal adds a member's "Top Frag" and "Execution"
    numbers to their row of the "giveaway" sheet (or appends a row for a
    member without one), and the leaderboard command ranks the sheet's rows
    three times, by frags, by reactions and by executions. */
module Giveaway {
  import opened Wrappers
  import opened Text
  import opened Sheets
  import opened Ranking

  // ---------------------------------------------------------------------
  // Submitting an entry

  /** A modal field: blank counts as 0, anything else goes through `int()`
      (None where that raises ValueError). */
  function FieldValue(text: string): Option<int> {
    if Strip(text) == "" then Some(0) else ParseInt(Strip(text))
  }

  /** `int(cell) if cell else 0` on a sheet cell. */
  function CellValue(cell: string): Option<int> {
    if cell == "" then Some(0) else ParseInt(cell)
  }

  /** `row[col].strip().lower() == username.lower()` */
  predicate SameUser(cell: string, username: string) {
    Lower(Strip(cell)) == Lower(username)
  }

  /** A row the search reads and walks past. */
  predicate Passes(row: Row, column: nat, username: string) {
    column < |row| && !SameUser(row[column], username)
  }

  /** What the search loop ends with: an IndexError on a row too short to
      hold the user column, no matching row, or the first matching row. */
  datatype Search = Crashed | NotFound | FoundAt(index: nat)

  /** The search over the sheet's rows from list position `from` on. */
  function Find(rows: seq<Row>, from: nat, column: nat, username: string): (r: Search)
    ensures r.FoundAt? ==> from <= r.index < |rows| && column < |rows[r.index]|
    ensures r.FoundAt? ==> SameUser(rows[r.index][column], username)
    ensures r.FoundAt? ==> forall j :: from <= j < r.index ==> Passes(rows[j], column, username)
    ensures r.NotFound? ==> forall j :: from <= j < |rows| ==> Passes(rows[j], column, username)
    ensures r.Crashed? ==> exists j :: from <= j < |rows| && |rows[j]| <= column
    decreases |rows| - from
  {
    if from >= |rows| then NotFound
    else if column >= |rows[from]| then Crashed
    else if SameUser(rows[from][column], username) then FoundAt(from)
    else Find(rows, from + 1, column, username)
  }

  /** The cells written for a member: `[username, frag, "", exec]`. */
  function EntryRow(username: string, frag: int, exec: int): (r: Row)
    ensures |r| == 4
  {
    [username, IntToString(frag), "", IntToString(exec)]
  }

  /** The sheet after adding `frag` and `exec` for `username`, with the user
      column at `column`; None where the source raises. */
  function Upsert(rows: seq<Row>, column: nat, username: string, frag: int, exec: int): Option<seq<Row>> {
    match Find(rows, 1, column, username)
    case Crashed => None
    case NotFound => Some(rows + [EntryRow(username, frag, exec)])
    case FoundAt(j) =>
      if |rows[j]| < 4 then None
      else match (CellValue(rows[j][1]), CellValue(rows[j][3]))
        case (Some(f), Some(e)) => Some(rows[j := Overwrite(rows[j], EntryRow(username, f + frag, e + exec))])
        case _ => None
  }

  /** The sheet after recording `frag` and `exec` for `username`; None where
      the source raises (an empty sheet, no "Discord Username" header, a
      short row or a non-integer cell). */
  function Recorded(rows: seq<Row>, username: string, frag: int, exec: int): Option<seq<Row>> {
    if rows == [] then None
    else match HeaderIndex(rows[0], "Discord Username")
      case None => None
      case Some(column) => Upsert(rows, column, username, frag, exec)
  }

  /** The sheet after one submission of the modal; None where the submission
      fails, a non-integer field included. */
  function Submitted(rows: seq<Row>, username: string, fragText: string, execText: string): Option<seq<Row>> {
    var frag := FieldValue(fragText);
    var exec := FieldValue(execText);
    if frag.None? || exec.None? then None else Recorded(rows, username, frag.value, exec.value)
  }

  class GiveawayModal {
    const sheet: Worksheet

    constructor (sheet: Worksheet)
      ensures this.sheet == sheet
    {
      this.sheet := sheet;
    }

    /** `on_submit`: `ok` is false exactly when the failure reply is sent,
        and then the sheet is untouched. */
    method Submit(username: string, fragText: string, execText: string) returns (ok: bool)
      modifies sheet
      ensures ok <==> Submitted(old(sheet.rows), username, fragText, execText).Some?
      ensures ok ==> sheet.rows == Submitted(old(sheet.rows), username, fragText, execText).value
      ensures !ok ==> sheet.rows == old(sheet.rows)
    {
      var frag := FieldValue(fragText);
      var exec := FieldValue(execText);
      if frag.None? || exec.None? {
        return false;
      }
      var existing := sheet.rows;
      if |existing| == 0 {
        return false;
      }
      var header := HeaderIndex(existing[0], "Discord Username");
      if header.None? {
        return false;
      }
      var column := header.value;
      var found := false;
      var i := 1;
      while i < |existing|
        invariant 1 <= i <= |existing|
        invariant Find(existing, 1, column, username) == Find(existing, i, column, username)
        invariant sheet.rows == existing
      {
        var row := existing[i];
        if column >= |row| {
          return false;
        }
        if SameUser(row[column], username) {
          if |row| < 4 {
            return false;
          }
          var current := CellValue(row[1]);
          var currentExec := CellValue(row[3]);
          if current.None? || currentExec.None? {
            return false;
          }
          sheet.UpdateLeading(i + 1, EntryRow(username, current.value + frag.value, currentExec.value + exec.value));
          found := true;
          break;
        }
        i := i + 1;
      }
      if !found {
        sheet.AppendRow(EntryRow(username, frag.value, exec.value));
      }
      return true;
    }
  }

  lemma WrittenNumberReadsBack(n: int)
    ensures CellValue(IntToString(n)) == Some(n)
  {
    IntRoundTrip(n);
    assert IntToString(n) != "" by {
      if n >= 0 { assert IsDigits(NatToString(n)); } else { assert IntToString(n)[0] == '-'; }
    }
  }

  lemma {:induction false} FindPrefix(a: seq<Row>, b: seq<Row>, from: nat, column: nat, username: string)
    requires from <= |a|
    ensures Find(a, from, column, username).NotFound? ==>
      Find(a + b, from, column, username) == Find(a + b, |a|, column, username)
    ensures !Find(a, from, column, username).NotFound? ==>
      Find(a + b, from, column, username) == Find(a, from, column, username)
    decreases |a| - from
  {
    if from < |a| {
      assert (a + b)[from] == a[from];
      FindPrefix(a, b, from + 1, column, username);
    }
  }

  lemma {:induction false} FindReplace(rows: seq<Row>, from: nat, column: nat, username: string, j: nat, row: Row)
    requires Find(rows, from, column, username) == FoundAt(j)
    requires column < |row| && SameUser(row[column], username)
    ensures Find(rows[j := row], from, column, username) == FoundAt(j)
    decreases |rows| - from
  {
    if from < j {
      FindReplace(rows, from + 1, column, username, j, row);
    }
  }

  /** After a successful submission the member's row is the first row the
      next submission finds, and its cells read back as the new totals. */
  lemma UpsertLeavesRow(rows: seq<Row>, username: string, frag: int, exec: int)
    requires |rows| >= 1 && Strip(username) == username
    requires Upsert(rows, 0, username, frag, exec).Some?
    ensures var after := Upsert(rows, 0, username, frag, exec).value;
      && Find(after, 1, 0, username).FoundAt?
      && after[0] == rows[0]
  {
    var after := Upsert(rows, 0, username, frag, exec).value;
    match Find(rows, 1, 0, username)
    case NotFound =>
      FindPrefix(rows, [EntryRow(username, frag, exec)], 1, 0, username);
      assert after[|rows|] == EntryRow(username, frag, exec);
    case FoundAt(j) =>
      FindReplace(rows, 1, 0, username, j, after[j]);
  }

  /** Submitting twice is submitting the sums once: the second submission
      finds the row the first one wrote or updated, and adds to it. */
  lemma UpsertAccumulates(rows: seq<Row>, username: string, f1: int, e1: int, f2: int, e2: int)
    requires |rows| >= 1 && Strip(username) == username
    requires Upsert(rows, 0, username, f1, e1).Some?
    ensures Upsert(Upsert(rows, 0, username, f1, e1).value, 0, username, f2, e2)
         == Upsert(rows, 0, username, f1 + f2, e1 + e2)
  {
    match Find(rows, 1, 0, username)
    case NotFound => AccumulateAppended(rows, username, f1, e1, f2, e2);
    case FoundAt(j) => AccumulateUpdated(rows, username, f1, e1, f2, e2, j);
  }

  lemma AccumulateAppended(rows: seq<Row>, username: string, f1: int, e1: int, f2: int, e2: int)
    requires |rows| >= 1 && Strip(username) == username
    requires Find(rows, 1, 0, username).NotFound?
    ensures Upsert(rows + [EntryRow(username, f1, e1)], 0, username, f2, e2)
         == Some(rows + [EntryRow(username, f1 + f2, e1 + e2)])
  {
    var written := EntryRow(username, f1, e1);
    var after := rows + [written];
    FindPrefix(rows, [written], 1, 0, username);
    assert after[|rows|] == written;
    assert Find(after, 1, 0, username) == FoundAt(|rows|);
    WrittenNumberReadsBack(f1);
    WrittenNumberReadsBack(e1);
    assert after[|rows| := EntryRow(username, f1 + f2, e1 + e2)] == rows + [EntryRow(username, f1 + f2, e1 + e2)];
  }

  lemma UpsertAtFound(rows: seq<Row>, column: nat, username: string, frag: int, exec: int, j: nat, f: int, e: int)
    requires Find(rows, 1, column, username) == FoundAt(j)
    requires |rows[j]| >= 4 && CellValue(rows[j][1]) == Some(f) && CellValue(rows[j][3]) == Some(e)
    ensures Upsert(rows, column, username, frag, exec)
         == Some(rows[j := Overwrite(rows[j], EntryRow(username, f + frag, e + exec))])
  {
  }

  lemma AccumulateUpdated(rows: seq<Row>, username: string, f1: int, e1: int, f2: int, e2: int, j: nat)
    requires Strip(username) == username
    requires Find(rows, 1, 0, username) == FoundAt(j)
    requires Upsert(rows, 0, username, f1, e1).Some?
    ensures Upsert(Upsert(rows, 0, username, f1, e1).value, 0, username, f2, e2)
         == Upsert(rows, 0, username, f1 + f2, e1 + e2)
  {
    assert |rows[j]| >= 4 && CellValue(rows[j][1]).Some? && CellValue(rows[j][3]).Some?;
    var f := CellValue(rows[j][1]).value;
    var e := CellValue(rows[j][3]).value;
    UpsertAtFound(rows, 0, username, f1, e1, j, f, e);
    UpsertAtFound(rows, 0, username, f1 + f2, e1 + e2, j, f, e);
    UpdateTwice(rows, username, j, f, e, f1, e1, f2, e2);
  }

  /** Overwriting the leading four cells of a row of four or more with an
      entry row gives its cells and keeps the length. */
  lemma OverwriteEntry(row: Row, username: string, frag: int, exec: int)
    requires |row| >= 4
    ensures var r := Overwrite(row, EntryRow(username, frag, exec));
      && |r| == |row| && r[0] == username && r[1] == IntToString(frag) && r[2] == ""
      && r[3] == IntToString(exec)
  {
    var r := Overwrite(row, EntryRow(username, frag, exec));
    assert r[..4] == EntryRow(username, frag, exec);
  }

  /** The row an update writes is the one the next lookup finds, and its
      count cells read back as the numbers written. */
  lemma UpdatedRowFound(rows: seq<Row>, username: string, j: nat, frag: int, exec: int)
    requires Strip(username) == username
    requires Find(rows, 1, 0, username) == FoundAt(j) && |rows[j]| >= 4
    ensures var after := rows[j := Overwrite(rows[j], EntryRow(username, frag, exec))];
      && Find(after, 1, 0, username) == FoundAt(j)
      && |after[j]| >= 4 && CellValue(after[j][1]) == Some(frag) && CellValue(after[j][3]) == Some(exec)
  {
    var row := Overwrite(rows[j], EntryRow(username, frag, exec));
    OverwriteEntry(rows[j], username, frag, exec);
    assert SameUser(row[0], username);
    FindReplace(rows, 1, 0, username, j, row);
    WrittenNumberReadsBack(frag);
    WrittenNumberReadsBack(exec);
  }

  lemma UpdateTwice(rows: seq<Row>, username: string, j: nat, f: int, e: int, f1: int, e1: int, f2: int, e2: int)
    requires Strip(username) == username
    requires Find(rows, 1, 0, username) == FoundAt(j) && |rows[j]| >= 4
    ensures var after := rows[j := Overwrite(rows[j], EntryRow(username, f + f1, e + e1))];
      Upsert(after, 0, username, f2, e2)
        == Some(rows[j := Overwrite(rows[j], EntryRow(username, f + (f1 + f2), e + (e1 + e2)))])
  {
    var written := EntryRow(username, f + f1, e + e1);
    var again := EntryRow(username, f + (f1 + f2), e + (e1 + e2));
    var after := rows[j := Overwrite(rows[j], written)];
    UpdatedRowFound(rows, username, j, f + f1, e + e1);
    UpsertAtFound(after, 0, username, f2, e2, j, f + f1, e + e1);
    assert EntryRow(username, f + f1 + f2, e + e1 + e2) == again;
    var twice := Overwrite(rows[j], again);
    assert Overwrite(after[j], again) == twice by {
      OverwriteTwice(rows[j], written, again);
    }
    UpdateUpdate(rows, j, Overwrite(rows[j], written), twice);
  }

  lemma UpdateUpdate(rows: seq<Row>, j: nat, first: Row, second: Row)
    requires j < |rows|
    ensures rows[j := first][j := second] == rows[j := second]
  {
  }

  /** With "Discord Username" as the first header, recording twice for one
      member is recording the sums once: the second submission finds the
      row the first one wrote or updated, and adds to it. */
  lemma SubmitAccumulates(rows: seq<Row>, username: string, f1: int, e1: int, f2: int, e2: int)
    requires rows != [] && HeaderIndex(rows[0], "Discord Username") == Some(0)
    requires Strip(username) == username
    requires Recorded(rows, username, f1, e1).Some?
    ensures Recorded(Recorded(rows, username, f1, e1).value, username, f2, e2)
         == Recorded(rows, username, f1 + f2, e1 + e2)
  {
    var after := Recorded(rows, username, f1, e1).value;
    assert after == Upsert(rows, 0, username, f1, e1).value;
    assert after != [] && HeaderIndex(after[0], "Discord Username") == Some(0) by {
      UpsertLeavesRow(rows, username, f1, e1);
    }
    assert Upsert(after, 0, username, f2, e2) == Upsert(rows, 0, username, f1 + f2, e1 + e2) by {
      UpsertAccumulates(rows, username, f1, e1, f2, e2);
    }
  }

  /** A blank field, any run of whitespace, counts as 0. */
  lemma BlankFieldIsZero(spaces: string)
    requires forall i :: 0 <= i < |spaces| ==> IsSpace(spaces[i])
    ensures FieldValue(spaces) == Some(0)
  {
    assert TrimLeft(spaces) == "" by { TrimLeftAllSpaces(spaces); }
  }

  lemma {:induction false} TrimLeftAllSpaces(spaces: string)
    requires forall i :: 0 <= i < |spaces| ==> IsSpace(spaces[i])
    ensures TrimLeft(spaces) == ""
  {
    if spaces != [] {
      TrimLeftAllSpaces(spaces[1..]);
    }
  }

  /** A printed number is read as itself. */
  lemma PrintedFieldIsItself(n: int)
    ensures FieldValue(IntToString(n)) == Some(n)
  {
    IntRoundTrip(n);
    var s := IntToString(n);
    assert forall i :: 0 <= i < |s| ==> !IsSpace(s[i]) by {
      if n >= 0 {
        assert IsDigits(NatToString(n));
      } else {
        forall i | 0 <= i < |s| ensures !IsSpace(s[i]) {
          if i > 0 { assert s[i] == NatToString(-n)[i - 1]; }
        }
      }
    }
    StripWithoutSpaces(s);
  }

  /** A field whose stripped text has a character `int()` rejects is not a
      number. */
  lemma NonIntegerField(text: string, k: int)
    requires NotIntegerChar(Strip(text), k)
    ensures FieldValue(text) == None
  {
    StripIdempotent(text);
    ParseRejects(Strip(text), k);
  }

  /** Either field holding such a character fails the whole submission,
      whatever the sheet. */
  lemma NonIntegerFails(rows: seq<Row>, username: string, fragText: string, execText: string, k: int)
    requires NotIntegerChar(Strip(fragText), k) || NotIntegerChar(Strip(execText), k)
    ensures Submitted(rows, username, fragText, execText) == None
  {
    if NotIntegerChar(Strip(fragText), k) {
      NonIntegerField(fragText, k);
    } else {
      NonIntegerField(execText, k);
    }
  }

  /** Only the first matching row changes: its frags and executions grow by
      the submitted numbers, column C becomes "", the cells after D are kept
      and so is every other row. */
  lemma UpsertUpdates(rows: seq<Row>, column: nat, username: string, frag: int, exec: int, j: nat)
    requires Upsert(rows, column, username, frag, exec).Some?
    requires Find(rows, 1, column, username) == FoundAt(j)
    ensures var after := Upsert(rows, column, username, frag, exec).value;
      && |after| == |rows| && |after[j]| == |rows[j]| && |rows[j]| >= 4
      && (forall k :: 0 <= k < |rows| && k != j ==> after[k] == rows[k])
      && after[j][0] == username && after[j][2] == ""
      && CellValue(after[j][1]) == Some(CellValue(rows[j][1]).value + frag)
      && CellValue(after[j][3]) == Some(CellValue(rows[j][3]).value + exec)
      && after[j][4..] == rows[j][4..]
  {
    var f := CellValue(rows[j][1]).value;
    var e := CellValue(rows[j][3]).value;
    WrittenNumberReadsBack(f + frag);
    WrittenNumberReadsBack(e + exec);
  }

  /** Without a matching row exactly one row `[username, frag, "", exec]` is
      appended and every other row is kept. */
  lemma UpsertAppends(rows: seq<Row>, column: nat, username: string, frag: int, exec: int)
    requires Find(rows, 1, column, username).NotFound?
    ensures var after := Upsert(rows, column, username, frag, exec);
      && after.Some? && |after.value| == |rows| + 1 && after.value[..|rows|] == rows
      && after.value[|rows|][0] == username && after.value[|rows|][2] == ""
      && CellValue(after.value[|rows|][1]) == Some(frag)
      && CellValue(after.value[|rows|][3]) == Some(exec)
  {
    WrittenNumberReadsBack(frag);
    WrittenNumberReadsBack(exec);
  }

  // ---------------------------------------------------------------------
  // The leaderboard

  /** One parsed row: `(username, frags, reactions, executions)`. */
  datatype Entry = Entry(user: string, frags: nat, reactions: nat, executions: nat)

  /** `int(cell) if cell.isdigit() else 0` */
  function Count(cell: string): nat {
    if IsDigits(cell) then DigitsValue(cell) else 0
  }

  function EntryOf(row: Row): Entry
    requires |row| >= 4
  {
    Entry(row[0], Count(row[1]), Count(row[2]), Count(row[3]))
  }

  /** The parsed data rows; None where a row has fewer than four cells and
      the loop raises IndexError. */
  function Board(data: seq<Row>): (r: Option<seq<Entry>>)
    ensures r.Some? ==> |r.value| == |data|
  {
    if data == [] then Some([])
    else
      var row := data[|data| - 1];
      match Board(data[..|data| - 1])
      case None => None
      case Some(es) => if |row| < 4 then None else Some(es + [EntryOf(row)])
  }

  /** The three rankings. */
  datatype Stat = Frags | Reactions | Executions

  function Score(e: Entry, stat: Stat): nat {
    match stat
    case Frags => e.frags
    case Reactions => e.reactions
    case Executions => e.executions
  }

  function KeyOf(stat: Stat): Entry -> int {
    e => Score(e, stat)
  }

  /** `sorted(leaderboard_data, key=lambda x: x[column], reverse=True)[:10]` */
  function Ranked(es: seq<Entry>, stat: Stat): seq<Entry> {
    TopTen(es, KeyOf(stat))
  }

  const BlackCrown := "<a:BlackCrown:1353482149096853606>"
  const WhiteCrown := "<a:WhiteCrown:1353482417893277759>"
  const BlueCrown := "<a:blue_crown1:1241454447729836142>"
  const RedCrown := "<a:crown_red:1296157710831587449>"
  const FragEmoji := "<:CronusZen:1373022628146843671>"
  const ReactionEmoji := "\U{1F501}"
  const ExecutionEmoji := "<a:GhostFaceMurder:1373023142750195862>"

  const RankEmojis: seq<string> := [BlackCrown, WhiteCrown, BlueCrown, RedCrown, RedCrown, RedCrown, RedCrown, RedCrown, RedCrown, RedCrown]

  /** `f"**{emoji} {title.upper()}**"` */
  function Heading(emoji: string, title: string): string {
    "**" + emoji + " " + Upper(title) + "**"
  }

  /** `` f"{rank_emojis[i]} **{user}** — `{value}`" `` */
  function RankLine(i: nat, e: Entry, stat: Stat): string
    requires i < |RankEmojis|
  {
    RankEmojis[i] + " **" + e.user + "** — `" + NatToString(Score(e, stat)) + "`"
  }

  /** The lines `format_column` collects. */
  function ColumnLines(emoji: string, title: string, data: seq<Entry>, stat: Stat): (r: seq<string>)
    requires |data| <= |RankEmojis|
    ensures |r| == |data| + 1
  {
    if data == [] then [Heading(emoji, title)]
    else ColumnLines(emoji, title, data[..|data| - 1], stat) + [RankLine(|data| - 1, data[|data| - 1], stat)]
  }

  /** `format_column(title, data, emoji, column)` */
  method FormatColumn(title: string, data: seq<Entry>, emoji: string, stat: Stat) returns (text: string)
    requires |data| <= |RankEmojis|
    ensures text == Join("\n\n", ColumnLines(emoji, title, data, stat))
  {
    var lines := [Heading(emoji, title)];
    for i := 0 to |data|
      invariant lines == ColumnLines(emoji, title, data[..i], stat)
    {
      assert data[..i + 1][..i] == data[..i];
      lines := lines + [RankLine(i, data[i], stat)];
    }
    assert data[..|data|] == data;
    text := Join("\n\n", lines);
  }

  /** What the leaderboard command answers. */
  datatype Reply = NoDataFound | Failed | Columns(frags: string, reactions: string, executions: string)

  function Column(es: seq<Entry>, stat: Stat): string
    requires |Ranked(es, stat)| <= 10
  {
    var top := Ranked(es, stat);
    var title := match stat
      case Frags => "Top Frags"
      case Reactions => "Top Reactions"
      case Executions => "Top Executions";
    var emoji := match stat
      case Frags => FragEmoji
      case Reactions => ReactionEmoji
      case Executions => ExecutionEmoji;
    Join("\n\n", ColumnLines(emoji, title, top, stat))
  }

  /** The leaderboard over the data rows (the sheet without its header). */
  function LeaderboardReply(data: seq<Row>): Reply {
    if data == [] then NoDataFound
    else match Board(data)
      case None => Failed
      case Some(es) => Columns(Column(es, Frags), Column(es, Reactions), Column(es, Executions))
  }

  /** The loop building `leaderboard_data`. */
  method ParseBoard(data: seq<Row>) returns (r: Option<seq<Entry>>)
    ensures r == Board(data)
  {
    var es: seq<Entry> := [];
    for i := 0 to |data|
      invariant Board(data[..i]) == Some(es)
    {
      assert data[..i + 1][..i] == data[..i];
      var row := data[i];
      if |row| < 4 {
        BoardFailsFrom(data, i + 1);
        return None;
      }
      es := es + [EntryOf(row)];
    }
    assert data[..|data|] == data;
    return Some(es);
  }

  /** A failed prefix fails the whole parse. */
  lemma {:induction false} BoardFailsFrom(data: seq<Row>, n: nat)
    requires n <= |data| && Board(data[..n]).None?
    ensures Board(data).None?
    decreases |data| - n
  {
    if n < |data| {
      assert data[..n + 1][..n] == data[..n];
      BoardFailsFrom(data, n + 1);
    } else {
      assert data[..n] == data;
    }
  }

  class GiveawayForm {
    const sheet: Worksheet

    constructor (sheet: Worksheet)
      ensures this.sheet == sheet
    {
      this.sheet := sheet;
    }

    /** `leaderboard`: reads the sheet and changes nothing. */
    method Leaderboard() returns (reply: Reply)
      ensures reply == LeaderboardReply(Data(sheet.rows))
    {
      var data := Data(sheet.rows);
      if |data| == 0 {
        return NoDataFound;
      }
      var parsed := ParseBoard(data);
      if parsed.None? {
        return Failed;
      }
      var es := parsed.value;
      TopTenProperties(es, KeyOf(Frags));
      TopTenProperties(es, KeyOf(Reactions));
      TopTenProperties(es, KeyOf(Executions));
      var frags := FormatColumn("Top Frags", Ranked(es, Frags), FragEmoji, Frags);
      var reactions := FormatColumn("Top Reactions", Ranked(es, Reactions), ReactionEmoji, Reactions);
      var executions := FormatColumn("Top Executions", Ranked(es, Executions), ExecutionEmoji, Executions);
      reply := Columns(frags, reactions, executions);
    }
  }

  /** The parse succeeds exactly when every data row has four cells, and
      then entry i is row i read with `isdigit` parsing. */
  lemma {:induction false} BoardMeaning(data: seq<Row>)
    ensures Board(data).Some? <==> forall i :: 0 <= i < |data| ==> |data[i]| >= 4
    ensures Board(data).Some? ==> forall i :: 0 <= i < |data| ==> Board(data).value[i] == EntryOf(data[i])
  {
    if data != [] {
      var init := data[..|data| - 1];
      BoardMeaning(init);
      assert forall i :: 0 <= i < |init| ==> init[i] == data[i];
    }
  }

  /** The reply is "No data found." exactly for a sheet with no data rows, and
      the failure reply exactly when some data row is shorter than four cells. */
  lemma LeaderboardOutcomes(data: seq<Row>)
    ensures LeaderboardReply(data) == NoDataFound <==> data == []
    ensures LeaderboardReply(data) == Failed <==> exists i :: 0 <= i < |data| && |data[i]| < 4
  {
    BoardMeaning(data);
  }

  /** A number the modal wrote is read back by the leaderboard as itself when
      it is not negative; a negative total and the blank column C count as 0. */
  lemma CountOfWritten(n: int)
    ensures Count(IntToString(n)) == if n >= 0 then n else 0
    ensures Count("") == 0
  {
    if n >= 0 {
      DigitsValueOfNatToString(n);
    } else {
      assert !IsDigit(IntToString(n)[0]);
    }
  }

  /** Each ranking holds at most ten parsed rows, in non-increasing order of
      its score. */
  lemma RankingOrder(es: seq<Entry>, stat: Stat)
    ensures var top := Ranked(es, stat);
      && |top| == (if |es| <= 10 then |es| else 10)
      && forall i, j :: 0 <= i < j < |top| ==> Score(top[i], stat) >= Score(top[j], stat)
  {
    TopTenProperties(es, KeyOf(stat));
  }

  /** Every ranked entry is one of the parsed rows, and no row left out
      scores above one kept. */
  lemma RankingDrawnFrom(es: seq<Entry>, stat: Stat)
    ensures var top := Ranked(es, stat);
      && (forall e :: e in top ==> e in es)
      && (forall e, t :: e in multiset(es) - multiset(top) && t in top ==> Score(t, stat) >= Score(e, stat))
  {
    var key := KeyOf(stat);
    var top := Ranked(es, stat);
    TopTenProperties(es, key);
    forall e | e in top ensures e in es {
      assert e in multiset(top);
    }
    forall e, t | e in multiset(es) - multiset(top) && t in top ensures Score(t, stat) >= Score(e, stat) {
      TopTenLeftOut(es, key, e, t);
    }
  }

  /** Rows with equal score keep their sheet order in the ranking: the ranked
      entries with any one score are the first entries of that score. */
  lemma RankingKeepsTies(es: seq<Entry>, stat: Stat, score: int)
    ensures var w := WithKey(Ranked(es, stat), KeyOf(stat), score);
      var all := WithKey(es, KeyOf(stat), score);
      |w| <= |all| && all[..|w|] == w
  {
    TopTenStable(es, KeyOf(stat), score);
  }
}
