/** The `today` command: the giveaway sheet ranked as in the giveaway
    leaderboard, but each column shows numbered names only, with a crown on
    the first two places and no scores. */
module Today {
  import opened Text
  import opened Sheets
  import opened Ranking
  import opened Giveaway

  /** The crowned or plain line for place `i + 1`. */
  function PlaceLine(i: nat, user: string): string {
    var place := "**#" + NatToString(i + 1) + " " + user + "**";
    if i == 0 then BlackCrown + " " + place
    else if i == 1 then WhiteCrown + " " + place
    else place
  }

  /** The lines `format_column` collects: the heading, then one line per
      ranked user. */
  function PlaceLines(emoji: string, title: string, users: seq<string>): (r: seq<string>)
    ensures |r| == |users| + 1
  {
    if users == [] then [Heading(emoji, title)]
    else PlaceLines(emoji, title, users[..|users| - 1]) + [PlaceLine(|users| - 1, users[|users| - 1])]
  }

  function Users(es: seq<Entry>): (r: seq<string>)
    ensures |r| == |es| && forall i :: 0 <= i < |es| ==> r[i] == es[i].user
  {
    seq(|es|, i requires 0 <= i < |es| => es[i].user)
  }

  /** `format_column(title, data, emoji)` of the `today` command */
  method FormatPlaces(title: string, data: seq<Entry>, emoji: string) returns (text: string)
    ensures text == Join("\n\n", PlaceLines(emoji, title, Users(data)))
  {
    var lines := [Heading(emoji, title)];
    for i := 0 to |data|
      invariant lines == PlaceLines(emoji, title, Users(data[..i]))
    {
      assert Users(data[..i + 1])[..i] == Users(data[..i]);
      lines := lines + [PlaceLine(i, data[i].user)];
    }
    assert data[..|data|] == data;
    text := Join("\n\n", lines);
  }

  function PlacesColumn(es: seq<Entry>, stat: Stat): string {
    var title := match stat
      case Frags => "Top Frags"
      case Reactions => "Top Reactions"
      case Executions => "Top Executions";
    var emoji := match stat
      case Frags => FragEmoji
      case Reactions => ReactionEmoji
      case Executions => ExecutionEmoji;
    Join("\n\n", PlaceLines(emoji, title, Users(Ranked(es, stat))))
  }

  /** The reply over the data rows (the sheet without its header). */
  function TodayReply(data: seq<Row>): Reply {
    if data == [] then NoDataFound
    else match Board(data)
      case None => Failed
      case Some(es) => Columns(PlacesColumn(es, Frags), PlacesColumn(es, Reactions), PlacesColumn(es, Executions))
  }

  class TodayCog {
    const sheet: Worksheet

    constructor (sheet: Worksheet)
      ensures this.sheet == sheet
    {
      this.sheet := sheet;
    }

    /** `today`: reads the sheet and changes nothing. */
    method Today() returns (reply: Reply)
      ensures reply == TodayReply(Data(sheet.rows))
    {
      var data := Data(sheet.rows);
      if |data| == 0 {
        return NoDataFound;
      }
      var parsed := ParseBoard(data);
      if parsed.None? {
        return Failed;
      }
      var es := parsed.value;
      var frags := FormatPlaces("Top Frags", Ranked(es, Frags), FragEmoji);
      var reactions := FormatPlaces("Top Reactions", Ranked(es, Reactions), ReactionEmoji);
      var executions := FormatPlaces("Top Executions", Ranked(es, Executions), ExecutionEmoji);
      reply := Columns(frags, reactions, executions);
    }
  }

  /** Line 0 is the heading and line i + 1 names the user in place i + 1. */
  lemma {:induction false} PlaceLinesShape(emoji: string, title: string, users: seq<string>)
    ensures var lines := PlaceLines(emoji, title, users);
      && lines[0] == Heading(emoji, title)
      && forall i :: 0 <= i < |users| ==> lines[i + 1] == PlaceLine(i, users[i])
  {
    if users != [] {
      var init := users[..|users| - 1];
      PlaceLinesShape(emoji, title, init);
      assert forall i :: 0 <= i < |init| ==> init[i] == users[i];
    }
  }

  /** Place 1 is the only line with the black crown, place 2 the only one
      with the white crown, and the others start with their number. */
  lemma Crowns(i: nat, user: string)
    ensures StartsWith(PlaceLine(i, user), BlackCrown) <==> i == 0
    ensures StartsWith(PlaceLine(i, user), WhiteCrown) <==> i == 1
    ensures i >= 2 ==> StartsWith(PlaceLine(i, user), "**#" + NatToString(i + 1) + " ")
  {
    var line := PlaceLine(i, user);
    if i == 0 {
      assert line[3] == 'B';
      assert WhiteCrown[3] == 'W';
    } else if i == 1 {
      assert line[3] == 'W';
      assert BlackCrown[3] == 'B';
    } else {
      assert line[0] == '*';
      assert BlackCrown[0] == '<' && WhiteCrown[0] == '<';
    }
  }

  /** Scores are not shown: rankings naming the same users in the same order
      give the same column, whatever their scores. */
  lemma ScoresNotShown(emoji: string, title: string, a: seq<Entry>, b: seq<Entry>)
    requires |a| == |b| && forall i :: 0 <= i < |a| ==> a[i].user == b[i].user
    ensures Join("\n\n", PlaceLines(emoji, title, Users(a))) == Join("\n\n", PlaceLines(emoji, title, Users(b)))
  {
    assert Users(a) == Users(b);
  }

  /** "No data found." exactly for a sheet with no data rows, and the error
      reply exactly when some data row has fewer than four cells. */
  lemma TodayOutcomes(data: seq<Row>)
    ensures TodayReply(data) == NoDataFound <==> data == []
    ensures TodayReply(data) == Failed <==> exists i :: 0 <= i < |data| && |data[i]| < 4
  {
    BoardMeaning(data);
  }
}
