/** The match scheduling modal: it allocates the next match id from the
    "meta" sheet's A2 cell, announces the match with the league's role and
    appends the same row to the "matches" and "matcharchive" sheets. */
module MatchScheduler {
  import opened Wrappers
  import opened Text
  import opened Sheets

  /** The role pinged for a league. */
  function RoleName(league: string): (r: string)
    ensures r == "Capo" <==> league == "HC"
    ensures r == "Capo" || r == "Soldier"
  {
    if league == "HC" then "Capo" else "Soldier"
  }

  /** `role.mention if role else f"@{role_name}"`, with the guild's roles
      given by name and id. */
  function RoleMention(league: string, roles: map<string, nat>): string {
    var name := RoleName(league);
    if name in roles then "<@&" + NatToString(roles[name]) + ">" else "@" + name
  }

  /** `f"<:{emoji.name}:{emoji.id}>" if emoji else "🟡"` for the "AOSgold" emoji. */
  function EmojiText(guildEmojis: map<string, nat>): string {
    if "AOSgold" in guildEmojis then "<:AOSgold:" + NatToString(guildEmojis["AOSgold"]) + ">" else "\U{1F7E1}"
  }

  /** `max([int(i) for i in archive_ids if i.isdigit()] or [0]) + 1` */
  function ArchiveNext(ids: seq<string>): (r: nat)
    ensures r >= 1
    ensures forall i :: 0 <= i < |ids| && IsDigits(ids[i]) ==> r > DigitsValue(ids[i])
    ensures r == 1 || exists i :: 0 <= i < |ids| && IsDigits(ids[i]) && r == DigitsValue(ids[i]) + 1
  {
    if ids == [] then 1
    else
      var rest := ArchiveNext(ids[..|ids| - 1]);
      var last := ids[|ids| - 1];
      if IsDigits(last) && DigitsValue(last) + 1 > rest then DigitsValue(last) + 1 else rest
  }

  /** `int(meta_sheet.acell("A2").value or 0) + 1`: an empty cell counts as
      0; None where `int()` raises. */
  function NextId(cell: string): Option<int> {
    if cell == "" then Some(1)
    else match ParseInt(cell)
      case None => None
      case Some(last) => Some(last + 1)
  }

  /** The row appended to both sheets; the id is the ninth cell and the
      announcement's channel id the last. */
  function ScheduledRow(timestamp: string, user: string, date: string, time: string, enemy: string,
                        league: string, matchType: string, players: string, id: int,
                        messageId: string, channelId: string): (r: Row)
    ensures |r| == 11 && r[8] == IntToString(id) && r[9] == messageId && r[10] == channelId
    ensures r[2] == date && r[3] == time && r[4] == enemy && r[5] == league && r[6] == matchType
  {
    [timestamp, user, date, time, enemy, league, matchType, players, IntToString(id), messageId, channelId]
  }

  /** The announcement posted in the schedule channel. */
  function Announcement(emoji: string, date: string, time: string, enemy: string, league: string,
                        matchType: string, players: string, id: int, role: string): string {
    "# " + emoji + " " + date + " | " + time + " | " + enemy + " | " + league + " | "
      + matchType + " | " + players + " | ID: " + IntToString(id) + " " + role
  }

  datatype Outcome =
    | ChannelMissing
    | Failed
    | Scheduled(id: int, announcement: string)

  class MatchScheduleModal {
    const matches: Worksheet
    const archive: Worksheet
    /** The "meta" sheet's A2 cell ("" when empty). */
    var metaCell: string

    constructor (matches: Worksheet, archive: Worksheet, metaCell: string)
      requires matches != archive
      ensures this.matches == matches && this.archive == archive && this.metaCell == metaCell
    {
      this.matches := matches;
      this.archive := archive;
      this.metaCell := metaCell;
    }

    /** `on_submit`. The announcement's message id and channel id and the
        timestamp are inputs. */
    method Submit(user: string, date: string, time: string, enemy: string, league: string,
                  matchType: string, players: string, channelFound: bool,
                  guildEmojis: map<string, nat>, roles: map<string, nat>, archiveIds: seq<string>,
                  timestamp: string, messageId: string, channelId: string) returns (outcome: Outcome)
      requires matches != archive
      modifies this, matches, archive
      ensures outcome.Scheduled? <==> channelFound && NextId(old(metaCell)).Some?
      ensures !outcome.Scheduled? ==>
        metaCell == old(metaCell) && matches.rows == old(matches.rows) && archive.rows == old(archive.rows)
      ensures outcome.Scheduled? ==>
        var row := ScheduledRow(timestamp, user, date, time, enemy, league, matchType, players, outcome.id, messageId, channelId);
        && outcome.id == NextId(old(metaCell)).value
        && metaCell == IntToString(outcome.id)
        && matches.rows == old(matches.rows) + [row]
        && archive.rows == old(archive.rows) + [row]
        && outcome.announcement == Announcement(EmojiText(guildEmojis), date, time, enemy, league, matchType, players,
                                                outcome.id, RoleMention(league, roles))
    {
      if !channelFound {
        return ChannelMissing;
      }
      var emoji := EmojiText(guildEmojis);
      var role := RoleMention(league, roles);
      // The archive maximum is computed and then overwritten by the meta cell.
      var id: int := ArchiveNext(archiveIds);
      var next := NextId(metaCell);
      if next.None? {
        return Failed;
      }
      id := next.value;
      metaCell := IntToString(id);
      var announcement := Announcement(emoji, date, time, enemy, league, matchType, players, id, role);
      var row := ScheduledRow(timestamp, user, date, time, enemy, league, matchType, players, id, messageId, channelId);
      matches.AppendRow(row);
      archive.AppendRow(row);
      outcome := Scheduled(id, announcement);
    }
  }

  /** The id written back to A2 is read by the next submission, which gets
      the following id: successive matches are numbered consecutively. */
  lemma NextIdFollows(cell: string)
    requires NextId(cell).Some?
    ensures NextId(IntToString(NextId(cell).value)) == Some(NextId(cell).value + 1)
  {
    var id := NextId(cell).value;
    IntRoundTrip(id);
    assert IntToString(id) != "" by {
      if id >= 0 { assert IsDigits(NatToString(id)); } else { assert IntToString(id)[0] == '-'; }
    }
  }

  /** The announcement ends with "ID: {id}" and the role mention. */
  lemma AnnouncementEndsWithId(emoji: string, date: string, time: string, enemy: string, league: string,
                               matchType: string, players: string, id: int, role: string)
    ensures var a := Announcement(emoji, date, time, enemy, league, matchType, players, id, role);
      var tail := "ID: " + IntToString(id) + " " + role;
      |tail| <= |a| && a[|a| - |tail|..] == tail
  {
    var a := Announcement(emoji, date, time, enemy, league, matchType, players, id, role);
    var tail := "ID: " + IntToString(id) + " " + role;
    var head := "# " + emoji + " " + date + " | " + time + " | " + enemy + " | " + league + " | "
      + matchType + " | " + players + " | ";
    assert a == head + tail;
  }
}
