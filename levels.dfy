/** The XP and level system: every user has XP within their current level
    and a level (starting at 0 XP on level 1); level `l` costs `100 * l` XP;
    chat messages and whole minutes in voice earn XP; a user whose XP reaches
    the cost of their level moves up as many levels as it pays for. The
    leaderboard ranks users by total XP. */
module Levels {
  import opened Wrappers
  import opened Text
  import opened Ranking

  const XpPerMessage: int := 5
  const XpPerMinuteVc: int := 10

  /** One user's entry: XP within the level, the level, and when they
      joined voice (whole seconds), if they are in a voice channel. */
  datatype UserXp = UserXp(xp: int, level: int, vcJoin: Option<int>)

  /** The entry the defaultdict creates on first access. */
  const Fresh: UserXp := UserXp(0, 1, None)

  /** `get_level_xp(level)` */
  function LevelXp(level: int): int {
    100 * level
  }

  /** `sum(get_level_xp(l) for l in range(1, level))` */
  function LevelsBelow(level: int): int {
    if level <= 1 then 0 else LevelsBelow(level - 1) + LevelXp(level - 1)
  }

  /** `calculate_total_xp` */
  function TotalXp(d: UserXp): int {
    LevelsBelow(d.level) + d.xp
  }

  /** The XP a voice session earns: 10 per whole minute between joining and
      leaving (`total_seconds() // 60`, a floor division). */
  function VoiceGain(join: int, leave: int): int {
    ((leave - join) / 60) * XpPerMinuteVc
  }

  /** The triangular sum in closed form. */
  lemma {:induction false} LevelsBelowClosedForm(level: int)
    requires level >= 1
    ensures LevelsBelow(level) == 50 * level * (level - 1)
  {
    if level > 1 {
      LevelsBelowClosedForm(level - 1);
    }
  }

  lemma {:induction false} LevelsBelowGrows(a: int, b: int)
    requires 1 <= a < b
    ensures LevelsBelow(b) >= LevelsBelow(a) + LevelXp(a)
    decreases b
  {
    if b > a + 1 {
      LevelsBelowGrows(a, b - 1);
    }
  }

  /** A total XP determines the level and the XP within it: two settled
      entries with the same total are the same. */
  lemma LevelDeterminedByTotal(l1: int, x1: int, l2: int, x2: int)
    requires 1 <= l1 && 0 <= x1 < LevelXp(l1)
    requires 1 <= l2 && 0 <= x2 < LevelXp(l2)
    requires LevelsBelow(l1) + x1 == LevelsBelow(l2) + x2
    ensures l1 == l2 && x1 == x2
  {
    if l1 < l2 {
      LevelsBelowGrows(l1, l2);
    } else if l2 < l1 {
      LevelsBelowGrows(l2, l1);
    }
  }

  /** A session of `m` whole minutes and `r` extra seconds earns `10 * m`. */
  lemma VoiceGainPerMinute(join: int, m: int, r: int)
    requires 0 <= r < 60
    ensures VoiceGain(join, join + 60 * m + r) == 10 * m
  {
    assert (60 * m + r) / 60 == m;
  }

  /** The loop of `handle_level_up`: moves up one level at a time while the
      XP covers the current level's cost; returns the levels reached, in the
      order they are announced. */
  method LevelUp(xp: int, level: int) returns (newXp: int, newLevel: int, reached: seq<int>)
    requires level >= 1
    ensures newLevel >= level && newXp < LevelXp(newLevel)
    ensures LevelsBelow(newLevel) + newXp == LevelsBelow(level) + xp
    ensures xp >= 0 ==> newXp >= 0
    ensures xp < LevelXp(level) ==> newXp == xp && newLevel == level
    ensures |reached| == newLevel - level
    ensures forall i :: 0 <= i < |reached| ==> reached[i] == level + 1 + i
  {
    newXp, newLevel, reached := xp, level, [];
    var needed := LevelXp(newLevel);
    while newXp >= needed
      invariant newLevel >= level && needed == LevelXp(newLevel)
      invariant LevelsBelow(newLevel) + newXp == LevelsBelow(level) + xp
      invariant xp >= 0 ==> newXp >= 0
      invariant newLevel == level ==> newXp == xp
      invariant xp < LevelXp(level) ==> newLevel == level
      invariant |reached| == newLevel - level
      invariant forall i :: 0 <= i < |reached| ==> reached[i] == level + 1 + i
      decreases newXp
    {
      newLevel := newLevel + 1;
      newXp := newXp - needed;
      needed := LevelXp(newLevel);
      reached := reached + [newLevel];
    }
  }

  /** `leaderboard`'s key: a user's total XP. */
  function TotalOf(item: (int, UserXp)): int {
    TotalXp(item.1)
  }

  predicate DistinctIds(s: seq<int>) {
    forall i, j :: 0 <= i < j < |s| ==> s[i] != s[j]
  }

  /** `xp_data.items()` in insertion order. */
  function Items(order: seq<int>, data: map<int, UserXp>): seq<(int, UserXp)>
    requires forall k :: 0 <= k < |order| ==> order[k] in data
  {
    if order == [] then [] else Items(order[..|order| - 1], data) + [(order[|order| - 1], data[order[|order| - 1]])]
  }

  /** The entry a user has, or would get on first access. */
  function Current(data: map<int, UserXp>, uid: int): UserXp {
    if uid in data then data[uid] else Fresh
  }

  /** The embed field of rank `rank`: `f"#{i} {name}"` over
      `f"Level {level} - {total} XP"`, the name falling back to "User <id>". */
  function Field(rank: nat, item: (int, UserXp), names: map<int, string>): (string, string) {
    var name := if item.0 in names then names[item.0] else "User " + IntToString(item.0);
    ("#" + NatToString(rank) + " " + name, "Level " + IntToString(item.1.level) + " - " + IntToString(TotalOf(item)) + " XP")
  }

  class LevelSystem {
    /** The keys of `xp_data` in insertion order. */
    var order: seq<int>
    var data: map<int, UserXp>

    ghost predicate Valid()
      reads this
    {
      && DistinctIds(order)
      && (forall u :: u in data <==> u in order)
      && (forall k :: 0 <= k < |order| ==> order[k] in data)
      && (forall u :: u in data ==> data[u].level >= 1)
    }

    constructor ()
      ensures Valid() && order == [] && data == map[]
    {
      order := [];
      data := map[];
    }

    /** `self.xp_data[uid]`: the first access inserts the fresh entry. */
    method Touch(uid: int)
      requires Valid()
      modifies this
      ensures Valid() && uid in data && data[uid] == Current(old(data), uid)
      ensures uid in old(data) ==> order == old(order) && data == old(data)
      ensures uid !in old(data) ==> order == old(order) + [uid] && data == old(data)[uid := Fresh]
    {
      if uid !in data {
        order := order + [uid];
        data := data[uid := Fresh];
      }
    }

    /** `handle_level_up` on a stored entry. */
    method HandleLevelUp(uid: int) returns (reached: seq<int>)
      requires Valid() && uid in data
      modifies this
      ensures Valid() && order == old(order) && uid in data
      ensures data == old(data)[uid := data[uid]]
      ensures TotalXp(data[uid]) == TotalXp(old(data)[uid])
      ensures data[uid].xp < LevelXp(data[uid].level) && data[uid].level >= old(data)[uid].level
      ensures data[uid].vcJoin == old(data)[uid].vcJoin
      ensures |reached| == data[uid].level - old(data)[uid].level
      ensures forall i :: 0 <= i < |reached| ==> reached[i] == old(data)[uid].level + 1 + i
    {
      var d := data[uid];
      var xp, level;
      xp, level, reached := LevelUp(d.xp, d.level);
      data := data[uid := d.(xp := xp, level := level)];
    }

    /** `on_message`: a guild message from a user who is not a bot earns 5
        XP; returns the levels announced in the message's channel. */
    method OnMessage(uid: int, isBot: bool, inGuild: bool) returns (reached: seq<int>)
      requires Valid()
      modifies this
      ensures Valid()
      ensures isBot || !inGuild ==> order == old(order) && data == old(data) && reached == []
      ensures !isBot && inGuild ==>
        && uid in data
        && order == (if uid in old(data) then old(order) else old(order) + [uid])
        && data == old(data)[uid := data[uid]]
        && TotalXp(data[uid]) == TotalXp(Current(old(data), uid)) + XpPerMessage
        && data[uid].xp < LevelXp(data[uid].level)
        && data[uid].level >= Current(old(data), uid).level
        && data[uid].vcJoin == Current(old(data), uid).vcJoin
        && |reached| == data[uid].level - Current(old(data), uid).level
        && forall i :: 0 <= i < |reached| ==> reached[i] == Current(old(data), uid).level + 1 + i
    {
      if isBot || !inGuild {
        return [];
      }
      Touch(uid);
      data := data[uid := data[uid].(xp := data[uid].xp + XpPerMessage)];
      reached := HandleLevelUp(uid);
    }

    /** `on_voice_state_update`: joining voice records the time; leaving
        after a recorded join adds 10 XP per whole minute and clears the
        record; any update inserts the user's entry. */
    method OnVoiceStateUpdate(uid: int, wasIn: bool, isIn: bool, now: int)
      requires Valid()
      modifies this
      ensures Valid() && uid in data
      ensures order == if uid in old(data) then old(order) else old(order) + [uid]
      ensures data == old(data)[uid := data[uid]]
      ensures var before := Current(old(data), uid);
        if !wasIn && isIn then data[uid] == before.(vcJoin := Some(now))
        else if wasIn && !isIn && before.vcJoin.Some? then
          && TotalXp(data[uid]) == TotalXp(before) + VoiceGain(before.vcJoin.value, now)
          && data[uid].vcJoin.None?
          && data[uid].xp < LevelXp(data[uid].level)
          && data[uid].level >= before.level
        else data[uid] == before
    {
      Touch(uid);
      var d := data[uid];
      if !wasIn && isIn {
        data := data[uid := d.(vcJoin := Some(now))];
      } else if wasIn && !isIn {
        if d.vcJoin.Some? {
          var gained := VoiceGain(d.vcJoin.value, now);
          data := data[uid := d.(xp := d.xp + gained, vcJoin := None)];
          var _ := HandleLevelUp(uid);
        }
      }
    }

    /** `rank`: level, XP within the level, the level's cost, and total XP
        (the access inserts the entry of a user seen for the first time). */
    method Rank(uid: int) returns (level: int, xp: int, next: int, total: int)
      requires Valid()
      modifies this
      ensures Valid() && uid in data
      ensures order == if uid in old(data) then old(order) else old(order) + [uid]
      ensures data == old(data)[uid := Current(old(data), uid)]
      ensures level == data[uid].level && xp == data[uid].xp
      ensures next == 100 * level
      ensures total == 50 * level * (level - 1) + xp
    {
      Touch(uid);
      level, xp := data[uid].level, data[uid].xp;
      next := LevelXp(level);
      LevelsBelowClosedForm(level);
      total := TotalXp(data[uid]);
    }

    /** `leaderboard`: the ten highest totals, ties in insertion order, with
        one embed field per entry. `names` are the users the bot can see. */
    method Leaderboard(names: map<int, string>) returns (top: seq<(int, UserXp)>, fields: seq<(string, string)>)
      requires Valid()
      ensures top == TopTen(Items(order, data), TotalOf)
      ensures |fields| == |top|
      ensures forall i :: 0 <= i < |top| ==> fields[i] == Field(i + 1, top[i], names)
    {
      top := TopTen(Items(order, data), TotalOf);
      fields := Fields(top, names);
    }
  }

  /** The loop that adds one embed field per leaderboard entry, numbered from 1. */
  method Fields(top: seq<(int, UserXp)>, names: map<int, string>) returns (fields: seq<(string, string)>)
    ensures |fields| == |top|
    ensures forall i :: 0 <= i < |top| ==> fields[i] == Field(i + 1, top[i], names)
  {
    fields := [];
    var i := 0;
    while i < |top|
      invariant 0 <= i <= |top| && |fields| == i
      invariant forall k :: 0 <= k < i ==> fields[k] == Field(k + 1, top[k], names)
    {
      fields := fields + [Field(i + 1, top[i], names)];
      i := i + 1;
    }
  }

  lemma {:induction false} ItemsShape(order: seq<int>, data: map<int, UserXp>)
    requires forall k :: 0 <= k < |order| ==> order[k] in data
    ensures |Items(order, data)| == |order|
    ensures forall k :: 0 <= k < |order| ==> Items(order, data)[k] == (order[k], data[order[k]])
  {
    if order != [] {
      ItemsShape(order[..|order| - 1], data);
    }
  }

  lemma TopTenFromItems(order: seq<int>, data: map<int, UserXp>, x: (int, UserXp))
    requires forall k :: 0 <= k < |order| ==> order[k] in data
    requires x in TopTen(Items(order, data), TotalOf)
    ensures x.0 in data && x.1 == data[x.0]
  {
    var items := Items(order, data);
    TopTenProperties(items, TotalOf);
    ItemsShape(order, data);
    assert x in multiset(items);
  }

  lemma LeftOutRanksLower(order: seq<int>, data: map<int, UserXp>, i: int, u: int)
    requires forall k :: 0 <= k < |order| ==> order[k] in data
    requires 0 <= i < |TopTen(Items(order, data), TotalOf)|
    requires u in order && (u, data[u]) !in TopTen(Items(order, data), TotalOf)
    ensures TotalOf(TopTen(Items(order, data), TotalOf)[i]) >= TotalXp(data[u])
  {
    var items := Items(order, data);
    var top := TopTen(items, TotalOf);
    var s := SortDesc(items, TotalOf);
    TopTenProperties(items, TotalOf);
    SortDescProperties(items, TotalOf);
    ItemsShape(order, data);
    var k :| 0 <= k < |order| && order[k] == u;
    assert items[k] == (u, data[u]);
    assert (u, data[u]) in multiset(s);
    var j :| 0 <= j < |s| && s[j] == (u, data[u]);
    assert top[i] == s[i];
  }

  /** The leaderboard holds at most ten users, each a tracked one with their
      own entry, by non-increasing total XP, and no user left out has a
      higher total than one shown. */
  lemma LeaderboardProperties(order: seq<int>, data: map<int, UserXp>)
    requires forall k :: 0 <= k < |order| ==> order[k] in data
    ensures var top := TopTen(Items(order, data), TotalOf);
      && |top| <= 10
      && (forall i :: 0 <= i < |top| ==> top[i].0 in data && top[i].1 == data[top[i].0])
      && (forall i, j :: 0 <= i < j < |top| ==> TotalOf(top[i]) >= TotalOf(top[j]))
      && (forall i, u :: 0 <= i < |top| && u in order && (u, data[u]) !in top ==> TotalOf(top[i]) >= TotalXp(data[u]))
  {
    var top := TopTen(Items(order, data), TotalOf);
    TopTenProperties(Items(order, data), TotalOf);
    forall i | 0 <= i < |top| ensures top[i].0 in data && top[i].1 == data[top[i].0] {
      TopTenFromItems(order, data, top[i]);
    }
    forall i, u | 0 <= i < |top| && u in order && (u, data[u]) !in top ensures TotalOf(top[i]) >= TotalXp(data[u]) {
      LeftOutRanksLower(order, data, i, u);
    }
  }
}
