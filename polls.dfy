/** What the two availability schedulers share: the eight time-slot reactions,
    the week arithmetic that finds the Sunday to start from, the emoji lookup
    that guards posting, the count of poll messages actually deleted, the
    canonical ordering of a user's slots and the grouping of sheet rows by user
    in order of first appearance. */
module Polls {
  import opened Wrappers

  /** The slot emoji names, in display order. */
  const SlotOrder: seq<string> := ["5PM", "6PM", "7PM", "8PM", "9PM", "10PM", "11PM", "12AM"]

  /** The seven posted days, Sunday first, as the command choices spell them. */
  const WeekDays: seq<string> := ["SUNDAY", "MONDAY", "TUESDAY", "WEDNESDAY", "THURSDAY", "FRIDAY", "SATURDAY"]

  /** `d.strftime('%A').upper()` indexed by Python's `d.weekday()` (Monday is 0). */
  const WeekdayNames: seq<string> := ["MONDAY", "TUESDAY", "WEDNESDAY", "THURSDAY", "FRIDAY", "SATURDAY", "SUNDAY"]

  /** `(today.weekday() + 1) % 7`: how many days back the posted week starts. */
  function DaysBack(weekday: int): (r: int)
    requires 0 <= weekday < 7
    ensures 0 <= r < 7
    ensures r == 0 <==> weekday == 6
  {
    (weekday + 1) % 7
  }

  /** The name of `sunday + timedelta(days=i)` where `sunday = today - DaysBack`. */
  function PostedDayName(weekday: int, i: int): string
    requires 0 <= weekday < 7 && 0 <= i < 7
  {
    WeekdayNames[(weekday - DaysBack(weekday) + i) % 7]
  }

  /** Whatever today is, the seven posted days run Sunday to Saturday. */
  lemma PostedWeekIsSundayToSaturday(weekday: int, i: int)
    requires 0 <= weekday < 7 && 0 <= i < 7
    ensures PostedDayName(weekday, i) == WeekDays[i]
  {
    assert weekday - DaysBack(weekday) == -1 || weekday == 6;
  }

  /** Slot `k` is the first slot name without a guild emoji. */
  predicate FirstMissingAt(guildEmojis: set<string>, k: int) {
    && 0 <= k < |SlotOrder| && SlotOrder[k] !in guildEmojis
    && forall j :: 0 <= j < k ==> SlotOrder[j] in guildEmojis
  }

  /** The loop over the slot names that looks each one up among the guild's
      emojis and stops at the first one that is missing. */
  method FindMissingEmoji(guildEmojis: set<string>) returns (missing: Option<string>)
    ensures missing.None? <==> forall k :: 0 <= k < |SlotOrder| ==> SlotOrder[k] in guildEmojis
    ensures missing.Some? ==> exists k :: FirstMissingAt(guildEmojis, k) && SlotOrder[k] == missing.value
  {
    var k := 0;
    while k < |SlotOrder|
      invariant 0 <= k <= |SlotOrder|
      invariant forall j :: 0 <= j < k ==> SlotOrder[j] in guildEmojis
    {
      if SlotOrder[k] !in guildEmojis {
        return Some(SlotOrder[k]);
      }
      k := k + 1;
    }
    return None;
  }

  function Elems(ids: seq<string>): set<string> {
    set x | x in ids
  }

  lemma {:induction false} ElemsBound(ids: seq<string>)
    ensures |Elems(ids)| <= |ids|
  {
    if ids != [] {
      var init := ids[..|ids| - 1];
      ElemsBound(init);
      assert Elems(ids) == Elems(init) + {ids[|ids| - 1]};
    }
  }

  lemma ElemsSnoc(ids: seq<string>, k: nat)
    requires k < |ids|
    ensures Elems(ids[..k + 1]) == Elems(ids[..k]) + {ids[k]}
  {
    assert ids[..k + 1] == ids[..k] + [ids[k]];
  }

  /** The loop that fetches and deletes each tracked poll message and counts
      the successes. `deletable` holds the messages the channel still has and
      lets the bot delete; a message deleted once is gone for a repeated id. */
  method DeleteMessages(ids: seq<string>, deletable: set<string>) returns (deleted: nat)
    ensures deleted == |Elems(ids) * deletable|
    ensures deleted <= |ids|
  {
    deleted := 0;
    var gone: set<string> := {};
    var k := 0;
    while k < |ids|
      invariant 0 <= k <= |ids|
      invariant gone == Elems(ids[..k]) * deletable
      invariant deleted == |gone| <= k
    {
      var id := ids[k];
      ElemsSnoc(ids, k);
      if id in deletable && id !in gone {
        gone := gone + {id};
        deleted := deleted + 1;
      } else {
        assert Elems(ids[..k + 1]) * deletable == gone;
      }
      k := k + 1;
    }
    assert ids[..k] == ids;
  }

  /** `[t for t in order if t in times]` */
  function InOrder(order: seq<string>, times: seq<string>): seq<string> {
    if order == [] then []
    else (if order[0] in times then [order[0]] else []) + InOrder(order[1..], times)
  }

  /** A user's slots in the fixed 5PM..12AM order. */
  function Canonical(times: seq<string>): seq<string> {
    InOrder(SlotOrder, times)
  }

  /** The position of `x` in `order` (|order| when absent). */
  function IndexIn(order: seq<string>, x: string): (r: nat)
    ensures r <= |order|
    ensures r < |order| ==> order[r] == x
  {
    if order == [] then 0 else if order[0] == x then 0 else 1 + IndexIn(order[1..], x)
  }

  predicate Distinct(xs: seq<string>) {
    forall i, j :: 0 <= i < j < |xs| ==> xs[i] != xs[j]
  }

  lemma {:induction false} InOrderMembers(order: seq<string>, times: seq<string>, t: string)
    ensures t in InOrder(order, times) <==> t in order && t in times
  {
    if order != [] {
      InOrderMembers(order[1..], times, t);
      assert order == [order[0]] + order[1..];
    }
  }

  lemma {:induction false} IndexInOf(order: seq<string>, k: nat)
    requires Distinct(order) && k < |order|
    ensures IndexIn(order, order[k]) == k
  {
    if k > 0 {
      IndexInOf(order[1..], k - 1);
    }
  }

  /** `r` lists elements in the order they have in `order`, each at most once. */
  predicate Follows(order: seq<string>, r: seq<string>) {
    forall i, j :: 0 <= i < j < |r| ==> IndexIn(order, r[i]) < IndexIn(order, r[j])
  }

  /** The position in `order` of an element of its tail is one more than
      its position in the tail. */
  lemma IndexInTail(order: seq<string>, t: string)
    requires Distinct(order) && order != [] && t in order[1..]
    ensures IndexIn(order, t) == 1 + IndexIn(order[1..], t)
  {
    var m :| 0 <= m < |order[1..]| && order[1..][m] == t;
    assert order[m + 1] == t;
  }

  /** Keeping or dropping the head of `order` in front of a list that
      follows its tail gives a list that follows `order`. */
  lemma FollowsStep(order: seq<string>, rest: seq<string>, keep: bool)
    requires Distinct(order) && order != []
    requires Follows(order[1..], rest)
    requires forall t :: t in rest ==> t in order[1..]
    ensures Follows(order, (if keep then [order[0]] else []) + rest)
  {
    forall t | t in rest ensures IndexIn(order, t) == 1 + IndexIn(order[1..], t) {
      IndexInTail(order, t);
    }
    var r := (if keep then [order[0]] else []) + rest;
    var d := if keep then 1 else 0;
    forall i, j | 0 <= i < j < |r| ensures IndexIn(order, r[i]) < IndexIn(order, r[j]) {
      assert r[j] == rest[j - d] && rest[j - d] in rest;
      if i >= d {
        assert r[i] == rest[i - d] && rest[i - d] in rest;
        assert IndexIn(order[1..], rest[i - d]) < IndexIn(order[1..], rest[j - d]);
      } else {
        assert r[i] == order[0];
      }
    }
  }

  /** The kept slots follow the order of `order`, each at most once. */
  lemma {:induction false} InOrderSorted(order: seq<string>, times: seq<string>)
    requires Distinct(order)
    ensures Follows(order, InOrder(order, times))
  {
    if order != [] {
      var rest := InOrder(order[1..], times);
      InOrderSorted(order[1..], times);
      forall t | t in rest ensures t in order[1..] {
        InOrderMembers(order[1..], times, t);
      }
      FollowsStep(order, rest, order[0] in times);
    }
  }

  lemma {:induction false} InOrderRespectsMembership(order: seq<string>, a: seq<string>, b: seq<string>)
    requires forall t :: t in a <==> t in b
    ensures InOrder(order, a) == InOrder(order, b)
  {
    if order != [] {
      InOrderRespectsMembership(order[1..], a, b);
    }
  }

  lemma SlotOrderDistinct()
    ensures Distinct(SlotOrder)
  {
  }

  /** A listed user's slots: exactly the picked ones that are slot names, in
      the 5PM..12AM order, each once, and the same whatever order or repetition
      the reactions were recorded in. */
  lemma CanonicalListing(times: seq<string>, other: seq<string>)
    ensures forall t :: t in Canonical(times) <==> t in SlotOrder && t in times
    ensures var r := Canonical(times);
      forall i, j :: 0 <= i < j < |r| ==> IndexIn(SlotOrder, r[i]) < IndexIn(SlotOrder, r[j])
    ensures (forall t :: t in times <==> t in other) ==> Canonical(times) == Canonical(other)
  {
    forall t ensures t in Canonical(times) <==> t in SlotOrder && t in times {
      InOrderMembers(SlotOrder, times, t);
    }
    SlotOrderDistinct();
    InOrderSorted(SlotOrder, times);
    assert Follows(SlotOrder, Canonical(times));
    if forall t :: t in times <==> t in other {
      InOrderRespectsMembership(SlotOrder, times, other);
    }
  }

  /** An insertion-ordered dict from user id to the slots picked: the keys in
      insertion order and the map itself. */
  datatype Groups = Groups(order: seq<string>, slots: map<string, seq<string>>)

  /** `users.setdefault(uid, []).append(time)` */
  function AddTo(g: Groups, uid: string, t: string): Groups {
    if uid in g.slots then g.(slots := g.slots[uid := g.slots[uid] + [t]])
    else Groups(g.order + [uid], g.slots[uid := [t]])
  }

  /** The dict the grouping loop builds from (user id, slot) pairs. */
  function Grouped(pairs: seq<(string, string)>): Groups {
    if pairs == [] then Groups([], map[])
    else AddTo(Grouped(pairs[..|pairs| - 1]), pairs[|pairs| - 1].0, pairs[|pairs| - 1].1)
  }

  /** The user ids of `pairs`, each once, in order of first appearance. */
  function FirstAppearance(pairs: seq<(string, string)>): seq<string> {
    if pairs == [] then []
    else
      var before := FirstAppearance(pairs[..|pairs| - 1]);
      if pairs[|pairs| - 1].0 in before then before else before + [pairs[|pairs| - 1].0]
  }

  /** The slots of one user, in sheet order, repetitions included. */
  function TimesOf(pairs: seq<(string, string)>, uid: string): seq<string> {
    if pairs == [] then []
    else TimesOf(pairs[..|pairs| - 1], uid) + (if pairs[|pairs| - 1].0 == uid then [pairs[|pairs| - 1].1] else [])
  }

  /** Every user id occurs once among the first appearances. */
  lemma {:induction false} FirstAppearanceDistinct(pairs: seq<(string, string)>)
    ensures Distinct(FirstAppearance(pairs))
    ensures forall k :: 0 <= k < |pairs| ==> pairs[k].0 in FirstAppearance(pairs)
    ensures forall u :: u in FirstAppearance(pairs) ==> exists k :: 0 <= k < |pairs| && pairs[k].0 == u
  {
    if pairs != [] {
      var init := pairs[..|pairs| - 1];
      FirstAppearanceDistinct(init);
      forall k | 0 <= k < |init| ensures init[k] == pairs[k] { }
    }
  }

  /** The grouping lists every user once, in order of first appearance, with
      exactly that user's slots in sheet order. */
  lemma {:induction false} GroupedByFirstAppearance(pairs: seq<(string, string)>)
    ensures Grouped(pairs).order == FirstAppearance(pairs)
    ensures forall u :: u in Grouped(pairs).slots <==> u in FirstAppearance(pairs)
    ensures forall u :: u in Grouped(pairs).slots ==> Grouped(pairs).slots[u] == TimesOf(pairs, u)
  {
    if pairs != [] {
      var init := pairs[..|pairs| - 1];
      GroupedByFirstAppearance(init);
      if pairs[|pairs| - 1].0 !in Grouped(init).slots {
        TimesOfAbsent(init, pairs[|pairs| - 1].0);
      }
    }
  }

  lemma {:induction false} TimesOfAbsent(pairs: seq<(string, string)>, uid: string)
    requires uid !in FirstAppearance(pairs)
    ensures TimesOf(pairs, uid) == []
  {
    if pairs != [] {
      TimesOfAbsent(pairs[..|pairs| - 1], uid);
    }
  }
  /** Every grouped user has an entry. */
  predicate Complete(g: Groups) {
    forall k :: 0 <= k < |g.order| ==> g.order[k] in g.slots
  }

  /** `(uid, [t for t in order if t in times])` for each listed user. */
  function EntriesOf(g: Groups, uids: seq<string>): seq<(string, seq<string>)> {
    if uids == [] then []
    else
      var uid := uids[|uids| - 1];
      EntriesOf(g, uids[..|uids| - 1]) + [(uid, if uid in g.slots then Canonical(g.slots[uid]) else [])]
  }


  /** One more listed user adds one entry at the end. */
  lemma EntriesOfStep(g: Groups, uids: seq<string>, n: int)
    requires 0 <= n < |uids| && uids[n] in g.slots
    ensures EntriesOf(g, uids[..n + 1]) == EntriesOf(g, uids[..n]) + [(uids[n], Canonical(g.slots[uids[n]]))]
  {
    assert uids[..n + 1][..n] == uids[..n];
  }

  /** The `users.setdefault(uid, []).append(time)` loop. */
  method GroupUsers(pairs: seq<(string, string)>) returns (users: Groups)
    ensures users == Grouped(pairs) && Complete(users)
  {
    users := Groups([], map[]);
    var k := 0;
    while k < |pairs|
      invariant 0 <= k <= |pairs|
      invariant users == Grouped(pairs[..k])
    {
      assert pairs[..k + 1][..k] == pairs[..k];
      users := AddTo(users, pairs[k].0, pairs[k].1);
      k := k + 1;
    }
    assert pairs[..k] == pairs;
    GroupedComplete(pairs);
  }


  lemma {:induction false} GroupedComplete(pairs: seq<(string, string)>)
    ensures Complete(Grouped(pairs))
  {
    GroupedByFirstAppearance(pairs);
  }


  lemma {:induction false} EntriesShape(g: Groups, uids: seq<string>)
    ensures |EntriesOf(g, uids)| == |uids|
    ensures forall i :: 0 <= i < |uids| ==> (EntriesOf(g, uids)[i].0 == uids[i]
      && EntriesOf(g, uids)[i].1 == (if uids[i] in g.slots then Canonical(g.slots[uids[i]]) else []))
  {
    if uids != [] {
      EntriesShape(g, uids[..|uids| - 1]);
    }
  }

  lemma {:induction false} TimesOfMembers(pairs: seq<(string, string)>, uid: string, t: string)
    ensures t in TimesOf(pairs, uid) <==> (uid, t) in pairs
  {
    if pairs != [] {
      var init := pairs[..|pairs| - 1];
      TimesOfMembers(init, uid, t);
      assert pairs == init + [pairs[|pairs| - 1]];
    }
  }


  /** Each grouped user comes with exactly the slot names among their own
      reactions, in the canonical order. */
  lemma EntriesMeaning(pairs: seq<(string, string)>, i: int, t: string)
    requires var g := Grouped(pairs); 0 <= i < |EntriesOf(g, g.order)|
    ensures var g := Grouped(pairs);
      var e := EntriesOf(g, g.order);
      && |e| == |FirstAppearance(pairs)|
      && e[i].0 == FirstAppearance(pairs)[i]
      && (t in e[i].1 <==> t in SlotOrder && (e[i].0, t) in pairs)
  {
    var g := Grouped(pairs);
    GroupedByFirstAppearance(pairs);
    EntriesShape(g, g.order);
    var uid := g.order[i];
    assert uid in g.slots;
    CanonicalListing(g.slots[uid], g.slots[uid]);
    TimesOfMembers(pairs, uid, t);
  }
}
