/** The ticket cog: an in-memory counter numbers the tickets, each ticket is
    a private channel named "ticket-NNN" in the "Tickets" category, and
    `/closeticket` only deletes channels whose name starts with "ticket". */
module Tickets {
  import opened Wrappers
  import opened Text

  const CategoryName := "Tickets"
  const ChannelPrefix := "ticket"

  /** `f"{TICKET_CHANNEL_PREFIX}-{ticket_number:03}"` */
  function TicketName(n: nat): string {
    ChannelPrefix + "-" + Pad3(n)
  }

  /** Who a permission overwrite is for. */
  datatype Target = Everyone | Member(userId: nat) | Role(roleId: nat)

  /** A `PermissionOverwrite`; None leaves the permission unset. */
  datatype Overwrite = Overwrite(read: Option<bool>, send: Option<bool>)

  const Hidden := Overwrite(Some(false), None)
  const Allowed := Overwrite(Some(true), Some(true))

  /** The channel `open_ticket` creates. */
  datatype Ticket = Ticket(name: string, category: string, overwrites: map<Target, Overwrite>, createdCategory: bool)

  /** `closeticket`: the channel is deleted exactly when its name starts with
      the ticket prefix. */
  function CloseDeletes(channelName: string): (r: bool)
    ensures r <==> |channelName| >= 6 && channelName[..6] == "ticket"
  {
    StartsWith(channelName, ChannelPrefix)
  }

  class TicketSystem {
    var ticketCount: nat

    constructor ()
      ensures ticketCount == 0
    {
      ticketCount := 0;
    }

    /** `open_ticket`, with the opener's id, whether the guild has a
        "Tickets" category and the "Staff" role's id if there is one. */
    method OpenTicket(userId: nat, hasCategory: bool, staffRole: Option<nat>) returns (t: Ticket)
      modifies this
      ensures ticketCount == old(ticketCount) + 1
      ensures t.name == TicketName(ticketCount)
      ensures t.category == CategoryName
      ensures t.createdCategory <==> !hasCategory
      ensures t.overwrites == Overwrites(userId, staffRole)
    {
      ticketCount := ticketCount + 1;
      var number := ticketCount;
      var name := TicketName(number);
      var created := false;
      if !hasCategory {
        created := true;
      }
      var overwrites := map[Everyone := Hidden, Member(userId) := Allowed];
      if staffRole.Some? {
        overwrites := overwrites[Role(staffRole.value) := Allowed];
      }
      t := Ticket(name, CategoryName, overwrites, created);
    }
  }

  /** The overwrites the ticket channel gets. */
  function Overwrites(userId: nat, staffRole: Option<nat>): (r: map<Target, Overwrite>)
    ensures Everyone in r && r[Everyone].read == Some(false)
    ensures Member(userId) in r && r[Member(userId)] == Allowed
    ensures forall s: nat :: Role(s) in r <==> staffRole == Some(s)
    ensures forall s: nat :: Role(s) in r ==> r[Role(s)] == Allowed
    ensures forall u: nat :: Member(u) in r <==> u == userId
  {
    var base := map[Everyone := Hidden, Member(userId) := Allowed];
    if staffRole.Some? then base[Role(staffRole.value) := Allowed] else base
  }

  /** Different ticket numbers give different channel names, so the tickets
      one run of the bot opens never share a name. */
  lemma TicketNamesDistinct(m: nat, n: nat)
    requires m != n
    ensures TicketName(m) != TicketName(n)
  {
    Pad3Injective(m, n);
    assert TicketName(m)[7..] == Pad3(m);
    assert TicketName(n)[7..] == Pad3(n);
  }

  /** Every ticket channel the cog creates can be closed. */
  lemma CreatedTicketsCanBeClosed(n: nat)
    ensures CloseDeletes(TicketName(n))
  {
    assert TicketName(n)[..6] == "ticket";
  }

  /** The check is a prefix test only: every channel whose name starts with
      "ticket" is deleted by `/closeticket`, including names such as
      "tickets-info" that no ticket number gives, while a name that does not
      start with "ticket" is never deleted. */
  lemma ClosePrefixOnly(rest: string, n: nat, other: string)
    ensures CloseDeletes(ChannelPrefix + rest)
    ensures |rest| > 0 && rest[0] != '-' ==> ChannelPrefix + rest != TicketName(n)
    ensures |other| > 0 && other[0] != 't' ==> !CloseDeletes(other)
  {
    assert (ChannelPrefix + rest)[..6] == ChannelPrefix;
    if |rest| > 0 && rest[0] != '-' {
      assert (ChannelPrefix + rest)[6] == rest[0];
      assert TicketName(n)[6] == '-';
    }
    if |other| > 0 && other[0] != 't' && |other| >= 6 {
      assert other[..6][0] != 't';
    }
  }

  /** The ticket name is "ticket-" followed by at least three digits that
      read back as the ticket number. */
  lemma TicketNameShape(n: nat)
    ensures var name := TicketName(n);
      && |name| >= 10 && name[..7] == "ticket-"
      && IsDigits(name[7..]) && DigitsValue(name[7..]) == n
  {
    var name := TicketName(n);
    assert name[7..] == Pad3(n);
    Pad3RoundTrip(n);
  }
}
