/**
 * The support side of the bot: the staff gate, the agent's list of assigned
 * tickets, viewing a ticket, the agent's reply target (`state.activeTicket`),
 * `/reply`, resolving by command or by button, the owner's own view and
 * cancel of their active ticket, and the routing of an owner's follow-up
 * text into their ticket.
 */
module SupportController {
  import opened Wrappers
  import opened Text
  import opened Models
  import opened Storage
  import opened TicketService

  /** Why a support handler refused to act. */
  datatype Refusal =
    | UnknownUser
    | NotStaff
    | NoTarget
    | TicketMissing
    | NotAssignee
    | NotActiveTicket
    | NotOwner
    | AlreadyFinished

  datatype SupportReply = BadFormat | Refused(why: Refusal) | Succeeded | SavedUndelivered

  /** The caller has a record and it is marked as staff. */
  predicate IsStaffUser(db: Db, id: UserId) {
    id in db.users && db.users[id].isStaff
  }

  /** Ticket `tid` exists and is assigned to exactly the key of staff member `id`. */
  predicate IsAssignee(db: Db, id: UserId, tid: TicketId) {
    IsStaffUser(db, id) && tid in db.tickets && db.tickets[tid].assignedTo == Some(AgentKey(db.users[id]))
  }

  /** The ticket a staff member's `/reply` and `/resolve` act on, when one is set. */
  function ReplyTarget(u: User): Option<TicketId> {
    if IsSet(u.state.replyTarget) then u.state.replyTarget else None
  }

  /** Sets (or clears) a user's reply target, leaving the rest of their state alone. */
  function WithReplyTarget(db: Db, id: UserId, target: Option<TicketId>): (r: Db)
    ensures r.tickets == db.tickets && r.users.Keys == db.users.Keys
    ensures id in db.users ==> r.users[id] == db.users[id].(state := db.users[id].state.(replyTarget := target))
    ensures forall k | k in db.users && k != id :: r.users[k] == db.users[k]
    ensures Evolves(db, r)
    ensures Consistent(db) ==> Consistent(r)
  {
    if id in db.users then WithState(db, id, db.users[id].state.(replyTarget := target)) else db
  }

  // ---------------------------------------------------------------------------
  // Looking up an assignee
  // ---------------------------------------------------------------------------

  /**
   * `agent` is an answer the store may give when asked for the staff member
   * behind assignment key `key`: for an `agent_<n>` key the user with id
   * `n`, otherwise some user with that handle (handles are not unique, and
   * which one comes back is not determined).
   */
  predicate AssigneeAnswer(db: Db, key: string, agent: Option<UserId>) {
    if StartsWith(key, "agent_") then
      agent == match ParseInt(key[6..])
        case Some(n) => if n in db.users then Some(n) else None
        case None => None
    else
      match agent
      case Some(k) => k in db.users && db.users[k].username == Some(key)
      case None => forall k | k in db.users :: db.users[k].username != Some(key)
  }

  /** The lookup an owner's follow-up and an owner's cancel use to find the agent to tell. */
  method FindAssignee(s: Store, key: string) returns (agent: Option<UserId>)
    ensures AssigneeAnswer(s.Snapshot(), key, agent)
  {
    if StartsWith(key, "agent_") {
      match ParseInt(key[6..]) {
        case Some(n) =>
          agent := if n in s.users then Some(n) else None;
        case None =>
          agent := None;
      }
    } else if k :| k in s.users && s.users[k].username == Some(key) {
      agent := Some(k);
    } else {
      agent := None;
    }
  }

  /**
   * Every key a staff member without a handle is assigned under leads back
   * to that staff member, and a handle-less key never leads to anyone else.
   */
  lemma AgentKeyFindsAgent(db: Db, id: UserId, agent: Option<UserId>)
    requires Consistent(db) && id in db.users && !HasName(db.users[id])
    requires AssigneeAnswer(db, AgentKey(db.users[id]), agent)
    ensures agent == Some(id)
  {
  }

  // ---------------------------------------------------------------------------
  // The assigned-ticket list
  // ---------------------------------------------------------------------------

  /** One line of the list: the ticket and its description shortened to 30 characters. */
  datatype Listed = Listed(ticket: TicketId, shortDesc: string)

  datatype ListReply = ListRefused(why: Refusal) | NoneAssigned | Listing(entries: seq<Listed>)

  /** The tickets the list shows to the holder of `key`: assigned to it, and open or in progress. */
  function AssignedTo(db: Db, key: string): set<TicketId> {
    set t | t in db.tickets && db.tickets[t].assignedTo == Some(key) && IsLive(db.tickets[t].status)
  }

  function ListedIds(entries: seq<Listed>): set<TicketId> {
    set i | 0 <= i < |entries| :: entries[i].ticket
  }

  /** A description as the list shows it. */
  function ShortDescription(d: string): (r: string)
    ensures |r| <= 30
    ensures |d| <= 30 ==> r == d
    ensures |d| > 30 ==> r == d[..27] + "..."
  {
    Truncate(d, 30, 27)
  }

  /**
   * `entries` lists exactly the tickets of `ids`, each once, newest first,
   * each with its shortened description.
   */
  ghost predicate ListsNewestFirst(db: Db, ids: set<TicketId>, entries: seq<Listed>) {
    && ListedIds(entries) == ids
    && (forall i :: 0 <= i < |entries| ==>
          entries[i].ticket in db.tickets && entries[i].shortDesc == ShortDescription(db.tickets[entries[i].ticket].description))
    && (forall i, j :: 0 <= i < j < |entries| ==> entries[i].ticket != entries[j].ticket)
    && (forall i, j :: 0 <= i < j < |entries| ==>
          db.tickets[entries[i].ticket].createdAt >= db.tickets[entries[j].ticket].createdAt)
  }

  /** A finite non-empty set of tickets has a newest one. */
  lemma {:induction false} NewestExists(db: Db, ids: set<TicketId>)
    requires ids != {} && ids <= db.tickets.Keys
    ensures exists t :: t in ids && forall u | u in ids :: db.tickets[u].createdAt <= db.tickets[t].createdAt
    decreases |ids|
  {
    var x :| x in ids;
    var rest := ids - {x};
    if rest == {} {
      assert ids == {x} by {
        assert ids == rest + {x};
      }
    } else {
      NewestExists(db, rest);
      var y :| y in rest && forall u | u in rest :: db.tickets[u].createdAt <= db.tickets[y].createdAt;
      if db.tickets[x].createdAt <= db.tickets[y].createdAt {
        assert y in ids && forall u | u in ids :: db.tickets[u].createdAt <= db.tickets[y].createdAt;
      } else {
        assert x in ids && forall u | u in ids :: db.tickets[u].createdAt <= db.tickets[x].createdAt;
      }
    }
  }

  /**
   * Part way through listing `ids`: `entries` holds, newest first and once
   * each, the tickets no longer in `remaining`, all at least as new as any
   * ticket still remaining.
   */
  ghost predicate ListedSoFar(db: Db, ids: set<TicketId>, remaining: set<TicketId>, entries: seq<Listed>) {
    && remaining <= ids && ids <= db.tickets.Keys
    && ListedIds(entries) !! remaining
    && ListsNewestFirst(db, ids - remaining, entries)
    && (forall i, u :: 0 <= i < |entries| && u in remaining ==>
          db.tickets[u].createdAt <= db.tickets[entries[i].ticket].createdAt)
  }

  /** Listing a newest remaining ticket next keeps the partial list in order. */
  lemma ListNewestNext(db: Db, ids: set<TicketId>, remaining: set<TicketId>, entries: seq<Listed>, t: TicketId)
    requires ListedSoFar(db, ids, remaining, entries)
    requires t in remaining && forall u | u in remaining :: db.tickets[u].createdAt <= db.tickets[t].createdAt
    ensures ListedSoFar(db, ids, remaining - {t}, entries + [Listed(t, ShortDescription(db.tickets[t].description))])
  {
    var next := entries + [Listed(t, ShortDescription(db.tickets[t].description))];
    assert ListedIds(next) == ListedIds(entries) + {t} by {
      assert forall i :: 0 <= i < |entries| ==> next[i] == entries[i];
      assert next[|entries|].ticket == t;
    }
    assert ids - (remaining - {t}) == (ids - remaining) + {t};
  }

  /**
   * `/mytickets`: staff only; the tickets assigned to the caller's key that
   * are open or in progress, newest first (in any order among tickets created
   * at the same moment), or a notice that there are none.
   */
  method ViewAssignedTickets(s: Store, id: UserId) returns (r: ListReply)
    ensures r == ListRefused(UnknownUser) <==> id !in s.users
    ensures r == ListRefused(NotStaff) <==> id in s.users && !s.users[id].isStaff
    ensures IsStaffUser(s.Snapshot(), id) ==>
      var mine := AssignedTo(s.Snapshot(), AgentKey(s.users[id]));
      && (r == NoneAssigned <==> mine == {})
      && (r.Listing? <==> mine != {})
      && (r.Listing? ==> ListsNewestFirst(s.Snapshot(), mine, r.entries))
  {
    if id !in s.users {
      return ListRefused(UnknownUser);
    }
    var agent := s.users[id];
    if !agent.isStaff {
      return ListRefused(NotStaff);
    }
    var key := AgentKey(agent);
    ghost var mine := AssignedTo(s.Snapshot(), key);
    var remaining := set t | t in s.tickets && s.tickets[t].assignedTo == Some(key) && IsLive(s.tickets[t].status);
    if remaining == {} {
      return NoneAssigned;
    }
    var entries: seq<Listed> := [];
    assert ListedIds(entries) == {};
    while remaining != {}
      invariant ListedSoFar(s.Snapshot(), mine, remaining, entries)
      decreases |remaining|
    {
      NewestExists(s.Snapshot(), remaining);
      var t :| t in remaining && forall u | u in remaining :: s.tickets[u].createdAt <= s.tickets[t].createdAt;
      ListNewestNext(s.Snapshot(), mine, remaining, entries, t);
      entries := entries + [Listed(t, ShortDescription(s.tickets[t].description))];
      remaining := remaining - {t};
    }
    assert mine - {} == mine;
    r := Listing(entries);
  }

  /** The list is a permutation of the selected tickets: as long as the selection, without repeats. */
  lemma {:induction false} ListingHasEveryTicketOnce(db: Db, ids: set<TicketId>, entries: seq<Listed>)
    requires ListsNewestFirst(db, ids, entries)
    ensures |entries| == |ids|
    decreases |entries|
  {
    if |entries| > 0 {
      var last := entries[|entries| - 1];
      var init := entries[..|entries| - 1];
      assert ListedIds(init) == ids - {last.ticket} by {
        forall t | t in ListedIds(init) ensures t in ids - {last.ticket} {
          var i :| 0 <= i < |init| && init[i].ticket == t;
          assert entries[i].ticket == t;
        }
        forall t | t in ids - {last.ticket} ensures t in ListedIds(init) {
          var i :| 0 <= i < |entries| && entries[i].ticket == t;
          assert i != |entries| - 1;
          assert init[i].ticket == t;
        }
      }
      assert ListsNewestFirst(db, ids - {last.ticket}, init);
      ListingHasEveryTicketOnce(db, ids - {last.ticket}, init);
    } else {
      assert ListedIds(entries) == {};
    }
  }

  // ---------------------------------------------------------------------------
  // Viewing
  // ---------------------------------------------------------------------------

  datatype ViewReply = ViewRefused(why: Refusal) | NoActiveTicket | Shown(ticket: TicketId, cancelButton: bool)

  /**
   * A staff member opening any ticket: only the staff gate and the ticket's
   * existence are checked; being its assignee is not required.
   */
  method ViewTicket(s: Store, id: UserId, tid: TicketId) returns (r: ViewReply)
    ensures r.Shown? <==> IsStaffUser(s.Snapshot(), id) && tid in s.tickets
    ensures r == ViewRefused(UnknownUser) <==> id !in s.users
    ensures r == ViewRefused(NotStaff) <==> id in s.users && !s.users[id].isStaff
    ensures r.Shown? ==> r.ticket == tid && !r.cancelButton
  {
    if id !in s.users {
      return ViewRefused(UnknownUser);
    }
    if !s.users[id].isStaff {
      return ViewRefused(NotStaff);
    }
    if tid !in s.tickets {
      return ViewRefused(TicketMissing);
    }
    r := Shown(tid, false);
  }

  /**
   * `/myticket`: the caller's active ticket with a cancel button unless it is
   * resolved or closed; a reference to a ticket that no longer exists is
   * cleared.
   */
  ghost function ViewUserTicketSpec(db: Db, id: UserId): (e: Effect<ViewReply>)
    ensures e.notices == [] && Evolves(db, e.db)
    ensures Consistent(db) ==> Consistent(e.db)
    ensures e.reply.Shown? <==>
      id in db.users && IsSet(db.users[id].activeTicket) && db.users[id].activeTicket.value in db.tickets
    ensures e.reply.Shown? ==>
      e.db == db && e.reply.ticket == db.users[id].activeTicket.value
      && (e.reply.cancelButton <==> IsLive(db.tickets[e.reply.ticket].status))
    ensures e.reply == ViewRefused(TicketMissing) ==> e.db == WithActiveTicket(db, id, None)
    ensures e.reply != ViewRefused(TicketMissing) ==> e.db == db
  {
    if id !in db.users then Effect(db, ViewRefused(UnknownUser), [])
    else
      var u := db.users[id];
      if !IsSet(u.activeTicket) then Effect(db, NoActiveTicket, [])
      else if u.activeTicket.value !in db.tickets then Effect(WithActiveTicket(db, id, None), ViewRefused(TicketMissing), [])
      else
        var t := db.tickets[u.activeTicket.value];
        Effect(db, Shown(u.activeTicket.value, !(t.status == Resolved || t.status == Closed)), [])
  }

  method ViewUserTicket(s: Store, id: UserId) returns (r: ViewReply)
    requires s.Valid()
    modifies s
    ensures s.Valid()
    ensures var e := ViewUserTicketSpec(old(s.Snapshot()), id);
      s.Snapshot() == e.db && r == e.reply && s.outbox == old(s.outbox) + e.notices
  {
    if id !in s.users {
      return ViewRefused(UnknownUser);
    }
    var user := s.users[id];
    if !IsSet(user.activeTicket) {
      return NoActiveTicket;
    }
    var tid := user.activeTicket.value;
    if tid !in s.tickets {
      s.users := s.users[id := user.(activeTicket := None)];
      return ViewRefused(TicketMissing);
    }
    var ticket := s.tickets[tid];
    r := Shown(tid, !(ticket.status == Resolved || ticket.status == Closed));
  }

  // ---------------------------------------------------------------------------
  // The reply target
  // ---------------------------------------------------------------------------

  /**
   * The Reply button on ticket `tid`: its assignee gets it as their reply
   * target, whatever the ticket's status.
   */
  ghost function SetReplyContextSpec(db: Db, id: UserId, tid: TicketId): (e: Effect<SupportReply>)
    ensures e.notices == []
    ensures e.reply == Succeeded <==> IsAssignee(db, id, tid)
    ensures e.reply == Succeeded ==> e.db == WithReplyTarget(db, id, Some(tid))
    ensures e.reply != Succeeded ==> e.db == db
    ensures Evolves(db, e.db)
    ensures Consistent(db) ==> Consistent(e.db)
  {
    if id !in db.users then Effect(db, Refused(UnknownUser), [])
    else if !db.users[id].isStaff then Effect(db, Refused(NotStaff), [])
    else if tid !in db.tickets then Effect(db, Refused(TicketMissing), [])
    else if db.tickets[tid].assignedTo != Some(AgentKey(db.users[id])) then Effect(db, Refused(NotAssignee), [])
    else Effect(WithReplyTarget(db, id, Some(tid)), Succeeded, [])
  }

  method SetReplyContext(s: Store, id: UserId, tid: TicketId) returns (r: SupportReply)
    requires s.Valid()
    modifies s
    ensures s.Valid()
    ensures var e := SetReplyContextSpec(old(s.Snapshot()), id, tid);
      s.Snapshot() == e.db && r == e.reply && s.outbox == old(s.outbox) + e.notices
  {
    if id !in s.users {
      return Refused(UnknownUser);
    }
    var agent := s.users[id];
    if !agent.isStaff {
      return Refused(NotStaff);
    }
    if tid !in s.tickets {
      return Refused(TicketMissing);
    }
    if s.tickets[tid].assignedTo != Some(AgentKey(agent)) {
      return Refused(NotAssignee);
    }
    s.users := s.users[id := agent.(state := agent.state.(replyTarget := Some(tid)))];
    r := Succeeded;
  }

  // ---------------------------------------------------------------------------
  // /reply
  // ---------------------------------------------------------------------------

  /**
   * The text of a `/reply` command: "/reply", at least one white-space
   * character and at least one more character, trimmed; absent when that
   * shape does not match or the trimmed text is empty. (However the pattern's
   * `\s+` splits the white space, the trimmed remainder is the same.)
   */
  function ReplyText(text: string): (r: Option<string>)
    ensures r.Some? ==> r.value != "" && r.value == Trim(r.value)
    ensures r.Some? <==> |text| > 7 && StartsWith(text, "/reply") && IsJsSpace(text[6])
                         && !forall i :: 7 <= i < |text| ==> IsJsSpace(text[i])
    ensures r.Some? ==> r.value == Trim(text[7..])
  {
    if |text| > 7 && StartsWith(text, "/reply") && IsJsSpace(text[6]) then
      var m := Trim(text[7..]);
      TrimOfSuffix(text, 7);
      TrimIdempotent(text[7..]);
      if m == [] then None else Some(m)
    else
      None
  }

  /** Any message without surrounding white space comes back out of "/reply " + message. */
  lemma ReplyTextRoundTrip(m: string)
    requires m != "" && !IsJsSpace(m[0]) && !IsJsSpace(m[|m| - 1])
    ensures ReplyText("/reply " + m) == Some(m)
  {
    var text := "/reply " + m;
    assert text[7..] == m;
    assert text[..6] == "/reply";
    assert !IsJsSpace(text[7]);
    assert TrimStart(m) == m && TrimEnd(m) == m;
  }

  /**
   * `/reply <text>` from staff member `id`: the reply is appended to their
   * reply target under their key, when they are its assignee; the entry
   * stays whether or not the owner receives it. A reply target naming a
   * vanished ticket is cleared.
   */
  ghost function ReplySpec(db: Db, id: UserId, text: string, now: int, delivered: bool): (e: Effect<SupportReply>)
    ensures ReplyText(text).None? ==> e == Effect(db, BadFormat, [])
    ensures ReplyText(text).Some? ==> e == ReplyWithText(db, id, ReplyText(text).value, now, delivered)
  {
    match ReplyText(text)
    case None => Effect(db, BadFormat, [])
    case Some(m) => ReplyWithText(db, id, m, now, delivered)
  }

  /** `/reply` once its text `m` has been extracted. */
  ghost function ReplyWithText(db: Db, id: UserId, m: string, now: int, delivered: bool): (e: Effect<SupportReply>)
    requires m != ""
    ensures e.reply == Succeeded || e.reply == SavedUndelivered <==>
      id in db.users && ReplyTarget(db.users[id]).Some? && IsAssignee(db, id, ReplyTarget(db.users[id]).value)
    ensures e.reply == Succeeded || e.reply == SavedUndelivered ==>
      var tid := ReplyTarget(db.users[id]).value;
      var t := db.tickets[tid];
      && e.reply == (if delivered then Succeeded else SavedUndelivered)
      && e.db == WithTicket(db, tid, AppendEntry(t, Msg(AgentKey(db.users[id]), m, now)).(updatedAt := now))
      && e.notices == [AgentReply(t.userId, tid, m)]
    ensures e.reply == Refused(TicketMissing) ==> e.db == WithReplyTarget(db, id, None) && e.notices == []
    ensures e.reply != Succeeded && e.reply != SavedUndelivered && e.reply != Refused(TicketMissing) ==>
      e.db == db && e.notices == []
    ensures Evolves(db, e.db)
    ensures Consistent(db) ==> Consistent(e.db)
  {
    if id !in db.users then Effect(db, Refused(UnknownUser), [])
    else
      var agent := db.users[id];
      if !agent.isStaff then Effect(db, Refused(NotStaff), [])
      else if ReplyTarget(agent).None? then Effect(db, Refused(NoTarget), [])
      else
        var tid := ReplyTarget(agent).value;
        if tid !in db.tickets then Effect(WithReplyTarget(db, id, None), Refused(TicketMissing), [])
        else
          var t := db.tickets[tid];
          var key := AgentKey(agent);
          if t.assignedTo != Some(key) then Effect(db, Refused(NotAssignee), [])
          else
            var saved := WithTicket(db, tid, AppendEntry(t, Msg(key, m, now)).(updatedAt := now));
            Effect(saved, if delivered then Succeeded else SavedUndelivered, [AgentReply(t.userId, tid, m)])
  }

  method ReplyToTicket(s: Store, id: UserId, text: string, now: int, delivered: bool) returns (r: SupportReply)
    requires s.Valid()
    modifies s
    ensures s.Valid()
    ensures var e := ReplySpec(old(s.Snapshot()), id, text, now, delivered);
      s.Snapshot() == e.db && r == e.reply && s.outbox == old(s.outbox) + e.notices
  {
    var parsed := ReplyText(text);
    if parsed.None? {
      return BadFormat;
    }
    r := SendReply(s, id, parsed.value, now, delivered);
  }

  method SendReply(s: Store, id: UserId, message: string, now: int, delivered: bool) returns (r: SupportReply)
    requires s.Valid() && message != ""
    modifies s
    ensures s.Valid()
    ensures var e := ReplyWithText(old(s.Snapshot()), id, message, now, delivered);
      s.Snapshot() == e.db && r == e.reply && s.outbox == old(s.outbox) + e.notices
  {
    if id !in s.users {
      return Refused(UnknownUser);
    }
    var agent := s.users[id];
    if !agent.isStaff {
      return Refused(NotStaff);
    }
    if ReplyTarget(agent).None? {
      return Refused(NoTarget);
    }
    var tid := ReplyTarget(agent).value;
    if tid !in s.tickets {
      s.users := s.users[id := agent.(state := agent.state.(replyTarget := None))];
      return Refused(TicketMissing);
    }
    var ticket := s.tickets[tid];
    var key := AgentKey(agent);
    if ticket.assignedTo != Some(key) {
      return Refused(NotAssignee);
    }
    s.tickets := s.tickets[tid := AppendEntry(ticket, Msg(key, message, now)).(updatedAt := now)];
    s.outbox := s.outbox + [AgentReply(ticket.userId, tid, message)];
    r := if delivered then Succeeded else SavedUndelivered;
  }

  // ---------------------------------------------------------------------------
  // Resolving
  // ---------------------------------------------------------------------------

  /** The system entry a resolution appends. */
  function ResolutionEntry(key: string, now: int): (m: Msg)
    ensures m.sender == "system" && WellFormedMsg(m)
  {
    Msg("system", "Ticket marked as resolved by " + key, now)
  }

  /**
   * The part both ways of resolving share: the ticket becomes resolved, with
   * one system entry naming the agent's key and a new update time, whatever
   * its status was; its owner's active ticket is cleared if it is this one.
   */
  function Resolution(db: Db, tid: TicketId, key: string, now: int): (r: Db)
    requires tid in db.tickets
    ensures var t := db.tickets[tid];
      r.tickets == db.tickets[tid := AppendEntry(t, ResolutionEntry(key, now)).(status := Resolved, updatedAt := now)]
    ensures var owner := db.tickets[tid].userId;
      if owner in db.users && db.users[owner].activeTicket == Some(tid) then r.users == db.users[owner := db.users[owner].(activeTicket := None)]
      else r.users == db.users
    ensures Evolves(db, r)
    ensures Consistent(db) ==> Consistent(r)
  {
    var t := db.tickets[tid];
    var saved := WithTicket(db, tid, AppendEntry(t, ResolutionEntry(key, now)).(status := Resolved, updatedAt := now));
    if t.userId in saved.users && saved.users[t.userId].activeTicket == Some(tid) then WithActiveTicket(saved, t.userId, None)
    else saved
  }

  /**
   * `/resolve` from staff member `id`: resolves their reply target when they
   * are its assignee, tells the owner, and clears the reply target.
   */
  ghost function ResolveSpec(db: Db, id: UserId, now: int): (e: Effect<SupportReply>)
    ensures e.reply == Succeeded <==>
      id in db.users && ReplyTarget(db.users[id]).Some? && IsAssignee(db, id, ReplyTarget(db.users[id]).value)
    ensures e.reply == Succeeded ==>
      var tid := ReplyTarget(db.users[id]).value;
      var resolved := Resolution(db, tid, AgentKey(db.users[id]), now);
      && e.db == WithReplyTarget(resolved, id, None)
      && e.notices == [ResolvedNotice(db.tickets[tid].userId, tid)]
    ensures e.reply == Refused(TicketMissing) ==> e.db == WithReplyTarget(db, id, None) && e.notices == []
    ensures e.reply != Succeeded && e.reply != Refused(TicketMissing) ==> e.db == db && e.notices == []
    ensures Evolves(db, e.db)
    ensures Consistent(db) ==> Consistent(e.db)
  {
    if id !in db.users then Effect(db, Refused(UnknownUser), [])
    else
      var agent := db.users[id];
      if !agent.isStaff then Effect(db, Refused(NotStaff), [])
      else if ReplyTarget(agent).None? then Effect(db, Refused(NoTarget), [])
      else
        var tid := ReplyTarget(agent).value;
        if tid !in db.tickets then Effect(WithReplyTarget(db, id, None), Refused(TicketMissing), [])
        else
          var key := AgentKey(agent);
          if db.tickets[tid].assignedTo != Some(key) then Effect(db, Refused(NotAssignee), [])
          else
            var resolved := Resolution(db, tid, key, now);
            EvolvesTransitive(db, resolved, WithReplyTarget(resolved, id, None));
            Effect(WithReplyTarget(resolved, id, None), Succeeded, [ResolvedNotice(db.tickets[tid].userId, tid)])
  }

  /** The shared resolution step, on the store. */
  method Resolve(s: Store, tid: TicketId, key: string, now: int)
    requires s.Valid() && tid in s.tickets
    modifies s
    ensures s.Valid()
    ensures s.Snapshot() == Resolution(old(s.Snapshot()), tid, key, now) && s.outbox == old(s.outbox)
  {
    var ticket := s.tickets[tid];
    s.tickets := s.tickets[tid := AppendEntry(ticket, ResolutionEntry(key, now)).(status := Resolved, updatedAt := now)];
    var owner := ticket.userId;
    if owner in s.users && s.users[owner].activeTicket == Some(tid) {
      s.users := s.users[owner := s.users[owner].(activeTicket := None)];
    }
  }

  method ResolveTicket(s: Store, id: UserId, now: int) returns (r: SupportReply)
    requires s.Valid()
    modifies s
    ensures s.Valid()
    ensures var e := ResolveSpec(old(s.Snapshot()), id, now);
      s.Snapshot() == e.db && r == e.reply && s.outbox == old(s.outbox) + e.notices
  {
    if id !in s.users {
      return Refused(UnknownUser);
    }
    var agent := s.users[id];
    if !agent.isStaff {
      return Refused(NotStaff);
    }
    if ReplyTarget(agent).None? {
      return Refused(NoTarget);
    }
    var tid := ReplyTarget(agent).value;
    if tid !in s.tickets {
      s.users := s.users[id := agent.(state := agent.state.(replyTarget := None))];
      return Refused(TicketMissing);
    }
    var key := AgentKey(agent);
    var ticket := s.tickets[tid];
    if ticket.assignedTo != Some(key) {
      return Refused(NotAssignee);
    }
    Resolve(s, tid, key, now);
    s.outbox := s.outbox + [ResolvedNotice(ticket.userId, tid)];
    var current := s.users[id];
    s.users := s.users[id := current.(state := current.state.(replyTarget := None))];
    r := Succeeded;
  }

  /**
   * The Resolve button on ticket `tid`: its assignee first gets it as their
   * reply target, then it is resolved exactly as by the command, but the
   * reply target is left pointing at it.
   */
  ghost function ResolveCallbackSpec(db: Db, id: UserId, tid: TicketId, now: int): (e: Effect<SupportReply>)
    ensures e.reply == Succeeded <==> IsAssignee(db, id, tid)
    ensures e.reply == Succeeded ==>
      var targeted := WithReplyTarget(db, id, Some(tid));
      && e.db == Resolution(targeted, tid, AgentKey(db.users[id]), now)
      && e.notices == [ResolvedNotice(db.tickets[tid].userId, tid)]
    ensures e.reply != Succeeded ==> e.db == db && e.notices == []
    ensures Evolves(db, e.db)
    ensures Consistent(db) ==> Consistent(e.db)
  {
    if id !in db.users then Effect(db, Refused(UnknownUser), [])
    else if !db.users[id].isStaff then Effect(db, Refused(NotStaff), [])
    else if tid !in db.tickets then Effect(db, Refused(TicketMissing), [])
    else
      var key := AgentKey(db.users[id]);
      if db.tickets[tid].assignedTo != Some(key) then Effect(db, Refused(NotAssignee), [])
      else
        var targeted := WithReplyTarget(db, id, Some(tid));
        EvolvesTransitive(db, targeted, Resolution(targeted, tid, key, now));
        Effect(Resolution(targeted, tid, key, now), Succeeded, [ResolvedNotice(db.tickets[tid].userId, tid)])
  }

  method ResolveTicketCallback(s: Store, id: UserId, tid: TicketId, now: int) returns (r: SupportReply)
    requires s.Valid()
    modifies s
    ensures s.Valid()
    ensures var e := ResolveCallbackSpec(old(s.Snapshot()), id, tid, now);
      s.Snapshot() == e.db && r == e.reply && s.outbox == old(s.outbox) + e.notices
  {
    if id !in s.users {
      return Refused(UnknownUser);
    }
    var agent := s.users[id];
    if !agent.isStaff {
      return Refused(NotStaff);
    }
    if tid !in s.tickets {
      return Refused(TicketMissing);
    }
    var key := AgentKey(agent);
    var ticket := s.tickets[tid];
    if ticket.assignedTo != Some(key) {
      return Refused(NotAssignee);
    }
    s.users := s.users[id := agent.(state := agent.state.(replyTarget := Some(tid)))];
    Resolve(s, tid, key, now);
    s.outbox := s.outbox + [ResolvedNotice(ticket.userId, tid)];
    r := Succeeded;
  }

  // ---------------------------------------------------------------------------
  // The owner's cancel
  // ---------------------------------------------------------------------------

  /** The system entry an owner's cancel appends. */
  function ClosureEntry(owner: User, now: int): (m: Msg)
    ensures m.sender == "system" && WellFormedMsg(m)
  {
    Msg("system", "Ticket closed by user " + PlainName(owner), now)
  }

  /** The three conditions an owner's cancel of ticket `tid` must meet. */
  predicate OwnerMayCancel(db: Db, id: UserId, tid: TicketId) {
    && id in db.users && IsSet(db.users[id].activeTicket) && db.users[id].activeTicket.value == tid
    && tid in db.tickets && db.tickets[tid].userId == id
    && db.tickets[tid].status != Closed && db.tickets[tid].status != Resolved
  }

  /**
   * The Cancel Ticket button on ticket `tid`, pressed by user `id`. `agent` is
   * the store's answer when asked for the ticket's assignee; it decides only
   * who is told.
   */
  ghost function CancelUserTicketSpec(db: Db, id: UserId, tid: TicketId, now: int, agent: Option<UserId>): (e: Effect<SupportReply>)
    ensures e.reply == Succeeded <==> OwnerMayCancel(db, id, tid)
    ensures e.reply == Succeeded ==>
      var t := db.tickets[tid];
      var closed := WithTicket(db, tid, AppendEntry(t, ClosureEntry(db.users[id], now)).(status := Closed, updatedAt := now));
      && e.db == WithActiveTicket(closed, id, None)
      && e.notices == (if IsSet(t.assignedTo) && agent.Some? then [ClosedNotice(agent.value, tid)] else [])
    ensures e.reply == Refused(TicketMissing) ==> e.db == WithActiveTicket(db, id, None) && e.notices == []
    ensures e.reply != Succeeded && e.reply != Refused(TicketMissing) ==> e.db == db && e.notices == []
    ensures Evolves(db, e.db)
    ensures Consistent(db) ==> Consistent(e.db)
  {
    if id !in db.users then Effect(db, Refused(UnknownUser), [])
    else
      var u := db.users[id];
      if !IsSet(u.activeTicket) || u.activeTicket.value != tid then Effect(db, Refused(NotActiveTicket), [])
      else if tid !in db.tickets then Effect(WithActiveTicket(db, id, None), Refused(TicketMissing), [])
      else
        var t := db.tickets[tid];
        if t.userId != id then Effect(db, Refused(NotOwner), [])
        else if t.status == Closed || t.status == Resolved then Effect(db, Refused(AlreadyFinished), [])
        else
          var closed := WithTicket(db, tid, AppendEntry(t, ClosureEntry(u, now)).(status := Closed, updatedAt := now));
          Effect(WithActiveTicket(closed, id, None), Succeeded,
                 if IsSet(t.assignedTo) && agent.Some? then [ClosedNotice(agent.value, tid)] else [])
  }

  method CancelUserTicket(s: Store, id: UserId, tid: TicketId, now: int) returns (r: SupportReply, ghost agent: Option<UserId>)
    requires s.Valid()
    modifies s
    ensures s.Valid()
    ensures r == Succeeded && tid in old(s.tickets) && IsSet(old(s.tickets)[tid].assignedTo) ==>
      AssigneeAnswer(s.Snapshot(), old(s.tickets)[tid].assignedTo.value, agent)
    ensures var e := CancelUserTicketSpec(old(s.Snapshot()), id, tid, now, agent);
      s.Snapshot() == e.db && r == e.reply && s.outbox == old(s.outbox) + e.notices
  {
    agent := None;
    if id !in s.users {
      return Refused(UnknownUser), agent;
    }
    var user := s.users[id];
    if !IsSet(user.activeTicket) || user.activeTicket.value != tid {
      return Refused(NotActiveTicket), agent;
    }
    if tid !in s.tickets {
      s.users := s.users[id := user.(activeTicket := None)];
      return Refused(TicketMissing), agent;
    }
    var ticket := s.tickets[tid];
    if ticket.userId != id {
      return Refused(NotOwner), agent;
    }
    if ticket.status == Closed || ticket.status == Resolved {
      return Refused(AlreadyFinished), agent;
    }
    s.tickets := s.tickets[tid := AppendEntry(ticket, ClosureEntry(user, now)).(status := Closed, updatedAt := now)];
    s.users := s.users[id := user.(activeTicket := None)];
    if IsSet(ticket.assignedTo) {
      agent := FindAssignee(s, ticket.assignedTo.value);
      if agent.Some? {
        s.outbox := s.outbox + [ClosedNotice(agent.value, tid)];
      }
    }
    r := Succeeded;
  }

  // ---------------------------------------------------------------------------
  // Follow-up text from an owner
  // ---------------------------------------------------------------------------

  datatype FollowUpReply = FollowUpAdded | UseReplyCommand | NotSupport

  /**
   * A text that reaches the support handler. A non-staff user whose active
   * ticket exists and is open or in progress has the text appended under
   * their name, forwarded to the assignee when there is one to be found; a
   * staff member with a reply target is reminded to use `/reply`; anything
   * else is not taken. The schema refuses an empty entry text, and the
   * handler then reports the message as not taken.
   */
  ghost function FollowUpSpec(db: Db, id: UserId, text: string, now: int, agent: Option<UserId>): (e: Effect<FollowUpReply>)
    ensures e.reply == FollowUpAdded <==> text != "" && FollowUpTarget(db, id).Some?
    ensures e.reply == FollowUpAdded ==>
      var tid := FollowUpTarget(db, id).value;
      var t := db.tickets[tid];
      && e.db == WithTicket(db, tid, AppendEntry(t, Msg(OwnerName(db.users[id]), text, now)).(updatedAt := now))
      && e.notices == (if IsSet(t.assignedTo) && agent.Some? then [FollowUpForward(agent.value, tid, text)] else [])
    ensures e.reply != FollowUpAdded ==> e.db == db && e.notices == []
    ensures e.reply == UseReplyCommand ==> IsStaffUser(db, id) && ReplyTarget(db.users[id]).Some?
    ensures Evolves(db, e.db)
    ensures Consistent(db) ==> Consistent(e.db)
  {
    if id !in db.users then Effect(db, NotSupport, [])
    else
      var u := db.users[id];
      match FollowUpTarget(db, id)
      case Some(tid) =>
        if text == "" then Effect(db, NotSupport, [])
        else
          var t := db.tickets[tid];
          var saved := WithTicket(db, tid, AppendEntry(t, Msg(OwnerName(u), text, now)).(updatedAt := now));
          Effect(saved, FollowUpAdded, if IsSet(t.assignedTo) && agent.Some? then [FollowUpForward(agent.value, tid, text)] else [])
      case None =>
        if u.isStaff && ReplyTarget(u).Some? then Effect(db, UseReplyCommand, [])
        else Effect(db, NotSupport, [])
  }

  /** The ticket a user's free text is appended to: their live active ticket, for non-staff users. */
  function FollowUpTarget(db: Db, id: UserId): (r: Option<TicketId>)
    ensures r.Some? <==> id in db.users && !db.users[id].isStaff && IsSet(db.users[id].activeTicket)
                         && db.users[id].activeTicket.value in db.tickets
                         && IsLive(db.tickets[db.users[id].activeTicket.value].status)
    ensures r.Some? ==> r == db.users[id].activeTicket
  {
    if id in db.users && !db.users[id].isStaff && IsSet(db.users[id].activeTicket)
       && db.users[id].activeTicket.value in db.tickets && IsLive(db.tickets[db.users[id].activeTicket.value].status)
    then db.users[id].activeTicket
    else None
  }

  method HandleSupportMessage(s: Store, id: UserId, text: string, now: int) returns (r: FollowUpReply, ghost agent: Option<UserId>)
    requires s.Valid()
    modifies s
    ensures s.Valid()
    ensures var tid := FollowUpTarget(old(s.Snapshot()), id);
      r == FollowUpAdded && tid.Some? && IsSet(old(s.tickets)[tid.value].assignedTo) ==>
      AssigneeAnswer(s.Snapshot(), old(s.tickets)[tid.value].assignedTo.value, agent)
    ensures var e := FollowUpSpec(old(s.Snapshot()), id, text, now, agent);
      s.Snapshot() == e.db && r == e.reply && s.outbox == old(s.outbox) + e.notices
  {
    agent := None;
    if id !in s.users {
      return NotSupport, agent;
    }
    var user := s.users[id];
    if IsSet(user.activeTicket) && !user.isStaff {
      var tid := user.activeTicket.value;
      if tid in s.tickets && IsLive(s.tickets[tid].status) {
        if text == "" {
          return NotSupport, agent;
        }
        var ticket := s.tickets[tid];
        s.tickets := s.tickets[tid := AppendEntry(ticket, Msg(OwnerName(user), text, now)).(updatedAt := now)];
        if IsSet(ticket.assignedTo) {
          agent := FindAssignee(s, ticket.assignedTo.value);
          if agent.Some? {
            s.outbox := s.outbox + [FollowUpForward(agent.value, tid, text)];
          }
        }
        return FollowUpAdded, agent;
      }
    }
    if user.isStaff && ReplyTarget(user).Some? {
      return UseReplyCommand, agent;
    }
    r := NotSupport;
  }

  // ---------------------------------------------------------------------------
  // Claiming from the staff side
  // ---------------------------------------------------------------------------

  /** The Claim button: the staff gate runs first, then the service's claim. */
  ghost function ClaimCallbackSpec(db: Db, id: UserId, tid: TicketId, now: int, editOk: bool, briefingOk: bool): (e: Effect<ClaimReply>)
    ensures !IsStaffUser(db, id) ==> e.db == db && e.notices == []
    ensures id !in db.users ==> e.reply == AgentNotFound
    ensures id in db.users && !db.users[id].isStaff ==> e.reply == NotAuthorized
    ensures IsStaffUser(db, id) ==> e == ClaimSpec(db, tid, id, now, editOk, briefingOk)
  {
    if id !in db.users then Effect(db, AgentNotFound, [])
    else if !db.users[id].isStaff then Effect(db, NotAuthorized, [])
    else ClaimSpec(db, tid, id, now, editOk, briefingOk)
  }

  method ClaimTicketCallback(s: Store, id: UserId, tid: TicketId, now: int, editOk: bool, briefingOk: bool) returns (r: ClaimReply)
    requires s.Valid()
    modifies s
    ensures s.Valid()
    ensures var e := ClaimCallbackSpec(old(s.Snapshot()), id, tid, now, editOk, briefingOk);
      s.Snapshot() == e.db && r == e.reply && s.outbox == old(s.outbox) + e.notices
  {
    if id !in s.users {
      return AgentNotFound;
    }
    if !s.users[id].isStaff {
      return NotAuthorized;
    }
    r := ClaimTicket(s, tid, id, now, editOk, briefingOk);
  }

  // ---------------------------------------------------------------------------
  // Properties of the lifecycle
  // ---------------------------------------------------------------------------

  /**
   * A caller without a staff record changes nothing and tells no one through
   * any staff handler: claim, reply, reply target, resolve by command or by
   * button.
   */
  lemma StaffGate(db: Db, id: UserId, tid: TicketId, text: string, now: int, delivered: bool, editOk: bool, briefingOk: bool)
    requires !IsStaffUser(db, id)
    ensures var e := ClaimCallbackSpec(db, id, tid, now, editOk, briefingOk); e.db == db && e.notices == []
    ensures var e := ReplySpec(db, id, text, now, delivered); e.db == db && e.notices == [] && e.reply != Succeeded
    ensures var e := SetReplyContextSpec(db, id, tid); e.db == db && e.notices == [] && e.reply != Succeeded
    ensures var e := ResolveSpec(db, id, now); e.db == db && e.notices == [] && e.reply != Succeeded
    ensures var e := ResolveCallbackSpec(db, id, tid, now); e.db == db && e.notices == [] && e.reply != Succeeded
  {
  }

  /**
   * A staff member who is not the assignee of a ticket can neither reply to
   * it, resolve it (by command or button), nor take it as reply target.
   */
  lemma AssigneeOnly(db: Db, id: UserId, tid: TicketId, text: string, now: int, delivered: bool)
    requires IsStaffUser(db, id) && tid in db.tickets && db.tickets[tid].assignedTo != Some(AgentKey(db.users[id]))
    ensures SetReplyContextSpec(db, id, tid) == Effect(db, Refused(NotAssignee), [])
    ensures ResolveCallbackSpec(db, id, tid, now) == Effect(db, Refused(NotAssignee), [])
    ensures ReplyTarget(db.users[id]) == Some(tid) ==>
      && ResolveSpec(db, id, now) == Effect(db, Refused(NotAssignee), [])
      && (ReplyText(text).Some? ==> ReplySpec(db, id, text, now, delivered) == Effect(db, Refused(NotAssignee), []))
  {
  }

  /**
   * Resolving never looks at the status: an assignee can resolve a ticket
   * that is already resolved or even closed by its owner, and each time one
   * more system entry is appended.
   */
  lemma ResolveIgnoresStatus(db: Db, id: UserId, tid: TicketId, now: int)
    requires IsAssignee(db, id, tid)
    ensures var e := ResolveCallbackSpec(db, id, tid, now);
      && e.reply == Succeeded
      && e.db.tickets[tid].status == Resolved
      && e.db.tickets[tid].messages == db.tickets[tid].messages + [ResolutionEntry(AgentKey(db.users[id]), now)]
  {
  }

  /**
   * The Resolve button leaves the agent's reply target on the resolved
   * ticket, so a following reply is still appended to it, and the ticket
   * stays resolved.
   */
  lemma ReplyAfterResolveButton(db: Db, id: UserId, tid: TicketId, m: string, now: int, later: int, delivered: bool)
    requires IsAssignee(db, id, tid) && tid != "" && m != ""
    ensures var after := ResolveCallbackSpec(db, id, tid, now).db;
      var e := ReplyWithText(after, id, m, later, delivered);
      && id in after.users && ReplyTarget(after.users[id]) == Some(tid)
      && (e.reply == Succeeded || e.reply == SavedUndelivered)
      && tid in e.db.tickets && e.db.tickets[tid].status == Resolved
      && e.db.tickets[tid].messages == after.tickets[tid].messages + [Msg(AgentKey(db.users[id]), m, later)]
  {
    var key := AgentKey(db.users[id]);
    var targeted := WithReplyTarget(db, id, Some(tid));
    var after := Resolution(targeted, tid, key, now);
    assert after.users[id].state.replyTarget == Some(tid);
    assert after.users[id].telegramId == db.users[id].telegramId && after.users[id].username == db.users[id].username;
    assert AgentKey(after.users[id]) == key;
    assert IsAssignee(after, id, tid);
  }

  /** After `/resolve` the agent has no reply target, so a following reply is refused. */
  lemma NoReplyAfterResolveCommand(db: Db, id: UserId, m: string, now: int, later: int, delivered: bool)
    requires id in db.users && ReplyTarget(db.users[id]).Some? && IsAssignee(db, id, ReplyTarget(db.users[id]).value)
    requires m != ""
    ensures var after := ResolveSpec(db, id, now).db;
      ReplyWithText(after, id, m, later, delivered) == Effect(after, Refused(NoTarget), [])
  {
    var tid := ReplyTarget(db.users[id]).value;
    var resolved := Resolution(db, tid, AgentKey(db.users[id]), now);
    var after := WithReplyTarget(resolved, id, None);
    assert after.users[id].state.replyTarget == None;
  }

  /** Delivery of a reply decides only the answer: the stored entry is the same either way. */
  lemma ReplyKeptWhenUndelivered(db: Db, id: UserId, m: string, now: int)
    requires m != ""
    ensures var sent, kept := ReplyWithText(db, id, m, now, true), ReplyWithText(db, id, m, now, false);
      && sent.db == kept.db && sent.notices == kept.notices
      && (sent.reply == Succeeded <==> kept.reply == SavedUndelivered)
  {
    var sent, kept := ReplyWithText(db, id, m, now, true), ReplyWithText(db, id, m, now, false);
    if sent.reply == Succeeded || sent.reply == SavedUndelivered {
      assert kept.reply == SavedUndelivered;
    }
  }

  /** Once an owner has cancelled, a second press is refused: the ticket is no longer their active one. */
  lemma OwnerCancelOnce(db: Db, id: UserId, tid: TicketId, now: int, later: int, agent: Option<UserId>, agent2: Option<UserId>)
    requires OwnerMayCancel(db, id, tid)
    ensures var e := CancelUserTicketSpec(db, id, tid, now, agent);
      && e.db.tickets[tid].status == Closed
      && |e.db.tickets[tid].messages| == |db.tickets[tid].messages| + 1
      && CancelUserTicketSpec(e.db, id, tid, later, agent2) == Effect(e.db, Refused(NotActiveTicket), [])
  {
  }

  /**
   * The three ways a ticket leaves the live statuses (resolve by command or
   * button, owner cancel) all clear the owner's active ticket when it is the
   * ticket in question, so a later follow-up from the owner is not appended
   * to it. This lemma and the two after it take one way each; this one is
   * the Resolve button.
   */
  lemma FinishedTicketTakesNoFollowUp(db: Db, id: UserId, tid: TicketId, owner: UserId, now: int, text: string,
                                      agent: Option<UserId>)
    requires IsAssignee(db, id, tid) && owner in db.users && db.tickets[tid].userId == owner
    requires db.users[owner].activeTicket == Some(tid)
    ensures FollowUpSpec(ResolveCallbackSpec(db, id, tid, now).db, owner, text, now, agent).reply != FollowUpAdded
  {
    var key := AgentKey(db.users[id]);
    var targeted := WithReplyTarget(db, id, Some(tid));
    var after := Resolution(targeted, tid, key, now);
    assert after.users[owner].activeTicket == None;
  }

  /** `/resolve` on the agent's reply target: the owner's next text is not appended to it. */
  lemma ResolvedTicketTakesNoFollowUp(db: Db, id: UserId, tid: TicketId, owner: UserId, now: int, text: string,
                                      agent: Option<UserId>)
    requires IsAssignee(db, id, tid) && ReplyTarget(db.users[id]) == Some(tid)
    requires owner in db.users && db.tickets[tid].userId == owner
    requires db.users[owner].activeTicket == Some(tid)
    ensures FollowUpSpec(ResolveSpec(db, id, now).db, owner, text, now, agent).reply != FollowUpAdded
  {
    var resolved := Resolution(db, tid, AgentKey(db.users[id]), now);
    assert resolved.users[owner].activeTicket == None;
    assert WithReplyTarget(resolved, id, None).users[owner].activeTicket == None;
  }

  /**
   * The owner's Cancel Ticket button on their active ticket: whether it
   * closes the ticket or finds it already finished, the owner's next text is
   * not appended to it.
   */
  lemma CancelledTicketTakesNoFollowUp(db: Db, owner: UserId, tid: TicketId, now: int, text: string,
                                       agent: Option<UserId>, agent2: Option<UserId>)
    requires owner in db.users && tid in db.tickets && db.tickets[tid].userId == owner
    requires db.users[owner].activeTicket == Some(tid)
    ensures FollowUpSpec(CancelUserTicketSpec(db, owner, tid, now, agent).db, owner, text, now, agent2).reply != FollowUpAdded
  {
    if OwnerMayCancel(db, owner, tid) {
      assert CancelUserTicketSpec(db, owner, tid, now, agent).db.users[owner].activeTicket == None;
    }
  }
}
