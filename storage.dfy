/**
 * The entity store the handlers read and write: the users table keyed by
 * participant id and the tickets table keyed by ticket id, plus a record of
 * the messages the handlers send to chats other than the one the event came
 * from (the sender's own private chat included).
 */
module Storage {
  import opened Wrappers
  import opened Models

  /** A snapshot of both tables. */
  datatype Db = Db(users: map<UserId, User>, tickets: map<TicketId, Ticket>)

  /**
   * A message sent to a chat other than the one the event came from. The
   * category menu of a group `/ticket` is recorded only when it was
   * delivered; every other notice records the attempt, delivered or not.
   */
  datatype Notice =
    | CategoryMenu(to: UserId)
    | ClaimNotice(to: UserId, ticket: TicketId)
    | AgentBriefing(to: UserId, ticket: TicketId)
    | AgentReply(to: UserId, ticket: TicketId, text: string)
    | ResolvedNotice(to: UserId, ticket: TicketId)
    | FollowUpForward(to: UserId, ticket: TicketId, text: string)
    | ClosedNotice(to: UserId, ticket: TicketId)

  /** What one handler does: the new tables, its answer to the caller, and the notices it sends. */
  datatype Effect<R> = Effect(db: Db, reply: R, notices: seq<Notice>)

  /**
   * What every handler keeps true: each user is stored under its own id, its
   * drafts cover its creation step, and every transcript entry has a sender
   * and a text.
   */
  ghost predicate Consistent(db: Db) {
    (forall id | id in db.users :: db.users[id].telegramId == id && DraftsComplete(db.users[id].state))
    && (forall t | t in db.tickets :: WellFormedTranscript(db.tickets[t].messages))
  }

  /**
   * How a ticket may change between two states of the store: owner, name,
   * category, description, priority and creation time never change, the
   * transcript only grows at its end, and a set assignee is never replaced.
   */
  predicate TicketEvolves(t: Ticket, t': Ticket) {
    && t'.userId == t.userId
    && t'.username == t.username
    && t'.category == t.category
    && t'.description == t.description
    && t'.priority == t.priority
    && t'.createdAt == t.createdAt
    && t.messages <= t'.messages
    && (IsSet(t.assignedTo) ==> t'.assignedTo == t.assignedTo)
  }

  /** Ticket `t` with entry `m` pushed onto the end of its transcript. */
  function AppendEntry(t: Ticket, m: Msg): (r: Ticket)
    ensures r == t.(messages := t.messages + [m])
    ensures |r.messages| == |t.messages| + 1 && r.messages[|t.messages|] == m
    ensures TicketEvolves(t, r)
    ensures WellFormedTranscript(t.messages) && WellFormedMsg(m) ==> WellFormedTranscript(r.messages)
  {
    t.(messages := t.messages + [m])
  }

  /** No user and no ticket disappears, and every ticket evolves as above. */
  ghost predicate Evolves(db: Db, db': Db) {
    && db.users.Keys <= db'.users.Keys
    && db.tickets.Keys <= db'.tickets.Keys
    && forall t | t in db.tickets :: TicketEvolves(db.tickets[t], db'.tickets[t])
  }

  lemma EvolvesTransitive(a: Db, b: Db, c: Db)
    requires Evolves(a, b) && Evolves(b, c)
    ensures Evolves(a, c)
  {
    forall t | t in a.tickets
      ensures TicketEvolves(a.tickets[t], c.tickets[t])
    {
      var x, y, z := a.tickets[t], b.tickets[t], c.tickets[t];
      assert x.messages <= y.messages && y.messages <= z.messages;
      assert x.messages == z.messages[..|x.messages|];
    }
  }

  /** The updateOne-by-id of the source: writes a user's `state` when the user exists. */
  function WithState(db: Db, id: UserId, st: ConvState): (r: Db)
    ensures r.tickets == db.tickets && r.users.Keys == db.users.Keys
    ensures id in db.users ==> r.users[id] == db.users[id].(state := st)
    ensures forall k | k in db.users && k != id :: r.users[k] == db.users[k]
    ensures Evolves(db, r)
    ensures Consistent(db) && DraftsComplete(st) ==> Consistent(r)
  {
    if id in db.users then db.(users := db.users[id := db.users[id].(state := st)]) else db
  }

  /** Writes a user's top-level `activeTicket` when the user exists. */
  function WithActiveTicket(db: Db, id: UserId, a: Option<TicketId>): (r: Db)
    ensures r.tickets == db.tickets && r.users.Keys == db.users.Keys
    ensures id in db.users ==> r.users[id] == db.users[id].(activeTicket := a)
    ensures forall k | k in db.users && k != id :: r.users[k] == db.users[k]
  {
    if id in db.users then db.(users := db.users[id := db.users[id].(activeTicket := a)]) else db
  }

  /** Saves a ticket under its id. */
  function WithTicket(db: Db, id: TicketId, t: Ticket): (r: Db)
    ensures r.users == db.users && r.tickets == db.tickets[id := t]
    ensures (id in db.tickets ==> TicketEvolves(db.tickets[id], t)) ==> Evolves(db, r)
    ensures Consistent(db) && WellFormedTranscript(t.messages) ==> Consistent(r)
  {
    db.(tickets := db.tickets[id := t])
  }

  /** The two tables, with the messages sent to participants recorded alongside. */
  class Store {
    var users: map<UserId, User>
    var tickets: map<TicketId, Ticket>
    ghost var outbox: seq<Notice>

    function Snapshot(): Db
      reads this
    {
      Db(users, tickets)
    }

    ghost predicate Valid()
      reads this
    {
      Consistent(Snapshot())
    }

    constructor ()
      ensures Valid()
      ensures users == map[] && tickets == map[] && outbox == []
    {
      users := map[];
      tickets := map[];
      outbox := [];
    }
  }
}
