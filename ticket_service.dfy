/**
 * The ticket service: the creation keyboards, the back button of the
 * creation flow, materialising a confirmed draft as a ticket, the preview
 * shown to staff, and claiming a ticket (with the agent's welcome entry).
 */
module TicketService {
  import opened Wrappers
  import opened Text
  import opened Models
  import opened Storage

  // ---------------------------------------------------------------------------
  // Keyboards
  // ---------------------------------------------------------------------------

  /** The categories the creation keyboard offers, in order; "Technical" is not among them. */
  const Categories: seq<string> := ["General", "Bridging/IBC", "Staking", "Viewing Keys", "Other"]

  /** An inline button: its label and the callback payload it sends back. */
  datatype Button = Button(caption: string, payload: string)

  /** One row per offered category, each sending `category:<name>`, then a Cancel row. */
  function CategoryKeyboard(): (rows: seq<seq<Button>>)
    ensures |rows| == |Categories| + 1
    ensures forall i :: 0 <= i < |Categories| ==> rows[i] == [Button(Categories[i], "category:" + Categories[i])]
    ensures rows[|Categories|] == [Button("Cancel", "cancel")]
  {
    seq(|Categories|, i requires 0 <= i < |Categories| => [Button(Categories[i], "category:" + Categories[i])])
      + [[Button("Cancel", "cancel")]]
  }

  /** Skip, then Back and Cancel: shown while the transaction reference is asked for. */
  function TransactionIdKeyboard(): seq<seq<Button>> {
    [[Button("Skip", "skip")], [Button("« Back", "back"), Button("Cancel", "cancel")]]
  }

  /** Confirm and Cancel, then Edit Details (which is the back action). */
  function ConfirmationKeyboard(): seq<seq<Button>> {
    [[Button("Confirm", "confirm"), Button("Cancel", "cancel")], [Button("« Edit Details", "back")]]
  }

  /**
   * Every category the schema accepts is offered on the keyboard except
   * Technical, and every offered name is one the schema accepts.
   */
  lemma KeyboardOffersAllButTechnical(c: Category)
    ensures (exists i :: 0 <= i < |Categories| && ParseCategory(Categories[i]) == Some(c)) <==> c != Technical
    ensures forall i :: 0 <= i < |Categories| ==> ParseCategory(Categories[i]).Some?
  {
    if c != Technical {
      var i := match c
        case General => 0
        case BridgingIbc => 1
        case Staking => 2
        case ViewingKeys => 3
        case Other => 4;
      assert ParseCategory(Categories[i]) == Some(c);
    }
  }

  // ---------------------------------------------------------------------------
  // Staff-channel preview
  // ---------------------------------------------------------------------------

  /** The description as previewed to staff: at most 100 characters. */
  function NotificationPreview(description: string): (r: string)
    ensures |r| <= 100
    ensures |description| <= 100 ==> r == description
    ensures |description| > 100 ==> r == description[..97] + "..."
  {
    Truncate(description, 100, 97)
  }

  // ---------------------------------------------------------------------------
  // Back
  // ---------------------------------------------------------------------------

  datatype BackReply = BackToDescription | BackToTransactionId | CannotGoBack

  /** The step the back button leads to: one step earlier from the last two steps, else nowhere. */
  function StepBefore(s: Step): Step {
    match s
    case TransactionIdStep => DescriptionStep
    case ConfirmationStep => TransactionIdStep
    case _ => s
  }

  /** The back button for a user the caller has found. Only `ticketStep` is written. */
  ghost function BackSpec(db: Db, id: UserId): (e: Effect<BackReply>)
    requires id in db.users
    ensures e.notices == [] && e.db.tickets == db.tickets && id in e.db.users
    ensures e.db.users == db.users[id := db.users[id].(state := db.users[id].state.(ticketStep := e.db.users[id].state.ticketStep))]
    ensures CurrentStep(e.db.users[id].state) == StepBefore(CurrentStep(db.users[id].state))
    ensures e.reply == CannotGoBack <==> e.db == db
    ensures Evolves(db, e.db)
    ensures Consistent(db) ==> Consistent(e.db)
  {
    var u := db.users[id];
    match CurrentStep(u.state)
    case TransactionIdStep =>
      Effect(WithState(db, id, u.state.(ticketStep := Some(DescriptionStep))), BackToDescription, [])
    case ConfirmationStep =>
      Effect(WithState(db, id, u.state.(ticketStep := Some(TransactionIdStep))), BackToTransactionId, [])
    case _ =>
      Effect(db, CannotGoBack, [])
  }

  method HandleBackAction(s: Store, id: UserId) returns (r: BackReply)
    requires s.Valid() && id in s.users
    modifies s
    ensures s.Valid()
    ensures var e := BackSpec(old(s.Snapshot()), id);
      s.Snapshot() == e.db && r == e.reply && s.outbox == old(s.outbox) + e.notices
  {
    var user := s.users[id];
    match CurrentStep(user.state)
    case TransactionIdStep =>
      s.users := s.users[id := user.(state := user.state.(ticketStep := Some(DescriptionStep)))];
      r := BackToDescription;
    case ConfirmationStep =>
      s.users := s.users[id := user.(state := user.state.(ticketStep := Some(TransactionIdStep)))];
      r := BackToTransactionId;
    case _ =>
      r := CannotGoBack;
  }

  // ---------------------------------------------------------------------------
  // Creating the ticket
  // ---------------------------------------------------------------------------

  datatype CreateReply = Created(ticket: TicketId) | CreateFailed

  /** The transaction reference is recorded as a second entry unless absent, empty or the skip value. */
  predicate HasTransactionRef(st: ConvState) {
    st.transactionId.Some? && st.transactionId.value != "" && st.transactionId.value != "N/A"
  }

  /** The save passes the schema's checks: a known category and a non-empty description. */
  predicate DraftSavable(st: ConvState) {
    st.category.Some? && ParseCategory(st.category.value).Some?
    && st.description.Some? && st.description.value != ""
  }

  /** The transcript a new ticket starts with: the description, then the transaction reference if any. */
  function OpeningTranscript(u: User, now: int): (msgs: seq<Msg>)
    requires DraftSavable(u.state)
    ensures 1 <= |msgs| <= 2 && WellFormedTranscript(msgs)
    ensures msgs[0] == Msg(OwnerName(u), u.state.description.value, now)
    ensures |msgs| == 2 <==> HasTransactionRef(u.state)
    ensures |msgs| == 2 ==> msgs[1] == Msg(OwnerName(u), "TX Hash(es): " + u.state.transactionId.value, now)
  {
    var owner := OwnerName(u);
    var first := [Msg(owner, u.state.description.value, now)];
    if HasTransactionRef(u.state) then first + [Msg(owner, "TX Hash(es): " + u.state.transactionId.value, now)]
    else first
  }

  /**
   * Confirming the draft of user `id`. When the save passes the schema's
   * checks, exactly one ticket is added under `newId`: open, medium priority,
   * unassigned, owned by the user; the user's step returns to idle and their
   * `activeTicket` becomes the new ticket whatever it was before, while the
   * drafts stay in place. Otherwise nothing changes.
   */
  ghost function CreateSpec(db: Db, id: UserId, newId: TicketId, now: int): (e: Effect<CreateReply>)
    requires id in db.users
    ensures e.notices == []
    ensures e.reply.Created? <==> DraftSavable(db.users[id].state)
    ensures e.reply == CreateFailed ==> e.db == db
    ensures e.reply.Created? ==>
      var u := db.users[id];
      && e.reply.ticket == newId
      && e.db.tickets.Keys == db.tickets.Keys + {newId}
      && (forall t | t in db.tickets && t != newId :: e.db.tickets[t] == db.tickets[t])
      && e.db.tickets[newId] == Ticket(id, OwnerName(u), ParseCategory(u.state.category.value).value,
                                       u.state.description.value, Open, Medium, OpeningTranscript(u, now),
                                       None, now, now)
      && e.db.users == db.users[id := u.(state := u.state.(ticketStep := Some(Idle)), activeTicket := Some(newId))]
    ensures newId !in db.tickets ==> Evolves(db, e.db)
    ensures Consistent(db) ==> Consistent(e.db)
  {
    var u := db.users[id];
    if !DraftSavable(u.state) then Effect(db, CreateFailed, [])
    else
      var t := Ticket(id, OwnerName(u), ParseCategory(u.state.category.value).value,
                      u.state.description.value, Open, Medium, OpeningTranscript(u, now), None, now, now);
      var saved := WithTicket(db, newId, t);
      var owner := u.(state := u.state.(ticketStep := Some(Idle)), activeTicket := Some(newId));
      Effect(saved.(users := saved.users[id := owner]), Created(newId), [])
  }

  method CreateTicket(s: Store, id: UserId, newId: TicketId, now: int) returns (r: CreateReply)
    requires s.Valid() && id in s.users && newId !in s.tickets
    modifies s
    ensures s.Valid()
    ensures var e := CreateSpec(old(s.Snapshot()), id, newId, now);
      s.Snapshot() == e.db && r == e.reply && s.outbox == old(s.outbox) + e.notices
  {
    var user := s.users[id];
    var st := user.state;
    if st.category.None? || ParseCategory(st.category.value).None? || st.description.None? || st.description.value == "" {
      return CreateFailed;
    }
    var owner := OwnerName(user);
    var messages := [Msg(owner, st.description.value, now)];
    if st.transactionId.Some? && st.transactionId.value != "" && st.transactionId.value != "N/A" {
      messages := messages + [Msg(owner, "TX Hash(es): " + st.transactionId.value, now)];
    }
    var ticket := Ticket(id, owner, ParseCategory(st.category.value).value, st.description.value,
                         Open, Medium, messages, None, now, now);
    s.tickets := s.tickets[newId := ticket];
    s.users := s.users[id := user.(state := st.(ticketStep := Some(Idle)), activeTicket := Some(newId))];
    r := Created(newId);
  }

  // ---------------------------------------------------------------------------
  // Claiming
  // ---------------------------------------------------------------------------

  datatype ClaimReply = TicketNotFound | AgentNotFound | NotAuthorized | AlreadyAssigned | Claimed | ClaimFailed

  /** The entry an agent's claim adds to the transcript. */
  function ClaimEntry(agent: User, now: int): (m: Msg)
    ensures m.sender == AgentKey(agent) && WellFormedMsg(m)
  {
    Msg(AgentKey(agent), "Agent " + PlainName(agent) + " has been assigned to this ticket and will assist you shortly.", now)
  }

  /**
   * Briefing the agent privately, then recording the agent's welcome entry.
   * The send comes first inside one guarded block, so the entry is recorded
   * only when the briefing was delivered.
   */
  ghost function AddAgentSpec(db: Db, ticketId: TicketId, agent: User, now: int, delivered: bool): (e: Effect<()>)
    requires ticketId in db.tickets
    ensures e.notices == [AgentBriefing(agent.telegramId, ticketId)]
    ensures e.db.users == db.users
    ensures e.db.tickets == db.tickets[ticketId := db.tickets[ticketId].(messages := db.tickets[ticketId].messages
                                        + if delivered then [ClaimEntry(agent, now)] else [])]
    ensures Evolves(db, e.db)
    ensures Consistent(db) ==> Consistent(e.db)
  {
    var t := db.tickets[ticketId];
    if delivered then Effect(WithTicket(db, ticketId, AppendEntry(t, ClaimEntry(agent, now))), (), [AgentBriefing(agent.telegramId, ticketId)])
    else
      assert db.tickets[ticketId := t.(messages := t.messages + [])] == db.tickets by {
        assert t.messages + [] == t.messages;
      }
      Effect(db, (), [AgentBriefing(agent.telegramId, ticketId)])
  }

  method AddAgentToConversation(s: Store, ticketId: TicketId, agent: User, now: int, delivered: bool)
    requires ticketId in s.tickets
    modifies s
    ensures var e := AddAgentSpec(old(s.Snapshot()), ticketId, agent, now, delivered);
      s.Snapshot() == e.db && s.outbox == old(s.outbox) + e.notices
  {
    s.outbox := s.outbox + [AgentBriefing(agent.telegramId, ticketId)];
    if delivered {
      var t := s.tickets[ticketId];
      s.tickets := s.tickets[ticketId := AppendEntry(t, ClaimEntry(agent, now))];
    }
  }

  /** A ticket taken by the agent whose key is `key`: assigned to it and in progress. */
  function TakenBy(t: Ticket, key: string): (r: Ticket)
    ensures r == t.(assignedTo := Some(key), status := InProgress)
    ensures !IsSet(t.assignedTo) ==> TicketEvolves(t, r)
  {
    t.(assignedTo := Some(key), status := InProgress)
  }

  /** The checks a claim must pass; the ticket's status is not among them. */
  predicate ClaimAllowed(db: Db, ticketId: TicketId, agentId: UserId) {
    ticketId in db.tickets && agentId in db.users && db.users[agentId].isStaff
    && !IsSet(db.tickets[ticketId].assignedTo)
  }

  /**
   * Claiming ticket `ticketId` for agent `agentId`. A claim that passes the
   * checks assigns the ticket to the agent's key and moves it to in-progress,
   * whatever its status was. Editing the staff-channel message can fail,
   * which abandons the rest (the answer is an error); otherwise the owner is
   * told and the agent briefed, and the agent's welcome entry is appended
   * when the briefing was delivered.
   */
  ghost function ClaimSpec(db: Db, ticketId: TicketId, agentId: UserId, now: int, editOk: bool, briefingOk: bool): (e: Effect<ClaimReply>)
    ensures (e.reply == Claimed || e.reply == ClaimFailed) <==> ClaimAllowed(db, ticketId, agentId)
    ensures e.reply == Claimed <==> ClaimAllowed(db, ticketId, agentId) && editOk
    ensures !ClaimAllowed(db, ticketId, agentId) ==> e.db == db && e.notices == []
    ensures e.reply == Claimed ==>
      e.notices == [ClaimNotice(db.tickets[ticketId].userId, ticketId), AgentBriefing(db.users[agentId].telegramId, ticketId)]
    ensures e.reply == ClaimFailed ==> e.notices == []
    ensures ClaimAllowed(db, ticketId, agentId) ==>
      var t := db.tickets[ticketId];
      var agent := db.users[agentId];
      && e.db.users == db.users
      && e.db.tickets == db.tickets[ticketId := t.(assignedTo := Some(AgentKey(agent)), status := InProgress,
                           messages := t.messages + if editOk && briefingOk then [ClaimEntry(agent, now)] else [])]
    ensures Evolves(db, e.db)
    ensures Consistent(db) ==> Consistent(e.db)
  {
    if ticketId !in db.tickets then Effect(db, TicketNotFound, [])
    else if agentId !in db.users then Effect(db, AgentNotFound, [])
    else
      var t := db.tickets[ticketId];
      var agent := db.users[agentId];
      if !agent.isStaff then Effect(db, NotAuthorized, [])
      else if IsSet(t.assignedTo) then Effect(db, AlreadyAssigned, [])
      else ClaimGranted(db, ticketId, agentId, now, editOk, briefingOk)
  }

  /** A claim that passed the checks: the ticket is taken, then the owner and the agent are told. */
  ghost function ClaimGranted(db: Db, ticketId: TicketId, agentId: UserId, now: int, editOk: bool, briefingOk: bool): (e: Effect<ClaimReply>)
    requires ClaimAllowed(db, ticketId, agentId)
    ensures e.reply == if editOk then Claimed else ClaimFailed
    ensures e.notices == if editOk then [ClaimNotice(db.tickets[ticketId].userId, ticketId),
                                          AgentBriefing(db.users[agentId].telegramId, ticketId)] else []
    ensures var t := db.tickets[ticketId];
      var agent := db.users[agentId];
      && e.db.users == db.users
      && e.db.tickets == db.tickets[ticketId := t.(assignedTo := Some(AgentKey(agent)), status := InProgress,
                           messages := t.messages + if editOk && briefingOk then [ClaimEntry(agent, now)] else [])]
    ensures Evolves(db, e.db)
    ensures Consistent(db) ==> Consistent(e.db)
  {
    var t := db.tickets[ticketId];
    var agent := db.users[agentId];
    var taken := WithTicket(db, ticketId, TakenBy(t, AgentKey(agent)));
    if !editOk then assert t.messages + [] == t.messages; Effect(taken, ClaimFailed, [])
    else
      var added := AddAgentSpec(taken, ticketId, agent, now, briefingOk);
      var whole := TakenBy(t, AgentKey(agent)).(messages := t.messages + if briefingOk then [ClaimEntry(agent, now)] else []);
      assert added.db.tickets == db.tickets[ticketId := whole] by {
        assert added.db.tickets == db.tickets[ticketId := TakenBy(t, AgentKey(agent))][ticketId := whole];
      }
      EvolvesTransitive(db, taken, added.db);
      Effect(added.db, Claimed, [ClaimNotice(t.userId, ticketId)] + added.notices)
  }

  method ClaimTicket(s: Store, ticketId: TicketId, agentId: UserId, now: int, editOk: bool, briefingOk: bool)
    returns (r: ClaimReply)
    requires s.Valid()
    modifies s
    ensures s.Valid()
    ensures var e := ClaimSpec(old(s.Snapshot()), ticketId, agentId, now, editOk, briefingOk);
      s.Snapshot() == e.db && r == e.reply && s.outbox == old(s.outbox) + e.notices
  {
    if ticketId !in s.tickets {
      return TicketNotFound;
    }
    if agentId !in s.users {
      return AgentNotFound;
    }
    var ticket := s.tickets[ticketId];
    var agent := s.users[agentId];
    if !agent.isStaff {
      return NotAuthorized;
    }
    if IsSet(ticket.assignedTo) {
      return AlreadyAssigned;
    }
    s.tickets := s.tickets[ticketId := TakenBy(ticket, AgentKey(agent))];
    if !editOk {
      return ClaimFailed;
    }
    s.outbox := s.outbox + [ClaimNotice(ticket.userId, ticketId)];
    AddAgentToConversation(s, ticketId, agent, now, briefingOk);
    r := Claimed;
  }
}
