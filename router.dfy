/**
 * The bot's two event routers: callback payloads are dispatched by prefix to
 * one handler, and free text is offered to the creation wizard, then to the
 * support handler, stopping at the first that takes it, with a generic
 * answer for text nobody took from someone who is not mid-creation.
 */
module Router {
  import opened Wrappers
  import opened Text
  import opened Models
  import opened Storage
  import opened TicketService
  import opened TicketController
  import opened SupportController

  // ---------------------------------------------------------------------------
  // Callback payloads
  // ---------------------------------------------------------------------------

  /** The ticket-scoped buttons, each sending `<tag>:<ticket id>`. */
  datatype Scope = ClaimButton | ViewButton | ResolveButton | ReplyButton | CancelTicketButton

  function ScopeTag(sc: Scope): (tag: string)
    ensures tag != "" && ':' !in tag
  {
    match sc
    case ClaimButton => "claim"
    case ViewButton => "view"
    case ResolveButton => "resolve"
    case ReplyButton => "reply"
    case CancelTicketButton => "cancel_ticket"
  }

  /** The payload a ticket-scoped button carries. */
  function ButtonPayload(sc: Scope, tid: TicketId): (data: string)
    ensures StartsWith(data, ScopeTag(sc) + ":")
  {
    ScopeTag(sc) + ":" + tid
  }

  /** The handler a callback payload is routed to. */
  datatype Action = Creation | OnTicket(scope: Scope, ticket: TicketId) | Unsupported

  /** The payloads of the creation keyboards, which the wizard handles. */
  predicate IsCreationPayload(data: string) {
    StartsWith(data, "category:") || data == "cancel" || data == "back" || data == "skip" || data == "confirm"
  }

  /** `data.split(':')[1]` for a payload that starts with `tag:`. */
  function TicketField(tag: string, data: string): (tid: TicketId)
    requires ':' !in tag && StartsWith(data, tag + ":")
    ensures ':' in data && tid == SecondField(data) && ':' !in tid
  {
    TaggedPayload(tag, data);
    SecondField(data)
  }

  /**
   * The creation payloads are matched first; then each ticket-scoped prefix
   * in turn, passing the segment between the first and the second ':' as
   * the ticket id; any other payload is unsupported.
   */
  function Dispatch(data: string): (a: Action)
    ensures a == Creation <==> IsCreationPayload(data)
    ensures a.OnTicket? ==> StartsWith(data, ScopeTag(a.scope) + ":") && ':' in data && a.ticket == SecondField(data)
    ensures a == Unsupported <==> !IsCreationPayload(data) && forall sc :: !StartsWith(data, ScopeTag(sc) + ":")
  {
    if IsCreationPayload(data) then Creation
    else if StartsWith(data, "claim:") then OnTicket(ClaimButton, TicketField("claim", data))
    else if StartsWith(data, "view:") then OnTicket(ViewButton, TicketField("view", data))
    else if StartsWith(data, "resolve:") then OnTicket(ResolveButton, TicketField("resolve", data))
    else if StartsWith(data, "reply:") then OnTicket(ReplyButton, TicketField("reply", data))
    else if StartsWith(data, "cancel_ticket:") then OnTicket(CancelTicketButton, TicketField("cancel_ticket", data))
    else Unsupported
  }

  /** No ticket-scoped payload looks like a creation payload. */
  lemma ButtonIsNotCreation(sc: Scope, tid: TicketId)
    ensures !IsCreationPayload(ButtonPayload(sc, tid))
  {
    var data := ButtonPayload(sc, tid);
    assert data[..|ScopeTag(sc)| + 1] == ScopeTag(sc) + ":";
    assert data[1] == (ScopeTag(sc) + ":")[1] && data[2] == (ScopeTag(sc) + ":")[2];
  }

  /** Two different tags never both prefix one payload. */
  lemma TagsExclusive(sc: Scope, other: Scope, data: string)
    requires StartsWith(data, ScopeTag(sc) + ":") && StartsWith(data, ScopeTag(other) + ":")
    ensures sc == other
  {
    var a, b := ScopeTag(sc) + ":", ScopeTag(other) + ":";
    assert data[0] == a[0] == b[0];
    assert |a| <= |b| ==> data[1] == a[1] == b[1] && data[2] == a[2] == b[2];
    assert |b| <= |a| ==> data[1] == a[1] == b[1] && data[2] == a[2] == b[2];
  }

  /**
   * Round trip: every ticket-scoped button, for a ticket id without ':',
   * reaches the handler of its scope with that very id.
   */
  lemma ButtonRoundTrip(sc: Scope, tid: TicketId)
    requires ':' !in tid
    ensures Dispatch(ButtonPayload(sc, tid)) == OnTicket(sc, tid)
  {
    var data := ButtonPayload(sc, tid);
    ButtonIsNotCreation(sc, tid);
    var a := Dispatch(data);
    assert a.OnTicket?;
    TagsExclusive(sc, a.scope, data);
    assert data[|ScopeTag(sc)| + 1..] == tid;
    UntilColonWhole(tid);
  }

  /** Every button of the three creation keyboards is routed to the wizard. */
  lemma KeyboardsRouteToWizard()
    ensures forall row, b | row in CategoryKeyboard() && b in row :: Dispatch(b.payload) == Creation
    ensures forall row, b | row in TransactionIdKeyboard() && b in row :: Dispatch(b.payload) == Creation
    ensures forall row, b | row in ConfirmationKeyboard() && b in row :: Dispatch(b.payload) == Creation
  {
    var rows := CategoryKeyboard();
    forall row, b | row in rows && b in row
      ensures Dispatch(b.payload) == Creation
    {
      var i :| 0 <= i < |rows| && rows[i] == row;
      if i < |Categories| {
        assert StartsWith(b.payload, "category:");
      }
    }
  }

  /** What a routed callback produced: the reply of the handler it reached. */
  datatype CallbackOutcome =
    | ByWizard(wizard: CallbackReply)
    | ByClaim(claim: ClaimReply)
    | ByView(view: ViewReply)
    | ByResolve(resolve: SupportReply)
    | ByReplyTarget(target: SupportReply)
    | ByOwnerCancel(cancel: SupportReply)
    | NotSupported

  /**
   * A button press by user `id`, carrying `data`. Every payload gets an
   * answer; an unsupported one changes nothing and tells no one.
   */
  method RouteCallback(s: Store, id: UserId, data: string, newId: TicketId, now: int, editOk: bool, briefingOk: bool)
    returns (r: CallbackOutcome, ghost agent: Option<UserId>)
    requires s.Valid() && newId !in s.tickets
    modifies s
    ensures s.Valid()
    ensures Dispatch(data) == Creation ==>
      var e := CallbackSpec(old(s.Snapshot()), id, data, newId, now);
      r == ByWizard(e.reply) && s.Snapshot() == e.db && s.outbox == old(s.outbox) + e.notices
    ensures Dispatch(data).OnTicket? && Dispatch(data).scope == ClaimButton ==>
      var e := ClaimCallbackSpec(old(s.Snapshot()), id, Dispatch(data).ticket, now, editOk, briefingOk);
      r == ByClaim(e.reply) && s.Snapshot() == e.db && s.outbox == old(s.outbox) + e.notices
    ensures Dispatch(data).OnTicket? && Dispatch(data).scope == ViewButton ==>
      && r.ByView? && s.Snapshot() == old(s.Snapshot()) && s.outbox == old(s.outbox)
      && (r.view.Shown? <==> IsStaffUser(s.Snapshot(), id) && Dispatch(data).ticket in s.tickets)
    ensures Dispatch(data).OnTicket? && Dispatch(data).scope == ResolveButton ==>
      var e := ResolveCallbackSpec(old(s.Snapshot()), id, Dispatch(data).ticket, now);
      r == ByResolve(e.reply) && s.Snapshot() == e.db && s.outbox == old(s.outbox) + e.notices
    ensures Dispatch(data).OnTicket? && Dispatch(data).scope == ReplyButton ==>
      var e := SetReplyContextSpec(old(s.Snapshot()), id, Dispatch(data).ticket);
      r == ByReplyTarget(e.reply) && s.Snapshot() == e.db && s.outbox == old(s.outbox) + e.notices
    ensures Dispatch(data).OnTicket? && Dispatch(data).scope == CancelTicketButton ==>
      var e := CancelUserTicketSpec(old(s.Snapshot()), id, Dispatch(data).ticket, now, agent);
      r == ByOwnerCancel(e.reply) && s.Snapshot() == e.db && s.outbox == old(s.outbox) + e.notices
    ensures Dispatch(data).OnTicket? && Dispatch(data).scope == CancelTicketButton && r == ByOwnerCancel(Succeeded)
            && Dispatch(data).ticket in old(s.tickets) && IsSet(old(s.tickets)[Dispatch(data).ticket].assignedTo) ==>
      AssigneeAnswer(s.Snapshot(), old(s.tickets)[Dispatch(data).ticket].assignedTo.value, agent)
    ensures Dispatch(data) == Unsupported ==>
      r == NotSupported && s.Snapshot() == old(s.Snapshot()) && s.outbox == old(s.outbox)
  {
    agent := None;
    var a := Dispatch(data);
    match a
    case Creation =>
      var c := HandleTicketCallback(s, id, data, newId, now);
      r := ByWizard(c);
    case OnTicket(ClaimButton, tid) =>
      var c := ClaimTicketCallback(s, id, tid, now, editOk, briefingOk);
      r := ByClaim(c);
    case OnTicket(ViewButton, tid) =>
      var v := ViewTicket(s, id, tid);
      r := ByView(v);
    case OnTicket(ResolveButton, tid) =>
      var c := ResolveTicketCallback(s, id, tid, now);
      r := ByResolve(c);
    case OnTicket(ReplyButton, tid) =>
      var c := SetReplyContext(s, id, tid);
      r := ByReplyTarget(c);
    case OnTicket(CancelTicketButton, tid) =>
      var c;
      c, agent := CancelUserTicket(s, id, tid, now);
      r := ByOwnerCancel(c);
    case Unsupported =>
      r := NotSupported;
  }

  // ---------------------------------------------------------------------------
  // Free text
  // ---------------------------------------------------------------------------

  /** Who answered a text message: at most one of the two handlers, the generic reply, or no one. */
  datatype TextOutcome = TakenByWizard(wizard: MessageReply) | TakenBySupport(support: FollowUpReply) | NotUnderstood | NoAnswer

  /**
   * The text pipeline: the wizard first; when it does not take the text,
   * the support handler; when neither does, the generic "not understood"
   * reply, but only to a sender with no record or not in a creation step.
   */
  ghost function RouteTextSpec(db: Db, id: UserId, text: string, now: int, agent: Option<UserId>): (e: Effect<TextOutcome>)
    ensures e.reply.TakenByWizard? <==> Handled(MessageSpec(db, id, text).reply)
    ensures e.reply.TakenByWizard? ==> e == Effect(MessageSpec(db, id, text).db, e.reply, [])
    ensures !e.reply.TakenByWizard? ==> e.db == FollowUpSpec(db, id, text, now, agent).db
    ensures !e.reply.TakenBySupport? ==> e.db.tickets == db.tickets
    ensures Consistent(db) ==> Consistent(e.db)
  {
    var m := MessageSpec(db, id, text);
    if Handled(m.reply) then Effect(m.db, TakenByWizard(m.reply), m.notices)
    else
      assert m.db == db;
      var f := FollowUpSpec(m.db, id, text, now, agent);
      if f.reply != NotSupport then Effect(f.db, TakenBySupport(f.reply), f.notices)
      else if id !in f.db.users || CurrentStep(f.db.users[id].state) == Idle then Effect(f.db, NotUnderstood, f.notices)
      else Effect(f.db, NoAnswer, f.notices)
  }

  method RouteText(s: Store, id: UserId, text: string, now: int) returns (r: TextOutcome, ghost agent: Option<UserId>)
    requires s.Valid()
    modifies s
    ensures s.Valid()
    ensures var tid := FollowUpTarget(old(s.Snapshot()), id);
      r == TakenBySupport(FollowUpAdded) && tid.Some? && IsSet(old(s.tickets)[tid.value].assignedTo) ==>
      AssigneeAnswer(s.Snapshot(), old(s.tickets)[tid.value].assignedTo.value, agent)
    ensures var e := RouteTextSpec(old(s.Snapshot()), id, text, now, agent);
      s.Snapshot() == e.db && r == e.reply && s.outbox == old(s.outbox) + e.notices
  {
    agent := None;
    var m := HandleTicketMessage(s, id, text);
    if Handled(m) {
      return TakenByWizard(m), agent;
    }
    var f;
    f, agent := HandleSupportMessage(s, id, text, now);
    if f != NotSupport {
      return TakenBySupport(f), agent;
    }
    if id !in s.users || CurrentStep(s.users[id].state) == Idle {
      return NotUnderstood, agent;
    }
    r := NoAnswer;
  }

  /** A text the support handler would take. */
  predicate SupportTakes(db: Db, id: UserId, text: string) {
    (text != "" && FollowUpTarget(db, id).Some?)
    || (IsStaffUser(db, id) && ReplyTarget(db.users[id]).Some?)
  }

  /**
   * The generic reply goes out exactly when the text is not the cancel word,
   * the support handler would not take it, and the sender has no record or
   * is not in a creation step.
   */
  lemma NotUnderstoodExactly(db: Db, id: UserId, text: string, now: int, agent: Option<UserId>)
    ensures RouteTextSpec(db, id, text, now, agent).reply == NotUnderstood <==>
      && !IsCancelText(text)
      && !SupportTakes(db, id, text)
      && (id !in db.users || CurrentStep(db.users[id].state) == Idle)
  {
    var m := MessageSpec(db, id, text);
    if !IsCancelText(text) && (id !in db.users || CurrentStep(db.users[id].state) == Idle) {
      assert m.reply == NotInFlow;
    }
  }

  /**
   * No one answers exactly when a record holder is in the category or the
   * confirmation step, the text is not the cancel word, and the support
   * handler would not take it: those steps wait for a button.
   */
  lemma NoAnswerExactly(db: Db, id: UserId, text: string, now: int, agent: Option<UserId>)
    ensures RouteTextSpec(db, id, text, now, agent).reply == NoAnswer <==>
      && !IsCancelText(text)
      && !SupportTakes(db, id, text)
      && id in db.users
      && (CurrentStep(db.users[id].state) == CategoryStep || CurrentStep(db.users[id].state) == ConfirmationStep)
  {
  }

  /**
   * While the wizard asks for a description or a transaction reference, the
   * text is a draft: no ticket changes, even the sender's own open one, and
   * no one else is told.
   */
  lemma DraftTextStaysInTheWizard(db: Db, id: UserId, text: string, now: int, agent: Option<UserId>)
    requires id in db.users
    requires CurrentStep(db.users[id].state) == DescriptionStep || CurrentStep(db.users[id].state) == TransactionIdStep
    ensures var e := RouteTextSpec(db, id, text, now, agent);
      e.reply.TakenByWizard? && e.db.tickets == db.tickets && e.notices == []
  {
  }

  /**
   * A non-staff user who has pressed "new ticket" but not yet picked a
   * category, while an earlier ticket of theirs is still live: their text
   * goes to that earlier ticket, and the wizard's state is left as it was.
   */
  lemma WaitingForCategoryAppendsToOpenTicket(db: Db, id: UserId, text: string, now: int, agent: Option<UserId>)
    requires id in db.users && !db.users[id].isStaff
    requires CurrentStep(db.users[id].state) == CategoryStep
    requires text != "" && !IsCancelText(text)
    requires IsSet(db.users[id].activeTicket) && db.users[id].activeTicket.value in db.tickets
    requires IsLive(db.tickets[db.users[id].activeTicket.value].status)
    ensures var e := RouteTextSpec(db, id, text, now, agent);
      var tid := db.users[id].activeTicket.value;
      && e.reply == TakenBySupport(FollowUpAdded)
      && e.db.users == db.users
      && e.db.tickets[tid].messages == db.tickets[tid].messages + [Msg(OwnerName(db.users[id]), text, now)]
  {
  }
}
