/**
 * The ticket-creation wizard: `/ticket` starts it, the inline buttons
 * (`category:<c>`, `back`, `skip`, `confirm`, `cancel`) and plain text move a
 * user's `ticketStep` through idle, category, description, transaction_id and
 * confirmation, collecting the three drafts on the way.
 */
module TicketController {
  import opened Wrappers
  import opened Text
  import opened Models
  import opened Storage
  import opened TicketService

  /** Writes only a user's `ticketStep` (a no-op for an unknown user, as an update by id is). */
  function WithStep(db: Db, id: UserId, step: Step): (r: Db)
    ensures r.tickets == db.tickets && r.users.Keys == db.users.Keys
    ensures id in db.users ==> r.users[id] == db.users[id].(state := db.users[id].state.(ticketStep := Some(step)))
    ensures forall k | k in db.users && k != id :: r.users[k] == db.users[k]
    ensures Evolves(db, r)
    ensures Consistent(db) && step == Idle ==> Consistent(r)
  {
    if id in db.users then WithState(db, id, db.users[id].state.(ticketStep := Some(step))) else db
  }

  // ---------------------------------------------------------------------------
  // /ticket
  // ---------------------------------------------------------------------------

  datatype StartReply = CategoryMenuShown | RedirectedToDm | DmFailed

  /**
   * `/ticket` from user `id` (with handle `username`), in a group chat when
   * `group` holds its id. The user is created with the schema defaults when
   * unknown; then the whole `state` is replaced by a fresh one at the
   * category step, remembering the group. Whether the private message is
   * delivered (`dmOk`) changes only the answer.
   */
  ghost function StartSpec(db: Db, id: UserId, username: Option<string>, group: Option<int>, dmOk: bool): (e: Effect<StartReply>)
    ensures e.db.tickets == db.tickets && e.db.users.Keys == db.users.Keys + {id}
    ensures forall k | k in db.users && k != id :: e.db.users[k] == db.users[k]
    ensures e.db.users[id].state == ConvState(Some(CategoryStep), None, None, None, group, None)
    ensures id in db.users ==> e.db.users[id] == db.users[id].(state := e.db.users[id].state)
    ensures id !in db.users ==> e.db.users[id] == NewUser(id, username).(state := e.db.users[id].state)
    ensures e.notices == if group.Some? && dmOk then [CategoryMenu(id)] else []
    ensures e.reply == if group.None? then CategoryMenuShown else if dmOk then RedirectedToDm else DmFailed
    ensures Consistent(db) ==> Consistent(e.db)
  {
    var known := if id in db.users then db else db.(users := db.users[id := NewUser(id, username)]);
    var restarted := ConvState(Some(CategoryStep), None, None, None, group, None);
    var db' := WithState(known, id, restarted);
    if group.None? then Effect(db', CategoryMenuShown, [])
    else if dmOk then Effect(db', RedirectedToDm, [CategoryMenu(id)])
    else Effect(db', DmFailed, [])
  }

  method StartTicketCreation(s: Store, id: UserId, username: Option<string>, group: Option<int>, dmOk: bool)
    returns (r: StartReply)
    requires s.Valid()
    modifies s
    ensures s.Valid()
    ensures var e := StartSpec(old(s.Snapshot()), id, username, group, dmOk);
      s.Snapshot() == e.db && r == e.reply && s.outbox == old(s.outbox) + e.notices
  {
    if id !in s.users {
      s.users := s.users[id := NewUser(id, username)];
    }
    var user := s.users[id];
    s.users := s.users[id := user.(state := ConvState(Some(CategoryStep), None, None, None, group, None))];
    if group.None? {
      return CategoryMenuShown;
    }
    if dmOk {
      s.outbox := s.outbox + [CategoryMenu(id)];
      r := RedirectedToDm;
    } else {
      r := DmFailed;
    }
  }

  // ---------------------------------------------------------------------------
  // /cancel (the command)
  // ---------------------------------------------------------------------------

  /** The `/cancel` command: only the step returns to idle. */
  ghost function CancelSpec(db: Db, id: UserId): (e: Effect<()>)
    ensures e.notices == []
    ensures e.db == WithStep(db, id, Idle)
    ensures Consistent(db) ==> Consistent(e.db)
  {
    Effect(WithStep(db, id, Idle), (), [])
  }

  method CancelTicketCreation(s: Store, id: UserId)
    requires s.Valid()
    modifies s
    ensures s.Valid()
    ensures var e := CancelSpec(old(s.Snapshot()), id);
      s.Snapshot() == e.db && s.outbox == old(s.outbox) + e.notices
  {
    if id in s.users {
      var user := s.users[id];
      s.users := s.users[id := user.(state := user.state.(ticketStep := Some(Idle)))];
    }
  }

  // ---------------------------------------------------------------------------
  // Creation buttons
  // ---------------------------------------------------------------------------

  datatype CallbackReply =
    | UserNotFound
    | CreationCancelled
    | WentBack(back: BackReply)
    | Skipped
    | CategoryChosen(category: string)
    | Confirmed(create: CreateReply)
    | InvalidAction

  /**
   * A creation button pressed by user `id`. The checks run in a fixed order:
   * unknown user, `cancel`, `back`, `skip` in the transaction step, any
   * `category:` payload in any step, `confirm` in the confirmation step;
   * everything else is an invalid action. `newId` and `now` are what a
   * confirmation would use for the new ticket.
   */
  ghost function CallbackSpec(db: Db, id: UserId, data: string, newId: TicketId, now: int): (e: Effect<CallbackReply>)
    ensures e.notices == []
    ensures e.reply == UserNotFound <==> id !in db.users
    ensures e.reply == UserNotFound || e.reply == InvalidAction ==> e.db == db
    ensures newId !in db.tickets ==> Evolves(db, e.db)
    ensures Consistent(db) ==> Consistent(e.db)
  {
    if id !in db.users then Effect(db, UserNotFound, [])
    else
      var u := db.users[id];
      if data == "cancel" then
        Effect(WithStep(db, id, Idle), CreationCancelled, [])
      else if data == "back" then
        var b := BackSpec(db, id);
        Effect(b.db, WentBack(b.reply), [])
      else if data == "skip" && CurrentStep(u.state) == TransactionIdStep then
        var st := u.state.(transactionId := Some("N/A"), ticketStep := Some(ConfirmationStep));
        assert Consistent(db) ==> DraftsComplete(st) by {
          if Consistent(db) { assert DraftsComplete(u.state); }
        }
        Effect(WithState(db, id, st), Skipped, [])
      else if StartsWith(data, "category:") then
        TaggedPayload("category", data);
        var c := SecondField(data);
        var st := u.state.(category := Some(c), ticketStep := Some(DescriptionStep));
        assert DraftsComplete(st);
        Effect(WithState(db, id, st), CategoryChosen(c), [])
      else if data == "confirm" && CurrentStep(u.state) == ConfirmationStep then
        var c := CreateSpec(db, id, newId, now);
        Effect(c.db, Confirmed(c.reply), [])
      else
        Effect(db, InvalidAction, [])
  }

  method HandleTicketCallback(s: Store, id: UserId, data: string, newId: TicketId, now: int)
    returns (r: CallbackReply)
    requires s.Valid() && newId !in s.tickets
    modifies s
    ensures s.Valid()
    ensures var e := CallbackSpec(old(s.Snapshot()), id, data, newId, now);
      s.Snapshot() == e.db && r == e.reply && s.outbox == old(s.outbox) + e.notices
  {
    if id !in s.users {
      return UserNotFound;
    }
    var user := s.users[id];
    if data == "cancel" {
      s.users := s.users[id := user.(state := user.state.(ticketStep := Some(Idle)))];
      return CreationCancelled;
    }
    if data == "back" {
      var b := HandleBackAction(s, id);
      return WentBack(b);
    }
    if data == "skip" && CurrentStep(user.state) == TransactionIdStep {
      s.users := s.users[id := user.(state := user.state.(transactionId := Some("N/A"), ticketStep := Some(ConfirmationStep)))];
      return Skipped;
    }
    if StartsWith(data, "category:") {
      TaggedPayload("category", data);
      var category := SecondField(data);
      s.users := s.users[id := user.(state := user.state.(category := Some(category), ticketStep := Some(DescriptionStep)))];
      return CategoryChosen(category);
    }
    if data == "confirm" && CurrentStep(user.state) == ConfirmationStep {
      var c := CreateTicket(s, id, newId, now);
      return Confirmed(c);
    }
    r := InvalidAction;
  }

  // ---------------------------------------------------------------------------
  // Creation text
  // ---------------------------------------------------------------------------

  /** The longest description accepted, in characters. */
  const MaxDescription: nat := 500

  /** `text.toLowerCase() === '/cancel'`; only ASCII letters can lower-case into that word. */
  predicate IsCancelText(text: string) {
    |text| == 7 && forall i :: 0 <= i < 7 ==> LowerAscii(text[i]) == "/cancel"[i]
  }

  datatype MessageReply = Cancelled | NotInFlow | DescriptionTooLong | AskTransactionId | ConfirmDetails | NotHandledInStep

  /** The creation handler reports the message as taken. */
  predicate Handled(r: MessageReply) {
    r == Cancelled || r == DescriptionTooLong || r == AskTransactionId || r == ConfirmDetails
  }

  /**
   * A text message from user `id` offered to the creation wizard. The
   * cancel word is recognised before the user is even looked up.
   */
  ghost function MessageSpec(db: Db, id: UserId, text: string): (e: Effect<MessageReply>)
    ensures e.notices == [] && e.db.tickets == db.tickets
    ensures Consistent(db) ==> Consistent(e.db)
  {
    if IsCancelText(text) then Effect(WithStep(db, id, Idle), Cancelled, [])
    else if id !in db.users || CurrentStep(db.users[id].state) == Idle then Effect(db, NotInFlow, [])
    else
      var st := db.users[id].state;
      match CurrentStep(st)
      case DescriptionStep =>
        if |text| > MaxDescription then Effect(db, DescriptionTooLong, [])
        else Effect(WithState(db, id, st.(description := Some(text), ticketStep := Some(TransactionIdStep))), AskTransactionId, [])
      case TransactionIdStep =>
        Effect(WithState(db, id, st.(transactionId := Some(text), ticketStep := Some(ConfirmationStep))), ConfirmDetails, [])
      case _ => Effect(db, NotHandledInStep, [])
  }

  method HandleTicketMessage(s: Store, id: UserId, text: string) returns (r: MessageReply)
    requires s.Valid()
    modifies s
    ensures s.Valid()
    ensures var e := MessageSpec(old(s.Snapshot()), id, text);
      s.Snapshot() == e.db && r == e.reply && s.outbox == old(s.outbox) + e.notices
  {
    if IsCancelText(text) {
      CancelTicketCreation(s, id);
      return Cancelled;
    }
    if id !in s.users || CurrentStep(s.users[id].state) == Idle {
      return NotInFlow;
    }
    var user := s.users[id];
    var step := CurrentStep(user.state);
    if step == DescriptionStep {
      if |text| > MaxDescription {
        return DescriptionTooLong;
      }
      s.users := s.users[id := user.(state := user.state.(description := Some(text), ticketStep := Some(TransactionIdStep)))];
      return AskTransactionId;
    }
    if step == TransactionIdStep {
      s.users := s.users[id := user.(state := user.state.(transactionId := Some(text), ticketStep := Some(ConfirmationStep)))];
      return ConfirmDetails;
    }
    r := NotHandledInStep;
  }

  // ---------------------------------------------------------------------------
  // Properties of the wizard
  // ---------------------------------------------------------------------------

  /**
   * All three ways of cancelling (the button, the text, the command) move
   * only the step back to idle: the drafts, the group and the reply target
   * stay as they were.
   */
  lemma CancelResetsOnlyTheStep(db: Db, id: UserId, text: string, newId: TicketId, now: int)
    requires id in db.users && IsCancelText(text)
    ensures var st := db.users[id].state.(ticketStep := Some(Idle));
      && CallbackSpec(db, id, "cancel", newId, now).db.users[id].state == st
      && MessageSpec(db, id, text).db.users[id].state == st
      && CancelSpec(db, id).db.users[id].state == st
    ensures CallbackSpec(db, id, "cancel", newId, now).db == MessageSpec(db, id, text).db == CancelSpec(db, id).db
  {
  }

  /**
   * The drafts outlive a cancel: pressing an old `category:` button after
   * cancelling puts the user straight back at the description step with the
   * description and transaction reference of the abandoned attempt.
   */
  lemma CancelledDraftsResurface(db: Db, id: UserId, c: string, newId: TicketId, now: int)
    requires id in db.users && ':' !in c
    ensures var cancelled := CallbackSpec(db, id, "cancel", newId, now).db;
      var again := CallbackSpec(cancelled, id, "category:" + c, newId, now);
      && again.reply == CategoryChosen(c)
      && CurrentStep(again.db.users[id].state) == DescriptionStep
      && again.db.users[id].state.category == Some(c)
      && again.db.users[id].state.description == db.users[id].state.description
      && again.db.users[id].state.transactionId == db.users[id].state.transactionId
  {
    var data := "category:" + c;
    assert StartsWith(data, "category:");
    TaggedPayload("category", data);
    assert data[9..] == c;
    UntilColonWhole(c);
  }

  /** A string without ':' is its own first field. */
  lemma {:induction false} UntilColonWhole(s: string)
    requires ':' !in s
    ensures UntilColon(s) == s
    decreases |s|
  {
    if |s| > 0 {
      UntilColonWhole(s[1..]);
    }
  }

  /** No category name holds a ':', so a category button's payload has exactly two fields. */
  lemma CategoryNameHasNoColon(c: Category)
    ensures ':' !in CategoryName(c)
  {
    match c
    case General =>
    case Technical =>
    case BridgingIbc =>
    case Staking =>
    case ViewingKeys =>
    case Other =>
  }

  /**
   * A `category:` payload is accepted whatever the step: the category is the
   * payload's second field, the step becomes description, and nothing else
   * in the user's state changes.
   */
  lemma CategoryAcceptedInAnyStep(db: Db, id: UserId, data: string, newId: TicketId, now: int)
    requires id in db.users && StartsWith(data, "category:")
    ensures var e := CallbackSpec(db, id, data, newId, now);
      var c := UntilColon(data[9..]);
      && e.reply == CategoryChosen(c)
      && e.db == WithState(db, id, db.users[id].state.(category := Some(c), ticketStep := Some(DescriptionStep)))
  {
    TaggedPayload("category", data);
    assert data != "cancel" && data != "back" && data != "skip" && data != "confirm" by {
      assert data[..9] == "category:";
    }
  }

  /**
   * `skip` and `confirm` act only in their own step; pressed anywhere else
   * they are invalid actions and change nothing.
   */
  lemma SkipAndConfirmOnlyInTheirStep(db: Db, id: UserId, newId: TicketId, now: int)
    requires id in db.users
    ensures var step := CurrentStep(db.users[id].state);
      && (CallbackSpec(db, id, "skip", newId, now).reply == Skipped <==> step == TransactionIdStep)
      && (CallbackSpec(db, id, "confirm", newId, now).reply.Confirmed? <==> step == ConfirmationStep)
      && (step != TransactionIdStep ==> CallbackSpec(db, id, "skip", newId, now) == Effect(db, InvalidAction, []))
      && (step != ConfirmationStep ==> CallbackSpec(db, id, "confirm", newId, now) == Effect(db, InvalidAction, []))
  {
    assert !StartsWith("skip", "category:") && !StartsWith("confirm", "category:");
  }

  /**
   * Skipping the transaction reference records 'N/A' and moves to
   * confirmation; a ticket confirmed from there then carries the
   * description alone.
   */
  lemma SkipLeavesNoTransactionEntry(db: Db, id: UserId, newId: TicketId, now: int)
    requires id in db.users && CurrentStep(db.users[id].state) == TransactionIdStep
    ensures var skipped := CallbackSpec(db, id, "skip", newId, now).db;
      && skipped.users[id].state == db.users[id].state.(transactionId := Some("N/A"), ticketStep := Some(ConfirmationStep))
      && !HasTransactionRef(skipped.users[id].state)
  {
  }

  /**
   * The creation handler leaves a message to the next handler exactly when
   * it is not the cancel word and the sender is unknown or sits at idle
   * (or no step), category or confirmation; such a message changes nothing.
   */
  lemma UnhandledExactly(db: Db, id: UserId, text: string)
    ensures var e := MessageSpec(db, id, text);
      (!Handled(e.reply) <==>
        !IsCancelText(text)
        && (id !in db.users || CurrentStep(db.users[id].state) in {Idle, CategoryStep, ConfirmationStep}))
      && (!Handled(e.reply) ==> e.db == db)
  {
  }

  /**
   * At the description step an over-long text is refused but taken, with no
   * change; any other text becomes the description and the wizard moves on.
   */
  lemma DescriptionLengthLimit(db: Db, id: UserId, text: string)
    requires id in db.users && CurrentStep(db.users[id].state) == DescriptionStep && !IsCancelText(text)
    ensures var e := MessageSpec(db, id, text);
      && Handled(e.reply)
      && (|text| > MaxDescription <==> e.db == db)
      && (|text| <= MaxDescription ==>
            e.db.users[id].state == db.users[id].state.(description := Some(text), ticketStep := Some(TransactionIdStep)))
  {
    var st := db.users[id].state;
    if |text| <= MaxDescription {
      var e := MessageSpec(db, id, text);
      assert e.db.users[id].state.ticketStep != st.ticketStep;
    }
  }

  /**
   * Back undoes the last forward move of the wizard and keeps what was
   * typed: after giving a description (or a transaction reference), back
   * returns to the previous step with that draft still recorded.
   */
  lemma BackUndoesTextStep(db: Db, id: UserId, text: string, newId: TicketId, now: int)
    requires id in db.users && !IsCancelText(text) && |text| <= MaxDescription
    requires CurrentStep(db.users[id].state) in {DescriptionStep, TransactionIdStep}
    ensures var typed := MessageSpec(db, id, text).db;
      var back := CallbackSpec(typed, id, "back", newId, now);
      && back.reply.WentBack? && back.reply.back != CannotGoBack
      && CurrentStep(back.db.users[id].state) == CurrentStep(db.users[id].state)
      && (CurrentStep(db.users[id].state) == DescriptionStep ==> back.db.users[id].state.description == Some(text))
      && (CurrentStep(db.users[id].state) == TransactionIdStep ==> back.db.users[id].state.transactionId == Some(text))
  {
  }

  /**
   * The wizard's first two moves, in a private chat: `/ticket` and a
   * category button leave the user at the description step with only that
   * category drafted.
   */
  lemma WizardReachesDescription(db: Db, id: UserId, username: Option<string>, c: Category, newId: TicketId, now: int,
                                 db1: Db, db2: Db)
    requires db1 == StartSpec(db, id, username, None, true).db
    requires db2 == CallbackSpec(db1, id, "category:" + CategoryName(c), newId, now).db
    ensures db2.tickets == db.tickets && id in db2.users
    ensures db2.users[id].state == ConvState(Some(DescriptionStep), Some(CategoryName(c)), None, None, None, None)
  {
    var st1 := ConvState(Some(CategoryStep), None, None, None, None, None);
    assert id in db1.users && db1.users[id].state == st1 && db1.tickets == db.tickets;
    var name := CategoryName(c);
    var data := "category:" + name;
    CategoryNameHasNoColon(c);
    assert data[9..] == name;
    UntilColonWhole(name);
    CategoryAcceptedInAnyStep(db1, id, data, newId, now);
  }

  /**
   * The wizard's forward moves, in a private chat: `/ticket`, a category
   * button, a description and skip leave the user at the confirmation step
   * with exactly those drafts, and no ticket yet.
   */
  lemma WizardReachesConfirmation(db: Db, id: UserId, username: Option<string>, c: Category, d: string, newId: TicketId, now: int,
                                  db1: Db, db2: Db, db3: Db, db4: Db)
    requires d != "" && |d| <= MaxDescription && !IsCancelText(d)
    requires db1 == StartSpec(db, id, username, None, true).db
    requires db2 == CallbackSpec(db1, id, "category:" + CategoryName(c), newId, now).db
    requires db3 == MessageSpec(db2, id, d).db
    requires db4 == CallbackSpec(db3, id, "skip", newId, now).db
    ensures db4.tickets == db.tickets && id in db4.users
    ensures db4.users[id].state == ConvState(Some(ConfirmationStep), Some(CategoryName(c)), Some(d), Some("N/A"), None, None)
  {
    WizardReachesDescription(db, id, username, c, newId, now, db1, db2);
    var st2 := db2.users[id].state;
    DescriptionLengthLimit(db2, id, d);
    var st3 := st2.(description := Some(d), ticketStep := Some(TransactionIdStep));
    assert db3.users[id].state == st3 && db3.tickets == db.tickets;
    SkipLeavesNoTransactionEntry(db3, id, newId, now);
  }

  /**
   * The whole wizard, in a private chat: after the moves above, confirm
   * yields one new ticket, open, unassigned, in the chosen category, whose
   * transcript is the description alone, and the user is back at idle with
   * it as their active ticket.
   */
  lemma WizardHappyPath(db: Db, id: UserId, username: Option<string>, c: Category, d: string, newId: TicketId, now: int,
                        db1: Db, db2: Db, db3: Db, db4: Db)
    requires c != Technical && newId !in db.tickets
    requires d != "" && |d| <= MaxDescription && !IsCancelText(d)
    requires db1 == StartSpec(db, id, username, None, true).db
    requires db2 == CallbackSpec(db1, id, "category:" + CategoryName(c), newId, now).db
    requires db3 == MessageSpec(db2, id, d).db
    requires db4 == CallbackSpec(db3, id, "skip", newId, now).db
    ensures var e := CallbackSpec(db4, id, "confirm", newId, now);
      && e.reply == Confirmed(Created(newId))
      && e.db.tickets.Keys == db.tickets.Keys + {newId}
      && e.db.tickets[newId].userId == id
      && e.db.tickets[newId].category == c
      && e.db.tickets[newId].description == d
      && e.db.tickets[newId].status == Open && e.db.tickets[newId].assignedTo == None
      && |e.db.tickets[newId].messages| == 1 && e.db.tickets[newId].messages[0].text == d
      && id in e.db.users && e.db.users[id].activeTicket == Some(newId)
      && CurrentStep(e.db.users[id].state) == Idle
  {
    WizardReachesConfirmation(db, id, username, c, d, newId, now, db1, db2, db3, db4);
    assert DraftSavable(db4.users[id].state) && !HasTransactionRef(db4.users[id].state);
    assert !StartsWith("confirm", "category:");
    var e := CallbackSpec(db4, id, "confirm", newId, now);
    var created := CreateSpec(db4, id, newId, now);
    assert e.reply == Confirmed(created.reply) && e.db == created.db;
    var u := db4.users[id];
    assert created.db.tickets[newId] == Ticket(id, OwnerName(u), c, d, Open, Medium, OpeningTranscript(u, now), None, now, now);
  }
}
