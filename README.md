# SupportTicket bot: a verified model of its core

This project models, in Dafny, the core of a Telegram support-ticket bot.

- **Who uses it.** Users open tickets through a button-driven wizard and
  follow them up with plain text. Staff claim tickets, reply, resolve them
  and list their assignments. A bootstrap script makes configured ids into
  admin staff.
- **The store.** `Storage.Store` holds the two MongoDB collections as maps:
  users keyed by Telegram id, tickets keyed by ticket id. A ghost outbox
  records the messages sent to chats other than the one the event came
  from; that includes the sender's own private chat (the category menu of a
  group `/ticket`, the briefing of an agent who pressed Claim). The category
  menu is recorded only when it was delivered; every other notice records
  the attempt.
- **The handlers.** Each handler is an imperative method on the store.
  Each method is proved against a ghost specification function
  (`…Spec(db, …): Effect<R>`) that gives the new tables, the answer and the
  notices sent.
- **The properties.** Lemmas state the lifecycle properties about those
  functions.

Modules, one per source file (plus two shared ones):

- `Models` (models.dfy): the Ticket and User schemas, with their enums,
  defaults and the names derived from a user.
- `Storage` (storage.dfy): the tables and the store. It also defines what
  every handler preserves:
  - `Consistent`: each user is stored under its own id, drafts match the
    step, and transcript entries are non-empty;
  - `Evolves`: nothing disappears, transcripts only grow, and a set
    assignee is never replaced.
- `TicketService` (ticket_service.dfy): keyboards, back, creation, the
  staff preview, claiming, and the agent's transcript entry.
- `TicketController` (ticket_controller.dfy): the creation wizard. This
  covers `/ticket`, the creation buttons, text typed during creation, and
  `/cancel`.
- `SupportController` (support_controller.dfy): the staff and owner
  handlers. These are the assignment list, view, reply, resolve (by command
  and by button), reply target, follow-up text, owner cancel and the claim
  button.
- `Router` (router.dfy): the callback dispatcher and the text pipeline of
  the bot's entry point.
- `SetupStaff` (setup_staff.dfy): the staff bootstrap loop.
- `Text` (text.dfy) and `Wrappers` (wrappers.dfy): decimal printing and
  parsing, JavaScript-style trimming, truncation, `split(':')[1]`, and
  `Option`.

Time (`now`), fresh ticket ids (`newId`) and whether a message to another
chat was delivered (`dmOk`, `editOk`, `briefingOk`, `delivered`) are
parameters of the handlers. Where the source looks up an assignee by handle,
and several users share that handle, the store may return any of them. The
model takes that answer as a ghost out-parameter (`agent`) constrained by
`SupportController.AssigneeAnswer`.

The model follows the code where it behaves as follows:

- **The claim entry.** `addAgentToConversation` sends the briefing before
  it pushes the transcript entry, and both happen inside one `try`. So the
  "agent assigned" entry is appended only when the briefing was delivered,
  and only when the channel message could be edited first. The assignment
  itself is saved in any case.
- **Assignment keys can collide.** They are not injective: a user whose
  handle is `agent_42` has the same key as user 42 without a handle
  (`Models.AgentKeyCollision`).
- **Text at the category or confirmation step.** The creation handler
  leaves such text unhandled. The support handler may then append it to the
  user's previous live ticket
  (`Router.WaitingForCategoryAppendsToOpenTicket`).
- **`/ticket` replaces the whole `state`.** This also wipes a staff member's
  reply target. Cancelling keeps the drafts, so an old category button
  brings them back (`TicketController.CancelledDraftsResurface`).
- **The Resolve button leaves the reply target set.** The reply target stays
  on the resolved ticket, so further `/reply`s are still appended to it
  (`SupportController.ReplyAfterResolveButton`).

## Model

| member | source | states |
|---|---|---|
| Models.StatusName | src/models/ticket.js:21-26 | each of the four statuses has a name that parses back to it, so the names are distinct |
| Models.CategoryName | src/models/ticket.js:12-16 | each of the six categories has a name that parses back to it |
| Models.PriorityName | src/models/ticket.js:27-32 | each of the four priorities has a name that parses back to it |
| Models.RoleName | src/models/user.js:25-29 | each of the three roles has a name that parses back to it |
| Models.StepName | src/controllers/ticketController.js:7-13 | each of the five wizard steps has a name that parses back to it |
| Models.CurrentStep | src/controllers/ticketController.js:196-200 | the step is the stored `ticketStep`, or idle when the state has none |
| Models.NewUser | src/models/user.js:4-38 | a new user has the given id and handle, is not staff, has role user, an empty state (idle) and no active ticket |
| Models.AgentKey | src/services/ticketService.js:271 | the key is never empty; it is the handle when set, otherwise `agent_` followed by a decimal that parses back to the id |
| Models.OwnerName | src/services/ticketService.js:143 | the owner name is never empty; it is the handle when set, otherwise `user_` followed by the id |
| Models.PlainName | src/services/ticketService.js:334 | the name in a system entry is the handle when set, otherwise a decimal that parses back to the id |
| Models.AgentKeyCollision | src/controllers/supportController.js:451-462 | two handle-less users share a key only if they are the same user, but a user whose handle is `agent_<n>` collides with handle-less user n |
| Text.ParseIntRoundTrip | src/controllers/supportController.js:455-458 | printing an id in decimal and parsing it back gives the id |
| Text.IntToStringInjective | src/controllers/supportController.js:455-458 | distinct ids print differently |
| Text.TaggedPayload | src/index.js:76-79 | for a payload `tag:rest`, the second `:`-field is `rest` up to its next `:` |
| Text.Trim | src/controllers/supportController.js:249 | the result is a slice of the input with only white space around it, and has no white space at either end; it is empty exactly when the input is all white space |
| Text.TrimIdempotent | src/controllers/supportController.js:249 | trimming twice is trimming once |
| Text.Truncate | src/controllers/supportController.js:43-45 | the result is within the limit; it equals the input exactly when the input fits; otherwise it is the first `keep` characters followed by `...` |
| Storage.AppendEntry | src/models/ticket.js:33-46 | pushing an entry grows the transcript by exactly that entry at the end, changes nothing else, and keeps every entry well formed |
| Storage.WithState | src/controllers/ticketController.js:141-150 | an update by id writes only that user's state, and it is a no-op for an unknown id |
| TicketService.CategoryKeyboard | src/services/ticketService.js:9-20 | one row per offered category, with payload `category:<name>`, then a single Cancel row |
| TicketService.KeyboardOffersAllButTechnical | src/services/ticketService.js:6 | the keyboard offers every schema category except Technical, and every offered name is a schema category |
| TicketService.NotificationPreview | src/services/ticketService.js:214-216 | the preview is the description when it is at most 100 characters, otherwise its first 97 characters plus `...` |
| TicketService.BackSpec | src/services/ticketService.js:81-130 | back moves transaction_id to description and confirmation to transaction_id; in every other step it changes nothing; only `ticketStep` is written |
| TicketService.HandleBackAction | src/services/ticketService.js:81-130 | the store and the answer after back are those of `BackSpec`, and the store stays consistent |
| TicketService.OpeningTranscript | src/services/ticketService.js:141-160 | the transcript opens with the description under the owner name; the `TX Hash(es)` entry follows exactly when a transaction reference other than `N/A` was given |
| TicketService.CreateSpec | src/services/ticketService.js:133-200 | creation succeeds exactly when the drafted category is one of the six schema names and the drafted description is non-empty (`DraftSavable`); the new ticket is open, medium priority, unassigned and holds the drafts; the owner returns to idle with the ticket as active ticket; a failure changes nothing |
| TicketService.CreateTicket | src/services/ticketService.js:133-200 | the store and the answer after creation are those of `CreateSpec` |
| TicketService.ClaimEntry | src/services/ticketService.js:332-335 | the entry the agent adds is sent under the agent's key and is well formed |
| TicketService.AddAgentSpec | src/services/ticketService.js:318-344 | the agent is briefed, and the claim entry is appended exactly when the briefing was delivered; no user changes |
| TicketService.AddAgentToConversation | src/services/ticketService.js:318-344 | the store and the outbox afterwards are those of `AddAgentSpec` |
| TicketService.TakenBy | src/services/ticketService.js:271-272 | the ticket gets the key as assignee and the status in-progress; from unassigned this is an allowed evolution |
| TicketService.ClaimSpec | src/services/ticketService.js:246-315 | a claim goes ahead exactly when the ticket and agent exist, the agent is staff and no assignee is set (status is not checked); a refusal changes nothing; a successful claim tells the owner and briefs the agent, a failed edit sends nothing |
| TicketService.ClaimGranted | src/services/ticketService.js:270-315 | an allowed claim saves the assignment; the answer is success exactly when the edit worked; after a successful edit the owner is told and the agent briefed, in that order, and the entry is appended when the briefing was delivered; after a failed edit nothing is sent |
| TicketService.ClaimTicket | src/services/ticketService.js:246-315 | the store, the answer and the notices after a claim are those of `ClaimSpec` |
| TicketController.WithStep | src/controllers/ticketController.js:99-102 | only the user's `ticketStep` is written |
| TicketController.StartSpec | src/controllers/ticketController.js:16-79 | `/ticket` creates the user with defaults when unknown and replaces the whole state by a fresh one at the category step, remembering a group; delivery decides only the answer |
| TicketController.StartTicketCreation | src/controllers/ticketController.js:16-79 | the store, the answer and the notices after `/ticket` are those of `StartSpec` |
| TicketController.CancelSpec | src/controllers/ticketController.js:270-279 | `/cancel` sets only the step to idle |
| TicketController.CancelTicketCreation | src/controllers/ticketController.js:270-279 | the store after `/cancel` is that of `CancelSpec` |
| TicketController.CallbackSpec | src/controllers/ticketController.js:82-181 | an unknown user is refused and an invalid action changes nothing; no ticket is lost and the store stays consistent |
| TicketController.HandleTicketCallback | src/controllers/ticketController.js:82-181 | the store and the answer after a creation button are those of `CallbackSpec` |
| TicketController.MessageSpec | src/controllers/ticketController.js:184-267 | text in the wizard never touches tickets and keeps the store consistent |
| TicketController.HandleTicketMessage | src/controllers/ticketController.js:184-267 | the store and the answer after a wizard text are those of `MessageSpec` |
| TicketController.CancelResetsOnlyTheStep | src/controllers/ticketController.js:97-106 | the cancel button, the cancel text and `/cancel` all leave the same store, with only the step set to idle |
| TicketController.CancelledDraftsResurface | src/controllers/ticketController.js:134-150 | after a cancel, an old category button restores the description step with the abandoned drafts |
| TicketController.CategoryAcceptedInAnyStep | src/controllers/ticketController.js:134-164 | a `category:` payload is accepted in every step; it sets the category to the second field and the step to description, and nothing else |
| TicketController.SkipAndConfirmOnlyInTheirStep | src/controllers/ticketController.js:114-174 | skip acts exactly in the transaction step and confirm exactly in the confirmation step; elsewhere each is an invalid action with no change |
| TicketController.SkipLeavesNoTransactionEntry | src/controllers/ticketController.js:114-131 | skip records `N/A` and moves to confirmation, so no transaction entry will be created |
| TicketController.UnhandledExactly | src/controllers/ticketController.js:196-261 | text is left unhandled exactly when it is not the cancel word and the user is unknown or at idle, category or confirmation; unhandled text changes nothing |
| TicketController.DescriptionLengthLimit | src/controllers/ticketController.js:205-235 | at the description step, text over 500 characters changes nothing, and any other text becomes the description and moves to transaction_id; both count as handled |
| TicketController.BackUndoesTextStep | src/services/ticketService.js:81-130 | back after typing a description or reference returns to that step with the typed draft kept |
| TicketController.WizardReachesDescription | src/controllers/ticketController.js:134-164 | `/ticket` and a category button leave the user at the description step with only that category drafted |
| TicketController.WizardReachesConfirmation | src/controllers/ticketController.js:82-267 | `/ticket`, category, description and skip reach confirmation with exactly those drafts and no ticket yet |
| TicketController.WizardHappyPath | src/services/ticketService.js:133-200 | confirming then creates exactly one open, unassigned ticket in that category with the description as its only entry, and the user is idle with it as active ticket |
| SupportController.WithReplyTarget | src/controllers/supportController.js:639-642 | only the staff member's reply target is written |
| SupportController.FindAssignee | src/controllers/supportController.js:451-462 | the agent found is a possible answer of the store for the assignment key |
| SupportController.AgentKeyFindsAgent | src/controllers/supportController.js:455-458 | the key of a staff member without a handle always leads back to that staff member |
| SupportController.ShortDescription | src/controllers/supportController.js:43-45 | the listed description is the description when it is at most 30 characters, otherwise its first 27 characters plus `...` |
| SupportController.ViewAssignedTickets | src/controllers/supportController.js:7-71 | non-staff callers are refused; staff get exactly the open or in-progress tickets assigned to their key, newest first, with short descriptions |
| SupportController.ListingHasEveryTicketOnce | src/controllers/supportController.js:26-45 | the listing has one line per selected ticket, with no repeats |
| SupportController.ViewTicket | src/controllers/supportController.js:99-170 | staff see any existing ticket; others are refused |
| SupportController.ViewUserTicketSpec | src/controllers/supportController.js:173-235 | the owner sees their active ticket, with the cancel button only while it is not resolved or closed; a reference to a missing ticket is cleared |
| SupportController.ViewUserTicket | src/controllers/supportController.js:173-235 | the store and the answer of `/myticket` are those of `ViewUserTicketSpec` |
| SupportController.SetReplyContextSpec | src/controllers/supportController.js:611-658 | the Reply button sets the reply target exactly when the caller is the ticket's assignee; otherwise nothing changes |
| SupportController.SetReplyContext | src/controllers/supportController.js:611-658 | the store and the answer of the Reply button are those of `SetReplyContextSpec` |
| SupportController.ReplyText | src/controllers/supportController.js:244-252 | a message is extracted exactly when the text is `/reply`, white space, and something that is not all white space; the message is that remainder trimmed, and non-empty |
| SupportController.ReplyTextRoundTrip | src/controllers/supportController.js:244-252 | any message without surrounding white space comes back out of `/reply <message>` |
| SupportController.ReplySpec | src/controllers/supportController.js:238-317 | a malformed `/reply` changes nothing; otherwise it behaves as `ReplyWithText` on the extracted message |
| SupportController.ReplyWithText | src/controllers/supportController.js:255-317 | the reply is stored exactly when the caller is the assignee of their reply target, as one entry under their key, and it is sent to the owner; a vanished target is cleared; everything else changes nothing |
| SupportController.ReplyToTicket | src/controllers/supportController.js:238-317 | the store, the answer and the notices of `/reply` are those of `ReplySpec` |
| SupportController.SendReply | src/controllers/supportController.js:255-317 | the store, the answer and the notices once the text is extracted are those of `ReplyWithText` |
| SupportController.ResolutionEntry | src/controllers/supportController.js:362-366 | the resolution entry is a well-formed `system` entry |
| SupportController.Resolution | src/controllers/supportController.js:358-375 | the ticket becomes resolved whatever its status, with one system entry; the owner's active ticket is cleared only when it is this ticket |
| SupportController.ResolveSpec | src/controllers/supportController.js:320-419 | `/resolve` resolves exactly when the caller is the assignee of their reply target, tells the owner and clears the reply target; a vanished target is cleared; anything else changes nothing |
| SupportController.Resolve | src/controllers/supportController.js:358-375 | the store after the shared resolution step is `Resolution` |
| SupportController.ResolveTicket | src/controllers/supportController.js:320-419 | the store, the answer and the notices of `/resolve` are those of `ResolveSpec` |
| SupportController.ResolveCallbackSpec | src/controllers/supportController.js:504-608 | the Resolve button resolves exactly when the caller is the assignee, leaving the reply target on the ticket; otherwise nothing changes |
| SupportController.ResolveTicketCallback | src/controllers/supportController.js:504-608 | the store, the answer and the notices of the Resolve button are those of `ResolveCallbackSpec` |
| SupportController.ClosureEntry | src/controllers/supportController.js:699-703 | the closure entry is a well-formed `system` entry |
| SupportController.CancelUserTicketSpec | src/controllers/supportController.js:661-756 | an owner's cancel succeeds exactly when the ticket is their active one, theirs, and neither resolved nor closed; it closes the ticket with one entry, clears the active ticket and tells the assignee when one is found; a missing ticket is cleared |
| SupportController.CancelUserTicket | src/controllers/supportController.js:661-756 | the store, the answer and the notices of the Cancel Ticket button are those of `CancelUserTicketSpec`, with the assignee looked up after the save |
| SupportController.FollowUpTarget | src/controllers/supportController.js:434-436 | the target is the active ticket of a non-staff user, exactly when it exists and is open or in progress |
| SupportController.FollowUpSpec | src/controllers/supportController.js:422-501 | non-empty text is appended under the owner name exactly when there is a follow-up target, and forwarded to the assignee when found; a staff member with a reply target gets a hint; anything else changes nothing |
| SupportController.HandleSupportMessage | src/controllers/supportController.js:422-501 | the store, the answer and the notices of the support text handler are those of `FollowUpSpec`, with the assignee looked up after the save |
| SupportController.ClaimCallbackSpec | src/controllers/supportController.js:74-96 | the Claim button refuses unknown and non-staff callers with no change, and otherwise is the service's claim |
| SupportController.ClaimTicketCallback | src/controllers/supportController.js:74-96 | the store, the answer and the notices of the Claim button are those of `ClaimCallbackSpec` |
| SupportController.StaffGate | src/controllers/supportController.js:255-263 | a caller without a staff record changes nothing and tells no one through claim, reply, reply target or either resolve |
| SupportController.AssigneeOnly | src/controllers/supportController.js:282-285 | a staff member who is not the assignee can neither reply, resolve, nor take the ticket as reply target |
| SupportController.ResolveIgnoresStatus | src/controllers/supportController.js:538-548 | resolving succeeds for the assignee whatever the status, and appends one more entry each time |
| SupportController.ReplyAfterResolveButton | src/controllers/supportController.js:532-535 | after the Resolve button, a reply is still appended to the resolved ticket, which stays resolved |
| SupportController.NoReplyAfterResolveCommand | src/controllers/supportController.js:390-391 | after `/resolve` the next reply is refused for lack of a target |
| SupportController.ReplyKeptWhenUndelivered | src/controllers/supportController.js:288-311 | a reply is stored whether or not it reaches the owner; delivery decides only the answer |
| SupportController.OwnerCancelOnce | src/controllers/supportController.js:672-710 | an owner's cancel closes the ticket with one entry, and a second press is refused with no change |
| SupportController.FinishedTicketTakesNoFollowUp | src/controllers/supportController.js:552-556 | after the Resolve button, the owner's next text is not appended to the resolved ticket |
| SupportController.ResolvedTicketTakesNoFollowUp | src/controllers/supportController.js:371-375 | after `/resolve`, the owner's next text is not appended to the resolved ticket |
| SupportController.CancelledTicketTakesNoFollowUp | src/controllers/supportController.js:696-710 | after the owner's cancel, whether it closes the ticket or finds it finished, the owner's next text is not appended to it |
| Router.ScopeTag | src/index.js:76-103 | each ticket-scoped prefix is a non-empty tag without `:` |
| Router.ButtonPayload | src/services/ticketService.js:229 | a ticket button's payload starts with its tag and `:` |
| Router.TicketField | src/index.js:77 | the id handed to a handler is the segment between the first and second `:`, and it holds no `:` |
| Router.Dispatch | src/index.js:63-108 | creation payloads go to the wizard first; a ticket-scoped prefix yields its handler with the second `:`-field; anything else is unsupported exactly when no prefix matches |
| Router.ButtonIsNotCreation | src/index.js:67-73 | no ticket button payload is taken for a creation callback |
| Router.TagsExclusive | src/index.js:76-103 | at most one ticket-scoped prefix matches a payload |
| Router.ButtonRoundTrip | src/index.js:76-103 | every ticket button the bot builds dispatches to its own handler with its own ticket id |
| Router.KeyboardsRouteToWizard | src/services/ticketService.js:9-47 | every button on the category, transaction and confirmation keyboards is dispatched to the creation handler |
| Router.RouteCallback | src/index.js:63-108 | each callback has exactly the effect of the handler `Dispatch` picks, and the closing notice of an owner's cancel goes to a possible answer of the store for the assignee; an unsupported one changes nothing |
| Router.RouteTextSpec | src/index.js:111-141 | text goes to the wizard first and to the support handler only when the wizard leaves it; tickets change only when the support handler takes it |
| Router.RouteText | src/index.js:111-141 | the store, the outcome and the notices of a text are those of `RouteTextSpec` |
| Router.NotUnderstoodExactly | src/index.js:133-136 | the "don't understand" answer is given exactly when neither handler takes the text and the sender is unknown or idle |
| Router.NoAnswerExactly | src/index.js:133-136 | no answer at all is given exactly when neither handler takes the text and the sender is in a step |
| Router.DraftTextStaysInTheWizard | src/index.js:114-119 | at the description and transaction steps every text is taken by the wizard |
| Router.WaitingForCategoryAppendsToOpenTicket | src/index.js:122-127 | a user waiting at the category step with a live active ticket has their text appended to that ticket |
| SetupStaff.AdminName | setup-staff.js:39 | a created admin is named `admin_` followed by a decimal that parses back to the id |
| SetupStaff.NewAdmin | setup-staff.js:37-42 | a created admin has that id and name, is staff with role admin, and otherwise has the defaults |
| SetupStaff.Promote | setup-staff.js:33-55 | one step creates an unknown id as admin or makes a known user admin staff with every other field kept; no other user changes |
| SetupStaff.Expected | setup-staff.js:31-57 | the reference outcome: listed ids promoted or created, everyone else as before |
| SetupStaff.SetupIsExpected | setup-staff.js:31-57 | the loop's outcome equals the entry-by-entry reference outcome |
| SetupStaff.SetupStaffUsers | setup-staff.js:23-57 | an empty list ends at once; otherwise the users table is the loop's outcome, and tickets do not change |
| SetupStaff.SetupOutcome | setup-staff.js:31-57 | afterwards every listed id is admin staff, existing users keep their other fields, created users are named `admin_<id>`, unlisted users are unchanged, and no user disappears |
| SetupStaff.EmptyListIsNoOp | setup-staff.js:23-26 | an empty list changes nothing |
| SetupStaff.SetupIdempotent | setup-staff.js:31-57 | running the bootstrap a second time with the same list changes nothing |
| SetupStaff.SetupOrderIrrelevant | setup-staff.js:31-57 | the outcome depends only on which ids are listed, not on their order or repetition |

## Left out

- Message texts and formatting are not modelled. This covers the emoji strings, the locale-formatted dates, and the bodies built by `showConfirmation`, `viewTicket` and `viewUserTicket`. Answers are the datatype constructors; only the decisions are kept, such as when the cancel button is shown.
- The staff channel is not modelled. This covers its notification message and its id, and `supportChannelMessageId`, which is not part of the schema. `notifySupportTeam` is modelled only through its preview truncation.
- Telegram delivery is a boolean parameter, and only where the source catches a failure. Answers to the invoking chat are taken as delivered.
- The random display label `TKT-…-nnnn` is never stored, so it is not modelled.
- `now` stands for every `Date.now` of one handler. The schema's timestamp defaults are that same value.
- Fresh ticket ids are not allocated: `newId` is a parameter that must not name an existing ticket.
- `firstName`, `lastName` and the user timestamps are not modelled, since no core handler reads them.
- Races between concurrent events and the atomicity of MongoDB updates are not modelled. Each handler is one sequential step over the two maps.
- Database errors, `CastError` on malformed ids, and the `catch` blocks that answer with an apology are not modelled.
- `SupportController.AssigneeAnswer`: it decodes an `agent_<digits>` key with a strict decimal parser. The source uses `parseInt(key.split('_')[1])`, which also accepts trailing junk (`agent_42x`).
- `SupportController.AssigneeAnswer` leaves open which of several users with the same handle the store returns.
- `SupportController.AssigneeAnswer`: a handle that itself starts with `agent_` but is not followed by digits (`agent_bob`) makes the source's `parseInt` yield NaN. The id query then fails with a CastError after the follow-up was saved, so the handler reports the text as not taken and the router may answer "don't understand". The model instead finds no agent and reports the follow-up as added.
- `SetupStaff.SetupStaffUsers`: it takes the ids as a list of integers. Reading `ADMIN_USER_IDS` from the environment, `parseInt` of each entry, the connection and `process.exit` are not modelled.
- Length limits count characters, while JavaScript counts UTF-16 code units. White space for trimming is the JavaScript `\s` set, listed explicitly.
- Persistence of `agent.state.activeTicket = null` on a Mixed-type field is taken as effective. Mongoose change tracking is not modelled.
- Command registration and the session-based help text (`src/index.js:29-60`) are not modelled. The router is modelled from its dispatch onwards.
- The HTTP server, bot launch, signal handling and configuration loading are not modelled.
