/**
 * The two persisted entities of the support bot, User and Ticket, with the
 * enumerations and defaults their schemas declare, and the names the
 * handlers derive from a User (the owner name and the assignment key).
 */
module Models {
  import opened Wrappers
  import opened Text

  /** A chat participant's numeric id; unique among users, so users are keyed by it. */
  type UserId = int

  /** The store-assigned ticket id, as it travels in callback payloads. */
  type TicketId = string

  // ---------------------------------------------------------------------------
  // Ticket schema
  // ---------------------------------------------------------------------------

  datatype Status = Open | InProgress | Resolved | Closed

  /** A new ticket's status when none is given. */
  const DefaultStatus: Status := Open

  function StatusName(s: Status): (r: string)
    ensures ParseStatus(r) == Some(s)
  {
    match s
    case Open => "open"
    case InProgress => "in-progress"
    case Resolved => "resolved"
    case Closed => "closed"
  }

  function ParseStatus(name: string): Option<Status> {
    if name == "open" then Some(Open)
    else if name == "in-progress" then Some(InProgress)
    else if name == "resolved" then Some(Resolved)
    else if name == "closed" then Some(Closed)
    else None
  }

  /** The categories the ticket schema accepts (one more than the creation keyboard offers). */
  datatype Category = General | Technical | BridgingIbc | Staking | ViewingKeys | Other

  function CategoryName(c: Category): (r: string)
    ensures ParseCategory(r) == Some(c)
  {
    match c
    case General => "General"
    case Technical => "Technical"
    case BridgingIbc => "Bridging/IBC"
    case Staking => "Staking"
    case ViewingKeys => "Viewing Keys"
    case Other => "Other"
  }

  /** The schema's enum check on a category string: exactly the six names pass. */
  function ParseCategory(name: string): Option<Category> {
    if name == "General" then Some(General)
    else if name == "Technical" then Some(Technical)
    else if name == "Bridging/IBC" then Some(BridgingIbc)
    else if name == "Staking" then Some(Staking)
    else if name == "Viewing Keys" then Some(ViewingKeys)
    else if name == "Other" then Some(Other)
    else None
  }

  datatype Priority = Low | Medium | High | Urgent

  /** A new ticket's priority when none is given. */
  const DefaultPriority: Priority := Medium

  function PriorityName(p: Priority): (r: string)
    ensures ParsePriority(r) == Some(p)
  {
    match p
    case Low => "low"
    case Medium => "medium"
    case High => "high"
    case Urgent => "urgent"
  }

  function ParsePriority(name: string): Option<Priority> {
    if name == "low" then Some(Low)
    else if name == "medium" then Some(Medium)
    else if name == "high" then Some(High)
    else if name == "urgent" then Some(Urgent)
    else None
  }

  /** One transcript entry; `timestamp` is the insertion time, an opaque clock reading. */
  datatype Msg = Msg(sender: string, text: string, timestamp: int)

  /** The schema marks both sender and text as required: neither may be empty. */
  predicate WellFormedMsg(m: Msg) {
    m.sender != "" && m.text != ""
  }

  predicate WellFormedTranscript(msgs: seq<Msg>) {
    forall i :: 0 <= i < |msgs| ==> WellFormedMsg(msgs[i])
  }

  /** `assignedTo` absent (or empty, which JavaScript treats alike) means unassigned. */
  datatype Ticket = Ticket(
    userId: UserId,
    username: string,
    category: Category,
    description: string,
    status: Status,
    priority: Priority,
    messages: seq<Msg>,
    assignedTo: Option<string>,
    createdAt: int,
    updatedAt: int)

  /** JavaScript truthiness of an optional string field: present and non-empty. */
  predicate IsSet(o: Option<string>) {
    o.Some? && o.value != ""
  }

  /** The two statuses the lifecycle treats as live (follow-ups, the assigned list, owner cancel). */
  predicate IsLive(s: Status) {
    s == Open || s == InProgress
  }

  // ---------------------------------------------------------------------------
  // User schema
  // ---------------------------------------------------------------------------

  datatype Role = UserRole | Support | Admin

  /** A new user's role when none is given. */
  const DefaultRole: Role := UserRole

  function RoleName(r: Role): (name: string)
    ensures ParseRole(name) == Some(r)
  {
    match r
    case UserRole => "user"
    case Support => "support"
    case Admin => "admin"
  }

  function ParseRole(name: string): Option<Role> {
    if name == "user" then Some(UserRole)
    else if name == "support" then Some(Support)
    else if name == "admin" then Some(Admin)
    else None
  }

  /** The values of the ticket-creation step (STEPS in the ticket controller). */
  datatype Step = Idle | CategoryStep | DescriptionStep | TransactionIdStep | ConfirmationStep

  function StepName(s: Step): (r: string)
    ensures ParseStep(r) == Some(s)
  {
    match s
    case Idle => "idle"
    case CategoryStep => "category"
    case DescriptionStep => "description"
    case TransactionIdStep => "transaction_id"
    case ConfirmationStep => "confirmation"
  }

  function ParseStep(name: string): Option<Step> {
    if name == "idle" then Some(Idle)
    else if name == "category" then Some(CategoryStep)
    else if name == "description" then Some(DescriptionStep)
    else if name == "transaction_id" then Some(TransactionIdStep)
    else if name == "confirmation" then Some(ConfirmationStep)
    else None
  }

  /**
   * The free-form `state` object. Every key the handlers write is here:
   * the creation step, the three drafts, the group a creation was started
   * from, and `replyTarget`, which is the ticket a staff member is replying
   * to (stored under `state.activeTicket`, distinct from the user's own
   * top-level `activeTicket`).
   */
  datatype ConvState = ConvState(
    ticketStep: Option<Step>,
    category: Option<string>,
    description: Option<string>,
    transactionId: Option<string>,
    startedFromGroup: Option<int>,
    replyTarget: Option<TicketId>)

  /** The `state` default: the empty object. */
  const EmptyState: ConvState := ConvState(None, None, None, None, None, None)

  /** A missing step is treated exactly like `idle`. */
  function CurrentStep(st: ConvState): (s: Step)
    ensures st.ticketStep == Some(s) || (st.ticketStep == None && s == Idle)
  {
    st.ticketStep.GetOr(Idle)
  }

  datatype User = User(
    telegramId: UserId,
    username: Option<string>,
    isStaff: bool,
    role: Role,
    state: ConvState,
    activeTicket: Option<TicketId>)

  /** A user created with only an id and a handle: every other field takes its schema default. */
  function NewUser(id: UserId, username: Option<string>): (u: User)
    ensures u.telegramId == id && u.username == username
    ensures !u.isStaff && u.role == DefaultRole
    ensures u.state == EmptyState && CurrentStep(u.state) == Idle && u.activeTicket == None
  {
    User(id, username, false, DefaultRole, EmptyState, None)
  }

  /** The drafts a step relies on are present: category from the description step on, and so forth. */
  predicate DraftsComplete(st: ConvState) {
    var step := CurrentStep(st);
    (step == DescriptionStep || step == TransactionIdStep || step == ConfirmationStep ==> st.category.Some?)
    && (step == TransactionIdStep || step == ConfirmationStep ==> st.description.Some?)
    && (step == ConfirmationStep ==> st.transactionId.Some?)
  }

  // ---------------------------------------------------------------------------
  // Names derived from a user
  // ---------------------------------------------------------------------------

  predicate HasName(u: User) {
    IsSet(u.username)
  }

  /**
   * The assignment key of a staff member: the handle when there is one,
   * otherwise `agent_<id>`. In the second form the id can be read back.
   */
  function AgentKey(u: User): (k: string)
    ensures k != ""
    ensures HasName(u) ==> k == u.username.value
    ensures !HasName(u) ==> StartsWith(k, "agent_") && ParseInt(k[6..]) == Some(u.telegramId)
  {
    if HasName(u) then u.username.value
    else
      var k := "agent_" + IntToString(u.telegramId);
      assert k[6..] == IntToString(u.telegramId);
      ParseIntRoundTrip(u.telegramId);
      k
  }

  /** The sender name of an end user: the handle, otherwise `user_<id>`. */
  function OwnerName(u: User): (k: string)
    ensures k != ""
    ensures HasName(u) ==> k == u.username.value
    ensures !HasName(u) ==> StartsWith(k, "user_") && ParseInt(k[5..]) == Some(u.telegramId)
  {
    if HasName(u) then u.username.value
    else
      var k := "user_" + IntToString(u.telegramId);
      assert k[5..] == IntToString(u.telegramId);
      ParseIntRoundTrip(u.telegramId);
      k
  }

  /** The handle, otherwise the bare id, as printed in claim and closure transcript entries. */
  function PlainName(u: User): (k: string)
    ensures k != ""
    ensures HasName(u) ==> k == u.username.value
    ensures !HasName(u) ==> ParseInt(k) == Some(u.telegramId)
  {
    ParseIntRoundTrip(u.telegramId);
    if HasName(u) then u.username.value else IntToString(u.telegramId)
  }

  /**
   * Two distinct users without a handle never share an assignment key, but a
   * user whose handle is literally `agent_<n>` shares it with user `n`.
   */
  lemma AgentKeyCollision(a: User, b: User)
    ensures !HasName(a) && !HasName(b) && AgentKey(a) == AgentKey(b) ==> a.telegramId == b.telegramId
    ensures !HasName(a) && b.username == Some("agent_" + IntToString(a.telegramId))
            ==> AgentKey(a) == AgentKey(b)
  {
    if !HasName(a) && !HasName(b) && AgentKey(a) == AgentKey(b) {
      assert AgentKey(a)[6..] == IntToString(a.telegramId);
      assert AgentKey(b)[6..] == IntToString(b.telegramId);
      IntToStringInjective(a.telegramId, b.telegramId);
    }
  }
}
