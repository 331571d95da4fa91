/** The facts the analytics reducer is fed, and the operation each asks of its maps. What a
    fact only carries through to an event is one `details` value; clock and repository
    readings are part of the fact that makes them. */
module AnalyticsFacts {
  import opened Basics

  type ConnectionId = nat
  type ThreadId = string
  type TurnId = string
  type ItemId = string
  type RequestId = string

  /** A signed time that is negative is no time. */
  function Unsigned(t: int): (r: Option<nat>)
    ensures r.Some? <==> t >= 0
    ensures r.Some? ==> r.value == t
  {
    if t >= 0 then Some(t) else None
  }

  function UnsignedOption(t: Option<int>): Option<nat> {
    if t.Some? then Unsigned(t.value) else None
  }

  datatype Connection = Connection(client: string, runtime: string)

  datatype InitializationMode = New | Resumed | Forked

  datatype ThreadMetadata = ThreadMetadata(
    session: string,
    source: Option<string>,
    mode: InitializationMode,
    subagent: Option<string>,
    parent: Option<ThreadId>)

  /** The clock and the repository hash at the time a turn event is made. */
  datatype Reading = Reading(now: nat, repoHash: Option<string>)

  datatype PendingRequest =
    | TurnStart(thread: ThreadId, images: nat)
    | TurnSteer(thread: ThreadId, expectedTurn: TurnId, images: nat, createdAt: nat)

  // ----- items

  datatype ItemStatus = InProgress | Completed | Failed | Declined

  datatype ThreadItem =
    | CommandExecution(id: ItemId, status: ItemStatus)
    | FileChange(id: ItemId, status: ItemStatus)
    | McpToolCall(id: ItemId, status: ItemStatus)
    | DynamicToolCall(id: ItemId, status: ItemStatus)
    | CollabAgentToolCall(id: ItemId, status: ItemStatus)
    | WebSearch(id: ItemId)
    | ImageGeneration(id: ItemId)
    | UserMessage(id: ItemId)
    | HookPrompt(id: ItemId)
    | AgentMessage(id: ItemId)
    | Plan(id: ItemId)
    | Reasoning(id: ItemId)
    | ImageView(id: ItemId)
    | EnteredReviewMode(id: ItemId)
    | ExitedReviewMode(id: ItemId)
    | ContextCompaction(id: ItemId)

  datatype ItemKey = ItemKey(thread: ThreadId, turn: TurnId, item: ItemId)

  /** The items that count as tool calls. */
  function TrackedToolItemId(item: ThreadItem): Option<ItemId> {
    match item
    case CommandExecution(id, _) => Some(id)
    case FileChange(id, _) => Some(id)
    case McpToolCall(id, _) => Some(id)
    case DynamicToolCall(id, _) => Some(id)
    case CollabAgentToolCall(id, _) => Some(id)
    case WebSearch(id) => Some(id)
    case ImageGeneration(id) => Some(id)
    case _ => None
  }

  /** The item has come to an end, so its completion makes an event. */
  predicate Terminal(item: ThreadItem) {
    match item
    case CommandExecution(_, status) => !status.InProgress?
    case FileChange(_, status) => !status.InProgress?
    case McpToolCall(_, status) => !status.InProgress?
    case DynamicToolCall(_, status) => !status.InProgress?
    case CollabAgentToolCall(_, status) => !status.InProgress?
    case WebSearch(_) => true
    case ImageGeneration(_) => true
    case _ => false
  }

  // ----- reviews

  datatype Reviewer = Guardian | User
  datatype ReviewStatus = Approved | Denied | Aborted | TimedOut
  datatype ReviewResolution = NoResolution | SessionApproval | ExecPolicyAmendment | NetworkPolicyAmendment
  datatype ReviewSubject = OfCommand | OfFileChange | OfMcpToolCall | OfPermissions | OfNetworkAccess
  datatype ReviewTrigger = Initial | SandboxDenial | NetworkPolicyDenial | ExecveIntercept

  datatype Verdict = Verdict(reviewer: Reviewer, status: ReviewStatus, resolution: ReviewResolution)

  datatype Review = Review(
    thread: ThreadId,
    turn: TurnId,
    item: Option<ItemId>,
    id: string,
    subject: ReviewSubject,
    trigger: ReviewTrigger,
    startedAt: nat,
    permissions: bool,
    network: bool)

  /** Reviews of an item are counted on that item; the others on none. */
  function SummaryKey(r: Review): Option<ItemKey> {
    if (r.subject.OfCommand? || r.subject.OfFileChange? || r.subject.OfMcpToolCall?) && r.item.Some?
    then Some(ItemKey(r.thread, r.turn, r.item.value))
    else None
  }

  datatype FinalOutcome =
    | GuardianApproved | GuardianDenied | GuardianAborted
    | UserApproved | UserApprovedForSession | UserDenied | UserAborted

  function FinalApprovalOutcome(v: Verdict): FinalOutcome {
    match v.reviewer
    case Guardian =>
      if v.status.Approved? then GuardianApproved else if v.status.Denied? then GuardianDenied else GuardianAborted
    case User =>
      if v.status.Approved? then (if v.resolution.SessionApproval? then UserApprovedForSession else UserApproved)
      else if v.status.Denied? then UserDenied else UserAborted
  }

  datatype Permissions = Permissions(networkEnabled: bool, fileSystem: bool)

  datatype Approval =
    | CommandApproval(networkContext: bool, amendments: bool, additional: Option<Permissions>, intercepted: bool)
    | FileChangeApproval(grantRoot: bool)
    | PermissionsApproval(permissions: Permissions)

  function RequestsNetwork(a: Approval): bool {
    match a
    case CommandApproval(networkContext, amendments, additional, _) =>
      networkContext || amendments || (additional.Some? && additional.value.networkEnabled)
    case FileChangeApproval(_) => false
    case PermissionsApproval(p) => p.networkEnabled
  }

  function RequestsPermissions(a: Approval): bool {
    match a
    case CommandApproval(_, _, additional, _) => additional.Some?
    case FileChangeApproval(grantRoot) => grantRoot
    case PermissionsApproval(p) => p.networkEnabled || p.fileSystem
  }

  function ApprovalTrigger(a: Approval): ReviewTrigger {
    if a.CommandApproval? && a.intercepted then ExecveIntercept
    else if RequestsNetwork(a) then NetworkPolicyDenial
    else if RequestsPermissions(a) then SandboxDenial
    else Initial
  }

  function ApprovalSubject(a: Approval): ReviewSubject {
    match a
    case CommandApproval(networkContext, _, _, _) => if networkContext then OfNetworkAccess else OfCommand
    case FileChangeApproval(_) => OfFileChange
    case PermissionsApproval(_) => OfPermissions
  }

  datatype CommandDecision =
    | AcceptCommand | AcceptForSession | AcceptWithExecpolicyAmendment | ApplyNetworkPolicyAmendment(allow: bool)
    | DeclineCommand | CancelCommand

  function CommandVerdict(d: CommandDecision): Verdict {
    match d
    case AcceptCommand => Verdict(User, Approved, NoResolution)
    case AcceptForSession => Verdict(User, Approved, SessionApproval)
    case AcceptWithExecpolicyAmendment => Verdict(User, Approved, ExecPolicyAmendment)
    case ApplyNetworkPolicyAmendment(allow) => Verdict(User, if allow then Approved else Denied, NetworkPolicyAmendment)
    case DeclineCommand => Verdict(User, Denied, NoResolution)
    case CancelCommand => Verdict(User, Aborted, NoResolution)
  }

  datatype FileChangeDecision = AcceptChange | AcceptChangeForSession | DeclineChange | CancelChange

  function FileChangeVerdict(d: FileChangeDecision): Verdict {
    match d
    case AcceptChange => Verdict(User, Approved, NoResolution)
    case AcceptChangeForSession => Verdict(User, Approved, SessionApproval)
    case DeclineChange => Verdict(User, Denied, NoResolution)
    case CancelChange => Verdict(User, Aborted, NoResolution)
  }

  function PermissionsVerdict(grantsNothing: bool, forSession: bool): Verdict {
    if grantsNothing then Verdict(User, Denied, NoResolution)
    else Verdict(User, Approved, if forSession then SessionApproval else NoResolution)
  }

  datatype GuardianStatus = ReviewInProgress | ReviewApproved | ReviewDenied | ReviewTimedOut | ReviewAborted

  function GuardianVerdict(s: GuardianStatus): Option<Verdict> {
    match s
    case ReviewInProgress => None
    case ReviewApproved => Some(Verdict(Guardian, Approved, NoResolution))
    case ReviewDenied => Some(Verdict(Guardian, Denied, NoResolution))
    case ReviewTimedOut => Some(Verdict(Guardian, TimedOut, NoResolution))
    case ReviewAborted => Some(Verdict(Guardian, Aborted, NoResolution))
  }

  datatype GuardianAction =
    | RunCommand | Execve | ApplyPatch | NetworkAccess | RequestPermissions(permissions: Permissions) | CallMcpTool

  function GuardianSubject(a: GuardianAction): ReviewSubject {
    match a
    case RunCommand => OfCommand
    case Execve => OfCommand
    case ApplyPatch => OfFileChange
    case NetworkAccess => OfNetworkAccess
    case RequestPermissions(_) => OfPermissions
    case CallMcpTool => OfMcpToolCall
  }

  function GuardianTrigger(a: GuardianAction): ReviewTrigger {
    match a
    case RunCommand => Initial
    case Execve => ExecveIntercept
    case ApplyPatch => SandboxDenial
    case NetworkAccess => NetworkPolicyDenial
    case RequestPermissions(p) =>
      if p.networkEnabled then NetworkPolicyDenial else if p.fileSystem then SandboxDenial else Initial
    case CallMcpTool => Initial
  }

  function GuardianPermissions(a: GuardianAction): bool {
    a.ApplyPatch? || a.NetworkAccess? || (a.RequestPermissions? &&
        (a.permissions.networkEnabled || a.permissions.fileSystem))
  }

  function GuardianNetwork(a: GuardianAction): bool {
    a.NetworkAccess? || (a.RequestPermissions? && a.permissions.networkEnabled)
  }

  // ----- facts

  datatype TurnStatus = TurnDone | TurnFailed | TurnInterrupted | TurnInProgress

  datatype Config = Config(model: string, details: nat)

  datatype Completion = Completion(status: Option<TurnStatus>, error: Option<string>, completedAt: nat,
      duration: Option<nat>)

  datatype Fact =
    | Initialize(conn: ConnectionId, client: string, runtime: string)
    | TurnStartRequest(conn: ConnectionId, request: RequestId, thread: ThreadId, images: nat)
    | TurnSteerRequest(conn: ConnectionId, request: RequestId, thread: ThreadId, expectedTurn: TurnId, images: nat,
        now: nat)
    | ThreadResponse(conn: ConnectionId, thread: ThreadId, metadata: ThreadMetadata, details: nat)
    | TurnStartResponse(conn: ConnectionId, request: RequestId, turn: TurnId, reading: Reading)
    | TurnSteerResponse(conn: ConnectionId, request: RequestId, turn: TurnId)
    | ErrorResponse(conn: ConnectionId, request: RequestId, reason: Option<string>)
    | ItemStarted(thread: ThreadId, turn: TurnId, item: ThreadItem, startedAtMs: int)
    | ItemCompleted(thread: ThreadId, turn: TurnId, item: ThreadItem, completedAtMs: int)
    | GuardianReviewCompleted(thread: ThreadId, turn: TurnId, target: Option<ItemId>, review: string,
        action: GuardianAction,
                              guardianStatus: GuardianStatus, startedAtMs: int, completedAtMs: int)
    | TurnStarted(turn: TurnId, startedAt: Option<int>)
    | TurnDiffUpdated(thread: ThreadId, turn: TurnId, diff: string)
    | TurnCompleted(turn: TurnId, status: TurnStatus, error: Option<string>, completedAt: Option<int>,
        durationMs: Option<int>, reading: Reading)
    | ApprovalRequested(request: RequestId, thread: ThreadId, turn: TurnId, itemId: ItemId, approval: Approval,
        startedAtMs: int)
    | CommandAnswered(request: RequestId, decision: CommandDecision, answeredAt: nat)
    | FileChangeAnswered(request: RequestId, change: FileChangeDecision, answeredAt: nat)
    | PermissionsAnswered(request: RequestId, grantsNothing: bool, forSession: bool, answeredAt: nat)
    | ServerRequestAborted(request: RequestId, answeredAt: nat)
    | SubAgentThreadStarted(thread: ThreadId, parent: Option<ThreadId>, session: string, source: string, details: nat)
    | Compacted(thread: ThreadId, details: nat)
    | GuardianReviewed(thread: ThreadId, details: nat)
    | TurnResolvedConfig(turn: TurnId, thread: ThreadId, images: nat, config: Config, reading: Reading)
    | TurnTokenUsage(turn: TurnId, thread: ThreadId, usage: nat, reading: Reading)
    | TurnCodexError(turn: TurnId, thread: ThreadId, failure: string)
    | SelfContained(records: seq<nat>)   // skills, apps, hooks and plugins: their events need no state
    | Unobserved                         // messages the reducer passes over

  /** What one fact changes in a turn's state. */
  datatype Patch =
    | SetConfig(thread: ThreadId, images: nat, config: Config)
    | SetUsage(thread: ThreadId, usage: nat)
    | SetFailure(thread: ThreadId, failure: string)
    | SetStarted(startedAt: Option<nat>)
    | SetDiff(thread: ThreadId, diff: string)
    | SetCompletion(completion: Completion)

  datatype Op =
    | Skip
    | Connect(conn: ConnectionId, connection: Connection)
    | Ask(conn: ConnectionId, request: RequestId, pending: PendingRequest)
    | OpenThread(conn: ConnectionId, thread: ThreadId, metadata: ThreadMetadata, details: nat)
    | StartReply(conn: ConnectionId, request: RequestId, turn: TurnId, reading: Reading)
    | SteerReply(conn: ConnectionId, request: RequestId, turn: TurnId)
    | ErrorReply(conn: ConnectionId, request: RequestId, reason: Option<string>)
    | PatchTurn(turn: TurnId, patch: Patch, emit: Option<Reading>)
    | BeginItem(key: ItemKey, at: nat)
    | EndItem(key: ItemKey, item: ThreadItem, ended: Option<nat>)
    | Judge(review: Review, verdict: Verdict, at: nat)
    | OpenReview(request: RequestId, review: Review)
    | ResolveReview(request: RequestId, verdict: Verdict, at: nat)
    | Spawn(thread: ThreadId, parent: Option<ThreadId>, metadata: ThreadMetadata, details: nat)
    | Scoped(thread: ThreadId, details: nat)
    | Record(records: seq<nat>)

  function UserReview(request: RequestId, thread: ThreadId, turn: TurnId, item: ItemId, a: Approval,
                      startedAt: nat): Review {
    Review(thread, turn, Some(item), "user:" + request, ApprovalSubject(a), ApprovalTrigger(a), startedAt,
        RequestsPermissions(a), RequestsNetwork(a))
  }

  function GuardianReviewOf(f: Fact): Review
    requires f.GuardianReviewCompleted? && f.startedAtMs >= 0
  {
    Review(f.thread, f.turn, f.target, f.review, GuardianSubject(f.action), GuardianTrigger(f.action), f.startedAtMs,
           GuardianPermissions(f.action), GuardianNetwork(f.action))
  }

  function CompletionOf(f: Fact): Completion
    requires f.TurnCompleted?
  {
    var at := UnsignedOption(f.completedAt);
    Completion(if f.status.TurnInProgress? then None else Some(f.status), f.error, if at.Some? then at.value else 0,
        UnsignedOption(f.durationMs))
  }

  function Decode(f: Fact): Op {
    match f
    case Initialize(conn, client, runtime) => Connect(conn, Connection(client, runtime))
    case TurnStartRequest(conn, request, thread, images) => Ask(conn, request, TurnStart(thread, images))
    case TurnSteerRequest(conn, request, thread, turn, images, now) =>
      Ask(conn, request, TurnSteer(thread, turn, images, now))
    case ThreadResponse(conn, thread, metadata, details) => OpenThread(conn, thread, metadata, details)
    case TurnStartResponse(conn, request, turn, reading) => StartReply(conn, request, turn, reading)
    case TurnSteerResponse(conn, request, turn) => SteerReply(conn, request, turn)
    case ErrorResponse(conn, request, reason) => ErrorReply(conn, request, reason)
    case ItemStarted(thread, turn, item, at) =>
      if TrackedToolItemId(item).Some? && at >= 0
          then BeginItem(ItemKey(thread, turn, TrackedToolItemId(item).value), at) else Skip
    case ItemCompleted(thread, turn, item, at) =>
      if TrackedToolItemId(item).Some? then EndItem(ItemKey(thread, turn, TrackedToolItemId(item).value), item,
          Unsigned(at)) else Skip
    case GuardianReviewCompleted(_, _, _, _, _, status, startedAt, completedAt) =>
      if GuardianVerdict(status).Some? && startedAt >= 0 && completedAt >= 0
      then Judge(GuardianReviewOf(f), GuardianVerdict(status).value, completedAt)
      else Skip
    case TurnStarted(turn, startedAt) => PatchTurn(turn, SetStarted(UnsignedOption(startedAt)), None)
    case TurnDiffUpdated(thread, turn, diff) => PatchTurn(turn, SetDiff(thread, diff), None)
    case TurnCompleted(turn, _, _, _, _, reading) => PatchTurn(turn, SetCompletion(CompletionOf(f)), Some(reading))
    case ApprovalRequested(request, thread, turn, item, a, at) =>
      if at >= 0 then OpenReview(request, UserReview(request, thread, turn, item, a, at)) else Skip
    case CommandAnswered(request, decision, at) => ResolveReview(request, CommandVerdict(decision), at)
    case FileChangeAnswered(request, change, at) => ResolveReview(request, FileChangeVerdict(change), at)
    case PermissionsAnswered(request, grantsNothing, forSession, at) =>
      ResolveReview(request, PermissionsVerdict(grantsNothing, forSession), at)
    case ServerRequestAborted(request, at) => ResolveReview(request, Verdict(User, Aborted, NoResolution), at)
    case SubAgentThreadStarted(thread, parent, session, source, details) =>
      Spawn(thread, parent, ThreadMetadata(session, Some("subagent"), New, Some(source), parent), details)
    case Compacted(thread, details) => Scoped(thread, details)
    case GuardianReviewed(thread, details) => Scoped(thread, details)
    case TurnResolvedConfig(turn, thread, images, config, reading) =>
      PatchTurn(turn, SetConfig(thread, images, config), Some(reading))
    case TurnTokenUsage(turn, thread, usage, reading) => PatchTurn(turn, SetUsage(thread, usage), Some(reading))
    case TurnCodexError(turn, thread, failure) => PatchTurn(turn, SetFailure(thread, failure), None)
    case SelfContained(records) => Record(records)
    case Unobserved => Skip
  }
}
