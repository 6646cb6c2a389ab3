/**
 Facts, state records and events of the analytics reducer (codex-rs/analytics/src/{facts,events,reducer}.rs).

 A group of payload fields that the reducer only copies is carried as one text value. The clock and
 the git remote lookup are inputs (`Moment`), read at the step that ingests the fact.
*/
module AnalyticsFacts {
  import opened Common

  datatype RequestId = StringId(text: string) | IntegerId(n: int)
  datatype RequestKey = RequestKey(connectionId: nat, requestId: RequestId)

  // ---------------------------------------------------------------- per-connection and per-thread records

  datatype ConnectionState = ConnectionState(appServerClient: string, runtime: string)

  datatype InitializationMode = New | Forked | Resumed

  datatype ThreadMetadata = ThreadMetadata(
    sessionId: string,
    threadSource: Option<string>,
    initializationMode: InitializationMode,
    subagentSource: Option<string>,
    parentThreadId: Option<string>)

  datatype ThreadState = ThreadState(connectionId: Option<nat>, metadata: Option<ThreadMetadata>)

  // ---------------------------------------------------------------- turns

  datatype RequestState =
    | TurnStart(threadId: string, numInputImages: nat)
    | TurnSteer(threadId: string, expectedTurnId: string, numInputImages: nat, createdAt: nat)

  datatype ResolvedConfig = ResolvedConfig(
    turnId: string, threadId: string, numInputImages: nat, model: string, cwd: string, settings: string)

  datatype TurnStatus = Completed | Failed | Interrupted | InProgress

  datatype CompletedTurn = CompletedTurn(
    status: Option<TurnStatus>, turnError: Option<string>, completedAt: nat, durationMs: Option<nat>)

  datatype ToolCounts = ToolCounts(
    total: nat,
    shellCommand: nat,
    fileChange: nat,
    mcpToolCall: nat,
    dynamicToolCall: nat,
    subagentToolCall: nat,
    webSearch: nat,
    imageGeneration: nat)

  const NO_TOOLS := ToolCounts(0, 0, 0, 0, 0, 0, 0, 0)

  datatype TurnState = TurnState(
    connectionId: Option<nat>,
    threadId: Option<string>,
    numInputImages: Option<nat>,
    resolvedConfig: Option<ResolvedConfig>,
    startedAt: Option<nat>,
    tokenUsage: Option<string>,
    profile: Option<string>,
    completed: Option<CompletedTurn>,
    codexError: Option<string>,
    latestDiff: Option<string>,
    steerCount: nat,
    toolCounts: ToolCounts)

  const NEW_TURN := TurnState(None, None, None, None, None, None, None, None, None, None, 0, NO_TOOLS)

  // ---------------------------------------------------------------- items

  datatype ApprovableStatus = ItemInProgress | ItemCompleted | ItemFailed | ItemDeclined
  datatype CallStatus = CallInProgress | CallCompleted | CallFailed

  datatype ThreadItem =
    | CommandExecution(id: string, status: ApprovableStatus, detail: string)
    | FileChange(id: string, status: ApprovableStatus, detail: string)
    | McpToolCall(id: string, callStatus: CallStatus, detail: string)
    | DynamicToolCall(id: string, callStatus: CallStatus, detail: string)
    | CollabAgentToolCall(id: string, callStatus: CallStatus, detail: string)
    | WebSearch(id: string, detail: string)
    | ImageGeneration(id: string, imageStatus: string, detail: string)
    | UntrackedItem(kind: string)

  datatype ToolItemKey = ToolItemKey(threadId: string, turnId: string, itemId: string)

  datatype TerminalStatus = ToolCompleted | ToolFailed | ToolRejected
  datatype FailureKind = ToolError | ApprovalDenied
  datatype ToolOutcome = ToolOutcome(status: TerminalStatus, failure: Option<FailureKind>)

  // ---------------------------------------------------------------- reviews

  datatype Reviewer = Guardian | User
  datatype ReviewStatus = Approved | Denied | Aborted | TimedOut
  datatype ReviewResolution = NoResolution | SessionApproval | ExecPolicyAmendment | NetworkPolicyAmendment
  datatype ReviewTrigger = Initial | SandboxDenial | NetworkPolicyDenial | ExecveIntercept
  datatype SubjectKind = SubjectCommand | SubjectFileChange | SubjectMcpToolCall | SubjectPermissions | SubjectNetwork
  datatype FinalOutcome =
    | Unknown
    | GuardianApproved | GuardianDenied | GuardianAborted
    | UserApproved | UserApprovedForSession | UserDenied | UserAborted

  datatype PendingReview = PendingReview(
    threadId: string,
    turnId: string,
    itemId: Option<string>,
    reviewId: string,
    subject: SubjectKind,
    subjectName: string,
    trigger: ReviewTrigger,
    startedAtMs: nat,
    requestedAdditionalPermissions: bool,
    requestedNetworkAccess: bool)

  datatype ReviewSummary = ReviewSummary(
    reviewCount: nat,
    guardianReviewCount: nat,
    userReviewCount: nat,
    finalOutcome: Option<FinalOutcome>,
    requestedAdditionalPermissions: bool,
    requestedNetworkAccess: bool)

  const NO_REVIEWS := ReviewSummary(0, 0, 0, None, false, false)

  // ---------------------------------------------------------------- facts

  datatype ClientRequest =
    | TurnStartRequest(threadId: string, numInputImages: nat)
    | TurnSteerRequest(threadId: string, expectedTurnId: string, numInputImages: nat)
    | OtherRequest

  datatype ClientResponse =
    | ThreadOpened(threadId: string, metadata: ThreadMetadata, model: string)  // start, resume and fork
    | TurnStarted(turnId: string)
    | TurnSteered(turnId: string)
    | OtherResponse

  /** The approval requests the server sends to the client. */
  datatype ServerRequest =
    | CommandApproval(threadId: string, turnId: string, itemId: string, networkContext: bool,
                      networkAmendments: bool, additionalPermissions: Option<bool>, interceptedExecve: bool,
                      startedAtMs: int)
    | FileChangeApproval(threadId: string, turnId: string, itemId: string, grantRoot: bool, startedAtMs: int)
    | PermissionsApproval(threadId: string, turnId: string, itemId: string, networkEnabled: bool,
                          fileSystem: bool, startedAtMs: int)
    | OtherServerRequest

  datatype CommandDecision =
    | Accept | AcceptForSession | AcceptWithExecPolicyAmendment | ApplyNetworkPolicyAmendment(allow: bool)
    | Decline | Cancel
  datatype FileDecision = FileAccept | FileAcceptForSession | FileDecline | FileCancel

  datatype ServerResponse =
    | CommandDecided(command: CommandDecision)
    | FileChangeDecided(file: FileDecision)
    | OtherServerResponse

  datatype PermissionsGrant = PermissionsGrant(isEmpty: bool, forSession: bool)

  datatype GuardianStatus = GuardianInProgress | GuardianDecided(status: ReviewStatus)
  datatype GuardianAction =
    | GuardianCommand | GuardianExecve | GuardianApplyPatch | GuardianNetworkAccess
    | GuardianRequestPermissions(networkEnabled: bool, fileSystem: bool)
    | GuardianMcpToolCall(toolName: string)

  datatype Notification =
    | ItemStart(threadId: string, turnId: string, item: ThreadItem, startedAtMs: int)
    | ItemEnd(threadId: string, turnId: string, item: ThreadItem, completedAtMs: int)
    | GuardianReviewStarted(turnId: string)
    | GuardianReviewCompleted(threadId: string, turnId: string, targetItemId: Option<string>, reviewId: string,
                              verdict: GuardianStatus, action: GuardianAction, startedAtMs: int, completedAtMs: int)
    | TurnBegan(turnId: string, startedAt: Option<int>)
    | TurnDiffUpdated(threadId: string, turnId: string, diff: string)
    | TurnEnded(turnId: string, status: TurnStatus, turnError: Option<string>, completedAt: Option<int>,
                durationMs: Option<int>)
    | OtherNotification

  datatype CustomFact =
    | SubAgentThreadStarted(threadId: string, sessionId: string, parentThreadId: Option<string>,
                            subagentSource: string, detail: string)
    | Compaction(threadId: string, turnId: string, detail: string)
    | GuardianReview(threadId: string, turnId: string, detail: string)
    | TurnResolvedConfig(config: ResolvedConfig)
    | TurnTokenUsage(threadId: string, turnId: string, usage: string)
    | TurnProfile(turnId: string, profile: string)
    | TurnCodexError(threadId: string, turnId: string, error: string)
    | OneShot(payloads: seq<string>)  // skill, app, hook and plugin facts: pushed as they come

  datatype Fact =
    | Initialize(connectionId: nat, connection: ConnectionState)
    | Request(connectionId: nat, requestId: RequestId, request: ClientRequest)
    | Response(connectionId: nat, requestId: RequestId, response: ClientResponse)
    | ErrorResponse(connectionId: nat, requestId: RequestId, reason: Option<string>)
    | ServerAsked(requestId: RequestId, asked: ServerRequest)
    | ServerAnswered(completedAtMs: nat, requestId: RequestId, answer: ServerResponse)
    | PermissionsAnswered(completedAtMs: nat, requestId: RequestId, grant: PermissionsGrant)
    | ServerRequestAborted(completedAtMs: nat, requestId: RequestId)
    | Notified(notification: Notification)
    | Custom(custom: CustomFact)

  datatype Moment = Moment(nowSeconds: nat, repoHash: Option<string>)
  datatype Input = Input(fact: Fact, moment: Moment)

  // ---------------------------------------------------------------- events

  datatype TurnParams = TurnParams(
    threadId: string,
    turnId: string,
    connection: ConnectionState,
    metadata: ThreadMetadata,
    config: ResolvedConfig,
    numInputImages: nat,
    completed: CompletedTurn,
    codexError: Option<string>,
    steerCount: nat,
    toolCounts: ToolCounts,
    tokenUsage: Option<string>,
    profile: string,
    startedAt: Option<nat>)

  datatype Event =
    | ThreadInitializedEvent(threadId: string, openedOn: Option<ConnectionState>, metadata: ThreadMetadata,
                             detail: string)
    | TurnEvent(params: TurnParams)
    | AcceptedLinesEvent(threadId: string, turnId: string, model: string, completedAt: nat,
                         repoHash: Option<string>, added: nat, deleted: nat)
    | TurnSteerEvent(pending: RequestState, acceptedTurnId: Option<string>, rejection: Option<string>,
                     connection: ConnectionState, metadata: ThreadMetadata)
    | ReviewEvent(review: PendingReview, reviewer: Reviewer, status: ReviewStatus, resolution: ReviewResolution,
                  completedAtMs: nat, durationMs: Option<nat>, connection: ConnectionState, metadata: ThreadMetadata)
    | ToolItemEvent(key: ToolItemKey, item: ThreadItem, outcome: ToolOutcome, startedAtMs: nat, completedAtMs: nat,
                    durationMs: Option<nat>, summary: ReviewSummary, finalOutcome: FinalOutcome,
                    connection: ConnectionState, metadata: ThreadMetadata)
    | CompactionEvent(threadId: string, turnId: string, detail: string, connection: ConnectionState,
                      metadata: ThreadMetadata)
    | GuardianReviewEvent(threadId: string, turnId: string, detail: string, connection: ConnectionState,
                          sessionId: string)
    | OneShotEvent(payload: string)
}
