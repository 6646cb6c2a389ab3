/**
 The analytics reducer as a transition function (codex-rs/analytics/src/reducer.rs): `Step` ingests one
 fact in one state and gives the next state with the events pushed. `AnalyticsReducer` in
 ReducerObject.dfy is the mutable object, proved to take exactly these steps.
*/
module Reducer {
  import opened Common
  import opened AnalyticsFacts
  import AcceptedLines

  datatype State = State(
    requests: map<RequestKey, RequestState>,
    turns: map<string, TurnState>,
    connections: map<nat, ConnectionState>,
    threads: map<string, ThreadState>,
    toolStarts: map<ToolItemKey, nat>,
    pendingReviews: map<RequestId, PendingReview>,
    reviewSummaries: map<ToolItemKey, ReviewSummary>)

  const EMPTY := State(map[], map[], map[], map[], map[], map[], map[])

  datatype Result = Result(state: State, out: seq<Event>)

  // ---------------------------------------------------------------- context lookup

  datatype Missing = ThreadConnection | Connection(connectionId: nat) | Metadata

  datatype Context =
    | Found(connection: ConnectionState, metadata: ThreadMetadata)
    | NotFound(missing: Missing)

  /** `thread_context_or_warn`. */
  function ThreadContext(s: State, threadId: string): Context {
    if threadId !in s.threads then NotFound(ThreadConnection)
    else
      match s.threads[threadId].connectionId
      case None => NotFound(ThreadConnection)
      case Some(c) =>
        if c !in s.connections then NotFound(Connection(c))
        else
          match s.threads[threadId].metadata
          case None => NotFound(Metadata)
          case Some(m) => Found(s.connections[c], m)
  }

  function MetadataOf(s: State, threadId: string): Option<ThreadMetadata> {
    if threadId in s.threads then s.threads[threadId].metadata else None
  }

  function ObservedDuration(startedAtMs: nat, completedAtMs: nat): Option<nat> {
    NonNegative(completedAtMs - startedAtMs)
  }

  // ---------------------------------------------------------------- turns

  /** `turns.entry(id).or_default()`. */
  function TurnEntry(s: State, turnId: string): TurnState {
    if turnId in s.turns then s.turns[turnId] else NEW_TURN
  }

  function PutTurn(s: State, turnId: string, turn: TurnState): State {
    s.(turns := s.turns[turnId := turn])
  }

  predicate Populated(turn: TurnState) {
    turn.threadId.Some? && turn.numInputImages.Some? && turn.resolvedConfig.Some? && turn.profile.Some?
    && turn.completed.Some?
  }

  /** Every piece of the join is there, and so is the context of the event. */
  predicate Ready(s: State, turn: TurnState) {
    Populated(turn) && turn.connectionId.Some? && turn.connectionId.value in s.connections
    && MetadataOf(s, turn.threadId.value).Some?
  }

  /** `codex_turn_event_params`; its `unreachable!` is the precondition. */
  function TurnEventParams(connection: ConnectionState, turnId: string, turn: TurnState,
                           metadata: ThreadMetadata): TurnParams
    requires Populated(turn)
  {
    TurnParams(turn.threadId.value, turnId, connection, metadata, turn.resolvedConfig.value, turn.numInputImages.value,
               turn.completed.value, turn.codexError, turn.steerCount, turn.toolCounts, turn.tokenUsage,
               turn.profile.value, turn.startedAt)
  }

  function AcceptedLineEvents(turnId: string, turn: TurnState, at: Moment): seq<Event> {
    match (turn.latestDiff, turn.threadId, turn.resolvedConfig)
    case (Some(diff), Some(threadId), Some(config)) =>
      var (added, deleted) := AcceptedLines.LineCounts(diff);
      if added == 0 && deleted == 0 then []
      else [AcceptedLinesEvent(threadId, turnId, config.model, at.nowSeconds, at.repoHash, added, deleted)]
    case _ => []
  }

  function MaybeEmitTurnEvent(s: State, turnId: string, at: Moment): Result {
    if turnId in s.turns && Ready(s, s.turns[turnId]) then
      var turn := s.turns[turnId];
      var params := TurnEventParams(s.connections[turn.connectionId.value], turnId, turn,
                                    MetadataOf(s, turn.threadId.value).value);
      Result(s.(turns := s.turns - {turnId}), [TurnEvent(params)] + AcceptedLineEvents(turnId, turn, at))
    else
      Result(s, [])
  }

  function CompletedTurnOf(n: Notification): CompletedTurn
    requires n.TurnEnded?
  {
    var completedAt := match n.completedAt case Some(i) => (if i < 0 then 0 else i) case None => 0;
    CompletedTurn(if n.status.InProgress? then None else Some(n.status), n.turnError, completedAt,
                  match n.durationMs case Some(i) => NonNegative(i) case None => None)
  }

  /** The facts that fill in a turn's entry: their turn, what they set, and whether the join is tried after them. */
  function PatchedTurn(f: Fact): Option<string> {
    match f
    case Notified(TurnBegan(t, _)) => Some(t)
    case Notified(TurnDiffUpdated(_, t, _)) => Some(t)
    case Notified(TurnEnded(t, _, _, _, _)) => Some(t)
    case Custom(TurnResolvedConfig(config)) => Some(config.turnId)
    case Custom(TurnTokenUsage(_, t, _)) => Some(t)
    case Custom(TurnProfile(t, _)) => Some(t)
    case Custom(TurnCodexError(_, t, _)) => Some(t)
    case _ => None
  }

  function Patch(f: Fact, entry: TurnState): TurnState {
    match f
    case Notified(TurnBegan(_, startedAt)) =>
      entry.(startedAt := match startedAt case Some(i) => NonNegative(i) case None => None)
    case Notified(TurnDiffUpdated(threadId, _, diff)) => entry.(threadId := Some(threadId), latestDiff := Some(diff))
    case Notified(TurnEnded(_, _, _, _, _)) => entry.(completed := Some(CompletedTurnOf(f.notification)))
    case Custom(TurnResolvedConfig(config)) =>
      entry.(threadId := Some(config.threadId), numInputImages := Some(config.numInputImages),
          resolvedConfig := Some(config))
    case Custom(TurnTokenUsage(threadId, _, usage)) => entry.(threadId := Some(threadId), tokenUsage := Some(usage))
    case Custom(TurnProfile(_, profile)) => entry.(profile := Some(profile))
    case Custom(TurnCodexError(threadId, _, error)) =>
      entry.(threadId := if entry.threadId.None? then Some(threadId) else entry.threadId, codexError := Some(error))
    case _ => entry
  }

  predicate TriesJoin(f: Fact) {
    match f
    case Notified(TurnEnded(_, _, _, _, _)) => true
    case Custom(TurnResolvedConfig(_)) => true
    case Custom(TurnTokenUsage(_, _, _)) => true
    case Custom(TurnProfile(_, _)) => true
    case _ => false
  }

  function IngestTurnFact(s: State, f: Fact, t: string, at: Moment): Result {
    var s1 := PutTurn(s, t, Patch(f, TurnEntry(s, t)));
    if TriesJoin(f) then MaybeEmitTurnEvent(s1, t, at) else Result(s1, [])
  }

  function RecordTool(counts: ToolCounts, item: ThreadItem): ToolCounts {
    match item
    case CommandExecution(_, _, _) => counts.(shellCommand := counts.shellCommand + 1, total := counts.total + 1)
    case FileChange(_, _, _) => counts.(fileChange := counts.fileChange + 1, total := counts.total + 1)
    case McpToolCall(_, _, _) => counts.(mcpToolCall := counts.mcpToolCall + 1, total := counts.total + 1)
    case DynamicToolCall(_, _, _) => counts.(dynamicToolCall := counts.dynamicToolCall + 1, total := counts.total + 1)
    case CollabAgentToolCall(_, _, _) =>
        counts.(subagentToolCall := counts.subagentToolCall + 1, total := counts.total + 1)
    case WebSearch(_, _) => counts.(webSearch := counts.webSearch + 1, total := counts.total + 1)
    case ImageGeneration(_, _, _) => counts.(imageGeneration := counts.imageGeneration + 1, total := counts.total + 1)
    case UntrackedItem(_) => counts
  }

  function TrackedItemId(item: ThreadItem): Option<string> {
    if item.UntrackedItem? then None else Some(item.id)
  }

  // ---------------------------------------------------------------- requests and responses

  function AddRequest(requests: map<RequestKey, RequestState>, key: RequestKey, request: ClientRequest,
                      at: Moment): map<RequestKey, RequestState>
  {
    match request
    case TurnStartRequest(threadId, images) => requests[key := TurnStart(threadId, images)]
    case TurnSteerRequest(threadId, expected, images) =>
        requests[key := TurnSteer(threadId, expected, images, at.nowSeconds)]
    case OtherRequest => requests
  }

  function SteerEvents(s: State, connectionId: nat, pending: RequestState, accepted: Option<string>,
                       rejection: Option<string>): seq<Event>
    requires pending.TurnSteer?
  {
    match MetadataOf(s, pending.threadId)
    case Some(m) =>
      if connectionId in s.connections
      then [TurnSteerEvent(pending, accepted, rejection, s.connections[connectionId], m)]
      else []
    case None => []
  }

  function StartedTurn(s: State, key: RequestKey, pending: RequestState, turnId: string): TurnState {
    TurnEntry(s, turnId).(connectionId := Some(key.connectionId), threadId := Some(pending.threadId),
                          numInputImages := Some(pending.numInputImages))
  }

  /** A response takes its pending request out of the table, whichever kind it is. */
  function IngestTurnStarted(s: State, key: RequestKey, turnId: string, at: Moment): Result {
    var s1 := s.(requests := s.requests - {key});
    if key in s.requests && s.requests[key].TurnStart? then
      MaybeEmitTurnEvent(PutTurn(s1, turnId, StartedTurn(s1, key, s.requests[key], turnId)), turnId, at)
    else
      Result(s1, [])
  }

  function IngestTurnSteered(s: State, key: RequestKey, turnId: string): Result {
    var s1 := s.(requests := s.requests - {key});
    if key in s.requests && s.requests[key].TurnSteer? then
      var s2 := if turnId in s1.turns
                then PutTurn(s1, turnId, s1.turns[turnId].(steerCount := s1.turns[turnId].steerCount + 1)) else s1;
      Result(s2, SteerEvents(s2, key.connectionId, s.requests[key], Some(turnId), None))
    else
      Result(s1, [])
  }

  function IngestResponse(s: State, key: RequestKey, response: ClientResponse, at: Moment): Result {
    match response
    case ThreadOpened(threadId, metadata, model) =>
      if key.connectionId !in s.connections then Result(s, [])
      else
        Result(s.(threads := s.threads[threadId := ThreadState(Some(key.connectionId), Some(metadata))]),
               [ThreadInitializedEvent(threadId, Some(s.connections[key.connectionId]), metadata, model)])
    case TurnStarted(turnId) => IngestTurnStarted(s, key, turnId, at)
    case TurnSteered(turnId) => IngestTurnSteered(s, key, turnId)
    case OtherResponse => Result(s, [])
  }

  function IngestErrorResponse(s: State, key: RequestKey, reason: Option<string>): Result {
    var s1 := s.(requests := s.requests - {key});
    if key in s.requests && s.requests[key].TurnSteer? then
      Result(s1, SteerEvents(s1, key.connectionId, s.requests[key], None, reason))
    else
      Result(s1, [])
  }

  // ---------------------------------------------------------------- reviews

  function DisplayInt(n: nat): string {
    if n < 10 then [(n as char) + '0'] else DisplayInt(n / 10) + [((n % 10) as char) + '0']
  }

  function UserReviewId(id: RequestId): string {
    "user:" + match id
              case StringId(text) => text
              case IntegerId(n) => if n < 0 then "-" + DisplayInt(-n) else DisplayInt(n)
  }

  /** The review that an approval request opens, unless its start time is negative. */
  function ReviewAsked(id: RequestId, asked: ServerRequest): Option<PendingReview> {
    match asked
    case CommandApproval(threadId, turnId, itemId, networkContext, amendments, additional, execve, startedAtMs) =>
      var network := networkContext || amendments || additional == Some(true);
      var trigger := if execve then ExecveIntercept else if network then NetworkPolicyDenial
                     else if additional.Some? then SandboxDenial else Initial;
      (match NonNegative(startedAtMs)
       case None => None
       case Some(started) =>
         Some(PendingReview(threadId, turnId, Some(itemId), UserReviewId(id),
                            if networkContext then SubjectNetwork else SubjectCommand,
                            if networkContext then "network_access" else "command_execution",
                            trigger, started, additional.Some?, network)))
    case FileChangeApproval(threadId, turnId, itemId, grantRoot, startedAtMs) =>
      (match NonNegative(startedAtMs)
       case None => None
       case Some(started) =>
         Some(PendingReview(threadId, turnId, Some(itemId), UserReviewId(id), SubjectFileChange, "apply_patch",
                            if grantRoot then SandboxDenial else Initial, started, grantRoot, false)))
    case PermissionsApproval(threadId, turnId, itemId, network, fileSystem, startedAtMs) =>
      var trigger := if network then NetworkPolicyDenial else if fileSystem then SandboxDenial else Initial;
      (match NonNegative(startedAtMs)
       case None => None
       case Some(started) =>
         Some(PendingReview(threadId, turnId, Some(itemId), UserReviewId(id), SubjectPermissions, "permissions",
                            trigger, started, network || fileSystem, network)))
    case OtherServerRequest => None
  }

  function CommandResult(d: CommandDecision): (ReviewStatus, ReviewResolution) {
    match d
    case Accept => (Approved, NoResolution)
    case AcceptForSession => (Approved, SessionApproval)
    case AcceptWithExecPolicyAmendment => (Approved, ExecPolicyAmendment)
    case ApplyNetworkPolicyAmendment(allow) => (if allow then Approved else Denied, NetworkPolicyAmendment)
    case Decline => (Denied, NoResolution)
    case Cancel => (Aborted, NoResolution)
  }

  function FileResult(d: FileDecision): (ReviewStatus, ReviewResolution) {
    match d
    case FileAccept => (Approved, NoResolution)
    case FileAcceptForSession => (Approved, SessionApproval)
    case FileDecline => (Denied, NoResolution)
    case FileCancel => (Aborted, NoResolution)
  }

  function PermissionsResult(g: PermissionsGrant): (ReviewStatus, ReviewResolution) {
    if g.isEmpty then (Denied, NoResolution) else (Approved, if g.forSession then SessionApproval else NoResolution)
  }

  function GuardianSubject(action: GuardianAction): (SubjectKind, string, ReviewTrigger) {
    match action
    case GuardianCommand => (SubjectCommand, "command_execution", Initial)
    case GuardianExecve => (SubjectCommand, "command_execution", ExecveIntercept)
    case GuardianApplyPatch => (SubjectFileChange, "apply_patch", SandboxDenial)
    case GuardianNetworkAccess => (SubjectNetwork, "network_access", NetworkPolicyDenial)
    case GuardianRequestPermissions(network, fileSystem) =>
      (SubjectPermissions, "permissions",
       if network then NetworkPolicyDenial else if fileSystem then SandboxDenial else Initial)
    case GuardianMcpToolCall(toolName) => (SubjectMcpToolCall, toolName, Initial)
  }

  /** The review that a guardian notification completes, unless it is not terminal or carries a negative time. */
  function GuardianCompleted(n: Notification): Option<(PendingReview, ReviewStatus, nat)>
    requires n.GuardianReviewCompleted?
  {
    if n.verdict.GuardianInProgress? || n.startedAtMs < 0 || n.completedAtMs < 0 then None
    else
      var (subject, name, trigger) := GuardianSubject(n.action);
      var network := n.action.GuardianNetworkAccess?
          || (n.action.GuardianRequestPermissions? && n.action.networkEnabled);
      var additional := n.action.GuardianApplyPatch? || n.action.GuardianNetworkAccess?
                        || (n.action.GuardianRequestPermissions? && (n.action.networkEnabled || n.action.fileSystem));
      Some((PendingReview(n.threadId, n.turnId, n.targetItemId, n.reviewId, subject, name, trigger, n.startedAtMs,
                          additional, network), n.verdict.status, n.completedAtMs))
  }

  function FinalApprovalOutcome(reviewer: Reviewer, status: ReviewStatus, resolution: ReviewResolution): FinalOutcome {
    match (reviewer, status)
    case (Guardian, Approved) => GuardianApproved
    case (Guardian, Denied) => GuardianDenied
    case (Guardian, _) => GuardianAborted
    case (User, Approved) => if resolution == SessionApproval then UserApprovedForSession else UserApproved
    case (User, Denied) => UserDenied
    case (User, _) => UserAborted
  }

  /** Permission and network reviews belong to no item. */
  function ReviewedItem(review: PendingReview): Option<ToolItemKey> {
    match (review.subject, review.itemId)
    case (SubjectPermissions, _) => None
    case (SubjectNetwork, _) => None
    case (_, None) => None
    case (_, Some(item)) => Some(ToolItemKey(review.threadId, review.turnId, item))
  }

  function RecordReview(summary: ReviewSummary, reviewer: Reviewer, status: ReviewStatus, resolution: ReviewResolution,
                        review: PendingReview): ReviewSummary
  {
    ReviewSummary(summary.reviewCount + 1,
                  summary.guardianReviewCount + (if reviewer.Guardian? then 1 else 0),
                  summary.userReviewCount + (if reviewer.User? then 1 else 0),
                  Some(FinalApprovalOutcome(reviewer, status, resolution)),
                  summary.requestedAdditionalPermissions || review.requestedAdditionalPermissions,
                  summary.requestedNetworkAccess || review.requestedNetworkAccess)
  }

  function SummaryEntry(s: State, key: ToolItemKey): ReviewSummary {
    if key in s.reviewSummaries then s.reviewSummaries[key] else NO_REVIEWS
  }

  function EmitReview(s: State, review: PendingReview, reviewer: Reviewer, status: ReviewStatus,
                      resolution: ReviewResolution, completedAtMs: nat): Result
  {
    var s1 := match ReviewedItem(review)
              case None => s
              case Some(key) =>
                var summary := RecordReview(SummaryEntry(s, key), reviewer, status, resolution, review);
                s.(reviewSummaries := s.reviewSummaries[key := summary]);
    match ThreadContext(s1, review.threadId)
    case Found(c, m) =>
      Result(s1, [ReviewEvent(review, reviewer, status, resolution, completedAtMs,
                              ObservedDuration(review.startedAtMs, completedAtMs), c, m)])
    case NotFound(_) => Result(s1, [])
  }

  datatype Answer = Answer(id: RequestId, status: ReviewStatus, resolution: ReviewResolution, completedAtMs: nat)

  /** How a fact settles an approval request, if it does. */
  function AnswerOf(f: Fact): Option<Answer> {
    match f
    case ServerAnswered(completedAtMs, id, CommandDecided(d)) =>
      Some(Answer(id, CommandResult(d).0, CommandResult(d).1, completedAtMs))
    case ServerAnswered(completedAtMs, id, FileChangeDecided(d)) =>
      Some(Answer(id, FileResult(d).0, FileResult(d).1, completedAtMs))
    case PermissionsAnswered(completedAtMs, id, grant) =>
      Some(Answer(id, PermissionsResult(grant).0, PermissionsResult(grant).1, completedAtMs))
    case ServerRequestAborted(completedAtMs, id) => Some(Answer(id, Aborted, NoResolution, completedAtMs))
    case _ => None
  }

  /** A pending review is consumed whoever answers it. */
  function AnswerReview(s: State, a: Answer): Result {
    if a.id !in s.pendingReviews then Result(s, [])
    else
      EmitReview(s.(pendingReviews := s.pendingReviews - {a.id}), s.pendingReviews[a.id], User, a.status, a.resolution,
                 a.completedAtMs)
  }

  function IngestServerRequest(s: State, id: RequestId, asked: ServerRequest): State {
    match ReviewAsked(id, asked)
    case None => s
    case Some(review) => s.(pendingReviews := s.pendingReviews[id := review])
  }

  // ---------------------------------------------------------------- notifications

  function ApprovableOutcome(status: ApprovableStatus): Option<ToolOutcome> {
    match status
    case ItemInProgress => None
    case ItemCompleted => Some(ToolOutcome(ToolCompleted, None))
    case ItemFailed => Some(ToolOutcome(ToolFailed, Some(ToolError)))
    case ItemDeclined => Some(ToolOutcome(ToolRejected, Some(ApprovalDenied)))
  }

  function CallOutcome(status: CallStatus): Option<ToolOutcome> {
    match status
    case CallInProgress => None
    case CallCompleted => Some(ToolOutcome(ToolCompleted, None))
    case CallFailed => Some(ToolOutcome(ToolFailed, Some(ToolError)))
  }

  function OutcomeOf(item: ThreadItem): Option<ToolOutcome> {
    match item
    case CommandExecution(_, status, _) => ApprovableOutcome(status)
    case FileChange(_, status, _) => ApprovableOutcome(status)
    case McpToolCall(_, status, _) => CallOutcome(status)
    case DynamicToolCall(_, status, _) => CallOutcome(status)
    case CollabAgentToolCall(_, status, _) => CallOutcome(status)
    case WebSearch(_, _) => Some(ToolOutcome(ToolCompleted, None))
    case ImageGeneration(_, status, _) =>
      if status == "failed" || status == "error" then Some(ToolOutcome(ToolFailed, Some(ToolError)))
      else Some(ToolOutcome(ToolCompleted, None))
    case UntrackedItem(_) => None
  }

  function ToolItemEvents(key: ToolItemKey, item: ThreadItem, startedAtMs: nat, completedAtMs: nat,
                          connection: ConnectionState, metadata: ThreadMetadata, summary: ReviewSummary): seq<Event>
  {
    match OutcomeOf(item)
    case None => []
    case Some(outcome) =>
      [ToolItemEvent(key, item, outcome, startedAtMs, completedAtMs, ObservedDuration(startedAtMs, completedAtMs),
                     summary, if summary.finalOutcome.Some? then summary.finalOutcome.value else Unknown,
                     connection, metadata)]
  }

  function IngestItemEnd(s: State, n: Notification): Result
    requires n.ItemEnd?
  {
    if n.item.UntrackedItem? || n.turnId !in s.turns then Result(s, [])
    else
      var turn := s.turns[n.turnId];
      var s1 := PutTurn(s, n.turnId, turn.(toolCounts := RecordTool(turn.toolCounts, n.item)));
      var key := ToolItemKey(n.threadId, n.turnId, n.item.id);
      if key !in s1.toolStarts then Result(s1, [])
      else
        var s2 := s1.(toolStarts := s1.toolStarts - {key});
        if n.completedAtMs < 0 then Result(s2, [])
        else
          match ThreadContext(s2, n.threadId)
          case NotFound(_) => Result(s2, [])
          case Found(c, m) =>
            Result(s2.(reviewSummaries := s2.reviewSummaries - {key}),
                   ToolItemEvents(key, n.item, s1.toolStarts[key], n.completedAtMs, c, m, SummaryEntry(s2, key)))
  }

  /** The notifications about items and guardian reviews. */
  function IngestNotification(s: State, n: Notification): Result {
    match n
    case ItemStart(threadId, turnId, item, startedAtMs) =>
      if item.UntrackedItem? || startedAtMs < 0 then Result(s, [])
      else Result(s.(toolStarts := s.toolStarts[ToolItemKey(threadId, turnId, item.id) := startedAtMs]), [])
    case ItemEnd(_, _, _, _) => IngestItemEnd(s, n)
    case GuardianReviewCompleted(_, _, _, _, _, _, _, _) =>
      (match GuardianCompleted(n)
       case None => Result(s, [])
       case Some((review, status, completedAtMs)) =>
           EmitReview(s, review, Guardian, status, NoResolution, completedAtMs))
    case _ => Result(s, [])
  }

  // ---------------------------------------------------------------- custom facts

  /** A sub-agent thread inherits its parent's connection unless it already has one; its first metadata stays. */
  function AddSubAgentThread(threads: map<string, ThreadState>, threadId: string,
                             metadata: ThreadMetadata): map<string, ThreadState>
  {
    var inherited := match metadata.parentThreadId
                     case Some(p) => if p in threads then threads[p].connectionId else None
                     case None => None;
    var entry := if threadId in threads then threads[threadId] else ThreadState(None, None);
    threads[threadId := ThreadState(if entry.connectionId.None? then inherited else entry.connectionId,
                                    if entry.metadata.None? then Some(metadata) else entry.metadata)]
  }

  function SubAgentMetadata(f: CustomFact): ThreadMetadata
    requires f.SubAgentThreadStarted?
  {
    ThreadMetadata(f.sessionId, Some("subagent"), New, Some(f.subagentSource), f.parentThreadId)
  }

  /** The custom facts that are not about one turn's entry. */
  function IngestCustom(s: State, f: CustomFact): Result {
    match f
    case SubAgentThreadStarted(threadId, _, _, _, detail) =>
      Result(s.(threads := AddSubAgentThread(s.threads, threadId, SubAgentMetadata(f))),
             [ThreadInitializedEvent(threadId, None, SubAgentMetadata(f), detail)])
    case Compaction(threadId, turnId, detail) =>
      (match ThreadContext(s, threadId)
       case Found(c, m) => Result(s, [CompactionEvent(threadId, turnId, detail, c, m)])
       case NotFound(_) => Result(s, []))
    case GuardianReview(threadId, turnId, detail) =>
      (match ThreadContext(s, threadId)
       case Found(c, m) => Result(s, [GuardianReviewEvent(threadId, turnId, detail, c, m.sessionId)])
       case NotFound(_) => Result(s, []))
    case OneShot(payloads) => Result(s, seq(|payloads|, i requires 0 <= i < |payloads| => OneShotEvent(payloads[i])))
    case _ => Result(s, [])
  }

  // ---------------------------------------------------------------- one step

  /** The facts that neither fill in a turn's entry nor settle an approval. */
  function IngestOther(s: State, f: Fact, at: Moment): Result {
    match f
    case Initialize(connectionId, connection) =>
        Result(s.(connections := s.connections[connectionId := connection]), [])
    case Request(connectionId, id, request) =>
      Result(s.(requests := AddRequest(s.requests, RequestKey(connectionId, id), request, at)), [])
    case Response(connectionId, id, response) => IngestResponse(s, RequestKey(connectionId, id), response, at)
    case ErrorResponse(connectionId, id, reason) => IngestErrorResponse(s, RequestKey(connectionId, id), reason)
    case ServerAsked(id, asked) => Result(IngestServerRequest(s, id, asked), [])
    case Notified(n) => IngestNotification(s, n)
    case Custom(custom) => IngestCustom(s, custom)
    case _ => Result(s, [])
  }

  function Step(s: State, input: Input): Result {
    if PatchedTurn(input.fact).Some? then
      IngestTurnFact(s, input.fact, PatchedTurn(input.fact).value, input.moment)
    else if AnswerOf(input.fact).Some? then
      AnswerReview(s, AnswerOf(input.fact).value)
    else
      IngestOther(s, input.fact, input.moment)
  }

  // ---------------------------------------------------------------- runs

  /** A finite run, most recent fact outermost. */
  datatype History = Start | Then(before: History, input: Input)

  function After(s: State, h: History): State {
    match h case Start => s case Then(before, input) => Step(After(s, before), input).state
  }

  /** The events pushed by the last fact of a run. */
  function LastOut(s: State, h: History): seq<Event>
    requires h.Then?
  {
    Step(After(s, h.before), h.input).out
  }

  function Reached(h: History): State {
    After(EMPTY, h)
  }
}
