/**
 What every fact makes the analytics reducer push, written out from the tables and the fact alone, and what follows for
 whole runs: where every approval request and every item start has gone.
*/
module ReducerOutputs {
  import opened Common
  import opened AnalyticsFacts
  import opened Reducer
  import opened ReducerTurns
  import opened ReducerJoin
  import opened ReducerReviews
  import AcceptedLines

  // ---------------------------------------------------------------- reviews

  function Elapsed(from: nat, to: nat): Option<nat> {
    if from <= to then Some(to - from) else None
  }

  /** A review that is settled is reported if its thread is registered. */
  function ReviewOwed(s: State, f: Fact): seq<Event> {
    match TerminalReview(s, f)
    case None => []
    case Some(r) =>
      (match Registration(s, r.review.threadId)
       case None => []
       case Some((c, m)) =>
         [ReviewEvent(r.review, r.reviewer, r.status, r.resolution, r.completedAtMs,
                      Elapsed(r.review.startedAtMs, r.completedAtMs), c, m)])
  }

  lemma EmitReviewPushes(s: State, r: Terminal)
    ensures EmitReview(s, r.review, r.reviewer, r.status, r.resolution, r.completedAtMs).out ==
            match Registration(s, r.review.threadId)
            case None => []
            case Some((c, m)) =>
              [ReviewEvent(r.review, r.reviewer, r.status, r.resolution, r.completedAtMs,
                           Elapsed(r.review.startedAtMs, r.completedAtMs), c, m)]
  {
    var after := EmitReview(s, r.review, r.reviewer, r.status, r.resolution, r.completedAtMs).state;
    ContextMeans(s, r.review.threadId);
    assert ThreadContext(after, r.review.threadId) == ThreadContext(s, r.review.threadId);
  }

  /** An answer pushes the event of the review it settles, and nothing else. */
  lemma AnswerPushes(s: State, input: Input)
    requires Settling(input.fact)
    ensures Step(s, input).out == ReviewOwed(s, input.fact)
  {
    AnswerMeans(input.fact);
    SettledPushes(s, input.fact, AnswerOf(input.fact).value);
  }

  lemma SettledPushes(s: State, f: Fact, a: Answer)
    requires Settling(f) && a.id == f.requestId && a.completedAtMs == f.completedAtMs
    requires a.status == (if Grants(f) then Approved else if Refuses(f) then Denied else Aborted)
    requires a.resolution == Resolves(f)
    ensures AnswerReview(s, a).out == ReviewOwed(s, f)
  {
    if a.id in s.pendingReviews {
      var s1, r := s.(pendingReviews := s.pendingReviews - {a.id}), TerminalReview(s, f).value;
      EmitReviewPushes(s1, r);
      assert Registration(s1, r.review.threadId) == Registration(s, r.review.threadId);
    }
  }

  lemma GuardianPushes(s: State, input: Input)
    requires input.fact.Notified? && input.fact.notification.GuardianReviewCompleted?
    ensures Step(s, input).out == ReviewOwed(s, input.fact)
  {
    GuardianMeans(input.fact.notification);
    if GuardianSettles(input.fact) {
      EmitReviewPushes(s, TerminalReview(s, input.fact).value);
    }
  }

  // ---------------------------------------------------------------- items

  predicate Unfinished(item: ThreadItem) {
    || item.UntrackedItem?
    || ((item.CommandExecution? || item.FileChange?) && item.status.ItemInProgress?)
    || ((item.McpToolCall? || item.DynamicToolCall? || item.CollabAgentToolCall?) && item.callStatus.CallInProgress?)
  }

  predicate Broken(item: ThreadItem) {
    || ((item.CommandExecution? || item.FileChange?) && item.status.ItemFailed?)
    || ((item.McpToolCall? || item.DynamicToolCall? || item.CollabAgentToolCall?) && item.callStatus.CallFailed?)
    || (item.ImageGeneration? && item.imageStatus in {"failed", "error"})
  }

  predicate TurnedDown(item: ThreadItem) {
    (item.CommandExecution? || item.FileChange?) && item.status.ItemDeclined?
  }

  /** How an item that is no longer in progress ended. */
  function Ended(item: ThreadItem): ToolOutcome {
    if Broken(item) then ToolOutcome(ToolFailed, Some(ToolError))
    else if TurnedDown(item) then ToolOutcome(ToolRejected, Some(ApprovalDenied))
    else ToolOutcome(ToolCompleted, None)
  }

  lemma OutcomeMeans(item: ThreadItem)
    ensures OutcomeOf(item) == if Unfinished(item) then None else Some(Ended(item))
  {
  }

  /** An item that ends is reported if its start, its turn and its thread are known and its status is final. */
  function ItemOwed(s: State, n: Notification): seq<Event>
    requires n.ItemEnd?
  {
    if Unfinished(n.item) || !Clears(s, Notified(n), ToolItemKey(n.threadId, n.turnId, n.item.id)) then []
    else
      var key, (c, m) := ToolItemKey(n.threadId, n.turnId, n.item.id), Registration(s, n.threadId).value;
      var summary := if key in s.reviewSummaries then s.reviewSummaries[key]
                     else ReviewSummary(0, 0, 0, None, false, false);
      [ToolItemEvent(key, n.item, Ended(n.item), s.toolStarts[key], n.completedAtMs,
                     Elapsed(s.toolStarts[key], n.completedAtMs), summary,
                     if summary.finalOutcome.Some? then summary.finalOutcome.value else Unknown, c, m)]
  }

  lemma ItemEndPushes(s: State, n: Notification)
    requires n.ItemEnd?
    ensures IngestItemEnd(s, n).out == ItemOwed(s, n)
  {
    OutcomeMeans(n.item);
    ContextMeans(s, n.threadId);
    var s1 := s.(turns := IngestItemEnd(s, n).state.turns);
    assert ThreadContext(s1, n.threadId) == ThreadContext(s, n.threadId);
  }

  // ---------------------------------------------------------------- steers

  function KnownMetadata(s: State, threadId: string): Option<ThreadMetadata> {
    if threadId in s.threads then s.threads[threadId].metadata else None
  }

  /** A steer that is accepted or rejected is reported if its request is pending and its context known. */
  function SteerOwed(s: State, key: RequestKey, accepted: Option<string>, rejection: Option<string>): seq<Event> {
    if key in s.requests && s.requests[key].TurnSteer? && key.connectionId in s.connections
       && KnownMetadata(s, s.requests[key].threadId).Some?
    then [TurnSteerEvent(s.requests[key], accepted, rejection, s.connections[key.connectionId],
                         KnownMetadata(s, s.requests[key].threadId).value)]
    else []
  }

  lemma SteerPushes(s: State, key: RequestKey, turnId: string, reason: Option<string>)
    ensures IngestTurnSteered(s, key, turnId).out == SteerOwed(s, key, Some(turnId), None)
    ensures IngestErrorResponse(s, key, reason).out == SteerOwed(s, key, None, reason)
  {
  }

  // ---------------------------------------------------------------- turns

  function KnownEntry(s: State, t: string): TurnState {
    if t in s.turns then s.turns[t]
    else TurnState(None, None, None, None, None, None, None, None, None, None, 0, ToolCounts(0, 0, 0, 0, 0, 0, 0, 0))
  }

  /** The turn that a fact may complete, and its entry with that fact in it. */
  function Closing(s: State, f: Fact): Option<(string, TurnState)> {
    match f
    case Response(c, id, TurnStarted(t)) =>
      var key := RequestKey(c, id);
      if key in s.requests && s.requests[key].TurnStart? then
        Some((t, KnownEntry(s, t).(connectionId := Some(c), threadId := Some(s.requests[key].threadId),
                                   numInputImages := Some(s.requests[key].numInputImages))))
      else None
    case Notified(TurnEnded(t, _, _, _, _)) => Some((t, KnownEntry(s, t).(completed := Some(Ending(f.notification)))))
    case Custom(TurnResolvedConfig(config)) =>
      Some((config.turnId, KnownEntry(s, config.turnId).(
          threadId := Some(config.threadId), numInputImages := Some(config.numInputImages),
          resolvedConfig := Some(config))))
    case Custom(TurnTokenUsage(threadId, t, usage)) =>
      Some((t, KnownEntry(s, t).(threadId := Some(threadId), tokenUsage := Some(usage))))
    case Custom(TurnProfile(t, profile)) => Some((t, KnownEntry(s, t).(profile := Some(profile))))
    case _ => None
  }

  /** Everything a turn event needs is known. */
  predicate Complete(s: State, turn: TurnState) {
    && turn.threadId.Some? && turn.numInputImages.Some? && turn.resolvedConfig.Some? && turn.profile.Some?
    && turn.completed.Some? && turn.connectionId.Some? && turn.connectionId.value in s.connections
    && KnownMetadata(s, turn.threadId.value).Some?
  }

  function TurnReport(s: State, t: string, turn: TurnState, at: Moment): seq<Event>
    requires Complete(s, turn)
  {
    [TurnEvent(TurnParams(turn.threadId.value, t, s.connections[turn.connectionId.value],
                          KnownMetadata(s, turn.threadId.value).value, turn.resolvedConfig.value,
                          turn.numInputImages.value, turn.completed.value, turn.codexError, turn.steerCount,
                          turn.toolCounts, turn.tokenUsage, turn.profile.value, turn.startedAt))]
    + LinesReport(t, turn, at)
  }

  function LinesReport(t: string, turn: TurnState, at: Moment): seq<Event>
    requires turn.threadId.Some? && turn.resolvedConfig.Some?
  {
    if turn.latestDiff.None? then []
    else
      var counts := AcceptedLines.LineCounts(turn.latestDiff.value);
      if counts == (0, 0) then []
      else [AcceptedLinesEvent(turn.threadId.value, t, turn.resolvedConfig.value.model, at.nowSeconds, at.repoHash,
                               counts.0, counts.1)]
  }

  /** A turn is reported by the fact that completes its entry. */
  function TurnOwed(s: State, input: Input): seq<Event> {
    match Closing(s, input.fact)
    case None => []
    case Some((t, turn)) => if Complete(s, turn) then TurnReport(s, t, turn, input.moment) else []
  }

  lemma JoinPushes(s: State, t: string, turn: TurnState, at: Moment)
    ensures MaybeEmitTurnEvent(PutTurn(s, t, turn), t, at).out ==
            if Complete(s, turn) then TurnReport(s, t, turn, at) else []
  {
  }

  lemma TurnFactPushes(s: State, input: Input, t: string)
    requires PatchedTurn(input.fact) == Some(t)
    ensures Step(s, input).out == TurnOwed(s, input)
  {
    JoinPushes(s, t, Patch(input.fact, TurnEntry(s, t)), input.moment);
    PatchMeans(s, input.fact, t);
  }

  lemma StartedPushes(s: State, input: Input)
    requires input.fact.Response? && input.fact.response.TurnStarted?
    ensures Step(s, input).out == TurnOwed(s, input)
  {
    var f := input.fact;
    var key := RequestKey(f.connectionId, f.requestId);
    if key in s.requests && s.requests[key].TurnStart? {
      var s1 := s.(requests := s.requests - {key});
      JoinPushes(s1, f.response.turnId, StartedTurn(s1, key, s.requests[key], f.response.turnId), input.moment);
    }
  }

  // ---------------------------------------------------------------- every fact

  function Owed(s: State, input: Input): seq<Event> {
    match input.fact
    case Response(c, _, ThreadOpened(threadId, metadata, detail)) =>
      if c in s.connections then [ThreadInitializedEvent(threadId, Some(s.connections[c]), metadata, detail)] else []
    case Response(c, id, TurnSteered(t)) => SteerOwed(s, RequestKey(c, id), Some(t), None)
    case ErrorResponse(c, id, reason) => SteerOwed(s, RequestKey(c, id), None, reason)
    case Notified(ItemEnd(_, _, _, _)) => ItemOwed(s, input.fact.notification)
    case Custom(SubAgentThreadStarted(threadId, sessionId, parent, source, detail)) =>
      [ThreadInitializedEvent(threadId, None, ThreadMetadata(sessionId, Some("subagent"), New, Some(source), parent),
                              detail)]
    case Custom(Compaction(threadId, turnId, detail)) =>
      (match Registration(s, threadId)
       case Some((c, m)) => [CompactionEvent(threadId, turnId, detail, c, m)]
       case None => [])
    case Custom(GuardianReview(threadId, turnId, detail)) =>
      (match Registration(s, threadId)
       case Some((c, m)) => [GuardianReviewEvent(threadId, turnId, detail, c, m.sessionId)]
       case None => [])
    case Custom(OneShot(payloads)) => Map(p => OneShotEvent(p), payloads)
    case _ => ReviewOwed(s, input.fact) + TurnOwed(s, input)
  }

  /** Facts that are neither answers nor guardian notices settle nothing; those are not about the join of a turn. */
  lemma OwedApart(s: State, input: Input)
    ensures Closing(s, input.fact).Some? ==> TerminalReview(s, input.fact).None?
    ensures PatchedTurn(input.fact).Some? ==> TerminalReview(s, input.fact).None?
  {
  }

  lemma CustomPushes(s: State, input: Input)
    requires input.fact.Custom? && PatchedTurn(input.fact).None?
    ensures Step(s, input).out == Owed(s, input)
  {
    var f := input.fact.custom;
    match f
    case Compaction(threadId, _, _) => ContextMeans(s, threadId);
    case GuardianReview(threadId, _, _) => ContextMeans(s, threadId);
    case _ =>
  }

  lemma ResponsePushes(s: State, input: Input)
    requires input.fact.Response?
    ensures Step(s, input).out == Owed(s, input)
  {
    var f := input.fact;
    match f.response
    case TurnStarted(_) =>
      StartedPushes(s, input);
      assert ReviewOwed(s, f) + TurnOwed(s, input) == TurnOwed(s, input);
    case TurnSteered(t) => SteerPushes(s, RequestKey(f.connectionId, f.requestId), t, None);
    case _ =>
  }

  lemma NotificationPushes(s: State, input: Input)
    requires input.fact.Notified? && PatchedTurn(input.fact).None?
    ensures Step(s, input).out == Owed(s, input)
  {
    var n := input.fact.notification;
    if n.ItemEnd? {
      ItemEndPushes(s, n);
    } else if n.GuardianReviewCompleted? {
      GuardianPushes(s, input);
      assert ReviewOwed(s, input.fact) + TurnOwed(s, input) == ReviewOwed(s, input.fact);
    }
  }

  /** In every state, every fact pushes exactly these events, in this order, and no others. */
  lemma StepPushes(s: State, input: Input)
    ensures Step(s, input).out == Owed(s, input)
  {
    var f := input.fact;
    OwedApart(s, input);
    if PatchedTurn(f).Some? {
      TurnFactPushes(s, input, PatchedTurn(f).value);
      assert ReviewOwed(s, f) + TurnOwed(s, input) == TurnOwed(s, input);
    } else if Settling(f) {
      AnswerPushes(s, input);
      assert ReviewOwed(s, f) + TurnOwed(s, input) == ReviewOwed(s, f);
    } else {
      match f
      case Response(_, _, _) => ResponsePushes(s, input);
      case ErrorResponse(c, id, reason) => SteerPushes(s, RequestKey(c, id), "", reason);
      case Notified(_) => NotificationPushes(s, input);
      case Custom(_) => CustomPushes(s, input);
      case _ => AnswerMeans(f);
    }
  }

  // ---------------------------------------------------------------- the entry a fact leaves

  function EntryLeft(s: State, f: Fact, t: string): Option<TurnState> {
    if WrittenTurn(f) != Some(t) then Lookup(s.turns, t)
    else if Closing(s, f).Some? then
      (if Complete(s, Closing(s, f).value.1) then None else Some(Closing(s, f).value.1))
    else if f.Response? || (f.Notified? && f.notification.ItemEnd?) then
      (if t in s.turns && (f.Notified? || AcceptsSteer(s, f, t)) then Some(Applied(f, s.turns[t]))
       else Lookup(s.turns, t))
    else Some(Applied(f, KnownEntry(s, t)))
  }

  lemma JoinLeaves(s: State, t: string, turn: TurnState, at: Moment)
    ensures Lookup(MaybeEmitTurnEvent(PutTurn(s, t, turn), t, at).state.turns, t) ==
            if Complete(s, turn) then None else Some(turn)
  {
  }

  lemma TurnFactLeavesEntry(s: State, input: Input, t: string)
    requires PatchedTurn(input.fact) == Some(t)
    ensures Lookup(Step(s, input).state.turns, t) == EntryLeft(s, input.fact, t)
  {
    JoinLeaves(s, t, Patch(input.fact, TurnEntry(s, t)), input.moment);
    PatchMeans(s, input.fact, t);
  }

  lemma PatchMeans(s: State, f: Fact, t: string)
    requires PatchedTurn(f) == Some(t)
    ensures TriesJoin(f) <==> Closing(s, f).Some?
    ensures if TriesJoin(f) then Closing(s, f) == Some((t, Patch(f, TurnEntry(s, t))))
            else Patch(f, TurnEntry(s, t)) == Applied(f, KnownEntry(s, t))
  {
  }

  lemma ResponseLeavesEntry(s: State, input: Input, t: string)
    requires input.fact.Response? && WrittenTurn(input.fact) == Some(t)
    ensures Lookup(Step(s, input).state.turns, t) == EntryLeft(s, input.fact, t)
  {
    var f := input.fact;
    var key := RequestKey(f.connectionId, f.requestId);
    if f.response.TurnStarted? && key in s.requests && s.requests[key].TurnStart? {
      var s1 := s.(requests := s.requests - {key});
      JoinLeaves(s1, t, StartedTurn(s1, key, s.requests[key], t), input.moment);
    }
  }

  /**
   What every fact leaves of every turn's entry: the entry with the fact in it, and no entry once the turn has been
   reported.
  */
  lemma StepLeavesEntry(s: State, input: Input, t: string)
    ensures Lookup(Step(s, input).state.turns, t) == EntryLeft(s, input.fact, t)
  {
    if WrittenTurn(input.fact) != Some(t) {
      OtherTurnUntouched(s, input, t);
    } else if PatchedTurn(input.fact).Some? {
      TurnFactLeavesEntry(s, input, t);
    } else if input.fact.Response? {
      ResponseLeavesEntry(s, input, t);
    } else {
      ItemEndEntry(s, input.fact.notification, t);
    }
  }

  // ---------------------------------------------------------------- approval requests

  /** An approval request that opens a review: any with a time that can be reported. */
  predicate Opens(f: Fact) {
    f.ServerAsked? && !f.asked.OtherServerRequest? && f.asked.startedAtMs >= 0
  }

  predicate WantsNetwork(a: ServerRequest) {
    || (a.CommandApproval? && (a.networkContext || a.networkAmendments || a.additionalPermissions == Some(true)))
    || (a.PermissionsApproval? && a.networkEnabled)
  }

  predicate WantsMore(a: ServerRequest) {
    || (a.CommandApproval? && a.additionalPermissions.Some?)
    || (a.FileChangeApproval? && a.grantRoot)
    || (a.PermissionsApproval? && (a.networkEnabled || a.fileSystem))
  }

  /** The review it opens. */
  function Opened(f: Fact): PendingReview
    requires Opens(f)
  {
    var a := f.asked;
    var ofNetwork := a.CommandApproval? && a.networkContext;
    PendingReview(a.threadId, a.turnId, Some(a.itemId), UserReviewId(f.requestId),
                  if ofNetwork then SubjectNetwork else if a.CommandApproval? then SubjectCommand
                  else if a.FileChangeApproval? then SubjectFileChange else SubjectPermissions,
                  if ofNetwork then "network_access" else if a.CommandApproval? then "command_execution"
                  else if a.FileChangeApproval? then "apply_patch" else "permissions",
                  if a.CommandApproval? && a.interceptedExecve then ExecveIntercept
                  else if WantsNetwork(a) then NetworkPolicyDenial else if WantsMore(a) then SandboxDenial else Initial,
                  a.startedAtMs, WantsMore(a), WantsNetwork(a))
  }

  lemma AskedMeans(id: RequestId, asked: ServerRequest)
    ensures var f := ServerAsked(id, asked);
            ReviewAsked(id, asked) == if Opens(f) then Some(Opened(f)) else None
  {
  }

  predicate Digits(text: string) {
    text != "" && (forall c | c in text :: '0' <= c <= '9') && (|text| > 1 ==> text[0] != '0')
  }

  function ValueOf(text: string): int {
    if text == "" then 0 else 10 * ValueOf(text[..|text| - 1]) + (text[|text| - 1] as int - '0' as int)
  }

  lemma {:induction false} DisplayIntMeans(n: nat)
    ensures Digits(DisplayInt(n)) && ValueOf(DisplayInt(n)) == n && (n > 0 ==> DisplayInt(n)[0] != '0')
  {
    if n < 10 {
      assert [(n as char) + '0'][..0] == "";
    } else {
      DisplayIntMeans(n / 10);
      var front := DisplayInt(n / 10);
      assert DisplayInt(n)[..|front|] == front;
    }
  }

  /** A user review is named after its request: the text itself, or the decimal digits of the number. */
  lemma UserReviewIdMeans(id: RequestId)
    ensures var name := UserReviewId(id);
            match id
            case StringId(text) => name == "user:" + text
            case IntegerId(n) =>
              exists digits :: Digits(digits) && name == "user:" + (if n < 0 then "-" else "") + digits
                               && ValueOf(digits) == if n < 0 then -n else n
  {
    if id.IntegerId? {
      var digits := DisplayInt(if id.n < 0 then -id.n else id.n);
      DisplayIntMeans(if id.n < 0 then -id.n else id.n);
      assert "user:" + ("-" + digits) == "user:" + "-" + digits && "user:" + "" + digits == "user:" + digits;
    }
  }

  function PendingLeft(s: State, f: Fact): map<RequestId, PendingReview> {
    if Settling(f) then s.pendingReviews - {f.requestId}
    else if Opens(f) then s.pendingReviews[f.requestId := Opened(f)]
    else s.pendingReviews
  }

  lemma ResponseKeepsPending(s: State, key: RequestKey, response: ClientResponse, at: Moment)
    ensures IngestResponse(s, key, response, at).state.pendingReviews == s.pendingReviews
  {
  }

  lemma TurnFactKeepsPending(s: State, f: Fact, t: string, at: Moment)
    ensures IngestTurnFact(s, f, t, at).state.pendingReviews == s.pendingReviews
  {
  }

  lemma ItemEndKeepsPending(s: State, n: Notification)
    requires n.ItemEnd?
    ensures IngestItemEnd(s, n).state.pendingReviews == s.pendingReviews
  {
  }

  lemma NotificationKeepsPending(s: State, n: Notification)
    ensures IngestNotification(s, n).state.pendingReviews == s.pendingReviews
  {
    if n.ItemEnd? {
      ItemEndKeepsPending(s, n);
    }
  }

  lemma OtherPending(s: State, f: Fact, at: Moment)
    requires AnswerOf(f).None?
    ensures IngestOther(s, f, at).state.pendingReviews == PendingLeft(s, f)
  {
    AnswerMeans(f);
    match f
    case ServerAsked(id, asked) => AskedMeans(id, asked);
    case Response(connectionId, id, response) => ResponseKeepsPending(s, RequestKey(connectionId, id), response, at);
    case Notified(n) => NotificationKeepsPending(s, n);
    case _ =>
  }

  /** Pending reviews are opened by approval requests and settled by answers, and by nothing else. */
  lemma StepPending(s: State, input: Input)
    ensures Step(s, input).state.pendingReviews == PendingLeft(s, input.fact)
  {
    AnswerMeans(input.fact);
    if PatchedTurn(input.fact).Some? {
      TurnFactKeepsPending(s, input.fact, PatchedTurn(input.fact).value, input.moment);
    } else if AnswerOf(input.fact).None? {
      OtherPending(s, input.fact, input.moment);
    }
  }

  function IsUserReview(): Event -> bool {
    (e: Event) => e.ReviewEvent? && e.reviewer.User?
  }

  // Counting over a run from the empty reducer.

  function UserReviewEvents(h: History): nat {
    match h
    case Start => 0
    case Then(before, _) => UserReviewEvents(before) + |Filter(IsUserReview(), LastOut(EMPTY, h))|
  }

  function ApprovalsOpened(h: History): nat {
    match h
    case Start => 0
    case Then(before, input) => ApprovalsOpened(before) + if Opens(input.fact) then 1 else 0
  }

  /** Approval requests that took the place of one still pending under the same id. */
  function ApprovalsReplaced(h: History): nat {
    match h
    case Start => 0
    case Then(before, input) =>
      ApprovalsReplaced(before)
      + if Opens(input.fact) && input.fact.requestId in Reached(before).pendingReviews then 1 else 0
  }

  /** A user's review that is settled while its thread has no connection to report it on. */
  predicate Unreported(s: State, f: Fact) {
    Settling(f) && f.requestId in s.pendingReviews
    && Registration(s, s.pendingReviews[f.requestId].threadId).None?
  }

  function ApprovalsUnreported(h: History): nat {
    match h
    case Start => 0
    case Then(before, input) =>
      ApprovalsUnreported(before) + if Unreported(Reached(before), input.fact) then 1 else 0
  }

  /** A fact pushes a user review exactly if it settles one whose thread is registered. */
  lemma UserReviewsPushed(s: State, input: Input)
    ensures |Filter(IsUserReview(), Step(s, input).out)| ==
            if Settling(input.fact) && input.fact.requestId in s.pendingReviews && !Unreported(s, input.fact) then 1
            else 0
  {
    StepPushes(s, input);
    if Settling(input.fact) {
      AnswerPushes(s, input);
    } else {
      NoUserReview(s, input);
      FilterNone(IsUserReview(), Step(s, input).out);
    }
  }

  lemma NoUserReview(s: State, input: Input)
    requires !Settling(input.fact)
    ensures forall e | e in Step(s, input).out :: !IsUserReview()(e)
  {
    AnswerMeans(input.fact);
    forall e | e in Step(s, input).out ensures !IsUserReview()(e) {
      if IsUserReview()(e) {
        PushedBy(s, input, e);
        ItemEndPushes(s, input.fact.notification);
      }
    }
  }

  lemma PendingCardinality(s: State, f: Fact)
    ensures |PendingLeft(s, f)| == |s.pendingReviews|
              + (if Opens(f) && f.requestId !in s.pendingReviews then 1 else 0)
              - (if Settling(f) && f.requestId in s.pendingReviews then 1 else 0)
  {
    if Settling(f) {
      assert PendingLeft(s, f).Keys == s.pendingReviews.Keys - {f.requestId};
    } else if Opens(f) {
      assert PendingLeft(s, f).Keys == s.pendingReviews.Keys + {f.requestId};
    }
  }

  /**
   Every approval request is accounted for: it has been reported by one review event, is still pending, was replaced
   by a request with the same id, or was answered while its thread had no registered connection.
  */
  lemma {:induction false} ReviewsConserved(h: History)
    ensures ApprovalsOpened(h) ==
            UserReviewEvents(h) + |Reached(h).pendingReviews| + ApprovalsReplaced(h) + ApprovalsUnreported(h)
  {
    match h
    case Start =>
    case Then(before, input) =>
      ReviewsConserved(before);
      StepPending(Reached(before), input);
      UserReviewsPushed(Reached(before), input);
      PendingCardinality(Reached(before), input.fact);
  }

  // ---------------------------------------------------------------- items

  function AboutItem(key: ToolItemKey): Event -> bool {
    (e: Event) => e.ToolItemEvent? && e.key == key
  }

  function ItemEvents(h: History, key: ToolItemKey): nat {
    match h
    case Start => 0
    case Then(before, _) => ItemEvents(before, key) + |Filter(AboutItem(key), LastOut(EMPTY, h))|
  }

  predicate StartsItem(f: Fact, key: ToolItemKey) {
    && f.Notified? && f.notification.ItemStart? && f.notification.startedAtMs >= 0
    && !f.notification.item.UntrackedItem?
    && key == ToolItemKey(f.notification.threadId, f.notification.turnId, f.notification.item.id)
  }

  /** The end of a tracked item whose turn has an entry takes out its start. */
  predicate EndsItem(s: State, f: Fact, key: ToolItemKey) {
    && f.Notified? && f.notification.ItemEnd? && !f.notification.item.UntrackedItem? && f.notification.turnId in s.turns
    && key == ToolItemKey(f.notification.threadId, f.notification.turnId, f.notification.item.id)
  }

  function ItemStarts(h: History, key: ToolItemKey): nat {
    match h
    case Start => 0
    case Then(before, input) => ItemStarts(before, key) + if StartsItem(input.fact, key) then 1 else 0
  }

  /** Starts that took the place of one still outstanding. */
  function ItemRestarts(h: History, key: ToolItemKey): nat {
    match h
    case Start => 0
    case Then(before, input) =>
      ItemRestarts(before, key)
      + if StartsItem(input.fact, key) && key in Reached(before).toolStarts then 1 else 0
  }

  /** An end that cannot be reported: its status is not final, its time negative or its thread not registered. */
  predicate EndsUnreported(s: State, f: Fact, key: ToolItemKey) {
    && EndsItem(s, f, key) && key in s.toolStarts
    && (Unfinished(f.notification.item) || f.notification.completedAtMs < 0 || Registration(s, key.threadId).None?)
  }

  function ItemsUnreported(h: History, key: ToolItemKey): nat {
    match h
    case Start => 0
    case Then(before, input) =>
      ItemsUnreported(before, key) + if EndsUnreported(Reached(before), input.fact, key) then 1 else 0
  }

  function Outstanding(s: State, key: ToolItemKey): nat {
    if key in s.toolStarts then 1 else 0
  }

  function StartLeft(s: State, f: Fact, key: ToolItemKey): Option<nat> {
    if StartsItem(f, key) then Some(f.notification.startedAtMs)
    else if EndsItem(s, f, key) then None
    else Lookup(s.toolStarts, key)
  }

  lemma ResponseKeepsStarts(s: State, key: RequestKey, response: ClientResponse, at: Moment)
    ensures IngestResponse(s, key, response, at).state.toolStarts == s.toolStarts
  {
  }

  lemma TurnFactKeepsStarts(s: State, f: Fact, t: string, at: Moment)
    ensures IngestTurnFact(s, f, t, at).state.toolStarts == s.toolStarts
  {
  }

  lemma AnswerKeepsStarts(s: State, a: Answer)
    ensures AnswerReview(s, a).state.toolStarts == s.toolStarts
  {
  }

  lemma ItemEndTakesStart(s: State, n: Notification)
    requires n.ItemEnd?
    ensures IngestItemEnd(s, n).state.toolStarts ==
            if n.item.UntrackedItem? || n.turnId !in s.turns then s.toolStarts
            else s.toolStarts - {ToolItemKey(n.threadId, n.turnId, n.item.id)}
  {
  }

  lemma NotificationStarts(s: State, n: Notification, key: ToolItemKey)
    ensures Lookup(IngestNotification(s, n).state.toolStarts, key) == StartLeft(s, Notified(n), key)
  {
    if n.ItemEnd? {
      ItemEndTakesStart(s, n);
    } else if !n.ItemStart? {
      OtherNotificationStarts(s, n);
    }
  }

  lemma OtherNotificationStarts(s: State, n: Notification)
    requires !n.ItemStart? && !n.ItemEnd?
    ensures IngestNotification(s, n).state.toolStarts == s.toolStarts
  {
  }

  lemma OtherStarts(s: State, f: Fact, at: Moment, key: ToolItemKey)
    requires PatchedTurn(f).None?
    ensures Lookup(IngestOther(s, f, at).state.toolStarts, key) == StartLeft(s, f, key)
  {
    match f
    case Response(connectionId, id, response) => ResponseKeepsStarts(s, RequestKey(connectionId, id), response, at);
    case Notified(n) => NotificationStarts(s, n, key);
    case _ => assert IngestOther(s, f, at).state.toolStarts == s.toolStarts;
  }

  /** The start time of an item is the latest one given, until the item ends. */
  lemma StepStarts(s: State, input: Input, key: ToolItemKey)
    ensures Lookup(Step(s, input).state.toolStarts, key) == StartLeft(s, input.fact, key)
  {
    if PatchedTurn(input.fact).Some? {
      TurnFactKeepsStarts(s, input.fact, PatchedTurn(input.fact).value, input.moment);
    } else if AnswerOf(input.fact).Some? {
      AnswerKeepsStarts(s, AnswerOf(input.fact).value);
    } else {
      OtherStarts(s, input.fact, input.moment, key);
    }
  }

  /** A fact pushes one tool event for a key if it ends that item and can be reported, and none otherwise. */
  lemma ItemEventsPushed(s: State, input: Input, key: ToolItemKey)
    ensures |Filter(AboutItem(key), Step(s, input).out)| ==
            if EndsItem(s, input.fact, key) && key in s.toolStarts && !EndsUnreported(s, input.fact, key) then 1 else 0
  {
    if input.fact.Notified? && input.fact.notification.ItemEnd? {
      ItemEndPushes(s, input.fact.notification);
    } else {
      forall e | e in Step(s, input).out ensures !AboutItem(key)(e) {
        if e.ToolItemEvent? {
          ToolEventsAreItemEnds(s, input, e);
        }
      }
      FilterNone(AboutItem(key), Step(s, input).out);
    }
  }

  /**
   Every start of an item is accounted for: it has been reported by one tool event, is still outstanding, was replaced
   by another start, or was taken out by an end that could not be reported.
  */
  lemma {:induction false} ItemsConserved(h: History, key: ToolItemKey)
    ensures ItemStarts(h, key) ==
            ItemEvents(h, key) + Outstanding(Reached(h), key) + ItemRestarts(h, key) + ItemsUnreported(h, key)
  {
    match h
    case Start =>
    case Then(before, input) =>
      ItemsConserved(before, key);
      StepStarts(Reached(before), input, key);
      ItemEventsPushed(Reached(before), input, key);
  }

  // ---------------------------------------------------------------- sub-agents

  function Ingested(chain: seq<Input>): History {
    if chain == [] then Start else Then(Ingested(chain[..|chain| - 1]), chain[|chain| - 1])
  }

  predicate Spawns(input: Input) {
    input.fact.Custom? && input.fact.custom.SubAgentThreadStarted?
  }

  /** The last thread of a chain that starts from `root`. */
  function Youngest(root: string, chain: seq<Input>): string
    requires chain != [] ==> Spawns(chain[|chain| - 1])
  {
    if chain == [] then root else chain[|chain| - 1].fact.custom.threadId
  }

  /** Sub-agent threads, each started by the one before it, the first by `root`; none has another connection yet. */
  predicate Chain(s: State, root: string, c: nat, chain: seq<Input>) {
    && (forall input | input in chain :: Spawns(input))
    && if chain == [] then ConnectionOf(RegistryOf(s), root) == Some(c)
       else
         var front, last := chain[..|chain| - 1], chain[|chain| - 1];
         && Spawns(last) && Chain(s, root, c, front) && last.fact.custom.parentThreadId == Some(Youngest(root, front))
         && ConnectionOf(RegistryOf(s), last.fact.custom.threadId) in {None, Some(c)}
  }

  /** What a sub-agent's start does to the connections of the threads. */
  lemma SpawnConnects(s: State, input: Input, t: string)
    requires Spawns(input)
    ensures var r, f := RegistryOf(s), input.fact.custom;
            ConnectionOf(RegistryOf(Step(s, input).state), t) ==
            if t != f.threadId || ConnectionOf(r, t).Some? then ConnectionOf(r, t)
            else if f.parentThreadId.Some? then ConnectionOf(r, f.parentThreadId.value) else None
  {
    StepsRegistry(s, input);
  }

  /** However long the chain, every thread in it is reported on the connection of the thread it started from. */
  lemma {:induction false} ChainInherits(s: State, root: string, c: nat, chain: seq<Input>)
    requires Chain(s, root, c, chain)
    ensures var r := RegistryOf(After(s, Ingested(chain)));
            && ConnectionOf(r, root) == Some(c)
            && (forall input | input in chain :: ConnectionOf(r, input.fact.custom.threadId) == Some(c))
            && (forall t | ConnectionOf(RegistryOf(s), t) in {None, Some(c)} :: ConnectionOf(r, t) in {None, Some(c)})
    decreases |chain|
  {
    if chain != [] {
      var front, last := chain[..|chain| - 1], chain[|chain| - 1];
      var before := After(s, Ingested(front));
      ChainInherits(s, root, c, front);
      assert ConnectionOf(RegistryOf(before), Youngest(root, front)) == Some(c);
      forall t { SpawnConnects(before, last, t); }
      assert forall input | input in chain :: input in front || input == last;
    }
  }
}
