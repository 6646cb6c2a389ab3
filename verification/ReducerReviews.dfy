/**
 Review summaries, pending reviews, item starts and thread contexts over whole runs of the analytics reducer.
*/
module ReducerReviews {
  import opened Common
  import opened AnalyticsFacts
  import opened Reducer
  import opened ReducerTurns

  // ---------------------------------------------------------------- what settles a review

  /** The client said yes. */
  predicate Grants(f: Fact) {
    || (f.ServerAnswered? && f.answer in {CommandDecided(Accept), CommandDecided(AcceptForSession),
                                          CommandDecided(AcceptWithExecPolicyAmendment),
                                          CommandDecided(ApplyNetworkPolicyAmendment(true)),
                                          FileChangeDecided(FileAccept), FileChangeDecided(FileAcceptForSession)})
    || (f.PermissionsAnswered? && !f.grant.isEmpty)
  }

  /** The client said no. */
  predicate Refuses(f: Fact) {
    || (f.ServerAnswered? && f.answer in {CommandDecided(Decline), CommandDecided(ApplyNetworkPolicyAmendment(false)),
                                          FileChangeDecided(FileDecline)})
    || (f.PermissionsAnswered? && f.grant.isEmpty)
  }

  /** The client said neither, or the request was withdrawn. */
  predicate Abandons(f: Fact) {
    || (f.ServerAnswered? && f.answer in {CommandDecided(Cancel), FileChangeDecided(FileCancel)})
    || f.ServerRequestAborted?
  }

  predicate Settling(f: Fact) {
    Grants(f) || Refuses(f) || Abandons(f)
  }

  /** What the answer changes for requests to come. */
  function Resolves(f: Fact): ReviewResolution
    requires Settling(f)
  {
    if (f.ServerAnswered? && f.answer in {CommandDecided(AcceptForSession), FileChangeDecided(FileAcceptForSession)})
       || (f.PermissionsAnswered? && !f.grant.isEmpty && f.grant.forSession) then SessionApproval
    else if f.ServerAnswered? && f.answer == CommandDecided(AcceptWithExecPolicyAmendment) then ExecPolicyAmendment
    else if f.ServerAnswered? && f.answer.CommandDecided? && f.answer.command.ApplyNetworkPolicyAmendment?
    then NetworkPolicyAmendment
    else NoResolution
  }

  /** The facts that settle an approval request, and how: nothing else is an answer. */
  lemma AnswerMeans(f: Fact)
    ensures AnswerOf(f) ==
            if Settling(f)
            then Some(Answer(f.requestId, if Grants(f) then Approved else if Refuses(f) then Denied else Aborted,
                             Resolves(f), f.completedAtMs))
            else None
  {
  }

  predicate AsksNetwork(a: GuardianAction) {
    a.GuardianNetworkAccess? || (a.GuardianRequestPermissions? && a.networkEnabled)
  }

  predicate AsksFiles(a: GuardianAction) {
    a.GuardianApplyPatch? || (a.GuardianRequestPermissions? && a.fileSystem)
  }

  /** The review a guardian notice is about. */
  function GuardianReviewOf(n: Notification): PendingReview
    requires n.GuardianReviewCompleted? && n.startedAtMs >= 0
  {
    var a := n.action;
    var ofCommand := a in {GuardianCommand, GuardianExecve};
    PendingReview(n.threadId, n.turnId, n.targetItemId, n.reviewId,
                  if ofCommand then SubjectCommand else if a.GuardianApplyPatch? then SubjectFileChange
                  else if a.GuardianNetworkAccess? then SubjectNetwork
                  else if a.GuardianRequestPermissions? then SubjectPermissions else SubjectMcpToolCall,
                  if ofCommand then "command_execution" else if a.GuardianApplyPatch? then "apply_patch"
                  else if a.GuardianNetworkAccess? then "network_access"
                  else if a.GuardianRequestPermissions? then "permissions" else a.toolName,
                  if a.GuardianExecve? then ExecveIntercept else if AsksNetwork(a) then NetworkPolicyDenial
                  else if AsksFiles(a) then SandboxDenial else Initial,
                  n.startedAtMs, AsksNetwork(a) || AsksFiles(a), AsksNetwork(a))
  }

  /** The guardian has decided, at a time that can be reported. */
  predicate GuardianSettles(f: Fact) {
    && f.Notified? && f.notification.GuardianReviewCompleted? && f.notification.verdict.GuardianDecided?
    && f.notification.startedAtMs >= 0 && f.notification.completedAtMs >= 0
  }

  lemma GuardianMeans(n: Notification)
    requires n.GuardianReviewCompleted?
    ensures GuardianCompleted(n) ==
            if GuardianSettles(Notified(n)) then Some((GuardianReviewOf(n), n.verdict.status, n.completedAtMs))
                else None
  {
  }

  // ---------------------------------------------------------------- the reviews of a run

  /** A review that reached a terminal status, by a user or by the guardian. */
  datatype Terminal = Terminal(review: PendingReview, reviewer: Reviewer, status: ReviewStatus,
      resolution: ReviewResolution, completedAtMs: nat)

  function TerminalReview(s: State, f: Fact): Option<Terminal> {
    if Settling(f) && f.requestId in s.pendingReviews then
      Some(Terminal(s.pendingReviews[f.requestId], User,
                    if Grants(f) then Approved else if Refuses(f) then Denied else Aborted, Resolves(f),
                    f.completedAtMs))
    else if GuardianSettles(f) then
      Some(Terminal(GuardianReviewOf(f.notification), Guardian, f.notification.verdict.status, NoResolution,
                    f.notification.completedAtMs))
    else None
  }

  /** The thread is known, with metadata and a connection that has been initialised: the context of an event. */
  function Registration(s: State, threadId: string): Option<(ConnectionState, ThreadMetadata)> {
    if threadId in s.threads && s.threads[threadId].metadata.Some? && s.threads[threadId].connectionId.Some?
       && s.threads[threadId].connectionId.value in s.connections
    then Some((s.connections[s.threads[threadId].connectionId.value], s.threads[threadId].metadata.value))
    else None
  }

  lemma ContextMeans(s: State, threadId: string)
    ensures match Registration(s, threadId)
            case Some((c, m)) => ThreadContext(s, threadId) == Found(c, m)
            case None => ThreadContext(s, threadId).NotFound?
  {
  }

  /** The completion that reports the item and forgets its reviews. */
  predicate Clears(s: State, f: Fact, key: ToolItemKey) {
    f.Notified? && f.notification.ItemEnd? && !f.notification.item.UntrackedItem?
    && key == ToolItemKey(f.notification.threadId, f.notification.turnId, f.notification.item.id)
    && f.notification.completedAtMs >= 0 && key.turnId in s.turns && key in s.toolStarts
    && Registration(s, key.threadId).Some?
  }

  /** A review of this item; permission and network reviews belong to no item. */
  predicate Concerns(r: Option<Terminal>, key: ToolItemKey) {
    r.Some? && r.value.review.subject !in {SubjectPermissions, SubjectNetwork}
    && r.value.review.itemId == Some(key.itemId)
    && r.value.review.threadId == key.threadId && r.value.review.turnId == key.turnId
  }

  /** The reviews of an item since they were last cleared, oldest first. */
  function Reviews(h: History, key: ToolItemKey): seq<Terminal> {
    match h
    case Start => []
    case Then(before, input) =>
      var r := TerminalReview(Reached(before), input.fact);
      if Clears(Reached(before), input.fact, key) then []
      else Reviews(before, key) + if Concerns(r, key) then [r.value] else []
  }

  function By(reviewer: Reviewer): Terminal -> bool {
    (r: Terminal) => r.reviewer == reviewer
  }

  /** The outcome a review stands for. */
  predicate Concludes(r: Terminal, outcome: FinalOutcome) {
    match outcome
    case Unknown => false
    case GuardianApproved => r.reviewer.Guardian? && r.status.Approved?
    case GuardianDenied => r.reviewer.Guardian? && r.status.Denied?
    case GuardianAborted => r.reviewer.Guardian? && (r.status.Aborted? || r.status.TimedOut?)
    case UserApproved => r.reviewer.User? && r.status.Approved? && !r.resolution.SessionApproval?
    case UserApprovedForSession => r.reviewer.User? && r.status.Approved? && r.resolution.SessionApproval?
    case UserDenied => r.reviewer.User? && r.status.Denied?
    case UserAborted => r.reviewer.User? && (r.status.Aborted? || r.status.TimedOut?)
  }

  /** What a summary says of a list of reviews, with no reference to how it was accumulated. */
  ghost predicate Summarises(sum: ReviewSummary, rs: seq<Terminal>) {
    && sum.reviewCount == |rs|
    && sum.guardianReviewCount == |Filter(By(Guardian), rs)|
    && sum.userReviewCount == |Filter(By(User), rs)|
    && (sum.finalOutcome.Some? <==> rs != [])
    && (rs != [] ==> Concludes(rs[|rs| - 1], sum.finalOutcome.value))
    && (sum.requestedAdditionalPermissions <==> exists r :: r in rs && r.review.requestedAdditionalPermissions)
    && (sum.requestedNetworkAccess <==> exists r :: r in rs && r.review.requestedNetworkAccess)
  }

  // ---------------------------------------------------------------- one step

  function NextSummary(s: State, f: Fact, key: ToolItemKey): Option<ReviewSummary> {
    var r := TerminalReview(s, f);
    if Clears(s, f, key) then None
    else if Concerns(r, key) then
      Some(RecordReview(SummaryEntry(s, key), r.value.reviewer, r.value.status, r.value.resolution, r.value.review))
    else Lookup(s.reviewSummaries, key)
  }

  lemma EmitReviewSummary(s: State, r: Terminal, key: ToolItemKey)
    ensures Lookup(EmitReview(s, r.review, r.reviewer, r.status, r.resolution, r.completedAtMs).state.reviewSummaries,
              key)
         == if Concerns(Some(r), key)
            then Some(RecordReview(SummaryEntry(s, key), r.reviewer, r.status, r.resolution, r.review))
            else Lookup(s.reviewSummaries, key)
  {
  }

  lemma ItemEndSummary(s: State, n: Notification, key: ToolItemKey)
    requires n.ItemEnd?
    ensures Lookup(IngestItemEnd(s, n).state.reviewSummaries, key)
         == if Clears(s, Notified(n), key) then None else Lookup(s.reviewSummaries, key)
  {
    ContextMeans(s, n.threadId);
    var s1 := s.(turns := IngestItemEnd(s, n).state.turns);
    assert ThreadContext(s1, n.threadId) == ThreadContext(s, n.threadId);
  }

  lemma NotificationSummary(s: State, n: Notification, key: ToolItemKey)
    ensures Lookup(IngestNotification(s, n).state.reviewSummaries, key) == NextSummary(s, Notified(n), key)
  {
    if n.ItemEnd? {
      ItemEndSummary(s, n, key);
    } else if n.GuardianReviewCompleted? {
      GuardianMeans(n);
      if GuardianSettles(Notified(n)) {
        EmitReviewSummary(s, TerminalReview(s, Notified(n)).value, key);
      }
    }
  }

  lemma AnswerSummary(s: State, f: Fact, key: ToolItemKey)
    requires AnswerOf(f).Some?
    ensures Lookup(AnswerReview(s, AnswerOf(f).value).state.reviewSummaries, key) == NextSummary(s, f, key)
  {
    AnswerMeans(f);
    if f.requestId in s.pendingReviews {
      EmitReviewSummary(s.(pendingReviews := s.pendingReviews - {f.requestId}), TerminalReview(s, f).value, key);
    }
  }

  lemma ResponseKeepsSummaries(s: State, key: RequestKey, response: ClientResponse, at: Moment)
    ensures IngestResponse(s, key, response, at).state.reviewSummaries == s.reviewSummaries
  {
  }

  lemma TurnFactKeepsSummaries(s: State, f: Fact, t: string, at: Moment)
    ensures IngestTurnFact(s, f, t, at).state.reviewSummaries == s.reviewSummaries
  {
  }

  /** Facts that neither review an item nor end one. */
  lemma OtherFactSummary(s: State, f: Fact, key: ToolItemKey)
    requires AnswerOf(f).None? && (f.Notified? ==> PatchedTurn(f).Some?)
    ensures NextSummary(s, f, key) == Lookup(s.reviewSummaries, key)
  {
    AnswerMeans(f);
  }

  lemma OtherSummary(s: State, f: Fact, at: Moment, key: ToolItemKey)
    requires PatchedTurn(f).None? && AnswerOf(f).None?
    ensures Lookup(IngestOther(s, f, at).state.reviewSummaries, key) == NextSummary(s, f, key)
  {
    match f
    case Notified(n) => NotificationSummary(s, n, key);
    case Response(connectionId, id, response) =>
      ResponseKeepsSummaries(s, RequestKey(connectionId, id), response, at);
      OtherFactSummary(s, f, key);
    case _ => OtherFactSummary(s, f, key);
  }

  lemma StepSummary(s: State, input: Input, key: ToolItemKey)
    ensures Lookup(Step(s, input).state.reviewSummaries, key) == NextSummary(s, input.fact, key)
  {
    if PatchedTurn(input.fact).Some? {
      TurnFactKeepsSummaries(s, input.fact, PatchedTurn(input.fact).value, input.moment);
      OtherFactSummary(s, input.fact, key);
    } else if AnswerOf(input.fact).Some? {
      AnswerSummary(s, input.fact, key);
    } else {
      OtherSummary(s, input.fact, input.moment, key);
    }
  }

  // ---------------------------------------------------------------- summaries refine history

  lemma RecordSummarises(sum: ReviewSummary, rs: seq<Terminal>, r: Terminal)
    requires Summarises(sum, rs)
    ensures Summarises(RecordReview(sum, r.reviewer, r.status, r.resolution, r.review), rs + [r])
  {
    FilterConcat(By(Guardian), rs, [r]);
    FilterConcat(By(User), rs, [r]);
    assert forall x :: x in rs + [r] <==> x in rs || x == r;
  }

  /** In every reachable state an item's summary is the summary of its reviews since they were last cleared. */
  lemma {:induction false} SummariesRefineHistory(h: History, key: ToolItemKey)
    ensures Summarises(SummaryEntry(Reached(h), key), Reviews(h, key))
    ensures key in Reached(h).reviewSummaries <==> Reviews(h, key) != []
  {
    match h
    case Start =>
    case Then(before, input) =>
      SummariesRefineHistory(before, key);
      StepSummary(Reached(before), input, key);
      var r := TerminalReview(Reached(before), input.fact);
      if Concerns(r, key) {
        RecordSummarises(SummaryEntry(Reached(before), key), Reviews(before, key), r.value);
      } else {
        assert Reviews(before, key) + [] == Reviews(before, key);
      }
  }

  /** Every review is by the guardian or by the user. */
  lemma {:induction false} ReviewersPartition(rs: seq<Terminal>)
    ensures |rs| == |Filter(By(Guardian), rs)| + |Filter(By(User), rs)|
  {
    if rs != [] {
      ReviewersPartition(rs[1..]);
    }
  }

  lemma {:induction false} ItemReviewsOnly(h: History, key: ToolItemKey)
    ensures forall r | r in Reviews(h, key) ::
              r.review.subject != SubjectPermissions && r.review.subject != SubjectNetwork
              && ToolItemKey(r.review.threadId, r.review.turnId, key.itemId) == key
  {
    match h
    case Start =>
    case Then(before, input) =>
      ItemReviewsOnly(before, key);
      var r := TerminalReview(Reached(before), input.fact);
      assert forall x | x in Reviews(h, key) :: x in Reviews(before, key) || (Concerns(r, key) && x == r.value);
  }

  lemma ItemEventSummary(s: State, n: Notification, e: Event)
    requires n.ItemEnd? && e in IngestItemEnd(s, n).out && e.ToolItemEvent?
    ensures e.summary == SummaryEntry(s, e.key)
    ensures e.finalOutcome == if e.summary.finalOutcome.Some? then e.summary.finalOutcome.value else Unknown
    ensures Clears(s, Notified(n), e.key)
  {
    ContextMeans(s, n.threadId);
    var s1 := s.(turns := IngestItemEnd(s, n).state.turns);
    assert ThreadContext(s1, n.threadId) == ThreadContext(s, n.threadId);
  }

  /** Which steps push tool and user-review events. */
  ghost predicate Plain(e: Event) {
    !e.ToolItemEvent? && !(e.ReviewEvent? && e.reviewer.User?)
  }

  lemma TurnFactsPlain(s: State, f: Fact, t: string, at: Moment)
    ensures forall e | e in IngestTurnFact(s, f, t, at).out :: Plain(e)
  {
  }

  lemma ResponsesPlain(s: State, key: RequestKey, response: ClientResponse, at: Moment)
    ensures forall e | e in IngestResponse(s, key, response, at).out :: Plain(e)
  {
  }

  lemma OthersPlain(s: State, n: Notification, f: CustomFact)
    ensures !n.ItemEnd? ==> forall e | e in IngestNotification(s, n).out :: Plain(e)
    ensures forall e | e in IngestCustom(s, f).out :: Plain(e)
  {
  }

  lemma PushedBy(s: State, input: Input, e: Event)
    requires e in Step(s, input).out && !Plain(e)
    ensures AnswerOf(input.fact).Some? || (input.fact.Notified? && input.fact.notification.ItemEnd?)
  {
    if PatchedTurn(input.fact).Some? {
      TurnFactsPlain(s, input.fact, PatchedTurn(input.fact).value, input.moment);
    } else if AnswerOf(input.fact).None? {
      match input.fact
      case Response(connectionId, id, response) =>
          ResponsesPlain(s, RequestKey(connectionId, id), response, input.moment);
      case Notified(n) => OthersPlain(s, n, OneShot([]));
      case Custom(f) => OthersPlain(s, OtherNotification, f);
      case _ =>
    }
  }

  lemma ToolEventsAreItemEnds(s: State, input: Input, e: Event)
    requires e in Step(s, input).out && e.ToolItemEvent?
    ensures input.fact.Notified? && input.fact.notification.ItemEnd?
    ensures e in IngestItemEnd(s, input.fact.notification).out
  {
    PushedBy(s, input, e);
  }

  lemma ToolEventSummary(s: State, input: Input, e: Event)
    requires e in Step(s, input).out && e.ToolItemEvent?
    ensures e.summary == SummaryEntry(s, e.key) && Clears(s, input.fact, e.key)
    ensures e.finalOutcome == if e.summary.finalOutcome.Some? then e.summary.finalOutcome.value else Unknown
  {
    ToolEventsAreItemEnds(s, input, e);
    ItemEventSummary(s, input.fact.notification, e);
  }

  /** The event reports these reviews: how many, by whom, the outcome of the last, whether any asked for more. */
  ghost predicate Reports(e: Event, rs: seq<Terminal>)
    requires e.ToolItemEvent?
  {
    && Summarises(e.summary, rs)
    && e.summary.reviewCount == e.summary.guardianReviewCount + e.summary.userReviewCount
    && if rs == [] then e.finalOutcome == Unknown else Concludes(rs[|rs| - 1], e.finalOutcome)
  }

  lemma SummaryReported(e: Event, rs: seq<Terminal>)
    requires e.ToolItemEvent? && Summarises(e.summary, rs)
    requires e.finalOutcome == if e.summary.finalOutcome.Some? then e.summary.finalOutcome.value else Unknown
    ensures Reports(e, rs)
  {
    ReviewersPartition(rs);
  }

  lemma ClearingReports(h: History, input: Input, e: Event)
    requires e.ToolItemEvent? && e.summary == SummaryEntry(Reached(h), e.key) && Clears(Reached(h), input.fact, e.key)
    requires e.finalOutcome == if e.summary.finalOutcome.Some? then e.summary.finalOutcome.value else Unknown
    ensures Reports(e, Reviews(h, e.key)) && Reviews(Then(h, input), e.key) == []
  {
    SummariesRefineHistory(h, e.key);
    SummaryReported(e, Reviews(h, e.key));
  }

  /**
   A tool event reports exactly the item's reviews since they were last cleared: how many, by whom, the
   outcome of the last one, and whether any of them asked for more; permission and network reviews are
   not among them.
  */
  lemma ToolEventReportsReviews(h: History, input: Input, e: Event)
    requires e in Step(Reached(h), input).out && e.ToolItemEvent?
    ensures Reports(e, Reviews(h, e.key)) && Reviews(Then(h, input), e.key) == []
  {
    ToolEventSummary(Reached(h), input, e);
    ClearingReports(h, input, e);
  }

  // ---------------------------------------------------------------- thread contexts

  /** Every thread has metadata, and the connection it records has been initialised. */
  ghost predicate ContextsComplete(r: Registry) {
    forall t | t in r.threads ::
      r.threads[t].metadata.Some?
          && (r.threads[t].connectionId.Some? ==> r.threads[t].connectionId.value in r.connections)
  }

  lemma {:induction false} ReachableContexts(h: History)
    ensures ContextsComplete(RegistryOf(Reached(h)))
  {
    match h
    case Start =>
    case Then(before, input) =>
      ReachableContexts(before);
      StepsRegistry(Reached(before), input);
  }

  /**
   So in a reachable state a context lookup fails only when the thread is unknown or has no connection
   yet: the missing-connection and missing-metadata branches are never taken, however long the chain of
   sub-agents a connection was inherited through.
  */
  lemma LookupFailsOnlyWithoutConnection(h: History, threadId: string)
    ensures var s := Reached(h);
            ThreadContext(s, threadId) == NotFound(ThreadConnection)
            <==> threadId !in s.threads || s.threads[threadId].connectionId.None?
    ensures var context := ThreadContext(Reached(h), threadId);
            context.NotFound? ==> context.missing == ThreadConnection
  {
    ReachableContexts(h);
  }
}
