/**
 The analytics reducer as the object it is: seven tables updated in place by one method per kind of
 fact. Every method is proved to do what the transition function in Reducer.dfy says.
*/
module ReducerObject {
  import opened Common
  import opened AnalyticsFacts
  import opened Reducer

  class AnalyticsReducer {
    var requests: map<RequestKey, RequestState>
    var turns: map<string, TurnState>
    var connections: map<nat, ConnectionState>
    var threads: map<string, ThreadState>
    var toolStarts: map<ToolItemKey, nat>
    var pendingReviews: map<RequestId, PendingReview>
    var reviewSummaries: map<ToolItemKey, ReviewSummary>
    ghost var history: History

    function Value(): State
      reads this
    {
      State(requests, turns, connections, threads, toolStarts, pendingReviews, reviewSummaries)
    }

    /** The tables are what the transition function makes of the facts ingested so far. */
    ghost predicate Valid()
      reads this
    {
      Value() == Reached(history)
    }

    constructor ()
      ensures Valid() && history == Start && Value() == EMPTY
    {
      history := Start;
      requests, turns, connections, threads := map[], map[], map[], map[];
      toolStarts, pendingReviews, reviewSummaries := map[], map[], map[];
    }

    /** So every result about runs, `Reached(history)`, is about this object. */
    method Ingest(input: Input) returns (out: seq<Event>)
      requires Valid()
      modifies this
      ensures Valid() && history == Then(old(history), input) && out == LastOut(EMPTY, history)
      ensures Result(Value(), out) == Step(old(Value()), input)
    {
      out := Dispatch(input);
      history := Then(history, input);
    }

    method Dispatch(input: Input) returns (out: seq<Event>)
      modifies this
      ensures history == old(history)
      ensures Result(Value(), out) == Step(old(Value()), input)
    {
      out := [];
      match input.fact
      case Initialize(connectionId, connection) =>
        connections := connections[connectionId := connection];
      case Request(connectionId, id, request) =>
        IngestRequest(RequestKey(connectionId, id), request, input.moment);
      case Response(connectionId, id, response) =>
        out := IngestResponse(RequestKey(connectionId, id), response, input.moment);
      case ErrorResponse(connectionId, id, reason) =>
        out := IngestErrorResponse(RequestKey(connectionId, id), reason);
      case ServerAsked(id, asked) =>
        IngestServerRequest(id, asked);
      case ServerAnswered(completedAtMs, id, CommandDecided(d)) =>
        var (status, resolution) := CommandResult(d);
        out := SettleReview(Answer(id, status, resolution, completedAtMs));
      case ServerAnswered(completedAtMs, id, FileChangeDecided(d)) =>
        var (status, resolution) := FileResult(d);
        out := SettleReview(Answer(id, status, resolution, completedAtMs));
      case ServerAnswered(_, _, OtherServerResponse) =>
      case PermissionsAnswered(completedAtMs, id, grant) =>
        var (status, resolution) := PermissionsResult(grant);
        out := SettleReview(Answer(id, status, resolution, completedAtMs));
      case ServerRequestAborted(completedAtMs, id) =>
        out := SettleReview(Answer(id, Aborted, NoResolution, completedAtMs));
      case Notified(n) =>
        out := IngestNotification(n, input.moment);
      case Custom(f) =>
        out := IngestCustom(f, input.moment);
    }

    method IngestRequest(key: RequestKey, request: ClientRequest, at: Moment)
      modifies this`requests
      ensures requests == AddRequest(old(requests), key, request, at)
    {
      match request
      case TurnStartRequest(threadId, images) => requests := requests[key := TurnStart(threadId, images)];
      case TurnSteerRequest(threadId, expected, images) =>
        requests := requests[key := TurnSteer(threadId, expected, images, at.nowSeconds)];
      case OtherRequest =>
    }

    method IngestResponse(key: RequestKey, response: ClientResponse, at: Moment) returns (out: seq<Event>)
      modifies this
      ensures history == old(history)
      ensures Result(Value(), out) == Reducer.IngestResponse(old(Value()), key, response, at)
    {
      out := [];
      match response
      case ThreadOpened(threadId, metadata, model) =>
        if key.connectionId in connections {
          threads := threads[threadId := ThreadState(Some(key.connectionId), Some(metadata))];
          out := [ThreadInitializedEvent(threadId, Some(connections[key.connectionId]), metadata, model)];
        }
      case TurnStarted(turnId) =>
        var pending := Lookup(requests, key);
        requests := requests - {key};
        if pending.None? || !pending.value.TurnStart? {
          return;
        }
        var turn := TurnEntry(Value(), turnId);
        turn := turn.(connectionId := Some(key.connectionId));
        turn := turn.(threadId := Some(pending.value.threadId));
        turn := turn.(numInputImages := Some(pending.value.numInputImages));
        turns := turns[turnId := turn];
        out := MaybeEmitTurnEvent(turnId, at);
      case TurnSteered(turnId) =>
        var pending := Lookup(requests, key);
        requests := requests - {key};
        if pending.None? || !pending.value.TurnSteer? {
          return;
        }
        if turnId in turns {
          turns := turns[turnId := turns[turnId].(steerCount := turns[turnId].steerCount + 1)];
        }
        out := EmitTurnSteerEvent(key.connectionId, pending.value, Some(turnId), None);
      case OtherResponse =>
    }

    method IngestErrorResponse(key: RequestKey, reason: Option<string>) returns (out: seq<Event>)
      modifies this`requests
      ensures Result(Value(), out) == Reducer.IngestErrorResponse(old(Value()), key, reason)
    {
      var pending := Lookup(requests, key);
      requests := requests - {key};
      if pending.None? || pending.value.TurnStart? {
        return [];
      }
      out := EmitTurnSteerEvent(key.connectionId, pending.value, None, reason);
    }

    method EmitTurnSteerEvent(connectionId: nat, pending: RequestState, accepted: Option<string>,
                              rejection: Option<string>) returns (out: seq<Event>)
      requires pending.TurnSteer?
      ensures out == SteerEvents(Value(), connectionId, pending, accepted, rejection)
    {
      if connectionId !in connections {
        return [];
      }
      if pending.threadId !in threads || threads[pending.threadId].metadata.None? {
        return [];
      }
      out := [TurnSteerEvent(pending, accepted, rejection, connections[connectionId],
          threads[pending.threadId].metadata.value)];
    }

    /** One missing piece at a time, as the source checks them. */
    method MaybeEmitTurnEvent(turnId: string, at: Moment) returns (out: seq<Event>)
      modifies this`turns
      ensures Result(Value(), out) == Reducer.MaybeEmitTurnEvent(old(Value()), turnId, at)
    {
      out := [];
      if turnId !in turns {
        return;
      }
      var turn := turns[turnId];
      if turn.threadId.None? || turn.numInputImages.None? || turn.resolvedConfig.None? || turn.profile.None?
         || turn.completed.None? {
        return;
      }
      if turn.connectionId.None? {
        return;
      }
      if turn.connectionId.value !in connections {
        return;
      }
      var threadId := turn.threadId.value;
      if threadId !in threads || threads[threadId].metadata.None? {
        return;
      }
      out := [TurnEvent(TurnEventParams(connections[turn.connectionId.value], turnId, turn,
          threads[threadId].metadata.value))]
             + AcceptedLineEvents(turnId, turn, at);
      turns := turns - {turnId};
    }

    method IngestServerRequest(id: RequestId, asked: ServerRequest)
      modifies this`pendingReviews
      ensures Value() == Reducer.IngestServerRequest(old(Value()), id, asked)
    {
      var review := ReviewAsked(id, asked);
      if review.Some? {
        pendingReviews := pendingReviews[id := review.value];
      }
    }

    method SettleReview(a: Answer) returns (out: seq<Event>)
      modifies this`pendingReviews, this`reviewSummaries
      ensures Result(Value(), out) == AnswerReview(old(Value()), a)
    {
      if a.id !in pendingReviews {
        return [];
      }
      var review := pendingReviews[a.id];
      pendingReviews := pendingReviews - {a.id};
      out := EmitReviewEvent(review, User, a.status, a.resolution, a.completedAtMs);
    }

    method EmitReviewEvent(review: PendingReview, reviewer: Reviewer, status: ReviewStatus,
                           resolution: ReviewResolution, completedAtMs: nat) returns (out: seq<Event>)
      modifies this`reviewSummaries
      ensures Result(Value(), out) == EmitReview(old(Value()), review, reviewer, status, resolution, completedAtMs)
    {
      var key := ReviewedItem(review);
      if key.Some? {
        RecordItemReviewSummary(key.value, reviewer, status, resolution, review);
      }
      var context := ThreadContextOrWarn(review.threadId);
      if context.NotFound? {
        return [];
      }
      out := [ReviewEvent(review, reviewer, status, resolution, completedAtMs,
                          ObservedDuration(review.startedAtMs, completedAtMs), context.connection, context.metadata)];
    }

    method RecordItemReviewSummary(key: ToolItemKey, reviewer: Reviewer, status: ReviewStatus,
                                   resolution: ReviewResolution, review: PendingReview)
      modifies this`reviewSummaries
      ensures var summary := RecordReview(SummaryEntry(old(Value()), key), reviewer, status, resolution, review);
              reviewSummaries == old(reviewSummaries)[key := summary]
    {
      var summary := if key in reviewSummaries then reviewSummaries[key] else NO_REVIEWS;
      summary := summary.(reviewCount := summary.reviewCount + 1);
      match reviewer {
        case Guardian => summary := summary.(guardianReviewCount := summary.guardianReviewCount + 1);
        case User => summary := summary.(userReviewCount := summary.userReviewCount + 1);
      }
      summary := summary.(finalOutcome := Some(FinalApprovalOutcome(reviewer, status, resolution)));
      summary := summary.(requestedAdditionalPermissions :=
                            summary.requestedAdditionalPermissions || review.requestedAdditionalPermissions);
      summary := summary.(requestedNetworkAccess := summary.requestedNetworkAccess || review.requestedNetworkAccess);
      reviewSummaries := reviewSummaries[key := summary];
    }

    method ThreadContextOrWarn(threadId: string) returns (context: Context)
      ensures context == ThreadContext(Value(), threadId)
    {
      if threadId !in threads || threads[threadId].connectionId.None? {
        return NotFound(ThreadConnection);
      }
      var connectionId := threads[threadId].connectionId.value;
      if connectionId !in connections {
        return NotFound(Connection(connectionId));
      }
      if threads[threadId].metadata.None? {
        return NotFound(Metadata);
      }
      context := Found(connections[connectionId], threads[threadId].metadata.value);
    }

    method IngestNotification(n: Notification, at: Moment) returns (out: seq<Event>)
      modifies this
      ensures history == old(history)
      ensures Result(Value(), out) == match PatchedTurn(Notified(n))
                                      case Some(t) => IngestTurnFact(old(Value()), Notified(n), t, at)
                                      case None => Reducer.IngestNotification(old(Value()), n)
    {
      out := [];
      match n
      case ItemStart(threadId, turnId, item, startedAtMs) =>
        if !item.UntrackedItem? && startedAtMs >= 0 {
          toolStarts := toolStarts[ToolItemKey(threadId, turnId, item.id) := startedAtMs];
        }
      case ItemEnd(_, _, _, _) =>
        out := IngestItemCompleted(n);
      case GuardianReviewStarted(_) =>
      case GuardianReviewCompleted(_, _, _, _, _, _, _, _) =>
        var completed := GuardianCompleted(n);
        if completed.Some? {
          var (review, status, completedAtMs) := completed.value;
          out := EmitReviewEvent(review, Guardian, status, NoResolution, completedAtMs);
        }
      case TurnBegan(turnId, startedAt) =>
        var turn := TurnEntry(Value(), turnId);
        turn := turn.(startedAt := match startedAt case Some(i) => NonNegative(i) case None => None);
        turns := turns[turnId := turn];
      case TurnDiffUpdated(threadId, turnId, diff) =>
        var turn := TurnEntry(Value(), turnId);
        turns := turns[turnId := turn.(threadId := Some(threadId), latestDiff := Some(diff))];
      case TurnEnded(turnId, _, _, _, _) =>
        var turn := TurnEntry(Value(), turnId);
        turns := turns[turnId := turn.(completed := Some(CompletedTurnOf(n)))];
        out := MaybeEmitTurnEvent(turnId, at);
      case OtherNotification =>
    }

    method IngestItemCompleted(n: Notification) returns (out: seq<Event>)
      requires n.ItemEnd?
      modifies this`turns, this`toolStarts, this`reviewSummaries
      ensures Result(Value(), out) == IngestItemEnd(old(Value()), n)
    {
      out := [];
      var itemId := TrackedItemId(n.item);
      if itemId.None? {
        return;
      }
      if n.turnId !in turns {
        return;
      }
      var turn := turns[n.turnId];
      turns := turns[n.turnId := turn.(toolCounts := RecordTool(turn.toolCounts, n.item))];
      var key := ToolItemKey(n.threadId, n.turnId, itemId.value);
      if key !in toolStarts {
        return;
      }
      var startedAtMs := toolStarts[key];
      toolStarts := toolStarts - {key};
      if n.completedAtMs < 0 {
        return;
      }
      var context := ThreadContextOrWarn(n.threadId);
      if context.NotFound? {
        return;
      }
      var summary := if key in reviewSummaries then reviewSummaries[key] else NO_REVIEWS;
      out := ToolItemEvents(key, n.item, startedAtMs, n.completedAtMs, context.connection, context.metadata, summary);
      reviewSummaries := reviewSummaries - {key};
    }

    method IngestCustom(f: CustomFact, at: Moment) returns (out: seq<Event>)
      modifies this
      ensures history == old(history)
      ensures Result(Value(), out) == match PatchedTurn(Custom(f))
                                      case Some(t) => IngestTurnFact(old(Value()), Custom(f), t, at)
                                      case None => Reducer.IngestCustom(old(Value()), f)
    {
      out := [];
      match f
      case SubAgentThreadStarted(threadId, _, _, _, detail) =>
        out := IngestSubAgentThreadStarted(threadId, SubAgentMetadata(f), detail);
      case Compaction(threadId, turnId, detail) =>
        var context := ThreadContextOrWarn(threadId);
        if context.Found? {
          out := [CompactionEvent(threadId, turnId, detail, context.connection, context.metadata)];
        }
      case GuardianReview(threadId, turnId, detail) =>
        var context := ThreadContextOrWarn(threadId);
        if context.Found? {
          out := [GuardianReviewEvent(threadId, turnId, detail, context.connection, context.metadata.sessionId)];
        }
      case TurnResolvedConfig(config) => out := IngestTurnResolvedConfig(config, at);
      case TurnTokenUsage(threadId, turnId, usage) => out := IngestTurnTokenUsage(threadId, turnId, usage, at);
      case TurnProfile(turnId, profile) => out := IngestTurnProfile(turnId, profile, at);
      case TurnCodexError(threadId, turnId, error) => IngestTurnCodexError(threadId, turnId, error, at);
      case OneShot(payloads) =>
        out := seq(|payloads|, i requires 0 <= i < |payloads| => OneShotEvent(payloads[i]));
    }

    method IngestTurnResolvedConfig(config: ResolvedConfig, at: Moment) returns (out: seq<Event>)
      modifies this`turns
      ensures Result(Value(), out)
           == IngestTurnFact(old(Value()), Custom(TurnResolvedConfig(config)), config.turnId, at)
    {
      var turn := TurnEntry(Value(), config.turnId);
      turn := turn.(threadId := Some(config.threadId), numInputImages := Some(config.numInputImages));
      turns := turns[config.turnId := turn.(resolvedConfig := Some(config))];
      out := MaybeEmitTurnEvent(config.turnId, at);
    }

    method IngestTurnTokenUsage(threadId: string, turnId: string, usage: string, at: Moment) returns (out: seq<Event>)
      modifies this`turns
      ensures Result(Value(), out)
           == IngestTurnFact(old(Value()), Custom(TurnTokenUsage(threadId, turnId, usage)), turnId, at)
    {
      var turn := TurnEntry(Value(), turnId);
      turns := turns[turnId := turn.(threadId := Some(threadId), tokenUsage := Some(usage))];
      out := MaybeEmitTurnEvent(turnId, at);
    }

    method IngestTurnProfile(turnId: string, profile: string, at: Moment) returns (out: seq<Event>)
      modifies this`turns
      ensures Result(Value(), out) == IngestTurnFact(old(Value()), Custom(TurnProfile(turnId, profile)), turnId, at)
    {
      turns := turns[turnId := TurnEntry(Value(), turnId).(profile := Some(profile))];
      out := MaybeEmitTurnEvent(turnId, at);
    }

    /** An error does not complete a turn. */
    method IngestTurnCodexError(threadId: string, turnId: string, error: string, ghost at: Moment)
      modifies this`turns
      ensures Result(Value(), [])
           == IngestTurnFact(old(Value()), Custom(TurnCodexError(threadId, turnId, error)), turnId, at)
    {
      var turn := TurnEntry(Value(), turnId);
      if turn.threadId.None? {
        turn := turn.(threadId := Some(threadId));
      }
      turns := turns[turnId := turn.(codexError := Some(error))];
    }

    method IngestSubAgentThreadStarted(threadId: string, metadata: ThreadMetadata, detail: string)
        returns (out: seq<Event>)
      modifies this`threads
      ensures threads == AddSubAgentThread(old(threads), threadId, metadata)
      ensures out == [ThreadInitializedEvent(threadId, None, metadata, detail)]
    {
      var inherited: Option<nat> := None;
      if metadata.parentThreadId.Some? && metadata.parentThreadId.value in threads {
        inherited := threads[metadata.parentThreadId.value].connectionId;
      }
      var entry := if threadId in threads then threads[threadId] else ThreadState(None, None);
      if entry.metadata.None? {
        entry := entry.(metadata := Some(metadata));
      }
      if entry.connectionId.None? {
        entry := entry.(connectionId := inherited);
      }
      threads := threads[threadId := entry];
      out := [ThreadInitializedEvent(threadId, None, metadata, detail)];
    }
  }
}
