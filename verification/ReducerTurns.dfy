/**
 What every run of the analytics reducer keeps about turns: when a turn event is pushed, how often,
 and which facts it can depend on.
*/
module ReducerTurns {
  import opened Common
  import opened AnalyticsFacts
  import opened Reducer

  /** The events of one turn: its turn event and the accepted-line event that may follow it. */
  function AboutTurn(t: string): Event -> bool {
    (e: Event) => (e.TurnEvent? && e.params.turnId == t) || (e.AcceptedLinesEvent? && e.turnId == t)
  }

  function TurnStream(s: State, h: History, t: string): seq<Event> {
    match h
    case Start => []
    case Then(before, _) => TurnStream(s, before, t) + Filter(AboutTurn(t), LastOut(s, h))
  }

  /** The turn whose entry a fact may create, change or remove. */
  function WrittenTurn(f: Fact): Option<string> {
    match f
    case Response(_, _, TurnStarted(t)) => Some(t)
    case Response(_, _, TurnSteered(t)) => Some(t)
    case Notified(ItemEnd(_, t, _, _)) => Some(t)
    case Notified(TurnBegan(t, _)) => Some(t)
    case Notified(TurnDiffUpdated(_, t, _)) => Some(t)
    case Notified(TurnEnded(t, _, _, _, _)) => Some(t)
    case Custom(TurnResolvedConfig(config)) => Some(config.turnId)
    case Custom(TurnTokenUsage(_, t, _)) => Some(t)
    case Custom(TurnProfile(t, _)) => Some(t)
    case Custom(TurnCodexError(_, t, _)) => Some(t)
    case _ => None
  }

  /** All but responses and tool ends make an entry for their turn if it has none. */
  lemma PatchedMeans(f: Fact)
    ensures PatchedTurn(f) ==
            if f.Response? || (f.Notified? && f.notification.ItemEnd?) then None else WrittenTurn(f)
  {
  }

  /** The result of an ingest that neither writes turn t nor pushes an event about it. */
  ghost predicate Leaves(s: State, r: Result, t: string) {
    Lookup(r.state.turns, t) == Lookup(s.turns, t) && Filter(AboutTurn(t), r.out) == []
  }

  lemma EmitLeaves(s: State, u: string, turn: TurnState, at: Moment, t: string)
    requires u != t
    ensures Leaves(s, MaybeEmitTurnEvent(PutTurn(s, u, turn), u, at), t)
  {
    FilterNone(AboutTurn(t), MaybeEmitTurnEvent(PutTurn(s, u, turn), u, at).out);
  }

  lemma TurnFactLeaves(s: State, f: Fact, u: string, at: Moment, t: string)
    requires u != t
    ensures Leaves(s, IngestTurnFact(s, f, u, at), t)
  {
    EmitLeaves(s, u, Patch(f, TurnEntry(s, u)), at, t);
  }

  lemma ReviewLeaves(s: State, review: PendingReview, reviewer: Reviewer, status: ReviewStatus,
                     resolution: ReviewResolution, completedAtMs: nat, t: string)
    ensures Leaves(s, EmitReview(s, review, reviewer, status, resolution, completedAtMs), t)
  {
  }

  lemma AnswerLeaves(s: State, a: Answer, t: string)
    ensures Leaves(s, AnswerReview(s, a), t)
  {
    if a.id in s.pendingReviews {
      ReviewLeaves(s.(pendingReviews := s.pendingReviews - {a.id}), s.pendingReviews[a.id], User, a.status,
          a.resolution, a.completedAtMs, t);
    }
  }

  lemma NotificationLeaves(s: State, n: Notification, t: string)
    requires n.ItemEnd? ==> n.turnId != t
    ensures Leaves(s, IngestNotification(s, n), t)
  {
    if n.GuardianReviewCompleted? && GuardianCompleted(n).Some? {
      var (review, status, completedAtMs) := GuardianCompleted(n).value;
      ReviewLeaves(s, review, Guardian, status, NoResolution, completedAtMs, t);
    }
  }

  lemma CustomLeaves(s: State, f: CustomFact, t: string)
    ensures Leaves(s, IngestCustom(s, f), t)
  {
    FilterNone(AboutTurn(t), IngestCustom(s, f).out);
  }

  lemma ResponseLeaves(s: State, key: RequestKey, response: ClientResponse, at: Moment, t: string)
    requires WrittenTurn(Response(key.connectionId, key.requestId, response)) != Some(t)
    ensures Leaves(s, IngestResponse(s, key, response, at), t)
  {
    var s1 := s.(requests := s.requests - {key});
    if response.TurnStarted? && key in s.requests && s.requests[key].TurnStart? {
      EmitLeaves(s1, response.turnId, StartedTurn(s1, key, s.requests[key], response.turnId), at, t);
    }
  }

  lemma OtherLeaves(s: State, f: Fact, at: Moment, t: string)
    requires WrittenTurn(f) != Some(t) && PatchedTurn(f).None?
    ensures Leaves(s, IngestOther(s, f, at), t)
  {
    match f
    case Response(connectionId, id, response) => ResponseLeaves(s, RequestKey(connectionId, id), response, at, t);
    case Notified(n) => NotificationLeaves(s, n, t);
    case Custom(custom) => CustomLeaves(s, custom, t);
    case _ =>
  }

  /** A fact leaves every turn it does not write alone, and pushes no event about it. */
  lemma OtherTurnUntouched(s: State, input: Input, t: string)
    requires WrittenTurn(input.fact) != Some(t)
    ensures Leaves(s, Step(s, input), t)
  {
    if PatchedTurn(input.fact).Some? {
      TurnFactLeaves(s, input.fact, PatchedTurn(input.fact).value, input.moment, t);
    } else if AnswerOf(input.fact).Some? {
      AnswerLeaves(s, AnswerOf(input.fact).value, t);
    } else {
      OtherLeaves(s, input.fact, input.moment, t);
    }
  }

  // ---------------------------------------------------------------- requests, connections and threads

  /** The three tables that turns and reviews only read. */
  datatype Registry = Registry(
    requests: map<RequestKey, RequestState>, connections: map<nat, ConnectionState>, threads: map<string, ThreadState>)

  function RegistryOf(s: State): Registry {
    Registry(s.requests, s.connections, s.threads)
  }

  /**
   The registry evolves by itself: no turn, item or review fact reaches it. A start or steer request is pending until
   its response takes it out. A thread that is opened gets its connection and metadata anew; a sub-agent thread keeps
   its own connection and metadata if it has them, and takes its parent's connection if it has none.
  */
  function NextRegistry(r: Registry, input: Input): Registry {
    match input.fact
    case Initialize(connectionId, connection) => r.(connections := r.connections[connectionId := connection])
    case Request(connectionId, id, request) =>
      if request.OtherRequest? then r
      else
        var pending := if request.TurnStartRequest? then TurnStart(request.threadId, request.numInputImages)
                       else TurnSteer(request.threadId, request.expectedTurnId, request.numInputImages,
                                      input.moment.nowSeconds);
        r.(requests := r.requests[RequestKey(connectionId, id) := pending])
    case Response(connectionId, id, response) =>
      if response.TurnStarted? || response.TurnSteered? then r.(requests := r.requests - {RequestKey(connectionId, id)})
      else if response.ThreadOpened? && connectionId in r.connections then
        r.(threads := r.threads[response.threadId := ThreadState(Some(connectionId), Some(response.metadata))])
      else r
    case ErrorResponse(connectionId, id, _) => r.(requests := r.requests - {RequestKey(connectionId, id)})
    case Custom(f) =>
      if !f.SubAgentThreadStarted? then r
      else
        var metadata := ThreadMetadata(f.sessionId, Some("subagent"), New, Some(f.subagentSource), f.parentThreadId);
        r.(threads := r.threads[f.threadId := ThreadState(
            if ConnectionOf(r, f.threadId).Some? then ConnectionOf(r, f.threadId)
            else if f.parentThreadId.Some? then ConnectionOf(r, f.parentThreadId.value) else None,
            if f.threadId in r.threads && r.threads[f.threadId].metadata.Some? then r.threads[f.threadId].metadata
            else Some(metadata))])
    case _ => r
  }

  function ConnectionOf(r: Registry, threadId: string): Option<nat> {
    if threadId in r.threads then r.threads[threadId].connectionId else None
  }

  lemma ResponseStepsRegistry(s: State, connectionId: nat, id: RequestId, response: ClientResponse, at: Moment)
    ensures RegistryOf(IngestResponse(s, RequestKey(connectionId, id), response, at).state)
         == NextRegistry(RegistryOf(s), Input(Response(connectionId, id, response), at))
  {
    match response
    case TurnStarted(turnId) => StartedStepsRegistry(s, RequestKey(connectionId, id), turnId, at);
    case _ =>
  }

  lemma StartedStepsRegistry(s: State, key: RequestKey, turnId: string, at: Moment)
    ensures RegistryOf(IngestTurnStarted(s, key, turnId, at).state) == RegistryOf(s).(requests := s.requests - {key})
  {
  }

  lemma TurnFactKeepsRegistry(s: State, f: Fact, t: string, at: Moment)
    ensures RegistryOf(IngestTurnFact(s, f, t, at).state) == RegistryOf(s)
  {
  }

  lemma AnswerKeepsRegistry(s: State, a: Answer)
    ensures RegistryOf(AnswerReview(s, a).state) == RegistryOf(s)
  {
  }

  lemma NotificationKeepsRegistry(s: State, n: Notification)
    ensures RegistryOf(IngestNotification(s, n).state) == RegistryOf(s)
  {
    if n.ItemEnd? {
      ItemEndKeepsRegistry(s, n);
    }
  }

  lemma ItemEndKeepsRegistry(s: State, n: Notification)
    requires n.ItemEnd?
    ensures RegistryOf(IngestItemEnd(s, n).state) == RegistryOf(s)
  {
  }

  lemma CustomStepsRegistry(s: State, f: CustomFact, at: Moment)
    requires PatchedTurn(Custom(f)).None?
    ensures RegistryOf(IngestCustom(s, f).state) == NextRegistry(RegistryOf(s), Input(Custom(f), at))
  {
  }

  /** No turn fact and no answer is one the registry knows. */
  lemma TurnFactsSkipRegistry(r: Registry, input: Input)
    requires PatchedTurn(input.fact).Some? || AnswerOf(input.fact).Some?
    ensures NextRegistry(r, input) == r
  {
  }

  lemma OtherStepsRegistry(s: State, f: Fact, at: Moment)
    requires PatchedTurn(f).None? && AnswerOf(f).None?
    ensures RegistryOf(IngestOther(s, f, at).state) == NextRegistry(RegistryOf(s), Input(f, at))
  {
    match f
    case Response(connectionId, id, response) => ResponseStepsRegistry(s, connectionId, id, response, at);
    case Notified(n) => NotificationKeepsRegistry(s, n);
    case Custom(custom) => CustomStepsRegistry(s, custom, at);
    case ErrorResponse(connectionId, id, reason) => ErrorStepsRegistry(s, RequestKey(connectionId, id), reason);
    case _ =>
  }

  lemma ErrorStepsRegistry(s: State, key: RequestKey, reason: Option<string>)
    ensures RegistryOf(IngestErrorResponse(s, key, reason).state) == RegistryOf(s).(requests := s.requests - {key})
  {
  }

  lemma StepsRegistry(s: State, input: Input)
    ensures RegistryOf(Step(s, input).state) == NextRegistry(RegistryOf(s), input)
  {
    if PatchedTurn(input.fact).Some? {
      TurnFactsSkipRegistry(RegistryOf(s), input);
      TurnFactKeepsRegistry(s, input.fact, PatchedTurn(input.fact).value, input.moment);
    } else if AnswerOf(input.fact).Some? {
      TurnFactsSkipRegistry(RegistryOf(s), input);
      AnswerKeepsRegistry(s, AnswerOf(input.fact).value);
    } else {
      OtherStepsRegistry(s, input.fact, input.moment);
    }
  }

  // ---------------------------------------------------------------- non-interference

  /** Everything a turn's events are made from. */
  ghost predicate SameView(a: State, b: State, t: string) {
    RegistryOf(a) == RegistryOf(b) && Lookup(a.turns, t) == Lookup(b.turns, t)
  }

  /** The notifications and custom turn facts of another turn. */
  predicate OtherTurnFact(f: Fact, t: string) {
    match f
    case Notified(ItemStart(_, u, _, _)) => u != t
    case Notified(ItemEnd(_, u, _, _)) => u != t
    case Notified(GuardianReviewStarted(u)) => u != t
    case Notified(GuardianReviewCompleted(_, u, _, _, _, _, _, _)) => u != t
    case Notified(TurnBegan(u, _)) => u != t
    case Notified(TurnDiffUpdated(_, u, _)) => u != t
    case Notified(TurnEnded(u, _, _, _, _)) => u != t
    case Custom(Compaction(_, u, _)) => u != t
    case Custom(GuardianReview(_, u, _)) => u != t
    case Custom(TurnResolvedConfig(config)) => config.turnId != t
    case Custom(TurnTokenUsage(_, u, _)) => u != t
    case Custom(TurnProfile(u, _)) => u != t
    case Custom(TurnCodexError(_, u, _)) => u != t
    case _ => false
  }

  /** The run without the notifications and custom facts of other turns. */
  function Erase(h: History, t: string): History {
    match h
    case Start => Start
    case Then(before, input) =>
      if OtherTurnFact(input.fact, t) then Erase(before, t) else Then(Erase(before, t), input)
  }

  lemma ErasedStep(s: State, input: Input, t: string)
    requires OtherTurnFact(input.fact, t)
    ensures SameView(s, Step(s, input).state, t) && Filter(AboutTurn(t), Step(s, input).out) == []
  {
    OtherTurnUntouched(s, input, t);
    StepsRegistry(s, input);
  }

  lemma EmitSame(a: State, b: State, t: string, turn: TurnState, at: Moment)
    requires RegistryOf(a) == RegistryOf(b)
    ensures var ra, rb := MaybeEmitTurnEvent(PutTurn(a, t, turn), t, at),
              MaybeEmitTurnEvent(PutTurn(b, t, turn), t, at);
            ra.out == rb.out && Lookup(ra.state.turns, t) == Lookup(rb.state.turns, t)
  {
  }

  ghost predicate SameResult(ra: Result, rb: Result, t: string) {
    Lookup(ra.state.turns, t) == Lookup(rb.state.turns, t)
        && Filter(AboutTurn(t), ra.out) == Filter(AboutTurn(t), rb.out)
  }

  lemma TurnFactSame(a: State, b: State, f: Fact, at: Moment, t: string)
    requires SameView(a, b, t)
    ensures SameResult(IngestTurnFact(a, f, t, at), IngestTurnFact(b, f, t, at), t)
  {
    assert TurnEntry(a, t) == TurnEntry(b, t);
    var turn := Patch(f, TurnEntry(a, t));
    if TriesJoin(f) {
      EmitSame(a, b, t, turn, at);
    } else {
      assert Lookup(PutTurn(a, t, turn).turns, t) == Lookup(PutTurn(b, t, turn).turns, t);
    }
  }

  lemma StartedSame(a: State, b: State, key: RequestKey, at: Moment, t: string)
    requires SameView(a, b, t)
    ensures SameResult(IngestTurnStarted(a, key, t, at), IngestTurnStarted(b, key, t, at), t)
  {
    if key in a.requests && a.requests[key].TurnStart? {
      var a1, b1 := a.(requests := a.requests - {key}), b.(requests := b.requests - {key});
      EmitSame(a1, b1, t, StartedTurn(a1, key, a.requests[key], t), at);
    }
  }

  lemma SteeredSame(a: State, b: State, key: RequestKey, t: string)
    requires SameView(a, b, t)
    ensures SameResult(IngestTurnSteered(a, key, t), IngestTurnSteered(b, key, t), t)
  {
  }

  /** What an item end does to the entry of its turn, and that it pushes nothing about any turn. */
  lemma ItemEndEntry(s: State, n: Notification, t: string)
    requires n.ItemEnd?
    ensures Filter(AboutTurn(t), IngestItemEnd(s, n).out) == []
    ensures Lookup(IngestItemEnd(s, n).state.turns, n.turnId)
         == if n.item.UntrackedItem? || n.turnId !in s.turns then Lookup(s.turns, n.turnId)
            else Some(s.turns[n.turnId].(toolCounts := RecordTool(s.turns[n.turnId].toolCounts, n.item)))
  {
    FilterNone(AboutTurn(t), IngestItemEnd(s, n).out);
  }

  /** A steer response for turn t that finds its pending steer request. */
  predicate AcceptsSteer(s: State, f: Fact, t: string) {
    f.Response? && f.response.TurnSteered? && f.response.turnId == t
    && var key := RequestKey(f.connectionId, f.requestId); key in s.requests && s.requests[key].TurnSteer?
  }

  lemma ItemEndSame(a: State, b: State, n: Notification, t: string)
    requires SameView(a, b, t) && n.ItemEnd? && n.turnId == t
    ensures SameResult(IngestItemEnd(a, n), IngestItemEnd(b, n), t)
  {
    ItemEndEntry(a, n, t);
    ItemEndEntry(b, n, t);
    assert Lookup(a.turns, t) == Lookup(b.turns, t);
  }

  lemma WrittenStep(a: State, b: State, input: Input, t: string)
    requires SameView(a, b, t) && WrittenTurn(input.fact) == Some(t)
    ensures SameResult(Step(a, input), Step(b, input), t)
  {
    if PatchedTurn(input.fact).Some? {
      TurnFactSame(a, b, input.fact, input.moment, t);
    } else {
      match input.fact
      case Response(connectionId, id, TurnStarted(_)) =>
          StartedSame(a, b, RequestKey(connectionId, id), input.moment, t);
      case Response(connectionId, id, TurnSteered(_)) => SteeredSame(a, b, RequestKey(connectionId, id), t);
      case Notified(n) => ItemEndSame(a, b, n, t);
    }
  }

  lemma KeptStep(a: State, b: State, input: Input, t: string)
    requires SameView(a, b, t)
    ensures SameView(Step(a, input).state, Step(b, input).state, t)
    ensures Filter(AboutTurn(t), Step(a, input).out) == Filter(AboutTurn(t), Step(b, input).out)
  {
    StepsRegistry(a, input);
    StepsRegistry(b, input);
    if WrittenTurn(input.fact) == Some(t) {
      WrittenStep(a, b, input, t);
    } else {
      OtherTurnUntouched(a, input, t);
      OtherTurnUntouched(b, input, t);
    }
  }

  lemma {:induction false} ErasedRun(s: State, h: History, t: string)
    ensures SameView(After(s, h), After(s, Erase(h, t)), t)
    ensures TurnStream(s, h, t) == TurnStream(s, Erase(h, t), t)
  {
    match h
    case Start =>
    case Then(before, input) =>
      ErasedRun(s, before, t);
      if OtherTurnFact(input.fact, t) {
        ErasedStep(After(s, before), input, t);
      } else {
        KeptStep(After(s, before), After(s, Erase(before, t)), input, t);
      }
  }

  /** Two runs that differ only in facts of other turns push the same events about t. */
  lemma NonInterference(s: State, h: History, g: History, t: string)
    requires Erase(h, t) == Erase(g, t)
    ensures TurnStream(s, h, t) == TurnStream(s, g, t)
  {
    ErasedRun(s, h, t);
    ErasedRun(s, g, t);
  }

  // ---------------------------------------------------------------- at most once

  function IsTurnEvent(): Event -> bool {
    (e: Event) => e.TurnEvent?
  }

  function TurnEventCount(events: seq<Event>): nat {
    |Filter(IsTurnEvent(), events)|
  }

  /** A start response that finds its pending start request. */
  predicate MatchesStart(requests: map<RequestKey, RequestState>, f: Fact) {
    f.Response? && f.response.TurnStarted?
    && var key := RequestKey(f.connectionId, f.requestId); key in requests && requests[key].TurnStart?
  }

  function MatchedStarts(s: State, h: History, t: string): nat {
    match h
    case Start => 0
    case Then(before, input) =>
      MatchedStarts(s, before, t)
      + if MatchesStart(After(s, before).requests, input.fact) && input.fact.response.turnId == t then 1 else 0
  }

  /** A turn that could be reported: a start response has put its connection on the entry. */
  function Armed(s: State, t: string): nat {
    if t in s.turns && s.turns[t].connectionId.Some? then 1 else 0
  }

  /** Turn events pushed about t, and one more if t could still be reported. */
  function Reports(r: Result, t: string): nat {
    TurnEventCount(Filter(AboutTurn(t), r.out)) + Armed(r.state, t)
  }

  lemma EmitCounts(s: State, t: string, turn: TurnState, at: Moment)
    ensures Reports(MaybeEmitTurnEvent(PutTurn(s, t, turn), t, at), t) == if turn.connectionId.Some? then 1 else 0
  {
    var s1 := PutTurn(s, t, turn);
    if Ready(s1, turn) {
      var tail := AcceptedLineEvents(t, turn, at);
      var out := MaybeEmitTurnEvent(s1, t, at).out;
      assert out[1..] == tail;
      FilterNone(IsTurnEvent(), tail);
      assert Filter(AboutTurn(t), tail) == tail;
      assert Filter(AboutTurn(t), out) == [out[0]] + tail;
      FilterConcat(IsTurnEvent(), [out[0]], tail);
    }
  }

  /** An event about t uses up the connection that one matched start response put there. */
  lemma TurnEventStep(s: State, input: Input, t: string)
    ensures Reports(Step(s, input), t)
         <= Armed(s, t) + if MatchesStart(s.requests, input.fact) && input.fact.response.turnId == t then 1 else 0
  {
    if WrittenTurn(input.fact) != Some(t) {
      OtherTurnUntouched(s, input, t);
    } else if PatchedTurn(input.fact).Some? {
      TurnFactReports(s, input.fact, t, input.moment);
    } else if input.fact.Notified? {
      ItemEndReports(s, input.fact.notification);
    } else {
      ResponseReports(s, input.fact, input.moment, t);
    }
  }

  lemma TurnFactReports(s: State, f: Fact, t: string, at: Moment)
    ensures Reports(IngestTurnFact(s, f, t, at), t) == Armed(s, t)
  {
    PatchKeepsConnection(f, TurnEntry(s, t));
    EmitCounts(s, t, Patch(f, TurnEntry(s, t)), at);
  }

  lemma ResponseReports(s: State, f: Fact, at: Moment, t: string)
    requires f.Response? && (f.response.TurnStarted? || f.response.TurnSteered?) && f.response.turnId == t
    ensures Reports(IngestResponse(s, RequestKey(f.connectionId, f.requestId), f.response, at), t)
         <= Armed(s, t) + if MatchesStart(s.requests, f) then 1 else 0
  {
    var key := RequestKey(f.connectionId, f.requestId);
    var s1 := s.(requests := s.requests - {key});
    if MatchesStart(s.requests, f) {
      EmitCounts(s1, t, StartedTurn(s1, key, s.requests[key], t), at);
    } else {
      FilterNone(AboutTurn(t), IngestResponse(s, key, f.response, at).out);
    }
  }

  lemma PatchKeepsConnection(f: Fact, entry: TurnState)
    ensures Patch(f, entry).connectionId == entry.connectionId
  {
  }

  lemma ItemEndReports(s: State, n: Notification)
    requires n.ItemEnd?
    ensures Reports(IngestItemEnd(s, n), n.turnId) == Armed(s, n.turnId)
  {
    FilterNone(AboutTurn(n.turnId), IngestItemEnd(s, n).out);
  }

  /** Turn events about t never outnumber the start responses for t that matched a pending request. */
  lemma {:induction false} AtMostOncePerStart(s: State, h: History, t: string)
    ensures TurnEventCount(TurnStream(s, h, t)) + Armed(After(s, h), t) <= Armed(s, t) + MatchedStarts(s, h, t)
  {
    match h
    case Start =>
    case Then(before, input) =>
      AtMostOncePerStart(s, before, t);
      TurnEventStep(After(s, before), input, t);
      FilterConcat(IsTurnEvent(), TurnStream(s, before, t), Filter(AboutTurn(t), LastOut(s, h)));
  }

  // Over all turns.

  function AllTurnEvents(h: History): nat {
    match h case Start => 0 case Then(before, _) => AllTurnEvents(before) + TurnEventCount(LastOut(EMPTY, h))
  }

  function AllMatchedStarts(h: History): nat {
    match h
    case Start => 0
    case Then(before, input) =>
      AllMatchedStarts(before) + if MatchesStart(Reached(before).requests, input.fact) then 1 else 0
  }

  function StartRequests(h: History): nat {
    match h
    case Start => 0
    case Then(before, input) =>
      StartRequests(before) + if input.fact.Request? && input.fact.request.TurnStartRequest? then 1 else 0
  }

  function ArmedTurns(s: State): set<string> {
    set t | t in s.turns && s.turns[t].connectionId.Some?
  }

  function PendingStarts(requests: map<RequestKey, RequestState>): set<RequestKey> {
    set k | k in requests && requests[k].TurnStart?
  }

  lemma {:induction false} FilterKeepsMember<T>(keep: T -> bool, s: seq<T>, x: T)
    requires x in s && keep(x)
    ensures x in Filter(keep, s)
  {
    if s[0] != x {
      FilterKeepsMember(keep, s[1..], x);
    }
  }

  lemma TurnEventsAreWritten(s: State, input: Input, e: Event)
    requires e in Step(s, input).out && e.TurnEvent?
    ensures WrittenTurn(input.fact) == Some(e.params.turnId)
  {
    var t := e.params.turnId;
    FilterKeepsMember(AboutTurn(t), Step(s, input).out, e);
    if WrittenTurn(input.fact) != Some(t) {
      OtherTurnUntouched(s, input, t);
    }
  }

  lemma {:induction false} CountOfOneTurn(events: seq<Event>, t: string)
    requires forall e | e in events && e.TurnEvent? :: e.params.turnId == t
    ensures TurnEventCount(events) == TurnEventCount(Filter(AboutTurn(t), events))
  {
    if events != [] {
      CountOfOneTurn(events[1..], t);
      var head := if AboutTurn(t)(events[0]) then [events[0]] else [];
      FilterConcat(IsTurnEvent(), head, Filter(AboutTurn(t), events[1..]));
    }
  }

  lemma ArmedElsewhere(a: State, b: State, t: string)
    requires forall u | u != t :: Lookup(a.turns, u) == Lookup(b.turns, u)
    ensures ArmedTurns(a) - {t} == ArmedTurns(b) - {t}
  {
    forall u | u != t ensures u in ArmedTurns(a) <==> u in ArmedTurns(b) {
      assert Lookup(a.turns, u) == Lookup(b.turns, u);
    }
  }

  lemma ArmedSplit(s: State, t: string)
    ensures |ArmedTurns(s)| == |ArmedTurns(s) - {t}| + Armed(s, t)
  {
    assert t in ArmedTurns(s) <==> Armed(s, t) == 1;
    assert ArmedTurns(s) == if t in ArmedTurns(s) then (ArmedTurns(s) - {t}) + {t} else ArmedTurns(s) - {t};
  }

  lemma ArmedCardinality(a: State, b: State, t: string)
    requires forall u | u != t :: Lookup(a.turns, u) == Lookup(b.turns, u)
    ensures |ArmedTurns(b)| + Armed(a, t) == |ArmedTurns(a)| + Armed(b, t)
  {
    ArmedElsewhere(a, b, t);
    ArmedSplit(a, t);
    ArmedSplit(b, t);
  }

  lemma AllTurnsStep(s: State, input: Input)
    ensures TurnEventCount(Step(s, input).out) + |ArmedTurns(Step(s, input).state)|
         <= |ArmedTurns(s)| + if MatchesStart(s.requests, input.fact) then 1 else 0
  {
    var r := Step(s, input);
    var t := if WrittenTurn(input.fact).Some? then WrittenTurn(input.fact).value else "";
    forall e | e in r.out && e.TurnEvent? ensures e.params.turnId == t {
      TurnEventsAreWritten(s, input, e);
    }
    forall u | u != t ensures Lookup(s.turns, u) == Lookup(r.state.turns, u) {
      OtherTurnUntouched(s, input, u);
    }
    CountOfOneTurn(r.out, t);
    ArmedCardinality(s, r.state, t);
    TurnEventStep(s, input, t);
  }

  /** Requests appear one at a time and responses take theirs out. */
  lemma NextRequests(r: Registry, input: Input)
    ensures var f, requests := input.fact, NextRegistry(r, input).requests;
            if f.Request?
            then requests == AddRequest(r.requests, RequestKey(f.connectionId, f.requestId), f.request, input.moment)
            else if (f.Response? && (f.response.TurnStarted? || f.response.TurnSteered?)) || f.ErrorResponse?
            then requests == r.requests - {RequestKey(f.connectionId, f.requestId)}
            else requests == r.requests
  {
  }

  lemma RemovedStart(requests: map<RequestKey, RequestState>, key: RequestKey)
    ensures |PendingStarts(requests - {key})| + (if key in PendingStarts(requests) then 1 else 0)
              == |PendingStarts(requests)|
  {
    assert PendingStarts(requests - {key}) == PendingStarts(requests) - {key};
  }

  lemma AddedStart(requests: map<RequestKey, RequestState>, key: RequestKey, request: ClientRequest, at: Moment)
    ensures |PendingStarts(AddRequest(requests, key, request, at))|
         <= |PendingStarts(requests)| + if request.TurnStartRequest? then 1 else 0
  {
    if request.TurnStartRequest? {
      assert PendingStarts(AddRequest(requests, key, request, at)) == PendingStarts(requests) + {key};
    } else {
      SubsetCardinality(PendingStarts(AddRequest(requests, key, request, at)), PendingStarts(requests));
    }
  }

  lemma PendingStartsNext(r: Registry, input: Input)
    ensures |PendingStarts(NextRegistry(r, input).requests)| + (if MatchesStart(r.requests, input.fact) then 1 else 0)
         <= |PendingStarts(r.requests)|
            + (if input.fact.Request? && input.fact.request.TurnStartRequest? then 1 else 0)
  {
    NextRequests(r, input);
    match input.fact
    case Request(connectionId, id, request) =>
        AddedStart(r.requests, RequestKey(connectionId, id), request, input.moment);
    case Response(connectionId, id, _) => RemovedStart(r.requests, RequestKey(connectionId, id));
    case ErrorResponse(connectionId, id, _) => RemovedStart(r.requests, RequestKey(connectionId, id));
    case _ =>
  }

  lemma {:induction false} SubsetCardinality<T>(a: set<T>, b: set<T>)
    requires a <= b
    ensures |a| <= |b|
  {
    assert b == a + (b - a);
  }

  /** From the empty reducer, turn events never outnumber the start requests ingested. */
  lemma {:induction false} AtMostOncePerRequest(h: History)
    ensures AllTurnEvents(h) + |ArmedTurns(Reached(h))| <= AllMatchedStarts(h)
    ensures AllMatchedStarts(h) + |PendingStarts(Reached(h).requests)| <= StartRequests(h)
  {
    match h
    case Start =>
    case Then(before, input) =>
      AtMostOncePerRequest(before);
      AllTurnsStep(Reached(before), input);
      StepsRegistry(Reached(before), input);
      PendingStartsNext(RegistryOf(Reached(before)), input);
  }
}
