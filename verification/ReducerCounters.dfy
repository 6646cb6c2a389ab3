/** The counters on a turn event equal what the run says about the turn since its entry was created. */
module ReducerCounters {
  import opened Common
  import opened AnalyticsFacts
  import opened Reducer
  import opened ReducerTurns

  datatype ToolKind = Shell | Patching | Mcp | Dynamic | Subagent | Search | Image

  function KindOf(item: ThreadItem): Option<ToolKind> {
    match item
    case CommandExecution(_, _, _) => Some(Shell)
    case FileChange(_, _, _) => Some(Patching)
    case McpToolCall(_, _, _) => Some(Mcp)
    case DynamicToolCall(_, _, _) => Some(Dynamic)
    case CollabAgentToolCall(_, _, _) => Some(Subagent)
    case WebSearch(_, _) => Some(Search)
    case ImageGeneration(_, _, _) => Some(Image)
    case UntrackedItem(_) => None
  }

  function CountOf(counts: ToolCounts, kind: ToolKind): nat {
    match kind
    case Shell => counts.shellCommand
    case Patching => counts.fileChange
    case Mcp => counts.mcpToolCall
    case Dynamic => counts.dynamicToolCall
    case Subagent => counts.subagentToolCall
    case Search => counts.webSearch
    case Image => counts.imageGeneration
  }

  function SumOf(counts: ToolCounts): nat {
    counts.shellCommand + counts.fileChange + counts.mcpToolCall + counts.dynamicToolCall + counts.subagentToolCall
    + counts.webSearch + counts.imageGeneration
  }

  /** The completion of a tracked tool item of turn t. */
  predicate EndsTool(f: Fact, t: string) {
    f.Notified? && f.notification.ItemEnd? && f.notification.turnId == t && KindOf(f.notification.item).Some?
  }

  // Counting over the run since the entry of t was created: a step taken while t has no entry starts over.

  function ToolEnds(h: History, t: string): nat {
    match h
    case Start => 0
    case Then(before, input) =>
      if t !in Reached(before).turns then 0 else ToolEnds(before, t) + if EndsTool(input.fact, t) then 1 else 0
  }

  function ToolEndsOf(h: History, t: string, kind: ToolKind): nat {
    match h
    case Start => 0
    case Then(before, input) =>
      if t !in Reached(before).turns then 0
      else
        ToolEndsOf(before, t, kind)
        + if EndsTool(input.fact, t) && KindOf(input.fact.notification.item) == Some(kind) then 1 else 0
  }

  function Steers(h: History, t: string): nat {
    match h
    case Start => 0
    case Then(before, input) =>
      if t !in Reached(before).turns then 0
      else Steers(before, t) + if AcceptsSteer(Reached(before), input.fact, t) then 1 else 0
  }

  // ---------------------------------------------------------------- one step

  /** The counters an entry has after a step in which it stays or is created. */
  function NextCounts(s: State, f: Fact, t: string): ToolCounts {
    var counts := TurnEntry(s, t).toolCounts;
    if t in s.turns && EndsTool(f, t) then RecordTool(counts, f.notification.item) else counts
  }

  function NextSteers(s: State, f: Fact, t: string): nat {
    TurnEntry(s, t).steerCount + if t in s.turns && AcceptsSteer(s, f, t) then 1 else 0
  }

  ghost predicate Counted(s: State, f: Fact, r: Result, t: string) {
    && (t in r.state.turns ==> r.state.turns[t].toolCounts == NextCounts(s, f, t)
                               && r.state.turns[t].steerCount == NextSteers(s, f, t))
    && forall e | e in r.out && e.TurnEvent? && e.params.turnId == t ::
         e.params.toolCounts == TurnEntry(s, t).toolCounts && e.params.steerCount == TurnEntry(s, t).steerCount
  }

  lemma TurnFactCounts(s: State, f: Fact, t: string, at: Moment)
    requires PatchedTurn(f) == Some(t)
    ensures Counted(s, f, IngestTurnFact(s, f, t, at), t)
  {
    PatchKeepsCounts(f, TurnEntry(s, t));
    EmitCountsOf(s, f, t, Patch(f, TurnEntry(s, t)), at);
  }

  lemma PatchKeepsCounts(f: Fact, entry: TurnState)
    ensures Patch(f, entry).toolCounts == entry.toolCounts && Patch(f, entry).steerCount == entry.steerCount
  {
  }

  /** An entry that keeps its counters is reported with them. */
  lemma EmitCountsOf(s: State, f: Fact, t: string, turn: TurnState, at: Moment)
    requires turn.toolCounts == TurnEntry(s, t).toolCounts && turn.steerCount == TurnEntry(s, t).steerCount
    requires !EndsTool(f, t) && !AcceptsSteer(s, f, t)
    ensures Counted(s, f, MaybeEmitTurnEvent(PutTurn(s, t, turn), t, at), t)
    ensures Counted(s, f, Result(PutTurn(s, t, turn), []), t)
  {
  }

  lemma ResponseCounts(s: State, f: Fact, at: Moment, t: string)
    requires f.Response? && (f.response.TurnStarted? || f.response.TurnSteered?) && f.response.turnId == t
    ensures Counted(s, f, IngestResponse(s, RequestKey(f.connectionId, f.requestId), f.response, at), t)
  {
    var key := RequestKey(f.connectionId, f.requestId);
    if f.response.TurnStarted? && key in s.requests && s.requests[key].TurnStart? {
      var s1 := s.(requests := s.requests - {key});
      EmitCountsOf(s1, f, t, StartedTurn(s1, key, s.requests[key], t), at);
    }
  }

  lemma ItemEndTurns(s: State, n: Notification)
    requires n.ItemEnd?
    ensures var turns := IngestItemEnd(s, n).state.turns;
            if n.turnId in s.turns then
              var turn := s.turns[n.turnId];
              turns == s.turns[n.turnId := turn.(toolCounts := RecordTool(turn.toolCounts, n.item))]
            else turns == s.turns
    ensures forall e | e in IngestItemEnd(s, n).out :: !e.TurnEvent?
  {
  }

  lemma ItemEndCounts(s: State, n: Notification, t: string)
    requires n.ItemEnd? && n.turnId == t
    ensures Counted(s, Notified(n), IngestItemEnd(s, n), t)
  {
    ItemEndTurns(s, n);
  }

  lemma StepCounts(s: State, input: Input, t: string)
    ensures Counted(s, input.fact, Step(s, input), t)
  {
    if WrittenTurn(input.fact) != Some(t) {
      OtherTurnUntouched(s, input, t);
      forall e | e in Step(s, input).out && e.TurnEvent? ensures e.params.turnId != t {
        TurnEventsAreWritten(s, input, e);
      }
    } else if PatchedTurn(input.fact).Some? {
      TurnFactCounts(s, input.fact, t, input.moment);
    } else if input.fact.Response? {
      ResponseCounts(s, input.fact, input.moment, t);
    } else {
      ItemEndCounts(s, input.fact.notification, t);
    }
  }

  // ---------------------------------------------------------------- whole runs

  lemma RecordCounts(counts: ToolCounts, item: ThreadItem, kind: ToolKind)
    ensures var counts' := RecordTool(counts, item);
            && counts'.total == counts.total + (if KindOf(item).Some? then 1 else 0)
            && SumOf(counts') == SumOf(counts) + (if KindOf(item).Some? then 1 else 0)
            && CountOf(counts', kind) == CountOf(counts, kind) + (if KindOf(item) == Some(kind) then 1 else 0)
  {
  }

  /** What the counters of turn t should say after a run. */
  ghost predicate CountsHistory(h: History, t: string, kind: ToolKind, counts: ToolCounts, steers: nat) {
    steers == Steers(h, t) && counts.total == ToolEnds(h, t) == SumOf(counts)
    && CountOf(counts, kind) == ToolEndsOf(h, t, kind)
  }

  lemma NextTotal(s: State, f: Fact, t: string)
    ensures NextCounts(s, f, t).total
         == TurnEntry(s, t).toolCounts.total + if t in s.turns && EndsTool(f, t) then 1 else 0
  {
    if t in s.turns && EndsTool(f, t) {
      RecordCounts(s.turns[t].toolCounts, f.notification.item, Shell);
    }
  }

  lemma NextSum(s: State, f: Fact, t: string)
    ensures SumOf(NextCounts(s, f, t))
         == SumOf(TurnEntry(s, t).toolCounts) + if t in s.turns && EndsTool(f, t) then 1 else 0
  {
    if t in s.turns && EndsTool(f, t) {
      RecordCounts(s.turns[t].toolCounts, f.notification.item, Shell);
    }
  }

  lemma NextOfKind(s: State, f: Fact, t: string, kind: ToolKind)
    ensures CountOf(NextCounts(s, f, t), kind) == CountOf(TurnEntry(s, t).toolCounts, kind)
              + if t in s.turns && EndsTool(f, t) && KindOf(f.notification.item) == Some(kind) then 1 else 0
  {
    if t in s.turns && EndsTool(f, t) {
      RecordCounts(s.turns[t].toolCounts, f.notification.item, kind);
    }
  }

  lemma {:induction false} TotalIsEnds(h: History, t: string)
    requires t in Reached(h).turns
    ensures Reached(h).turns[t].toolCounts.total == ToolEnds(h, t) && Reached(h).turns[t].steerCount == Steers(h, t)
  {
    var Then(before, input) := h;
    StepCounts(Reached(before), input, t);
    NextTotal(Reached(before), input.fact, t);
    if t in Reached(before).turns {
      TotalIsEnds(before, t);
    }
  }

  lemma {:induction false} SumIsEnds(h: History, t: string)
    requires t in Reached(h).turns
    ensures SumOf(Reached(h).turns[t].toolCounts) == ToolEnds(h, t)
  {
    var Then(before, input) := h;
    StepCounts(Reached(before), input, t);
    NextSum(Reached(before), input.fact, t);
    if t in Reached(before).turns {
      SumIsEnds(before, t);
    }
  }

  lemma {:induction false} KindIsEnds(h: History, t: string, kind: ToolKind)
    requires t in Reached(h).turns
    ensures CountOf(Reached(h).turns[t].toolCounts, kind) == ToolEndsOf(h, t, kind)
  {
    var Then(before, input) := h;
    StepCounts(Reached(before), input, t);
    NextOfKind(Reached(before), input.fact, t, kind);
    if t in Reached(before).turns {
      KindIsEnds(before, t, kind);
    }
  }

  /** In every reachable state a turn's counters are the counts over the run since its entry was created. */
  lemma EntryCountsHistory(h: History, t: string, kind: ToolKind)
    requires t in Reached(h).turns
    ensures CountsHistory(h, t, kind, Reached(h).turns[t].toolCounts, Reached(h).turns[t].steerCount)
  {
    TotalIsEnds(h, t);
    SumIsEnds(h, t);
    KindIsEnds(h, t, kind);
  }

  lemma OneFactIsNotAll(s: State, f: Fact, t: string, at: Moment)
    requires t !in s.turns && PatchedTurn(f) == Some(t)
    ensures IngestTurnFact(s, f, t, at).out == []
  {
    assert !Populated(Patch(f, NEW_TURN));
  }

  /** One fact alone never completes a turn, so a turn event is about an entry that was there before. */
  lemma TurnEventNeedsEntry(s: State, input: Input, t: string)
    requires t !in s.turns
    ensures forall e | e in Step(s, input).out && e.TurnEvent? :: e.params.turnId != t
  {
    if WrittenTurn(input.fact) == Some(t) {
      if PatchedTurn(input.fact).Some? {
        OneFactIsNotAll(s, input.fact, t, input.moment);
      } else if input.fact.Notified? {
        ItemEndTurns(s, input.fact.notification);
      }
    } else {
      forall e | e in Step(s, input).out && e.TurnEvent? ensures e.params.turnId != t {
        TurnEventsAreWritten(s, input, e);
      }
    }
  }

  /**
   A turn event reports those counts: the total is the sum of the seven categories and the number of
   tracked completions, and only accepted steers are counted.
  */
  lemma TurnEventCountsHistory(h: History, input: Input, e: Event, kind: ToolKind)
    requires e in Step(Reached(h), input).out && e.TurnEvent?
    ensures CountsHistory(h, e.params.turnId, kind, e.params.toolCounts, e.params.steerCount)
  {
    var t := e.params.turnId;
    if t !in Reached(h).turns {
      TurnEventNeedsEntry(Reached(h), input, t);
    }
    EntryCountsHistory(h, t, kind);
    StepCounts(Reached(h), input, t);
  }

  /** An error response to a steer request changes no turn. */
  lemma RejectedSteersUncounted(s: State, input: Input)
    requires input.fact.ErrorResponse?
    ensures Step(s, input).state.turns == s.turns
  {
  }
}
