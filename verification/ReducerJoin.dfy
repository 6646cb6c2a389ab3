/** A turn event is joined from four facts that come in any order, with the other facts of the turn in between. */
module ReducerJoin {
  import opened Common
  import opened AnalyticsFacts
  import opened Reducer
  import opened ReducerTurns
  import AcceptedLines

  /** The four facts a turn event is joined from, and the request that announced the turn. */
  datatype Join = Join(key: RequestKey, pending: RequestState, turnId: string, config: ResolvedConfig, profile: string,
                       ended: Notification)

  predicate Agreeing(j: Join) {
    j.pending.TurnStart? && j.ended.TurnEnded? && j.ended.turnId == j.turnId && j.config.turnId == j.turnId
    && j.config.threadId == j.pending.threadId && j.config.numInputImages == j.pending.numInputImages
  }

  datatype Piece = StartPiece | ConfigPiece | ProfilePiece | EndPiece
  const ALL_PIECES := {StartPiece, ConfigPiece, ProfilePiece, EndPiece}

  function PieceFact(j: Join, p: Piece): Fact {
    match p
    case StartPiece => Response(j.key.connectionId, j.key.requestId, TurnStarted(j.turnId))
    case ConfigPiece => Custom(TurnResolvedConfig(j.config))
    case ProfilePiece => Custom(TurnProfile(j.turnId, j.profile))
    case EndPiece => Notified(j.ended)
  }

  function PieceOf(j: Join, f: Fact): Option<Piece> {
    if f == PieceFact(j, StartPiece) then Some(StartPiece)
    else if f == PieceFact(j, ConfigPiece) then Some(ConfigPiece)
    else if f == PieceFact(j, ProfilePiece) then Some(ProfilePiece)
    else if f == PieceFact(j, EndPiece) then Some(EndPiece)
    else None
  }

  /** A fact that writes another turn or none, uses another request key, and registers another connection or thread. */
  predicate Foreign(j: Join, f: Fact) {
    && WrittenTurn(f) != Some(j.turnId)
    && (f.Initialize? ==> f.connectionId != j.key.connectionId)
    && (f.Request? || f.Response? || f.ErrorResponse? ==> RequestKey(f.connectionId, f.requestId) != j.key)
    && (f.Response? && f.response.ThreadOpened? ==> f.response.threadId != j.pending.threadId)
  }

  /** Another fact of the turn: its start notice, a diff, token usage or an error of its thread, a tool end, a steer. */
  predicate Extra(j: Join, f: Fact) {
    match f
    case Notified(TurnBegan(t, _)) => t == j.turnId
    case Notified(TurnDiffUpdated(threadId, t, _)) => t == j.turnId && threadId == j.pending.threadId
    case Custom(TurnTokenUsage(threadId, t, _)) => t == j.turnId && threadId == j.pending.threadId
    case Custom(TurnCodexError(threadId, t, _)) => t == j.turnId && threadId == j.pending.threadId
    case Notified(ItemEnd(_, t, _, _)) => t == j.turnId
    case Response(connectionId, id, TurnSteered(t)) => t == j.turnId && RequestKey(connectionId, id) != j.key
    case _ => false
  }

  /** Tool ends and steers count only for a turn that has an entry, and steers only if their request is pending. */
  predicate TakesEffect(s: State, f: Fact, t: string) {
    match f
    case Notified(ItemEnd(_, _, _, _)) => t in s.turns
    case Response(_, _, _) => t in s.turns && AcceptsSteer(s, f, t)
    case _ => true
  }

  function Time(at: Option<int>): Option<nat> {
    if at.Some? && at.value >= 0 then Some(at.value) else None
  }

  /** What such a fact adds to an entry. The latest of its kind counts; an error does not overrule a known thread. */
  function Applied(f: Fact, entry: TurnState): TurnState {
    match f
    case Notified(TurnBegan(_, startedAt)) => entry.(startedAt := Time(startedAt))
    case Notified(TurnDiffUpdated(threadId, _, diff)) => entry.(threadId := Some(threadId), latestDiff := Some(diff))
    case Custom(TurnTokenUsage(threadId, _, usage)) => entry.(threadId := Some(threadId), tokenUsage := Some(usage))
    case Custom(TurnCodexError(threadId, _, error)) =>
      var known := if entry.threadId.Some? then entry.threadId else Some(threadId);
      entry.(threadId := known, codexError := Some(error))
    case Notified(ItemEnd(_, _, item, _)) => entry.(toolCounts := RecordTool(entry.toolCounts, item))
    case Response(_, _, _) => entry.(steerCount := entry.steerCount + 1)
    case _ => entry
  }

  function Folded(facts: seq<Fact>): TurnState {
    if facts == [] then NEW_TURN else Applied(facts[|facts| - 1], Folded(facts[..|facts| - 1]))
  }

  // ---------------------------------------------------------------- runs

  function SeenWith(j: Join, seen: set<Piece>, f: Fact): set<Piece> {
    seen + match PieceOf(j, f) case Some(p) => {p} case None => {}
  }

  function Seen(j: Join, h: History): set<Piece> {
    match h
    case Start => {}
    case Then(before, input) => SeenWith(j, Seen(j, before), input.fact)
  }

  /** The other facts of the turn that took effect, in order. */
  function Extras(j: Join, s: State, h: History): seq<Fact> {
    match h
    case Start => []
    case Then(before, input) => Extras(j, s, before) + NewExtra(j, After(s, before), input.fact)
  }

  function NewExtra(j: Join, s: State, f: Fact): seq<Fact> {
    if Extra(j, f) && TakesEffect(s, f, j.turnId) then [f] else []
  }

  /**
   The fact is foreign, or one of the four that is not there yet, or another fact of the turn before the last of
   them.
  */
  predicate Admitted(j: Join, seen: set<Piece>, f: Fact) {
    match PieceOf(j, f)
    case Some(p) => p !in seen
    case None => Foreign(j, f) || (Extra(j, f) && seen != ALL_PIECES)
  }

  predicate JoinRun(j: Join, h: History) {
    match h
    case Start => true
    case Then(before, input) => JoinRun(j, before) && Admitted(j, Seen(j, before), input.fact)
  }

  lemma EveryPiece()
    ensures forall p: Piece :: p in ALL_PIECES
  {
    forall p: Piece ensures p in ALL_PIECES {
      match p case StartPiece => case ConfigPiece => case ProfilePiece => case EndPiece =>
    }
  }

  /** When the last of the four came in, if it has. */
  function ClosedAt(j: Join, h: History): (at: Option<Moment>)
    ensures at.Some? <==> Seen(j, h) == ALL_PIECES
  {
    match h
    case Start => None
    case Then(before, input) =>
      EveryPiece();
      if ClosedAt(j, before).Some? then ClosedAt(j, before)
      else if Seen(j, h) == ALL_PIECES then Some(input.moment) else None
  }

  // ---------------------------------------------------------------- the joined entry

  /** The entry with these pieces laid over what the other facts of the turn have made of it. */
  function Overlay(j: Join, x: TurnState, seen: set<Piece>): TurnState
    requires Agreeing(j)
  {
    var known := StartPiece in seen || ConfigPiece in seen;
    x.(connectionId := if StartPiece in seen then Some(j.key.connectionId) else None,
       threadId := if known then Some(j.pending.threadId) else x.threadId,
       numInputImages := if known then Some(j.pending.numInputImages) else None,
       resolvedConfig := if ConfigPiece in seen then Some(j.config) else None,
       profile := if ProfilePiece in seen then Some(j.profile) else None,
       completed := if EndPiece in seen then Some(Ending(j.ended)) else None)
  }

  /** How the turn ended: a status unless it is still in progress, and no time before the epoch. */
  function Ending(n: Notification): CompletedTurn
    requires n.TurnEnded?
  {
    CompletedTurn(if n.status == InProgress then None else Some(n.status), n.turnError,
                  if Time(n.completedAt).Some? then Time(n.completedAt).value else 0, Time(n.durationMs))
  }

  function JoinedEvent(j: Join, x: TurnState, connection: ConnectionState, metadata: ThreadMetadata): Event
    requires Agreeing(j)
  {
    TurnEvent(TurnParams(j.pending.threadId, j.turnId, connection, metadata, j.config, j.pending.numInputImages,
                         Ending(j.ended), x.codexError, x.steerCount, x.toolCounts, x.tokenUsage, j.profile,
                         x.startedAt))
  }

  /** The turn event, and the accepted-lines event if the turn had a diff that changes lines. */
  function JoinedEvents(j: Join, x: TurnState, connection: ConnectionState, metadata: ThreadMetadata,
                        at: Moment): seq<Event>
    requires Agreeing(j)
  {
    [JoinedEvent(j, x, connection, metadata)] + AcceptedOf(j, x, at)
  }

  /** The accepted lines of the turn's last diff, unless there are none. */
  function AcceptedOf(j: Join, x: TurnState, at: Moment): seq<Event>
    requires Agreeing(j)
  {
    if x.latestDiff.None? then []
    else
      var counts := AcceptedLines.LineCounts(x.latestDiff.value);
      if counts == (0, 0) then []
      else [AcceptedLinesEvent(j.pending.threadId, j.turnId, j.config.model, at.nowSeconds, at.repoHash, counts.0,
                               counts.1)]
  }

  /** For a diff that git has printed these are the lines its hunks add and delete. */
  lemma RenderedDiffReported(j: Join, x: TurnState, at: Moment, alnum: char -> bool, files: seq<AcceptedLines.FileDiff>)
    requires Agreeing(j) && AcceptedLines.WellFormed(files)
    requires x.latestDiff == Some(AcceptedLines.Unlines(AcceptedLines.RenderFiles(files)))
    ensures var sum := AcceptedLines.FilesSum(alnum, files);
            AcceptedOf(j, x, at) ==
            if sum.added == 0 && sum.deleted == 0 then []
            else [AcceptedLinesEvent(j.pending.threadId, j.turnId, j.config.model, at.nowSeconds, at.repoHash,
                sum.added,
                                     sum.deleted)]
  {
    RenderedCounts(alnum, files, x.latestDiff.value);
  }

  lemma RenderedCounts(alnum: char -> bool, files: seq<AcceptedLines.FileDiff>, text: string)
    requires AcceptedLines.WellFormed(files) && text == AcceptedLines.Unlines(AcceptedLines.RenderFiles(files))
    ensures var sum := AcceptedLines.FilesSum(alnum, files);
            AcceptedLines.LineCounts(text) == (sum.added, sum.deleted)
  {
    AcceptedLines.ParseRendered(alnum, files);
    AcceptedLines.CountsIgnoreAlphabet(alnum, text);
  }

  /** The connection and the thread are registered. */
  predicate Registered(j: Join, s: State, connection: ConnectionState, metadata: ThreadMetadata)
    requires Agreeing(j)
  {
    Lookup(s.connections, j.key.connectionId) == Some(connection) && MetadataOf(s, j.pending.threadId) == Some(metadata)
  }

  ghost predicate JoinState(j: Join, s: State, seen: set<Piece>, x: TurnState, connection: ConnectionState,
                            metadata: ThreadMetadata)
    requires Agreeing(j)
  {
    && Registered(j, s, connection, metadata)
    && (StartPiece !in seen ==> Lookup(s.requests, j.key) == Some(j.pending))
    && if seen == ALL_PIECES then j.turnId !in s.turns else TurnEntry(s, j.turnId) == Overlay(j, x, seen)
  }

  // ---------------------------------------------------------------- one step

  lemma ForeignStep(j: Join, s: State, input: Input, seen: set<Piece>, x: TurnState, connection: ConnectionState,
                    metadata: ThreadMetadata)
    requires Agreeing(j) && JoinState(j, s, seen, x, connection, metadata) && Foreign(j, input.fact)
    ensures JoinState(j, Step(s, input).state, seen, x, connection, metadata)
    ensures Filter(AboutTurn(j.turnId), Step(s, input).out) == []
  {
    OtherTurnUntouched(s, input, j.turnId);
    ForeignRegistry(j, s, input, connection, metadata);
    assert Lookup(Step(s, input).state.turns, j.turnId) == Lookup(s.turns, j.turnId);
  }

  lemma ForeignRegistry(j: Join, s: State, input: Input, connection: ConnectionState, metadata: ThreadMetadata)
    requires Agreeing(j) && Registered(j, s, connection, metadata) && Foreign(j, input.fact)
    ensures Registered(j, Step(s, input).state, connection, metadata)
    ensures Lookup(Step(s, input).state.requests, j.key) == Lookup(s.requests, j.key)
  {
    StepsRegistry(s, input);
    ForeignKeeps(j, RegistryOf(s), input);
  }

  function MetadataIn(r: Registry, threadId: string): Option<ThreadMetadata> {
    if threadId in r.threads then r.threads[threadId].metadata else None
  }

  lemma ForeignKeeps(j: Join, r: Registry, input: Input)
    requires Agreeing(j) && Foreign(j, input.fact)
    ensures var r' := NextRegistry(r, input);
            && Lookup(r'.requests, j.key) == Lookup(r.requests, j.key)
            && Lookup(r'.connections, j.key.connectionId) == Lookup(r.connections, j.key.connectionId)
            && (MetadataIn(r, j.pending.threadId).Some? ==>
                  MetadataIn(r', j.pending.threadId) == MetadataIn(r, j.pending.threadId))
  {
  }

  /** Putting such an entry into the table pushes the events exactly if all pieces are there. */
  lemma PutOverlay(j: Join, s: State, seen: set<Piece>, x: TurnState, connection: ConnectionState,
                   metadata: ThreadMetadata, at: Moment)
    requires Agreeing(j) && Registered(j, s, connection, metadata)
    requires StartPiece !in seen ==> Lookup(s.requests, j.key) == Some(j.pending)
    ensures var r := MaybeEmitTurnEvent(PutTurn(s, j.turnId, Overlay(j, x, seen)), j.turnId, at);
            && JoinState(j, r.state, seen, x, connection, metadata)
            && r.out == if seen == ALL_PIECES then JoinedEvents(j, x, connection, metadata, at) else []
  {
    var s1 := PutTurn(s, j.turnId, Overlay(j, x, seen));
    if Ready(s1, Overlay(j, x, seen)) {
      forall p: Piece ensures p in seen && p in ALL_PIECES {
        match p case StartPiece => case ConfigPiece => case ProfilePiece => case EndPiece =>
      }
      assert seen == ALL_PIECES;
    }
  }

  lemma OnlyAboutTurn(t: string, turn: TurnState, at: Moment, e: Event)
    requires AboutTurn(t)(e)
    ensures Filter(AboutTurn(t), [e] + AcceptedLineEvents(t, turn, at)) == [e] + AcceptedLineEvents(t, turn, at)
  {
    var tail := AcceptedLineEvents(t, turn, at);
    assert ([e] + tail)[1..] == tail;
    assert Filter(AboutTurn(t), tail) == tail;
  }

  lemma PieceResult(j: Join, s: State, input: Input, seen: set<Piece>, x: TurnState, p: Piece)
    requires Agreeing(j) && p !in seen && input.fact == PieceFact(j, p) && TurnEntry(s, j.turnId) == Overlay(j, x, seen)
    requires p.StartPiece? ==> Lookup(s.requests, j.key) == Some(j.pending)
    ensures var s1 := if p.StartPiece? then s.(requests := s.requests - {j.key}) else s;
            Step(s, input) == MaybeEmitTurnEvent(PutTurn(s1, j.turnId, Overlay(j, x, seen + {p})), j.turnId,
                input.moment)
  {
    if p.StartPiece? {
      assert Step(s, input) == IngestTurnStarted(s, j.key, j.turnId, input.moment);
    } else {
      assert Patch(input.fact, Overlay(j, x, seen)) == Overlay(j, x, seen + {p});
    }
  }

  lemma PieceStep(j: Join, s: State, input: Input, seen: set<Piece>, x: TurnState, p: Piece,
                  connection: ConnectionState, metadata: ThreadMetadata)
    requires Agreeing(j) && JoinState(j, s, seen, x, connection, metadata) && p !in seen
              && input.fact == PieceFact(j, p)
    ensures var r := Step(s, input);
            && JoinState(j, r.state, seen + {p}, x, connection, metadata)
            && Filter(AboutTurn(j.turnId), r.out)
               == (if seen + {p} == ALL_PIECES then JoinedEvents(j, x, connection, metadata, input.moment) else [])
  {
    assert p in ALL_PIECES && seen != ALL_PIECES;
    PieceResult(j, s, input, seen, x, p);
    var s1 := if p.StartPiece? then s.(requests := s.requests - {j.key}) else s;
    PutOverlay(j, s1, seen + {p}, x, connection, metadata, input.moment);
    OnlyAboutTurn(j.turnId, Overlay(j, x, ALL_PIECES), input.moment, JoinedEvent(j, x, connection, metadata));
  }

  // The other facts of the turn commute with the pieces.

  lemma PatchUnderOverlay(j: Join, f: Fact, x: TurnState, seen: set<Piece>)
    requires Agreeing(j) && Extra(j, f) && PatchedTurn(f).Some?
    ensures Patch(f, Overlay(j, x, seen)) == Overlay(j, Applied(f, x), seen)
  {
  }

  lemma PatchStep(j: Join, s: State, input: Input, seen: set<Piece>, x: TurnState, connection: ConnectionState,
                  metadata: ThreadMetadata)
    requires Agreeing(j) && JoinState(j, s, seen, x, connection, metadata) && seen != ALL_PIECES
    requires Extra(j, input.fact) && PatchedTurn(input.fact).Some?
    ensures JoinState(j, Step(s, input).state, seen, Applied(input.fact, x), connection, metadata)
    ensures Step(s, input).out == []
  {
    PatchUnderOverlay(j, input.fact, x, seen);
    PutOverlay(j, s, seen, Applied(input.fact, x), connection, metadata, input.moment);
    assert Step(s, input) == IngestTurnFact(s, input.fact, j.turnId, input.moment);
  }

  lemma ItemEndStep(j: Join, s: State, input: Input, seen: set<Piece>, x: TurnState, connection: ConnectionState,
                    metadata: ThreadMetadata)
    requires Agreeing(j) && JoinState(j, s, seen, x, connection, metadata) && seen != ALL_PIECES
    requires input.fact.Notified? && input.fact.notification.ItemEnd? && input.fact.notification.turnId == j.turnId
    ensures var x' := if j.turnId in s.turns then Applied(input.fact, x) else x;
            JoinState(j, Step(s, input).state, seen, x', connection, metadata)
    ensures Filter(AboutTurn(j.turnId), Step(s, input).out) == []
  {
    ItemEndEntry(s, input.fact.notification, j.turnId);
    StepsRegistry(s, input);
    assert Step(s, input) == IngestItemEnd(s, input.fact.notification);
  }

  lemma SteerStep(j: Join, s: State, input: Input, seen: set<Piece>, x: TurnState, connection: ConnectionState,
                  metadata: ThreadMetadata)
    requires Agreeing(j) && JoinState(j, s, seen, x, connection, metadata) && seen != ALL_PIECES
    requires input.fact.Response? && Extra(j, input.fact)
    ensures var x' := if TakesEffect(s, input.fact, j.turnId) then Applied(input.fact, x) else x;
            JoinState(j, Step(s, input).state, seen, x', connection, metadata)
    ensures Filter(AboutTurn(j.turnId), Step(s, input).out) == []
  {
    var f := input.fact;
    var r := IngestTurnSteered(s, RequestKey(f.connectionId, f.requestId), j.turnId);
    assert Step(s, input) == r;
    StepsRegistry(s, input);
    FilterNone(AboutTurn(j.turnId), r.out);
  }

  lemma ExtraStep(j: Join, s: State, input: Input, seen: set<Piece>, extras: seq<Fact>, connection: ConnectionState,
                  metadata: ThreadMetadata)
    requires Agreeing(j) && JoinState(j, s, seen, Folded(extras), connection, metadata) && seen != ALL_PIECES
    requires Extra(j, input.fact)
    ensures JoinState(j, Step(s, input).state, seen, Folded(extras + NewExtra(j, s, input.fact)), connection, metadata)
    ensures Filter(AboutTurn(j.turnId), Step(s, input).out) == []
  {
    var f := input.fact;
    assert (extras + [f])[..|extras|] == extras && extras + [] == extras;
    if PatchedTurn(f).Some? {
      PatchStep(j, s, input, seen, Folded(extras), connection, metadata);
    } else if f.Notified? {
      ItemEndStep(j, s, input, seen, Folded(extras), connection, metadata);
    } else {
      SteerStep(j, s, input, seen, Folded(extras), connection, metadata);
    }
  }

  /** No fact is a piece and an extra, or an extra and foreign. */
  lemma Apart(j: Join, s: State, f: Fact)
    requires Agreeing(j) && (PieceOf(j, f).Some? || Foreign(j, f))
    ensures NewExtra(j, s, f) == []
  {
  }

  lemma JoinNext(j: Join, s: State, input: Input, seen: set<Piece>, extras: seq<Fact>, connection: ConnectionState,
                 metadata: ThreadMetadata)
    requires Agreeing(j) && JoinState(j, s, seen, Folded(extras), connection, metadata) && Admitted(j, seen, input.fact)
    ensures var seen', extras', r := SeenWith(j, seen, input.fact), extras + NewExtra(j, s, input.fact), Step(s, input);
            && JoinState(j, r.state, seen', Folded(extras'), connection, metadata)
            && Filter(AboutTurn(j.turnId), r.out)
               == (if seen != ALL_PIECES && seen' == ALL_PIECES
                   then JoinedEvents(j, Folded(extras'), connection, metadata, input.moment) else [])
            && (seen == ALL_PIECES ==> extras' == extras)
  {
    assert extras + [] == extras && seen + {} == seen;
    match PieceOf(j, input.fact)
    case Some(p) =>
      Apart(j, s, input.fact);
      assert p in ALL_PIECES;
      PieceStep(j, s, input, seen, Folded(extras), p, connection, metadata);
    case None =>
      if Foreign(j, input.fact) {
        Apart(j, s, input.fact);
        ForeignStep(j, s, input, seen, Folded(extras), connection, metadata);
      } else {
        ExtraStep(j, s, input, seen, extras, connection, metadata);
      }
  }

  // ---------------------------------------------------------------- whole runs

  function Pushed(j: Join, x: TurnState, closed: Option<Moment>, connection: ConnectionState,
                  metadata: ThreadMetadata): seq<Event>
    requires Agreeing(j)
  {
    match closed case Some(at) => JoinedEvents(j, x, connection, metadata, at) case None => []
  }

  /**
   Whatever part of such a run has happened, the entry is the join of the pieces seen so far over the other facts of
   the turn, and the events have been pushed exactly if all four pieces are in.
  */
  lemma {:induction false} JoinedRun(j: Join, s: State, h: History, connection: ConnectionState,
                                     metadata: ThreadMetadata)
    requires Agreeing(j) && JoinState(j, s, {}, NEW_TURN, connection, metadata) && JoinRun(j, h)
    ensures JoinState(j, After(s, h), Seen(j, h), Folded(Extras(j, s, h)), connection, metadata)
    ensures TurnStream(s, h, j.turnId) == Pushed(j, Folded(Extras(j, s, h)), ClosedAt(j, h), connection, metadata)
  {
    match h
    case Start =>
    case Then(before, input) =>
      JoinedRun(j, s, before, connection, metadata);
      JoinNext(j, After(s, before), input, Seen(j, before), Extras(j, s, before), connection, metadata);
      Continued(j, Folded(Extras(j, s, before)), ClosedAt(j, before), Folded(Extras(j, s, h)), ClosedAt(j, h),
                connection, metadata, Filter(AboutTurn(j.turnId), LastOut(s, h)));
  }

  /** A closed join pushes nothing more and does not change. */
  lemma Continued(j: Join, x: TurnState, closed: Option<Moment>, x': TurnState, closed': Option<Moment>,
                  connection: ConnectionState, metadata: ThreadMetadata, more: seq<Event>)
    requires Agreeing(j)
    requires closed.Some? ==> closed' == closed && x' == x
    requires more == if closed.Some? then [] else Pushed(j, x', closed', connection, metadata)
    ensures Pushed(j, x, closed, connection, metadata) + more == Pushed(j, x', closed', connection, metadata)
  {
  }

  /**
   Once all four facts are in, exactly one turn event has been pushed, by the last of them (no earlier prefix of the
   run pushed one). What it says depends on the four facts and on the other facts of the turn that took effect, and
   not on the order of the four, on where they fall among the others, or on anything foreign.
  */
  lemma OrderIndependence(j: Join, s: State, h: History, g: History, connection: ConnectionState,
                          metadata: ThreadMetadata)
    requires Agreeing(j) && Registered(j, s, connection, metadata)
    requires Lookup(s.requests, j.key) == Some(j.pending) && j.turnId !in s.turns
    requires JoinRun(j, h) && JoinRun(j, g) && Seen(j, h) == Seen(j, g) == ALL_PIECES
    requires Extras(j, s, h) == Extras(j, s, g)
    ensures var x := Folded(Extras(j, s, h));
            && TurnStream(s, h, j.turnId) == JoinedEvents(j, x, connection, metadata, ClosedAt(j, h).value)
            && TurnStream(s, g, j.turnId) == JoinedEvents(j, x, connection, metadata, ClosedAt(j, g).value)
            && TurnStream(s, h, j.turnId)[0] == TurnStream(s, g, j.turnId)[0] == JoinedEvent(j, x, connection, metadata)
            && TurnEventCount(TurnStream(s, h, j.turnId)) == 1
    ensures h.Then? && PieceOf(j, h.input.fact).Some? ==> TurnStream(s, h.before, j.turnId) == []
  {
    JoinedRun(j, s, h, connection, metadata);
    JoinedRun(j, s, g, connection, metadata);
    OneTurnEvent(j, Folded(Extras(j, s, h)), connection, metadata, ClosedAt(j, h).value);
    if h.Then? && PieceOf(j, h.input.fact).Some? {
      JoinedRun(j, s, h.before, connection, metadata);
      assert PieceOf(j, h.input.fact).value in ALL_PIECES;
    }
  }

  lemma OneTurnEvent(j: Join, x: TurnState, connection: ConnectionState, metadata: ThreadMetadata, at: Moment)
    requires Agreeing(j)
    ensures TurnEventCount(JoinedEvents(j, x, connection, metadata, at)) == 1
  {
    var event, tail := JoinedEvent(j, x, connection, metadata),
        AcceptedOf(j, x, at);
    FilterNone(IsTurnEvent(), tail);
    assert ([event] + tail)[1..] == tail;
  }
}
