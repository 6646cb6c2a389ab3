/** What every run of the remote worker guarantees its callers, its event consumer and the server. */
module RemoteClientRuns {
  import opened Common
  import opened RemoteClient

  // ---------------------------------------------------------------- failures

  /** The error every waiter gets when the worker leaves. */
  function ExitError(error: Option<IoError>): IoError {
    if error.Some? then error.value else IoError(BrokenPipe, "remote app-server worker channel is closed")
  }

  /** No answer has come to the request of ticket i since it was registered. */
  ghost predicate Unanswered(s: State, i: nat)
    requires i < |s.commands| == |s.registeredAt| && s.commands[i].Request?
  {
    forall k | s.registeredAt[i] <= k < |s.messages| :: !Answers(s.messages[k], s.commands[i].id)
  }

  predicate RefusedDuplicate(s: State, i: nat)
    requires i < |s.commands| == |s.replies|
  {
    s.commands[i].Request? && IoFailed(DuplicateId(s.commands[i].id)) in s.replies[i]
  }

  /** An earlier request, itself accepted, had the same id and was still unanswered when request i came. */
  ghost predicate InFlight(s: State, i: nat, j: nat)
    requires i < |s.commands| == |s.registeredAt| == |s.replies|
  {
    && j < i && s.commands[i].Request? && s.commands[j].Request? && s.commands[j].id == s.commands[i].id
    && !RefusedDuplicate(s, j)
    && s.registeredAt[j] <= s.registeredAt[i] <= |s.messages|
    && forall k | s.registeredAt[j] <= k < s.registeredAt[i] :: !Answers(s.messages[k], s.commands[i].id)
  }

  ghost predicate Duplicate(s: State, i: nat)
    requires i < |s.commands| == |s.registeredAt| == |s.replies|
  {
    exists j :: InFlight(s, i, j)
  }

  /** The last request was not written, and the worker left for that very reason. */
  ghost predicate Unwritten(s: State, exit: Exit, i: nat, failure: IoError) {
    && i == |s.commands| - 1 && failure.kind == Other
    && exit == Ended(Some(BrokenWrite(s.endpoint, failure.message)))
  }

  /**
   A request fails because its id was in flight; or because the worker left before the server answered, and then with
   the error the worker left with, except for the request whose own write error made it leave.
  */
  ghost predicate Explained(s: State, exit: Exit, i: nat, failure: IoError)
    requires i < |s.commands| == |s.registeredAt| == |s.replies|
  {
    && s.commands[i].Request?
    && (|| (failure == DuplicateId(s.commands[i].id) && Duplicate(s, i))
        || (exit.Ended? && Unanswered(s, i) && (failure == ExitError(exit.error) || Unwritten(s, exit, i, failure))))
  }

  /** Every failure sent so far is explained by an exit of this kind. */
  ghost predicate Failures(s: State, exit: Exit)
    requires |s.commands| == |s.registeredAt| == |s.replies|
  {
    forall i, r | 0 <= i < |s.replies| && r in s.replies[i] && r.IoFailed? :: Explained(s, exit, i, r.failure)
  }

  /** From one state to a later one, the same tickets stay refused as duplicates. */
  ghost predicate SameRefusals(s: State, s': State) {
    && |s.replies| <= |s'.replies| && |s.commands| == |s.registeredAt| == |s.replies|
    && s.commands <= s'.commands && s.registeredAt <= s'.registeredAt && s.messages <= s'.messages
    && |s'.commands| == |s'.registeredAt| == |s'.replies|
    && forall j | 0 <= j < |s.replies| :: RefusedDuplicate(s, j) <==> RefusedDuplicate(s', j)
  }

  lemma DuplicateLater(s: State, s': State, i: nat)
    requires SameRefusals(s, s') && i < |s.replies| && Duplicate(s, i)
    ensures Duplicate(s', i)
  {
    var j :| InFlight(s, i, j);
    assert InFlight(s', i, j);
  }

  /** While the worker runs only duplicate ids have failed, and any exit leaves that as it is. */
  lemma RunningFailures(s: State, s': State, exit: Exit)
    requires Tickets(s) && Failures(s, Running) && SameRefusals(s, s') && s.replies <= s'.replies
    requires forall i, r | |s.replies| <= i < |s'.replies| && r in s'.replies[i] && r.IoFailed? ::
              Explained(s', exit, i, r.failure)
    ensures Failures(s', exit)
  {
    forall i, r | 0 <= i < |s'.replies| && r in s'.replies[i] && r.IoFailed? ensures Explained(s', exit, i, r.failure) {
      if i < |s.replies| {
        assert Explained(s, Running, i, r.failure);
        DuplicateLater(s, s', i);
      }
    }
  }

  /** Events, writes and the consumer have no part in this. */
  lemma FailuresSame(s: State, s': State, exit: Exit)
    requires |s.commands| == |s.registeredAt| == |s.replies| && Failures(s, exit)
    requires s'.endpoint == s.endpoint && s'.commands == s.commands && s'.registeredAt == s.registeredAt
    requires s'.replies == s.replies && s'.messages == s.messages
    ensures Failures(s', exit)
  {
    forall i, r | 0 <= i < |s'.replies| && r in s'.replies[i] && r.IoFailed? ensures Explained(s', exit, i, r.failure) {
      assert Explained(s, exit, i, r.failure);
      if Duplicate(s, i) {
        DuplicateLater(s, s', i);
      }
    }
  }

  /** A request that could not be written: its own waiter gets the write error, the rest the disconnection. */
  lemma RefusedWriteShape(s: State, command: Command, reason: string)
    requires command.Request? && command.id !in s.pending
    ensures var s' := TakeCommand(s, command, WriteFailed(reason));
            var t := SendReply(Dequeued(s, command), |s.replies|, IoFailed(IoError(Other, reason)));
            s' == Finish(t, Some(BrokenWrite(s.endpoint, reason))).(
                    events := s'.events, writes := s.writes + [WroteRequest(command.id, command.body)])
  {
    assert s.pending[command.id := |s.replies|] - {command.id} == s.pending;
  }

  lemma FinishRefusals(s: State, error: Option<IoError>)
    requires Tickets(s) && ExitError(error).kind != InvalidInput
    ensures SameRefusals(s, Finish(s, error))
  {
  }

  lemma FinishFailures(s: State, error: Option<IoError>)
    requires Tickets(s) && Provenance(s) && Failures(s, Ended(error)) && ExitError(error).kind != InvalidInput
    ensures Failures(Finish(s, error), Ended(error))
  {
    var s' := Finish(s, error);
    FinishRefusals(s, error);
    forall i, r | 0 <= i < |s'.replies| && r in s'.replies[i] && r.IoFailed?
        ensures Explained(s', s'.exit, i, r.failure) {
      if i in s.pending.Values {
        var id :| id in s.pending && s.pending[id] == i;
        assert s'.replies[i] == [IoFailed(ExitError(error))];
        assert Unanswered(s, i);
      } else {
        assert Explained(s, Ended(error), i, r.failure);
        if Duplicate(s, i) {
          DuplicateLater(s, s', i);
        }
      }
    }
  }

  /** A request refused as a duplicate: the waiter for its id is the request in flight. */
  lemma DuplicateFailures(s: State, command: Command, write: WriteResult)
    requires Tickets(s) && Provenance(s) && Failures(s, Running)
    requires s.exit == Running && command.Request? && command.id in s.pending
    ensures Failures(TakeCommand(s, command, write), Running)
  {
    var s', n := TakeCommand(s, command, write), |s.replies|;
    FirstReply(s, command, IoFailed(DuplicateId(command.id)));
    assert InFlight(s', n, s.pending[command.id]);
    RunningFailures(s, s', Running);
  }

  lemma ShutdownFailures(s: State, write: WriteResult)
    requires Tickets(s) && Provenance(s) && Failures(s, Running)
    ensures Failures(TakeCommand(s, Shutdown, write), Ended(None))
  {
    var t := SendReply(Dequeued(s, Shutdown), |s.replies|, Written(write));
    AnsweredTicket(s, Shutdown, Written(write));
    AnsweredQuiet(s, Shutdown, Written(write));
    QuietProvenance(s, t);
    FirstReply(s, Shutdown, Written(write));
    RunningFailures(s, t, Ended(None));
    FinishFailures(t, None);
  }

  /** A command that fails nobody. */
  lemma QuietCommandFailures(s: State, command: Command, write: WriteResult)
    requires Tickets(s) && Failures(s, Running) && s.exit == Running && !command.Shutdown?
    requires command.Request? ==> command.id !in s.pending && write.WriteOk?
    ensures Failures(TakeCommand(s, command, write), Running)
  {
    FirstReply(s, command, Written(write));
    RunningFailures(s, TakeCommand(s, command, write), Running);
  }

  lemma CommandFailures(s: State, command: Command, write: WriteResult)
    requires Tickets(s) && Provenance(s) && Failures(s, Running) && s.exit == Running
    ensures var s' := TakeCommand(s, command, write); Failures(s', s'.exit)
  {
    match command
    case Shutdown => ShutdownFailures(s, write);
    case Request(id, body) =>
      if id in s.pending {
        DuplicateFailures(s, command, write);
      } else if write.WriteOk? {
        QuietCommandFailures(s, command, write);
      } else {
        RefusedWriteFailures(s, command, write.reason);
      }
    case _ => QuietCommandFailures(s, command, write);
  }

  /** A request failed by its own write error, just before the worker leaves. */
  lemma WriteErrorFailures(s: State, command: Command, reason: string)
    requires Tickets(s) && Provenance(s) && Failures(s, Running) && command.Request?
    ensures var t := SendReply(Dequeued(s, command), |s.replies|, IoFailed(IoError(Other, reason)));
            Tickets(t) && Provenance(t) && Failures(t, Ended(Some(BrokenWrite(s.endpoint, reason))))
  {
    var failure, exit := IoError(Other, reason), Ended(Some(BrokenWrite(s.endpoint, reason)));
    var t := SendReply(Dequeued(s, command), |s.replies|, IoFailed(failure));
    AnsweredTicket(s, command, IoFailed(failure));
    AnsweredQuiet(s, command, IoFailed(failure));
    QuietProvenance(s, t);
    FirstReply(s, command, IoFailed(failure));
    assert Explained(t, exit, |s.replies|, failure);
    RunningFailures(s, t, exit);
  }

  lemma RefusedWriteFailures(s: State, command: Command, reason: string)
    requires Tickets(s) && Provenance(s) && Failures(s, Running) && s.exit == Running
    requires command.Request? && command.id !in s.pending
    ensures var s' := TakeCommand(s, command, WriteFailed(reason)); Failures(s', s'.exit)
  {
    var t, error := SendReply(Dequeued(s, command), |s.replies|, IoFailed(IoError(Other, reason))),
        BrokenWrite(s.endpoint, reason);
    WriteErrorFailures(s, command, reason);
    FinishFailures(t, Some(error));
    RefusedWriteShape(s, command, reason);
    FailuresSame(Finish(t, Some(error)), TakeCommand(s, command, WriteFailed(reason)), Ended(Some(error)));
  }

  lemma AnswerFailures(s: State, m: Message, write: WriteResult)
    requires Tickets(s) && Failures(s, Running) && s.exit == Running && (m.Response? || m.Error?)
    ensures var s' := TakeMessage(s, m, write); s'.exit == Running && Failures(s', Running)
  {
    var s' := TakeMessage(s, m, write);
    forall i, r | 0 <= i < |s'.replies| && r in s'.replies[i] && r.IoFailed?
        ensures Explained(s', Running, i, r.failure) {
      assert r in s.replies[i];
      assert Explained(s, Running, i, r.failure);
      DuplicateLater(s, s', i);
    }
  }

  lemma OtherMessageFailures(s: State, m: Message, error: Option<IoError>)
    requires Tickets(s) && Provenance(s) && Failures(s, Running) && !m.Response? && !m.Error?
    requires ExitError(error).kind != InvalidInput
    ensures var s1 := s.(messages := s.messages + [m]);
            Failures(s1, Running) && Failures(Finish(s1, error), Ended(error))
  {
    var s1 := s.(messages := s.messages + [m]);
    QuietProvenance(s, s1);
    RunningFailures(s, s1, Running);
    RunningFailures(s, s1, Ended(error));
    FinishFailures(s1, error);
  }

  lemma MessageFailures(s: State, m: Message, write: WriteResult)
    requires Tickets(s) && Provenance(s) && Failures(s, Running) && s.exit == Running
    ensures var s' := TakeMessage(s, m, write); Failures(s', s'.exit)
  {
    if m.Response? || m.Error? {
      AnswerFailures(s, m, write);
    } else {
      var s1, s' := s.(messages := s.messages + [m]), TakeMessage(s, m, write);
      OtherMessage(s, m, write);
      MessageWrites(s, m, write);
      OtherMessageFailures(s, m, if s'.exit.Ended? then s'.exit.error else None);
      FailuresSame(if s'.exit.Ended? then Finish(s1, s'.exit.error) else s1, s', s'.exit);
    }
  }

  /** Everything known about replies. */
  ghost predicate Replies(s: State) {
    Tickets(s) && Provenance(s) && Failures(s, s.exit)
  }

  lemma RepliesStep(s: State, action: Action)
    requires Replies(s)
    ensures Replies(Step(s, action))
  {
    ProvenanceStep(s, action);
    if s.exit == Running {
      match action
      case OnCommand(command, write) => CommandFailures(s, command, write);
      case OnMessage(m, write) => MessageFailures(s, m, write);
      case CommandsClosed =>
        RunningFailures(s, s, Ended(None));
        FinishFailures(s, None);
      case DropConsumer => FailuresSame(s, Step(s, action), Running);
    } else {
      FailuresSame(s, Step(s, action), s.exit);
    }
  }

  lemma {:induction false} RepliesRun(endpoint: string, actions: seq<Action>)
    ensures Replies(Run(Connected(endpoint), actions))
  {
    if actions != [] {
      RepliesRun(endpoint, actions[..|actions| - 1]);
      RepliesStep(Run(Connected(endpoint), actions[..|actions| - 1]), actions[|actions| - 1]);
    }
  }

  /** A request is never told that it was merely written, and only requests wait for the server. */
  ghost predicate WriteReplies(s: State)
    requires |s.commands| == |s.replies|
  {
    forall i, r | 0 <= i < |s.replies| && r in s.replies[i] && r.Written? :: !s.commands[i].Request?
  }

  lemma FinishWriteReplies(s: State, error: Option<IoError>)
    requires |s.commands| == |s.replies| && WriteReplies(s)
    ensures WriteReplies(Finish(s, error))
  {
    var s' := Finish(s, error);
    forall i, r | 0 <= i < |s'.replies| && r in s'.replies[i] && r.Written? ensures !s.commands[i].Request? {
      assert r in s.replies[i];
    }
  }

  /** Dequeuing a command and answering it at once appends one ticket. */
  lemma FirstReply(s: State, command: Command, reply: Reply)
    ensures SendReply(Dequeued(s, command), |s.replies|, reply).replies == s.replies + [[reply]]
  {
    assert [] + [reply] == [reply];
  }

  lemma CommandWriteReplies(s: State, command: Command, write: WriteResult)
    requires Tickets(s) && WriteReplies(s) && s.exit == Running
    ensures var s' := TakeCommand(s, command, write); |s'.commands| == |s'.replies| && WriteReplies(s')
  {
    match command
    case Request(id, body) =>
      if id in s.pending {
        FirstReply(s, command, IoFailed(DuplicateId(id)));
      } else if write.WriteFailed? {
        FirstReply(s, command, IoFailed(IoError(Other, write.reason)));
        var t := SendReply(Dequeued(s, command), |s.replies|, IoFailed(IoError(Other, write.reason)));
        RefusedWriteShape(s, command, write.reason);
        FinishWriteReplies(t, Some(BrokenWrite(s.endpoint, write.reason)));
      }
    case Shutdown =>
      FirstReply(s, command, Written(write));
      FinishWriteReplies(SendReply(Dequeued(s, command), |s.replies|, Written(write)), None);
    case _ => FirstReply(s, command, Written(write));
  }

  lemma WriteRepliesStep(s: State, action: Action)
    requires Tickets(s) && WriteReplies(s)
    ensures var s' := Step(s, action); |s'.commands| == |s'.replies| && WriteReplies(s')
  {
    if s.exit == Running {
      match action
      case OnCommand(command, write) => CommandWriteReplies(s, command, write);
      case OnMessage(m, write) =>
        if !m.Response? && !m.Error? {
          OtherMessage(s, m, write);
          if TakeMessage(s, m, write).exit.Ended? {
            FinishWriteReplies(s, TakeMessage(s, m, write).exit.error);
          }
        }
      case CommandsClosed => FinishWriteReplies(s, None);
      case DropConsumer =>
    }
  }

  lemma {:induction false} WriteRepliesRun(endpoint: string, actions: seq<Action>)
    ensures Tickets(Run(Connected(endpoint), actions)) && WriteReplies(Run(Connected(endpoint), actions))
  {
    RepliesRun(endpoint, actions);
    if actions != [] {
      WriteRepliesRun(endpoint, actions[..|actions| - 1]);
      WriteRepliesStep(Run(Connected(endpoint), actions[..|actions| - 1]), actions[|actions| - 1]);
    }
  }

  // ---------------------------------------------------------------- duplicates, both ways

  /** A request that was accepted had no request of its id in flight before it. */
  ghost predicate AcceptedAlone(s: State)
    requires |s.commands| == |s.registeredAt| == |s.replies|
  {
    forall i | 0 <= i < |s.commands| && s.commands[i].Request? && !RefusedDuplicate(s, i) :: !Duplicate(s, i)
  }

  lemma RefusalsTransitive(a: State, b: State, c: State)
    requires SameRefusals(a, b) && SameRefusals(b, c)
    ensures SameRefusals(a, c)
  {
    forall j | 0 <= j < |a.replies| ensures RefusedDuplicate(a, j) <==> RefusedDuplicate(c, j) {
      assert RefusedDuplicate(a, j) <==> RefusedDuplicate(b, j);
    }
  }

  lemma AnsweredRefusals(s: State, command: Command, reply: Reply)
    requires Tickets(s)
    ensures SameRefusals(s, SendReply(Dequeued(s, command), |s.replies|, reply))
  {
    FirstReply(s, command, reply);
  }

  /** Events, writes, the exit and the table have no part in this. */
  lemma RefusalsSame(s: State, a: State, b: State)
    requires SameRefusals(s, a) && b.commands == a.commands && b.registeredAt == a.registeredAt
    requires b.replies == a.replies && b.messages == a.messages
    ensures SameRefusals(s, b)
  {
    forall j | 0 <= j < |s.replies| ensures RefusedDuplicate(s, j) <==> RefusedDuplicate(b, j) {
      assert RefusedDuplicate(s, j) <==> RefusedDuplicate(a, j);
    }
  }

  /** A command answered at once, after which the worker leaves. */
  lemma LeavingRefusals(s: State, command: Command, reply: Reply, error: Option<IoError>)
    requires Tickets(s) && ExitError(error).kind != InvalidInput
    ensures SameRefusals(s, Finish(SendReply(Dequeued(s, command), |s.replies|, reply), error))
  {
    var t := SendReply(Dequeued(s, command), |s.replies|, reply);
    AnsweredTicket(s, command, reply);
    AnsweredRefusals(s, command, reply);
    FinishRefusals(t, error);
    RefusalsTransitive(s, t, Finish(t, error));
  }

  lemma CommandRefusals(s: State, command: Command, write: WriteResult)
    requires Tickets(s) && s.exit == Running
    ensures SameRefusals(s, TakeCommand(s, command, write))
  {
    var s' := TakeCommand(s, command, write);
    match command
    case Request(id, _) =>
      if id in s.pending {
        AnsweredRefusals(s, command, IoFailed(DuplicateId(id)));
      } else if write.WriteFailed? {
        var reply, error := IoFailed(IoError(Other, write.reason)), Some(BrokenWrite(s.endpoint, write.reason));
        LeavingRefusals(s, command, reply, error);
        RefusedWriteShape(s, command, write.reason);
        RefusalsSame(s, Finish(SendReply(Dequeued(s, command), |s.replies|, reply), error), s');
      }
    case Shutdown => LeavingRefusals(s, command, Written(write), None);
    case _ =>
      AnsweredRefusals(s, command, Written(write));
      RefusalsSame(s, SendReply(Dequeued(s, command), |s.replies|, Written(write)), s');
  }

  lemma MessageRefusals(s: State, m: Message, write: WriteResult)
    requires Tickets(s) && s.exit == Running
    ensures SameRefusals(s, TakeMessage(s, m, write))
  {
    if !m.Response? && !m.Error? {
      var s1, exit := s.(messages := s.messages + [m]), TakeMessage(s, m, write).exit;
      OtherMessage(s, m, write);
      MessageWrites(s, m, write);
      if exit.Ended? {
        FinishRefusals(s1, exit.error);
      }
    }
  }

  /** Tickets that were there before keep what is known about them. */
  lemma AloneLater(s: State, s': State, i: nat)
    requires SameRefusals(s, s') && AcceptedAlone(s) && i < |s.commands| && s.registeredAt[i] <= |s.messages|
    requires s'.commands[i].Request? && !RefusedDuplicate(s', i)
    ensures !Duplicate(s', i)
  {
    if Duplicate(s', i) {
      var j :| InFlight(s', i, j);
      assert RefusedDuplicate(s, j) <==> RefusedDuplicate(s', j);
      assert RefusedDuplicate(s, i) <==> RefusedDuplicate(s', i);
      assert InFlight(s, i, j);
    }
  }

  /** With nobody waiting under an id, every accepted request of that id has been answered. */
  lemma AnsweredBefore(s: State, id: string, j: nat)
    requires Replies(s) && WriteReplies(s) && s.exit == Running && id !in s.pending
    requires j < |s.commands| && s.commands[j].Request? && s.commands[j].id == id && !RefusedDuplicate(s, j)
    ensures exists k :: s.registeredAt[j] <= k < |s.messages| && Answers(s.messages[k], id)
  {
    assert j !in s.pending.Values;
    var r := s.replies[j][0];
    assert r in s.replies[j];
    assert r.IoFailed? ==> Explained(s, Running, j, r.failure);
    assert Backed(s, j, r);
    var k: nat :| FirstAnswer(s, j, k, r);
    assert Answers(s.messages[k], id);
  }

  lemma NewRequestAlone(s: State, command: Command, write: WriteResult)
    requires Replies(s) && WriteReplies(s) && s.exit == Running && command.Request? && command.id !in s.pending
    ensures var s' := TakeCommand(s, command, write);
            |s.commands| < |s'.commands| == |s'.registeredAt| == |s'.replies| && !Duplicate(s', |s.commands|)
  {
    var s' := TakeCommand(s, command, write);
    CommandRefusals(s, command, write);
    if Duplicate(s', |s.commands|) {
      var j :| InFlight(s', |s.commands|, j);
      assert RefusedDuplicate(s, j) <==> RefusedDuplicate(s', j);
      AnsweredBefore(s, command.id, j);
    }
  }

  lemma CommandAlone(s: State, command: Command, write: WriteResult)
    requires Replies(s) && WriteReplies(s) && AcceptedAlone(s) && s.exit == Running
    ensures var s' := TakeCommand(s, command, write); SameRefusals(s, s') && AcceptedAlone(s')
  {
    var s', n := TakeCommand(s, command, write), |s.commands|;
    CommandRefusals(s, command, write);
    forall i | 0 <= i < |s'.commands| && s'.commands[i].Request? && !RefusedDuplicate(s', i) ensures !Duplicate(s', i) {
      if i < n {
        AloneLater(s, s', i);
      } else if command.id in s.pending {
        FirstReply(s, command, IoFailed(DuplicateId(command.id)));
      } else {
        NewRequestAlone(s, command, write);
      }
    }
  }

  lemma AloneStep(s: State, action: Action)
    requires Replies(s) && WriteReplies(s) && AcceptedAlone(s)
    ensures var s' := Step(s, action); |s'.commands| == |s'.registeredAt| == |s'.replies| && AcceptedAlone(s')
  {
    if s.exit == Running && action.OnCommand? {
      CommandAlone(s, action.command, action.write);
    } else {
      var s' := Step(s, action);
      if s.exit == Running && action.OnMessage? {
        MessageRefusals(s, action.message, action.write);
      } else if s.exit == Running && action.CommandsClosed? {
        FinishRefusals(s, None);
      }
      forall i | 0 <= i < |s'.commands| && s'.commands[i].Request? && !RefusedDuplicate(s', i)
          ensures !Duplicate(s', i) {
        AloneLater(s, s', i);
      }
    }
  }

  lemma {:induction false} AloneRun(endpoint: string, actions: seq<Action>)
    ensures var s := Run(Connected(endpoint), actions);
            |s.commands| == |s.registeredAt| == |s.replies| && AcceptedAlone(s)
  {
    if actions != [] {
      var front := actions[..|actions| - 1];
      AloneRun(endpoint, front);
      RepliesRun(endpoint, front);
      WriteRepliesRun(endpoint, front);
      AloneStep(Run(Connected(endpoint), front), actions[|actions| - 1]);
    }
  }

  /**
   In every run, a command gets at most one reply and exactly one once the worker has left. A request gets the first
   answer to its id since it was registered; or a failure, for a duplicate id or because the worker left before any
   answer; or it is still waiting, unanswered. It is refused as a duplicate if and only if a request of its id was in
   flight. Every other command gets its write result.
  */
  lemma ExactlyOneReply(endpoint: string, actions: seq<Action>, i: nat)
    requires i < |Run(Connected(endpoint), actions).commands|
    ensures var s := Run(Connected(endpoint), actions);
            && |s.commands| == |s.registeredAt| == |s.replies| && |s.replies[i]| <= 1
            && (s.replies[i] == [] ==> s.exit == Running && s.commands[i].Request? && Unanswered(s, i))
            && (s.commands[i].Request? ==> (RefusedDuplicate(s, i) <==> Duplicate(s, i)))
            && (forall r | s.replies[i] == [r] ::
                  && (r.Answered? || r.Refused? ==> Backed(s, i, r))
                  && (r.IoFailed? ==> Explained(s, s.exit, i, r.failure))
                  && (r.Written? <==> !s.commands[i].Request?))
  {
    var s := Run(Connected(endpoint), actions);
    RepliesRun(endpoint, actions);
    WriteRepliesRun(endpoint, actions);
    AloneRun(endpoint, actions);
    ExitKind(endpoint, actions);
    if s.replies[i] != [] {
      var r := s.replies[i][0];
      assert r in s.replies[i];
      assert r.Answered? || r.Refused? ==> Backed(s, i, r);
      assert r.IoFailed? ==> Explained(s, s.exit, i, r.failure);
    }
  }

  /** The worker never leaves with the error of a duplicate. */
  lemma {:induction false} ExitKind(endpoint: string, actions: seq<Action>)
    ensures var s := Run(Connected(endpoint), actions); s.exit.Ended? ==> ExitError(s.exit.error).kind != InvalidInput
  {
    if actions != [] {
      var front, action := actions[..|actions| - 1], actions[|actions| - 1];
      var before := Run(Connected(endpoint), front);
      ExitKind(endpoint, front);
      if before.exit == Running && action.OnMessage? && !action.message.Response? && !action.message.Error? {
        MessageWrites(before, action.message, action.write);
      }
    }
  }

  /**
   When the worker leaves with an error, the consumer that is still there is told last, and told the message that
   every waiter is failed with; only the request whose own write failed gets its write error, which that message quotes.
  */
  lemma DisconnectionMatchesFailures(endpoint: string, actions: seq<Action>, i: nat, failure: IoError)
    requires var s := Run(Connected(endpoint), actions);
             && s.exit.Ended? && s.exit.error.Some?
             && i < |s.commands| && i < |s.replies| && s.replies[i] == [IoFailed(failure)]
             && failure != DuplicateId(if s.commands[i].Request? then s.commands[i].id else "")
    ensures var s := Run(Connected(endpoint), actions);
            && (s.consumerOpen ==> s.events == Decoded(s.messages) + [Disconnected(s.exit.error.value.message)])
            && (failure == s.exit.error.value || Unwritten(s, s.exit, i, failure))
  {
    var s := Run(Connected(endpoint), actions);
    RepliesRun(endpoint, actions);
    EventsRun(endpoint, actions);
    assert IoFailed(failure) in s.replies[i];
    assert Explained(s, s.exit, i, failure);
  }

  /** A request whose id is in flight is refused and touches nothing else. */
  lemma DuplicateTouchesNothing(s: State, command: Command, write: WriteResult)
    requires Tickets(s) && s.exit == Running && command.Request? && command.id in s.pending
    ensures Step(s, OnCommand(command, write)) == s.(
              commands := s.commands + [command], registeredAt := s.registeredAt + [|s.messages|],
              replies := s.replies + [[IoFailed(DuplicateId(command.id))]])
  {
    FirstReply(s, command, IoFailed(DuplicateId(command.id)));
  }

  /** A command that only writes is told how its own write went, whatever that was. */
  lemma WriteResultReturned(s: State, command: Command, write: WriteResult)
    requires Tickets(s) && s.exit == Running && !command.Request?
    ensures var s' := Step(s, OnCommand(command, write));
            && |s'.replies| == |s.replies| + 1 && s'.replies[|s.replies|] == [Written(write)]
            && (s'.exit == if command.Shutdown? then Ended(None) else Running)
  {
    FirstReply(s, command, Written(write));
    if command.Shutdown? {
      AnsweredTicket(s, command, Written(write));
      assert |s.replies| !in s.pending.Values;
    }
  }

  // ---------------------------------------------------------------- why the worker leaves

  /** The error a message leaves the worker with, spelled out. */
  predicate Ends(endpoint: string, m: Message, error: IoError) {
    var server := "remote app server at `" + endpoint + "` ";
    match m
    case InvalidText(reason) => error == IoError(InvalidData, server + "sent invalid JSON-RPC: " + reason)
    case Close(reason) =>
      && error.kind == ConnectionAborted
      && (reason != "" ==> error.message == server + "disconnected: " + reason)
      && (reason == "" ==> error.message == server + "disconnected: " + "connection closed")
    case TransportError(reason) => error == IoError(InvalidData, server + "transport failed: " + reason)
    case EndOfStream => error == IoError(UnexpectedEof, server + "closed the connection")
    case _ => false
  }

  predicate WriteEnds(endpoint: string, write: WriteResult, error: IoError) {
    && write.WriteFailed?
    && error == IoError(BrokenPipe, "remote app server at `" + endpoint + "` write failed: " + write.reason)
  }

  /**
   The worker leaves in exactly these steps: on a message that ends the connection, on a request or a refusal that
   could not be written, on an event nobody can receive, on shutdown, and when its commands are gone; and with an error
   exactly in the first two cases, the one that says so.
  */
  lemma LeavesExactlyWhen(s: State, action: Action)
    requires s.exit == Running
    ensures var exit := Step(s, action).exit;
            match action
            case DropConsumer => exit == Running
            case CommandsClosed => exit == Ended(None)
            case OnCommand(command, write) =>
              if command.Shutdown? then exit == Ended(None)
              else if command.Request? && command.id !in s.pending && write.WriteFailed?
              then exit.Ended? && exit.error.Some? && WriteEnds(s.endpoint, write, exit.error.value)
              else exit == Running
            case OnMessage(m, write) =>
              if m.InvalidText? || m.Close? || m.TransportError? || m.EndOfStream?
              then exit.Ended? && exit.error.Some? && Ends(s.endpoint, m, exit.error.value)
              else if m.RequestMessage? && m.request.None? && write.WriteFailed?
              then exit.Ended? && exit.error.Some? && WriteEnds(s.endpoint, write, exit.error.value)
              else exit == if Decode(m) != [] && !s.consumerOpen then Ended(None) else Running
  {
  }

  // ---------------------------------------------------------------- events

  /** What one message means to the event consumer. */
  function Decode(m: Message): seq<AppServerEvent> {
    match m
    case NotificationMessage(Some(n)) => [ServerNotification(n)]
    case RequestMessage(_, _, Some(r)) => [ServerRequest(r)]
    case _ => []
  }

  function Decoded(ms: seq<Message>): seq<AppServerEvent> {
    if ms == [] then [] else Decoded(ms[..|ms| - 1]) + Decode(ms[|ms| - 1])
  }

  lemma {:induction false} DecodedConcat(a: seq<Message>, b: seq<Message>)
    ensures Decoded(a + b) == Decoded(a) + Decoded(b)
  {
    if b == [] {
      assert a + b == a;
    } else {
      var init, last := b[..|b| - 1], b[|b| - 1];
      calc {
        Decoded(a + b);
        { assert (a + b)[..|a + b| - 1] == a + init; }
        Decoded(a + init) + Decode(last);
        { DecodedConcat(a, init); }
        (Decoded(a) + Decoded(init)) + Decode(last);
        Decoded(a) + Decoded(b);
      }
    }
  }

  function Farewell(exit: Exit): seq<AppServerEvent> {
    if exit.Ended? && exit.error.Some? then [Disconnected(exit.error.value.message)] else []
  }

  /** The consumer has seen the decoded messages in order, then the disconnection; one that left early, a prefix. */
  ghost predicate EventStream(s: State) {
    && s.events <= Decoded(s.messages) + Farewell(s.exit)
    && (s.consumerOpen ==> s.events == Decoded(s.messages) + Farewell(s.exit))
  }

  /** What a disconnection tells a consumer that is still there. */
  lemma DisconnectAdds(s: State, error: IoError)
    ensures var s' := Disconnect(s, error);
            && s'.messages == s.messages && s'.consumerOpen == s.consumerOpen && s'.exit == Ended(Some(error))
            && s'.events == s.events + (if s.consumerOpen then Farewell(s'.exit) else [])
  {
  }

  lemma MessageAdds(s: State, m: Message, write: WriteResult)
    requires s.exit == Running
    ensures var s' := TakeMessage(s, m, write);
            && s'.messages == s.messages + [m] && s'.consumerOpen == s.consumerOpen
            && s'.events == s.events + (if s.consumerOpen then Decode(m) + Farewell(s'.exit) else [])
            && (s'.exit.Ended? && s'.exit.error.Some? ==> Decode(m) == [])
  {
    var s1 := s.(messages := s.messages + [m]);
    match m
    case RequestMessage(id, name, None) =>
      if write.WriteFailed? {
        DisconnectAdds(s1.(writes := s1.writes + [Unsupported(id, name)]), BrokenWrite(s.endpoint, write.reason));
      }
    case InvalidText(_) => DisconnectAdds(s1, Fatal(s.endpoint, m).value);
    case Close(_) => DisconnectAdds(s1, Fatal(s.endpoint, m).value);
    case TransportError(_) => DisconnectAdds(s1, Fatal(s.endpoint, m).value);
    case EndOfStream => DisconnectAdds(s1, Fatal(s.endpoint, m).value);
    case _ =>
  }

  lemma MessageEvents(s: State, m: Message, write: WriteResult)
    requires s.exit == Running && EventStream(s)
    ensures EventStream(TakeMessage(s, m, write))
  {
    MessageAdds(s, m, write);
    var ms := s.messages + [m];
    assert ms[..|ms| - 1] == s.messages;
    assert Decoded(ms) == Decoded(s.messages) + Decode(m);
  }

  lemma CommandEvents(s: State, command: Command, write: WriteResult)
    requires s.exit == Running && EventStream(s)
    ensures EventStream(TakeCommand(s, command, write))
  {
    var s' := TakeCommand(s, command, write);
    assert s'.messages == s.messages && s'.consumerOpen == s.consumerOpen;
    assert s'.events == s.events + if s.consumerOpen then Farewell(s'.exit) else [];
  }

  lemma EventsStep(s: State, action: Action)
    requires EventStream(s)
    ensures EventStream(Step(s, action))
  {
    if s.exit == Running && action.OnMessage? {
      MessageEvents(s, action.message, action.write);
    } else if s.exit == Running && action.OnCommand? {
      CommandEvents(s, action.command, action.write);
    }
  }

  lemma {:induction false} EventsRun(endpoint: string, actions: seq<Action>)
    ensures EventStream(Run(Connected(endpoint), actions))
  {
    if actions != [] {
      EventsRun(endpoint, actions[..|actions| - 1]);
      EventsStep(Run(Connected(endpoint), actions[..|actions| - 1]), actions[|actions| - 1]);
    }
  }

  // ---------------------------------------------------------------- what reaches the wire

  predicate IsUnsupported(w: Write) { w.WroteUnsupported? }

  predicate IsCommandWrite(w: Write) { !w.WroteUnsupported? }

  function Rejection(m: Message): seq<Write> {
    if m.RequestMessage? && m.request.None?
    then [WroteUnsupported(m.id, -32601, "unsupported remote app-server request `" + m.name + "`")] else []
  }

  /** The refusals owed to the undecodable requests, in order. */
  function Rejections(ms: seq<Message>): seq<Write> {
    if ms == [] then [] else Rejections(ms[..|ms| - 1]) + Rejection(ms[|ms| - 1])
  }

  /** What a command puts on the wire: a refused duplicate and a shutdown put nothing. */
  function Sent(command: Command, duplicate: bool): seq<Write> {
    match command
    case Request(id, body) => if duplicate then [] else [WroteRequest(id, body)]
    case Notify(body) => [WroteNotification(body)]
    case ResolveServerRequest(id, body) => [WroteResponse(id, body)]
    case RejectServerRequest(id, code, body) => [WroteError(id, code, body)]
    case Shutdown => []
  }

  predicate IsDuplicate(command: Command, replies: seq<Reply>) {
    command.Request? && IoFailed(DuplicateId(command.id)) in replies
  }

  function SentAll(commands: seq<Command>, replies: seq<seq<Reply>>): seq<Write>
    requires |commands| == |replies|
  {
    if commands == [] then [] else
      var n := |commands| - 1;
      SentAll(commands[..n], replies[..n]) + Sent(commands[n], IsDuplicate(commands[n], replies[n]))
  }

  /** Every command is written once, in order, and every undecodable request is refused once, in order. */
  ghost predicate WireStream(s: State)
    requires |s.commands| == |s.replies|
  {
    && Filter(IsUnsupported, s.writes) == Rejections(s.messages)
    && Filter(IsCommandWrite, s.writes) == SentAll(s.commands, s.replies)
  }

  lemma AddWrite(ws: seq<Write>, w: Write)
    ensures Filter(IsUnsupported, ws + [w]) == Filter(IsUnsupported, ws) + if IsUnsupported(w) then [w] else []
    ensures Filter(IsCommandWrite, ws + [w]) == Filter(IsCommandWrite, ws) + if IsUnsupported(w) then [] else [w]
  {
    FilterConcat(IsUnsupported, ws, [w]);
    FilterConcat(IsCommandWrite, ws, [w]);
  }

  /** What was sent depends only on which commands were refused as duplicates. */
  lemma {:induction false} SentAllSame(commands: seq<Command>, a: seq<seq<Reply>>, b: seq<seq<Reply>>)
    requires |commands| == |a| == |b|
    requires forall i | 0 <= i < |commands| :: IsDuplicate(commands[i], a[i]) == IsDuplicate(commands[i], b[i])
    ensures SentAll(commands, a) == SentAll(commands, b)
  {
    if commands != [] {
      var n := |commands| - 1;
      SentAllSame(commands[..n], a[..n], b[..n]);
    }
  }

  lemma SentAllSnoc(commands: seq<Command>, replies: seq<seq<Reply>>, command: Command, reply: seq<Reply>)
    requires |commands| == |replies|
    ensures SentAll(commands + [command], replies + [reply])
         == SentAll(commands, replies) + Sent(command, IsDuplicate(command, reply))
  {
    var cs, rs := commands + [command], replies + [reply];
    assert cs[..|cs| - 1] == commands && rs[..|rs| - 1] == replies;
  }

  lemma FinishWire(s: State, error: Option<IoError>)
    requires |s.commands| == |s.replies| && WireStream(s) && ExitError(error).kind != InvalidInput
    ensures WireStream(Finish(s, error))
  {
    SentAllSame(s.commands, s.replies, Finish(s, error).replies);
  }

  lemma AnswerWire(s: State, id: string, reply: Reply)
    requires |s.commands| == |s.replies| && WireStream(s) && !reply.IoFailed?
    ensures WireStream(Resolve(s, id, reply))
  {
    SentAllSame(s.commands, s.replies, Resolve(s, id, reply).replies);
  }

  lemma ShutdownWire(s: State, write: WriteResult)
    requires |s.commands| == |s.replies| && WireStream(s)
    ensures var s' := TakeCommand(s, Shutdown, write); |s'.commands| == |s'.replies| && WireStream(s')
  {
    FirstReply(s, Shutdown, Written(write));
    SentAllSnoc(s.commands, s.replies, Shutdown, [Written(write)]);
    FinishWire(SendReply(Dequeued(s, Shutdown), |s.replies|, Written(write)), None);
  }

  lemma WrittenRequestWire(s: State, command: Command)
    requires |s.commands| == |s.replies| && WireStream(s) && command.Request? && command.id !in s.pending
    ensures var s' := TakeCommand(s, command, WriteOk); |s'.commands| == |s'.replies| && WireStream(s')
  {
    AddWrite(s.writes, WroteRequest(command.id, command.body));
    SentAllSnoc(s.commands, s.replies, command, []);
  }

  lemma RequestWire(s: State, command: Command, write: WriteResult)
    requires Tickets(s) && WireStream(s) && s.exit == Running && command.Request?
    ensures var s' := TakeCommand(s, command, write); |s'.commands| == |s'.replies| && WireStream(s')
  {
    if command.id in s.pending {
      DuplicateTouchesNothing(s, command, write);
      SentAllSnoc(s.commands, s.replies, command, [IoFailed(DuplicateId(command.id))]);
    } else if write.WriteOk? {
      WrittenRequestWire(s, command);
    } else {
      RefusedWriteWire(s, command, write.reason);
    }
  }

  lemma OtherCommandWire(s: State, command: Command, write: WriteResult)
    requires |s.commands| == |s.replies| && WireStream(s) && !command.Request? && !command.Shutdown?
    ensures var s' := TakeCommand(s, command, write); |s'.commands| == |s'.replies| && WireStream(s')
  {
    AddWrite(s.writes, OtherWrite(command));
    FirstReply(s, command, Written(write));
    SentAllSnoc(s.commands, s.replies, command, [Written(write)]);
  }

  lemma CommandWire(s: State, command: Command, write: WriteResult)
    requires Tickets(s) && WireStream(s) && s.exit == Running
    ensures var s' := TakeCommand(s, command, write); |s'.commands| == |s'.replies| && WireStream(s')
  {
    match command
    case Shutdown => ShutdownWire(s, write);
    case Request(_, _) => RequestWire(s, command, write);
    case _ => OtherCommandWire(s, command, write);
  }

  lemma RefusedWriteWire(s: State, command: Command, reason: string)
    requires Tickets(s) && WireStream(s) && s.exit == Running && command.Request? && command.id !in s.pending
    ensures var s' := TakeCommand(s, command, WriteFailed(reason)); |s'.commands| == |s'.replies| && WireStream(s')
  {
    var reply, w := IoFailed(IoError(Other, reason)), WroteRequest(command.id, command.body);
    var t := SendReply(Dequeued(s, command), |s.replies|, reply).(writes := s.writes + [w]);
    FirstReply(s, command, reply);
    AddWrite(s.writes, w);
    SentAllSnoc(s.commands, s.replies, command, [reply]);
    FinishWire(t, Some(BrokenWrite(s.endpoint, reason)));
    RefusedWriteShape(s, command, reason);
  }

  lemma RejectionsSnoc(ms: seq<Message>, m: Message)
    ensures Rejections(ms + [m]) == Rejections(ms) + Rejection(m)
  {
    assert (ms + [m])[..|ms|] == ms;
  }

  lemma AnswerMessageWire(s: State, m: Message, write: WriteResult)
    requires Tickets(s) && WireStream(s) && (m.Response? || m.Error?)
    ensures var s' := TakeMessage(s, m, write); |s'.commands| == |s'.replies| && WireStream(s')
  {
    RejectionsSnoc(s.messages, m);
    AnswerWire(s.(messages := s.messages + [m]), m.id, if m.Response? then Answered(m.result) else Refused(m.error));
  }

  /** Whatever else a message does to the worker, the wire owes it one refusal or none. */
  lemma RefusalWire(s: State, m: Message)
    requires |s.commands| == |s.replies| && WireStream(s)
    ensures WireStream(s.(messages := s.messages + [m], writes := s.writes + Rejection(m)))
  {
    RejectionsSnoc(s.messages, m);
    if Rejection(m) == [] {
      assert s.writes + [] == s.writes;
    } else {
      AddWrite(s.writes, Unsupported(m.id, m.name));
    }
  }

  lemma MessageWrites(s: State, m: Message, write: WriteResult)
    requires s.exit == Running && !m.Response? && !m.Error?
    ensures var s' := TakeMessage(s, m, write);
            s'.writes == s.writes + Rejection(m) && (s'.exit.Ended? ==> ExitError(s'.exit.error).kind != InvalidInput)
  {
  }

  lemma MessageWire(s: State, m: Message, write: WriteResult)
    requires Tickets(s) && WireStream(s) && s.exit == Running
    ensures var s' := TakeMessage(s, m, write); |s'.commands| == |s'.replies| && WireStream(s')
  {
    if m.Response? || m.Error? {
      AnswerMessageWire(s, m, write);
    } else {
      var exit := TakeMessage(s, m, write).exit;
      OtherMessage(s, m, write);
      MessageWrites(s, m, write);
      RefusalWire(s, m);
      if exit.Ended? {
        FinishWire(s.(messages := s.messages + [m], writes := s.writes + Rejection(m)), exit.error);
      }
    }
  }

  lemma WireStep(s: State, action: Action)
    requires Tickets(s) && WireStream(s)
    ensures var s' := Step(s, action); |s'.commands| == |s'.replies| && WireStream(s')
  {
    if s.exit == Running {
      match action
      case OnCommand(command, write) => CommandWire(s, command, write);
      case OnMessage(m, write) => MessageWire(s, m, write);
      case CommandsClosed => FinishWire(s, None);
      case DropConsumer =>
    }
  }

  lemma {:induction false} WireRun(endpoint: string, actions: seq<Action>)
    ensures var s := Run(Connected(endpoint), actions); |s.commands| == |s.replies| && WireStream(s)
  {
    if actions != [] {
      WireRun(endpoint, actions[..|actions| - 1]);
      RepliesRun(endpoint, actions[..|actions| - 1]);
      WireStep(Run(Connected(endpoint), actions[..|actions| - 1]), actions[|actions| - 1]);
    }
  }
}
