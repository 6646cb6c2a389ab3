/**
 The remote app-server client (codex-rs/app-server-client/src/remote.rs): the initialize handshake and
 the worker that multiplexes requests over one connection.

 Client commands and wire messages are two input streams interleaved in any way. Whether a write
 succeeds is part of the step that makes it. A command is known by its ticket, its position among the
 commands dequeued, which stands for the one-shot channel its reply goes to.
*/
module RemoteClient {
  import opened Common

  datatype ErrorKind = InvalidInput | InvalidData | BrokenPipe | ConnectionAborted | UnexpectedEof | TimedOut | Other

  datatype IoError = IoError(kind: ErrorKind, message: string)

  /** What the client wants. */
  datatype Command =
    | Request(id: string, body: string)
    | Notify(body: string)
    | ResolveServerRequest(id: string, body: string)
    | RejectServerRequest(id: string, code: int, body: string)
    | Shutdown

  /** A WebSocket message as the client decodes it; undecodable notifications and requests carry `None`. */
  datatype Message =
    | Response(id: string, result: string)
    | Error(id: string, error: string)
    | NotificationMessage(notification: Option<string>)
    | RequestMessage(id: string, name: string, request: Option<string>)
    | InvalidText(reason: string)
    | Close(reason: string)
    | Ignored  // binary, ping, pong and raw frames
    | TransportError(reason: string)
    | EndOfStream

  datatype AppServerEvent =
    | ServerNotification(notification: string)
    | ServerRequest(request: string)
    | Disconnected(message: string)

  /** A message written, or attempted, to the connection. */
  datatype Write =
    | WroteRequest(id: string, body: string)
    | WroteNotification(body: string)
    | WroteResponse(id: string, body: string)
    | WroteError(id: string, code: int, body: string)
    | WroteUnsupported(id: string, code: int, body: string)  // the worker's own answer to an unknown request

  datatype WriteResult = WriteOk | WriteFailed(reason: string)

  datatype Reply =
    | Answered(result: string)        // the server's response
    | Refused(error: string)          // the server's error
    | IoFailed(failure: IoError)       // the request never got an answer
    | Written(outcome: WriteResult)   // for commands that only write

  datatype Exit = Running | Ended(error: Option<IoError>)

  datatype State = State(
    endpoint: string,
    pending: map<string, nat>,
    exit: Exit,
    consumerOpen: bool,
    commands: seq<Command>,
    registeredAt: seq<nat>,     // how many messages had come in when the command was dequeued
    replies: seq<seq<Reply>>,   // what each ticket has received
    messages: seq<Message>,
    writes: seq<Write>,
    events: seq<AppServerEvent>)

  function Connected(endpoint: string): State {
    State(endpoint, map[], Running, true, [], [], [], [], [], [])
  }

  datatype Action =
    | OnCommand(command: Command, write: WriteResult)
    | CommandsClosed
    | OnMessage(message: Message, write: WriteResult)
    | DropConsumer

  const METHOD_NOT_FOUND := -32601
  const CHANNEL_CLOSED := IoError(BrokenPipe, "remote app-server worker channel is closed")

  // ---------------------------------------------------------------- steps

  function SendReply(s: State, ticket: nat, reply: Reply): State
    requires ticket < |s.replies|
  {
    s.(replies := s.replies[ticket := s.replies[ticket] + [reply]])
  }

  /** Leave the loop: every request still pending gets the same error. */
  function Finish(s: State, error: Option<IoError>): State {
    var reply := IoFailed(if error.Some? then error.value else CHANNEL_CLOSED);
    var drained := seq(|s.replies|, i requires 0 <= i < |s.replies| =>
                         if i in s.pending.Values then s.replies[i] + [reply] else s.replies[i]);
    s.(exit := Ended(error), pending := map[], replies := drained)
  }

  /** Announce the disconnection and leave. */
  function Disconnect(s: State, error: IoError): State {
    var events := if s.consumerOpen then s.events + [Disconnected(error.message)] else s.events;
    Finish(s.(events := events), Some(error))
  }

  /** An event nobody can receive ends the worker. */
  function Deliver(s: State, event: AppServerEvent): State {
    if s.consumerOpen then s.(events := s.events + [event]) else Finish(s, None)
  }

  function BrokenWrite(endpoint: string, reason: string): IoError {
    IoError(BrokenPipe, "remote app server at `" + endpoint + "` write failed: " + reason)
  }

  function DuplicateId(id: string): IoError {
    IoError(InvalidInput, "duplicate remote app-server request id `" + id + "`")
  }

  function RequestCommand(s: State, ticket: nat, id: string, body: string, write: WriteResult): State
    requires ticket < |s.replies|
  {
    if id in s.pending then
      SendReply(s, ticket, IoFailed(DuplicateId(id)))
    else
      var s1 := s.(pending := s.pending[id := ticket], writes := s.writes + [WroteRequest(id, body)]);
      match write
      case WriteOk => s1
      case WriteFailed(reason) =>
        Disconnect(SendReply(s1.(pending := s1.pending - {id}), ticket, IoFailed(IoError(Other, reason))),
            BrokenWrite(s.endpoint, reason))
  }

  function OtherWrite(command: Command): Write
    requires !command.Request? && !command.Shutdown?
  {
    match command
    case Notify(body) => WroteNotification(body)
    case ResolveServerRequest(id, body) => WroteResponse(id, body)
    case RejectServerRequest(id, code, body) => WroteError(id, code, body)
  }

  /** Dequeue a command: it gets the next ticket. */
  function Dequeued(s: State, command: Command): State {
    s.(commands := s.commands + [command], registeredAt := s.registeredAt + [|s.messages|], replies := s.replies + [[]])
  }

  function TakeCommand(s: State, command: Command, write: WriteResult): State {
    var ticket, s1 := |s.replies|, Dequeued(s, command);
    match command
    case Request(id, body) => RequestCommand(s1, ticket, id, body, write)
    case Shutdown => Finish(SendReply(s1, ticket, Written(write)), None)
    case _ => SendReply(s1.(writes := s1.writes + [OtherWrite(command)]), ticket, Written(write))
  }

  /** A response or an error for a pending request; others are ignored. */
  function Resolve(s: State, id: string, reply: Reply): State {
    if id in s.pending && s.pending[id] < |s.replies|
    then SendReply(s, s.pending[id], reply).(pending := s.pending - {id}) else s
  }

  function Unsupported(id: string, name: string): Write {
    WroteUnsupported(id, METHOD_NOT_FOUND, "unsupported remote app-server request `" + name + "`")
  }

  /** The messages that end the connection, and the error they leave. */
  function Fatal(endpoint: string, m: Message): Option<IoError> {
    var server := "remote app server at `" + endpoint + "` ";
    match m
    case InvalidText(reason) => Some(IoError(InvalidData, server + "sent invalid JSON-RPC: " + reason))
    case Close(reason) =>
      Some(IoError(ConnectionAborted, server + "disconnected: " + if reason == "" then "connection closed" else reason))
    case TransportError(reason) => Some(IoError(InvalidData, server + "transport failed: " + reason))
    case EndOfStream => Some(IoError(UnexpectedEof, server + "closed the connection"))
    case _ => None
  }

  function TakeMessage(s: State, m: Message, write: WriteResult): State {
    var s1 := s.(messages := s.messages + [m]);
    match m
    case Response(id, result) => Resolve(s1, id, Answered(result))
    case Error(id, error) => Resolve(s1, id, Refused(error))
    case NotificationMessage(Some(n)) => Deliver(s1, ServerNotification(n))
    case RequestMessage(_, _, Some(r)) => Deliver(s1, ServerRequest(r))
    case RequestMessage(id, name, None) =>
      var s2 := s1.(writes := s1.writes + [Unsupported(id, name)]);
      if write.WriteOk? then s2 else Disconnect(s2, BrokenWrite(s.endpoint, write.reason))
    case _ => if Fatal(s.endpoint, m).Some? then Disconnect(s1, Fatal(s.endpoint, m).value) else s1
  }

  function Step(s: State, action: Action): State {
    match action
    case DropConsumer => s.(consumerOpen := false)
    case _ =>
      if s.exit != Running then s
      else
        match action
        case OnCommand(command, write) => TakeCommand(s, command, write)
        case CommandsClosed => Finish(s, None)
        case OnMessage(m, write) => TakeMessage(s, m, write)
  }

  function Run(s: State, actions: seq<Action>): State {
    if actions == [] then s else Step(Run(s, actions[..|actions| - 1]), actions[|actions| - 1])
  }

  // ---------------------------------------------------------------- one reply each

  /** A pending request waits without a reply under its own id; every other ticket has exactly one reply. */
  ghost predicate Tickets(s: State) {
    && |s.commands| == |s.registeredAt| == |s.replies|
    && (forall id | id in s.pending ::
          s.pending[id] < |s.replies| && s.commands[s.pending[id]].Request? && s.commands[s.pending[id]].id == id
          && s.replies[s.pending[id]] == [])
    && (forall i | 0 <= i < |s.replies| :: i in s.pending.Values || |s.replies[i]| == 1)
    && (s.exit.Ended? ==> s.pending == map[])
  }

  lemma FinishTickets(s: State, error: Option<IoError>)
    requires Tickets(s)
    ensures Tickets(Finish(s, error))
  {
    var s' := Finish(s, error);
    forall i | 0 <= i < |s.replies| ensures |s'.replies[i]| == 1 {
      if i in s.pending.Values {
        assert s.replies[i] == [];
      }
    }
  }

  lemma DisconnectTickets(s: State, error: IoError)
    requires Tickets(s)
    ensures Tickets(Disconnect(s, error))
  {
    var events := if s.consumerOpen then s.events + [Disconnected(error.message)] else s.events;
    FinishTickets(s.(events := events), Some(error));
  }

  /** Registering a command whose ticket has been answered. */
  lemma AnsweredTicket(s: State, command: Command, reply: Reply)
    requires Tickets(s)
    ensures Tickets(SendReply(Dequeued(s, command), |s.replies|, reply))
  {
  }

  lemma TakeCommandTickets(s: State, command: Command, write: WriteResult)
    requires Tickets(s) && s.exit == Running
    ensures Tickets(TakeCommand(s, command, write))
  {
    var ticket, s1 := |s.replies|, Dequeued(s, command);
    match command
    case Shutdown =>
      AnsweredTicket(s, command, Written(write));
      FinishTickets(SendReply(s1, ticket, Written(write)), None);
    case Request(id, body) =>
      if id !in s.pending {
        var s2 := s1.(pending := s1.pending[id := ticket], writes := s1.writes + [WroteRequest(id, body)]);
        if write.WriteOk? {
          assert ticket in s2.pending.Values by {
            assert s2.pending[id] == ticket;
          }
          forall i | 0 <= i < |s2.replies| ensures i in s2.pending.Values || |s2.replies[i]| == 1 {
            if i in s.pending.Values {
              var k :| k in s.pending && s.pending[k] == i;
              assert s2.pending[k] == i;
            }
          }
        } else {
          var reply := IoFailed(IoError(Other, write.reason));
          AnsweredTicket(s, command, reply);
          assert s2.pending - {id} == s.pending;
          DisconnectTickets(SendReply(s2.(pending := s2.pending - {id}), ticket, reply),
              BrokenWrite(s.endpoint, write.reason));
        }
      } else {
        AnsweredTicket(s, command, IoFailed(DuplicateId(id)));
      }
    case _ => AnsweredTicket(s.(writes := s.writes + [OtherWrite(command)]), command, Written(write));
  }

  lemma ResolveTickets(s: State, id: string, reply: Reply)
    requires Tickets(s) && s.exit == Running
    ensures Tickets(Resolve(s, id, reply))
  {
    if id in s.pending {
      var t, s' := s.pending[id], Resolve(s, id, reply);
      forall i | 0 <= i < |s'.replies| ensures i in s'.pending.Values || |s'.replies[i]| == 1 {
        if i != t && i in s.pending.Values {
          var k :| k in s.pending && s.pending[k] == i;
          assert s'.pending[k] == i;
        }
      }
    }
  }

  lemma TakeMessageTickets(s: State, m: Message, write: WriteResult)
    requires Tickets(s) && s.exit == Running
    ensures Tickets(TakeMessage(s, m, write))
  {
    var s1 := s.(messages := s.messages + [m]);
    match m
    case Response(id, result) => ResolveTickets(s1, id, Answered(result));
    case Error(id, error) => ResolveTickets(s1, id, Refused(error));
    case NotificationMessage(_) => FinishTickets(s1, None);
    case RequestMessage(_, _, Some(_)) => FinishTickets(s1, None);
    case RequestMessage(id, name, None) =>
      if write.WriteFailed? {
        DisconnectTickets(s1.(writes := s1.writes + [Unsupported(id, name)]), BrokenWrite(s.endpoint, write.reason));
      }
    case Ignored =>
    case _ => DisconnectTickets(s1, Fatal(s.endpoint, m).value);
  }

  lemma TicketsStep(s: State, action: Action)
    requires Tickets(s)
    ensures Tickets(Step(s, action))
  {
    if s.exit == Running {
      match action
      case OnCommand(command, write) => TakeCommandTickets(s, command, write);
      case OnMessage(m, write) => TakeMessageTickets(s, m, write);
      case CommandsClosed => FinishTickets(s, None);
      case DropConsumer =>
    }
  }

  // ---------------------------------------------------------------- where answers come from

  predicate Answers(m: Message, id: string) {
    (m.Response? || m.Error?) && m.id == id
  }

  function AnswerOf(id: string, reply: Reply): Message
    requires reply.Answered? || reply.Refused?
  {
    if reply.Answered? then Response(id, reply.result) else Error(id, reply.error)
  }

  /** Message j is the first answer to the request of ticket i since it was registered, and it is this reply. */
  ghost predicate FirstAnswer(s: State, i: nat, j: nat, reply: Reply)
    requires i < |s.commands| == |s.registeredAt| && (reply.Answered? || reply.Refused?)
  {
    && s.commands[i].Request? && s.registeredAt[i] <= j < |s.messages|
    && s.messages[j] == AnswerOf(s.commands[i].id, reply)
    && forall k | s.registeredAt[i] <= k < j :: !Answers(s.messages[k], s.commands[i].id)
  }

  ghost predicate Backed(s: State, i: nat, reply: Reply)
    requires i < |s.commands| == |s.registeredAt| && (reply.Answered? || reply.Refused?)
  {
    exists j :: FirstAnswer(s, i, j, reply)
  }

  ghost predicate Provenance(s: State)
    requires Tickets(s)
  {
    && (forall i | 0 <= i < |s.registeredAt| :: s.registeredAt[i] <= |s.messages|)
    && (forall id, k | id in s.pending && s.registeredAt[s.pending[id]] <= k < |s.messages| ::
          !Answers(s.messages[k], id))
    && (forall i, r | 0 <= i < |s.replies| && r in s.replies[i] && (r.Answered? || r.Refused?) :: Backed(s, i, r))
  }

  /** The only new replies of one ticket are failures and write results. */
  ghost predicate FailuresAdded(before: seq<Reply>, after: seq<Reply>) {
    forall r | r in after :: r in before || r.IoFailed? || r.Written?
  }

  ghost predicate OnlyFailures(a: seq<seq<Reply>>, b: seq<seq<Reply>>) {
    |a| <= |b| && forall i | 0 <= i < |b| :: FailuresAdded(if i < |a| then a[i] else [], b[i])
  }

  /** A step that brings no answer: it may register commands, drop waiters and add failures. */
  ghost predicate Quiet(s: State, s': State)
    requires |s.commands| == |s.registeredAt|
  {
    && s.commands <= s'.commands && s.registeredAt <= s'.registeredAt && s.messages <= s'.messages
    && |s'.commands| == |s'.registeredAt|
    && (forall i | |s.registeredAt| <= i < |s'.registeredAt| :: s'.registeredAt[i] == |s'.messages|)
    && (forall k | |s.messages| <= k < |s'.messages| :: !s'.messages[k].Response? && !s'.messages[k].Error?)
    && (forall id | id in s'.pending ::
          (id in s.pending && s'.pending[id] == s.pending[id]) || s'.pending[id] >= |s.commands|)
    && OnlyFailures(s.replies, s'.replies)
  }

  lemma FinishQuiet(s: State, s1: State, error: Option<IoError>)
    requires Tickets(s) && Quiet(s, s1)
    ensures Quiet(s, Finish(s1, error))
  {
    var s' := Finish(s1, error);
    forall i | 0 <= i < |s'.replies|
        ensures FailuresAdded(if i < |s.replies| then s.replies[i] else [], s'.replies[i]) {
      assert FailuresAdded(if i < |s.replies| then s.replies[i] else [], s1.replies[i]);
    }
  }

  lemma AnsweredQuiet(s: State, command: Command, reply: Reply)
    requires Tickets(s) && (reply.IoFailed? || reply.Written?)
    ensures Quiet(s, SendReply(Dequeued(s, command), |s.replies|, reply))
  {
  }

  lemma CommandQuiet(s: State, command: Command, write: WriteResult)
    requires Tickets(s)
    ensures Quiet(s, TakeCommand(s, command, write))
  {
    match command
    case Shutdown =>
      AnsweredQuiet(s, command, Written(write));
      FinishQuiet(s, SendReply(Dequeued(s, command), |s.replies|, Written(write)), None);
    case Request(id, body) =>
      if id !in s.pending && write.WriteFailed? {
        RefusedWriteQuiet(s, command, write.reason);
      }
    case _ =>
  }

  lemma RefusedWriteQuiet(s: State, command: Command, reason: string)
    requires Tickets(s) && command.Request? && command.id !in s.pending
    ensures Quiet(s, TakeCommand(s, command, WriteFailed(reason)))
  {
    var s1 := SendReply(Dequeued(s, command), |s.replies|, IoFailed(IoError(Other, reason)));
    AnsweredQuiet(s, command, IoFailed(IoError(Other, reason)));
    assert s.pending[command.id := |s.replies|] - {command.id} == s.pending;
    var error := BrokenWrite(s.endpoint, reason);
    var events := if s.consumerOpen then s.events + [Disconnected(error.message)] else s.events;
    FinishQuiet(s, s1.(events := events, writes := s.writes + [WroteRequest(command.id, command.body)]), Some(error));
  }

  /** A message that answers nothing leaves every ticket alone unless the worker leaves because of it. */
  lemma OtherMessage(s: State, m: Message, write: WriteResult)
    requires s.exit == Running && !m.Response? && !m.Error?
    ensures var s1, s' := s.(messages := s.messages + [m]), TakeMessage(s, m, write);
            var s2 := if s'.exit.Ended? then Finish(s1, s'.exit.error) else s1;
            s' == s2.(events := s'.events, writes := s'.writes)
  {
  }

  lemma MessageQuiet(s: State, m: Message, write: WriteResult)
    requires Tickets(s) && s.exit == Running && !m.Response? && !m.Error?
    ensures Quiet(s, TakeMessage(s, m, write))
  {
    var s1, exit := s.(messages := s.messages + [m]), TakeMessage(s, m, write).exit;
    assert Quiet(s, s1);
    OtherMessage(s, m, write);
    if exit.Ended? {
      FinishQuiet(s, s1, exit.error);
    }
  }

  /** Answers stay backed when commands and messages are only added. */
  lemma BackedLater(s: State, s': State, i: nat, r: Reply)
    requires i < |s.commands| == |s.registeredAt| && |s'.commands| == |s'.registeredAt| && (r.Answered? || r.Refused?)
    requires s.commands <= s'.commands && s.registeredAt <= s'.registeredAt && s.messages <= s'.messages
    requires Backed(s, i, r)
    ensures Backed(s', i, r)
  {
    var j :| FirstAnswer(s, i, j, r);
    assert FirstAnswer(s', i, j, r);
  }

  lemma QuietProvenance(s: State, s': State)
    requires Tickets(s) && Tickets(s') && Provenance(s) && Quiet(s, s')
    ensures Provenance(s')
  {
    forall i, r | 0 <= i < |s'.replies| && r in s'.replies[i] && (r.Answered? || r.Refused?) ensures Backed(s', i, r) {
      assert FailuresAdded(if i < |s.replies| then s.replies[i] else [], s'.replies[i]);
      BackedLater(s, s', i, r);
    }
  }

  lemma IgnoredAnswerProvenance(s: State, m: Message)
    requires Tickets(s) && Provenance(s) && (m.Response? || m.Error?) && m.id !in s.pending
    ensures Provenance(s.(messages := s.messages + [m]))
  {
    var s' := s.(messages := s.messages + [m]);
    forall i, r | 0 <= i < |s'.replies| && r in s'.replies[i] && (r.Answered? || r.Refused?) ensures Backed(s', i, r) {
      BackedLater(s, s', i, r);
    }
  }

  /** The message that answers a pending request is the first one to do so. */
  lemma AnswerProvenance(s: State, m: Message, reply: Reply)
    requires Tickets(s) && Provenance(s) && (reply.Answered? || reply.Refused?)
    requires (m.Response? || m.Error?) && m.id in s.pending && m == AnswerOf(m.id, reply)
    requires Tickets(Resolve(s.(messages := s.messages + [m]), m.id, reply))
    ensures Provenance(Resolve(s.(messages := s.messages + [m]), m.id, reply))
  {
    var s' := Resolve(s.(messages := s.messages + [m]), m.id, reply);
    var t := s.pending[m.id];
    assert s'.replies[t] == [reply];
    assert FirstAnswer(s', t, |s.messages|, reply);
    forall i, r | 0 <= i < |s'.replies| && r in s'.replies[i] && (r.Answered? || r.Refused?) ensures Backed(s', i, r) {
      if i != t {
        BackedLater(s, s', i, r);
      }
    }
  }

  lemma ResolveProvenance(s: State, m: Message, write: WriteResult)
    requires Tickets(s) && Provenance(s) && (m.Response? || m.Error?)
    requires Tickets(TakeMessage(s, m, write))
    ensures Provenance(TakeMessage(s, m, write))
  {
    if m.id in s.pending {
      AnswerProvenance(s, m, if m.Response? then Answered(m.result) else Refused(m.error));
    } else {
      IgnoredAnswerProvenance(s, m);
    }
  }

  lemma ProvenanceStep(s: State, action: Action)
    requires Tickets(s) && Provenance(s)
    ensures Tickets(Step(s, action)) && Provenance(Step(s, action))
  {
    TicketsStep(s, action);
    if s.exit == Running && action.OnMessage? && (action.message.Response? || action.message.Error?) {
      ResolveProvenance(s, action.message, action.write);
    } else {
      if s.exit == Running && action.OnCommand? {
        CommandQuiet(s, action.command, action.write);
      } else if s.exit == Running && action.OnMessage? {
        MessageQuiet(s, action.message, action.write);
      }
      QuietProvenance(s, Step(s, action));
    }
  }
}
