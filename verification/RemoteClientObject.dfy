/** The handshake loop, the worker object and the event reader, each proved against its specification. */
module RemoteClientObject {
  import opened Common
  import opened RemoteClient
  import opened RemoteClientRuns
  import opened WhiteSpace

  // ---------------------------------------------------------------- handshake

  /** A message that arrived in time, and whether the refusal it may call for could be written. */
  datatype Incoming = Incoming(message: Message, write: WriteResult)

  datatype Outcome =
    | Initialized(events: seq<AppServerEvent>, serverVersion: Option<string>)
    | Failed(error: IoError)

  function Messages(incoming: seq<Incoming>): (ms: seq<Message>)
    ensures |ms| == |incoming| && forall i | 0 <= i < |ms| :: ms[i] == incoming[i].message
  {
    seq(|incoming|, i requires 0 <= i < |incoming| => incoming[i].message)
  }

  /** The messages after which the handshake goes on waiting. */
  ghost predicate Undecided(i: Incoming) {
    match i.message
    case Response(id, _) => id != "initialize"
    case Error(id, _) => id != "initialize"
    case NotificationMessage(_) => true
    case RequestMessage(_, _, request) => request.Some? || i.write.WriteOk?
    case Ignored => true
    case _ => false
  }

  ghost predicate Accepts(m: Message) {
    m.Response? && m.id == "initialize"
  }

  /** The error with which the handshake gives up on a message. */
  ghost predicate FailsWith(endpoint: string, i: Incoming, error: IoError) {
    var server := "remote app server at `" + endpoint + "` ";
    match i.message
    case InvalidText(reason) => error == IoError(Other, server + "sent invalid initialize response: " + reason)
    case Error(_, reason) => error == IoError(Other, server + "rejected initialize: " + reason)
    case RequestMessage(_, _, _) => i.write.WriteFailed? && error == IoError(Other, i.write.reason)
    case Close(reason) =>
      && error.kind == ConnectionAborted
      && (reason != "" ==> error.message == server + "closed during initialize: " + reason)
      && (var none := "connection closed during initialize";
          reason == "" ==> error.message == server + "closed during initialize: " + none)
    case TransportError(reason) => error == IoError(Other, server + "transport failed during initialize: " + reason)
    case EndOfStream => error == IoError(UnexpectedEof, server + "closed during initialize")
    case _ => false
  }

  datatype Verdict = Wait | Accept | GiveUp(error: IoError)

  /** One message of the handshake. */
  method Judge(endpoint: string, i: Incoming) returns (verdict: Verdict)
    ensures verdict.Wait? <==> Undecided(i)
    ensures verdict.Accept? <==> Accepts(i.message)
    ensures verdict.GiveUp? ==> FailsWith(endpoint, i, verdict.error)
  {
    var server := "remote app server at `" + endpoint + "` ";
    verdict := Wait;
    match i.message
    case Response(id, _) =>
      if id == "initialize" {
        verdict := Accept;
      }
    case Error(id, reason) =>
      if id == "initialize" {
        verdict := GiveUp(IoError(Other, server + "rejected initialize: " + reason));
      }
    case NotificationMessage(_) =>
    case RequestMessage(_, _, request) =>
      if request.None? && i.write.WriteFailed? {
        verdict := GiveUp(IoError(Other, i.write.reason));
      }
    case InvalidText(reason) =>
      verdict := GiveUp(IoError(Other, server + "sent invalid initialize response: " + reason));
    case Close(reason) =>
      var why := if reason == "" then "connection closed during initialize" else reason;
      verdict := GiveUp(IoError(ConnectionAborted, server + "closed during initialize: " + why));
    case Ignored =>
    case TransportError(reason) =>
      verdict := GiveUp(IoError(Other, server + "transport failed during initialize: " + reason));
    case EndOfStream =>
      verdict := GiveUp(IoError(UnexpectedEof, server + "closed during initialize"));
  }

  function IndexOf(text: string, c: char): (i: nat)
    ensures i <= |text| && (i < |text| ==> text[i] == c)
  {
    if text == "" || text[0] == c then 0 else 1 + IndexOf(text[1..], c)
  }

  /** The word after the first slash of a user agent. */
  function ServerVersion(userAgent: string): Option<string> {
    var i := IndexOf(userAgent, '/');
    if i == |userAgent| then None
    else
      var words := Words(userAgent[i + 1..]);
      if words == [] then None else Some(words[0])
  }

  lemma {:induction false} IndexOfFirst(a: string, c: char, b: string)
    requires c !in a
    ensures IndexOf(a + [c] + b, c) == |a|
  {
    if a == "" {
      assert a + [c] + b == [c] + b;
    } else {
      assert (a + [c] + b)[1..] == a[1..] + [c] + b;
      IndexOfFirst(a[1..], c, b);
    }
  }

  /** A user agent of the usual form gives its version, whatever follows. */
  lemma VersionRecovered(name: string, version: string, tail: string)
    requires '/' !in name && IsWord(version) && (tail == "" || IsSpace(tail[0]))
    ensures ServerVersion(name + "/" + (version + tail)) == Some(version)
  {
    var text := name + "/" + (version + tail);
    IndexOfFirst(name, '/', version + tail);
    assert text == name + ['/'] + (version + tail) && text[|name| + 1..] == version + tail;
    FirstWord(version, tail);
  }

  /** There is no version exactly if there is no slash or nothing but white space after the first one. */
  lemma NoVersionIff(userAgent: string)
    ensures ServerVersion(userAgent).None? <==>
              '/' !in userAgent || exists i: nat :: i < |userAgent| && userAgent[i] == '/' && '/' !in userAgent[..i]
                                                    && forall k | i < k < |userAgent| :: IsSpace(userAgent[k])
  {
    IndexOfLeast(userAgent, '/');
    var i := IndexOf(userAgent, '/');
    if i < |userAgent| {
      NoWordsIff(userAgent[i + 1..]);
      assert forall k | i < k < |userAgent| :: userAgent[k] == userAgent[i + 1..][k - i - 1];
    }
  }

  lemma {:induction false} IndexOfLeast(text: string, c: char)
    ensures c !in text[..IndexOf(text, c)]
  {
    if text != "" && text[0] != c {
      IndexOfLeast(text[1..], c);
      assert text[..IndexOf(text, c)] == [text[0]] + text[1..][..IndexOf(text[1..], c)];
    }
  }

  function TimeOut(endpoint: string): IoError {
    IoError(TimedOut, "timed out waiting for initialize response from `" + endpoint + "`")
  }

  /** What the handshake keeps or refuses of a message it is not waiting for. */
  method Buffer(m: Message) returns (events: seq<AppServerEvent>, refusals: seq<Write>)
    ensures events == Decode(m) && refusals == Rejection(m)
  {
    events, refusals := [], [];
    match m
    case NotificationMessage(Some(notification)) => events := [ServerNotification(notification)];
    case RequestMessage(_, _, Some(request)) => events := [ServerRequest(request)];
    case RequestMessage(id, name, None) => refusals := [Unsupported(id, name)];
    case _ =>
  }

  lemma NoEvents(m: Message, i: Incoming)
    requires m == i.message && !Undecided(i)
    ensures Decode(m) == []
  {
  }

  /** The loop: everything before the deciding message becomes an event, is refused or is ignored, once and in order. */
  method AwaitInitialize(endpoint: string, incoming: seq<Incoming>)
      returns (events: seq<AppServerEvent>, refusals: seq<Write>, n: nat, verdict: Verdict)
    ensures n <= |incoming| && forall i | 0 <= i < n :: Undecided(incoming[i])
    ensures verdict.Wait? <==> n == |incoming|
    ensures n < |incoming| ==> (verdict.Accept? <==> Accepts(incoming[n].message))
    ensures n < |incoming| && verdict.GiveUp? ==> FailsWith(endpoint, incoming[n], verdict.error)
    ensures events == Decoded(Messages(incoming[..n]))
    ensures refusals
         == Rejections(Messages(incoming[..n])) + if n < |incoming| then Rejection(incoming[n].message) else []
  {
    n, events, refusals, verdict := 0, [], [], Wait;
    while n < |incoming|
      invariant n <= |incoming| && verdict == Wait
      invariant forall i | 0 <= i < n :: Undecided(incoming[i])
      invariant events == Decoded(Messages(incoming[..n]))
      invariant refusals == Rejections(Messages(incoming[..n]))
    {
      MessagesTake(incoming, n);
      var newEvents, newRefusals := Buffer(incoming[n].message);
      events, refusals := events + newEvents, refusals + newRefusals;
      verdict := Judge(endpoint, incoming[n]);
      if !verdict.Wait? {
        NoEvents(incoming[n].message, incoming[n]);
        return;
      }
      n := n + 1;
    }
  }

  /** What the accepting response says about the server; `userAgent` looks that field up in its result. */
  function VersionFrom(userAgent: string -> Option<string>, result: string): Option<string> {
    match userAgent(result) case Some(text) => ServerVersion(text) case None => None
  }

  /**
   `incoming` holds what arrives before the time limit; the first message that decides does so, whatever came before it.
  */
  method InitializeRemoteConnection(endpoint: string, params: string, userAgent: string -> Option<string>,
                                    request: WriteResult, incoming: seq<Incoming>, notification: WriteResult)
      returns (outcome: Outcome, writes: seq<Write>, n: nat)
    ensures n <= |incoming| && forall i | 0 <= i < n :: Undecided(incoming[i])
    ensures request.WriteFailed? ==>
              && n == 0 && outcome == Failed(IoError(Other, request.reason))
              && writes == [WroteRequest("initialize", params)]
    ensures request.WriteOk? && n == |incoming| ==>
              && outcome == Failed(IoError(
                    TimedOut, "timed out waiting for initialize response from `" + endpoint + "`"))
              && writes == [WroteRequest("initialize", params)] + Rejections(Messages(incoming))
    ensures request.WriteOk? && n < |incoming| && !Accepts(incoming[n].message) ==>
              && outcome.Failed? && FailsWith(endpoint, incoming[n], outcome.error)
              && writes == [WroteRequest("initialize", params)] + Rejections(Messages(incoming[..n + 1]))
    ensures request.WriteOk? && n < |incoming| && Accepts(incoming[n].message) ==>
              && writes == [WroteRequest("initialize", params)] + Rejections(Messages(incoming[..n]))
                           + [WroteNotification("initialized")]
              && outcome == (if notification.WriteFailed? then Failed(IoError(Other, notification.reason))
                             else Initialized(Decoded(Messages(incoming[..n])),
                                              VersionFrom(userAgent, incoming[n].message.result)))
  {
    n, writes := 0, [WroteRequest("initialize", params)];
    if request.WriteFailed? {
      return Failed(IoError(Other, request.reason)), writes, n;
    }
    var events, refusals, verdict;
    events, refusals, n, verdict := AwaitInitialize(endpoint, incoming);
    writes := writes + refusals;
    match verdict
    case Wait =>
      assert incoming[..n] == incoming;
      outcome := Failed(TimeOut(endpoint));
    case Accept =>
      writes := writes + [WroteNotification("initialized")];
      var version := VersionFrom(userAgent, incoming[n].message.result);
      outcome := if notification.WriteFailed? then Failed(IoError(Other, notification.reason))
                 else Initialized(events, version);
    case GiveUp(error) =>
      MessagesTake(incoming, n);
      outcome := Failed(error);
  }

  lemma MessagesTake(incoming: seq<Incoming>, n: nat)
    requires n < |incoming|
    ensures Decoded(Messages(incoming[..n + 1])) == Decoded(Messages(incoming[..n])) + Decode(incoming[n].message)
    ensures Rejections(Messages(incoming[..n + 1])) == Rejections(Messages(incoming[..n]))
              + Rejection(incoming[n].message)
  {
    var ms := Messages(incoming[..n + 1]);
    assert ms[..n] == Messages(incoming[..n]) && ms[n] == incoming[n].message;
  }

  // ---------------------------------------------------------------- worker

  /** No two waiters share a ticket. */
  ghost predicate Distinct(pending: map<string, nat>) {
    forall a, b | a in pending && b in pending && pending[a] == pending[b] :: a == b
  }

  lemma TicketsDistinct(s: State)
    requires Tickets(s)
    ensures Distinct(s.pending) && forall id | id in s.pending :: s.pending[id] < |s.replies|
  {
    forall a, b | a in s.pending && b in s.pending && s.pending[a] == s.pending[b] ensures a == b {
      assert s.commands[s.pending[a]].id == a && s.commands[s.pending[b]].id == b;
    }
  }

  /** So taking one waiter out of the table takes out exactly its ticket. */
  lemma TableWithout(table: map<string, nat>, id: string)
    requires Distinct(table) && id in table
    ensures forall i :: i in (table - {id}).Values <==> i in table.Values && i != table[id]
  {
    var rest := table - {id};
    forall i | i in table.Values && i != table[id] ensures i in rest.Values {
      var k :| k in table && table[k] == i;
      assert rest[k] == i;
    }
    forall i | i in rest.Values ensures i in table.Values && i != table[id] {
      var k :| k in rest && rest[k] == i;
      assert table[k] == i;
    }
  }

  /** The waiters of this table have been answered. */
  ghost predicate Drained(pending: map<string, nat>, table: map<string, nat>, reply: Reply, before: seq<seq<Reply>>,
                          replies: seq<seq<Reply>>)
  {
    && |replies| == |before|
    && forall i | 0 <= i < |replies| ::
         replies[i] == if i in pending.Values && i !in table.Values then before[i] + [reply] else before[i]
  }

  lemma DrainOne(pending: map<string, nat>, table: map<string, nat>, reply: Reply, before: seq<seq<Reply>>,
                 replies: seq<seq<Reply>>, id: string)
    requires Distinct(table) && id in table && table[id] in pending.Values && table[id] < |before|
    requires Drained(pending, table, reply, before, replies)
    ensures Drained(pending, table - {id}, reply, before, replies[table[id] := replies[table[id]] + [reply]])
  {
    var rest, t := table - {id}, table[id];
    var replies' := replies[t := replies[t] + [reply]];
    TableWithout(table, id);
    assert t in table.Values;
    forall i | 0 <= i < |replies'|
      ensures replies'[i] == if i in pending.Values && i !in rest.Values then before[i] + [reply] else before[i]
    {
      assert i in rest.Values <==> i in table.Values && i != t;
    }
  }

  /** Answer every waiter, taking them out of the table in whatever order. */
  method AnswerTable(pending: map<string, nat>, reply: Reply, replies: seq<seq<Reply>>)
      returns (answered: seq<seq<Reply>>)
    requires Distinct(pending) && forall id | id in pending :: pending[id] < |replies|
    ensures Drained(pending, map[], reply, replies, answered)
  {
    var table := pending;
    answered := replies;
    while table != map[]
      invariant forall id | id in table :: id in pending && table[id] == pending[id]
      invariant Drained(pending, table, reply, replies, answered)
      decreases |table|
    {
      var id :| id in table;
      DrainOne(pending, table, reply, replies, answered, id);
      answered := answered[table[id] := answered[table[id]] + [reply]];
      table := table - {id};
    }
  }

  /** After the loop: every waiter gets the error the worker leaves with, and nobody else gets anything. */
  method AnswerWaiters(ghost s: State, error: Option<IoError>, pendingRequests: map<string, nat>,
                       replies: seq<seq<Reply>>)
      returns (answered: seq<seq<Reply>>)
    requires Tickets(s) && pendingRequests == s.pending && replies == s.replies
    ensures answered == Finish(s, error).replies
  {
    TicketsDistinct(s);
    answered := AnswerTable(pendingRequests, IoFailed(if error.Some? then error.value else CHANNEL_CLOSED), replies);
  }

  /** The spawned task: its pending-request table, and the channels and connection it writes to. */
  class RemoteWorker {
    const endpoint: string
    var pendingRequests: map<string, nat>
    var exit: Exit
    var consumerOpen: bool
    var replies: seq<seq<Reply>>
    var writes: seq<Write>
    var events: seq<AppServerEvent>
    ghost var commands: seq<Command>
    ghost var registeredAt: seq<nat>
    ghost var messages: seq<Message>

    ghost function View(): State
      reads this
    {
      State(endpoint, pendingRequests, exit, consumerOpen, commands, registeredAt, replies, messages, writes, events)
    }

    constructor (endpoint: string)
      ensures View() == Connected(endpoint) && Tickets(View())
    {
      this.endpoint := endpoint;
      pendingRequests, exit, consumerOpen := map[], Running, true;
      replies, writes, events := [], [], [];
      commands, registeredAt, messages := [], [], [];
    }

    method Reply(ticket: nat, reply: Reply)
      requires ticket < |replies|
      modifies this`replies
      ensures View() == SendReply(old(View()), ticket, reply)
    {
      replies := replies[ticket := replies[ticket] + [reply]];
    }

    /** After the loop: every waiter gets the error the worker leaves with. */
    method DrainPending(error: Option<IoError>)
      requires Tickets(View())
      modifies this`replies, this`pendingRequests, this`exit
      ensures View() == Finish(old(View()), error) && Tickets(View())
    {
      FinishTickets(View(), error);
      replies := AnswerWaiters(View(), error, pendingRequests, replies);
      exit, pendingRequests := Ended(error), map[];
    }

    method Leave(error: IoError)
      requires Tickets(View())
      modifies this
      ensures View() == Disconnect(old(View()), error) && Tickets(View())
    {
      if consumerOpen {
        events := events + [Disconnected(error.message)];
      }
      DrainPending(Some(error));
    }

    method DeliverEvent(event: AppServerEvent)
      requires Tickets(View())
      modifies this
      ensures View() == Deliver(old(View()), event) && Tickets(View())
    {
      if consumerOpen {
        events := events + [event];
      } else {
        DrainPending(None);
      }
    }

    method TakeRequest(ticket: nat, id: string, body: string, write: WriteResult)
      requires ticket < |replies| && View().exit == Running
      requires id !in pendingRequests && write.WriteFailed? ==>
                 Tickets(SendReply(View(), ticket, IoFailed(IoError(Other, write.reason))))
      modifies this
      ensures View() == RequestCommand(old(View()), ticket, id, body, write)
    {
      if id in pendingRequests {
        Reply(ticket, IoFailed(DuplicateId(id)));
        return;
      }
      ghost var before := View();
      pendingRequests := pendingRequests[id := ticket];
      writes := writes + [WroteRequest(id, body)];
      if write.WriteFailed? {
        var error := BrokenWrite(endpoint, write.reason);
        pendingRequests := pendingRequests - {id};
        assert pendingRequests == before.pending;
        Reply(ticket, IoFailed(IoError(Other, write.reason)));
        Leave(error);
      }
    }

    /** The command arm of the loop. */
    method OnCommand(command: Command, write: WriteResult)
      requires Tickets(View()) && exit == Running
      modifies this
      ensures View() == TakeCommand(old(View()), command, write) && Tickets(View())
    {
      TakeCommandTickets(View(), command, write);
      ghost var before := View();
      var ticket := |replies|;
      commands, registeredAt, replies := commands + [command], registeredAt + [|messages|], replies + [[]];
      match command
      case Request(id, body) =>
        if id !in pendingRequests && write.WriteFailed? {
          AnsweredTicket(before, command, IoFailed(IoError(Other, write.reason)));
        }
        TakeRequest(ticket, id, body, write);
      case Shutdown =>
        AnsweredTicket(before, command, Written(write));
        Reply(ticket, Written(write));
        DrainPending(None);
      case _ =>
        writes := writes + [OtherWrite(command)];
        Reply(ticket, Written(write));
    }

    /** A response or an error goes to its waiter, if there is one. */
    method ResolvePending(id: string, reply: Reply)
      requires Tickets(View()) && exit == Running
      modifies this
      ensures View() == Resolve(old(View()), id, reply) && Tickets(View())
    {
      ResolveTickets(View(), id, reply);
      if id in pendingRequests {
        Reply(pendingRequests[id], reply);
        pendingRequests := pendingRequests - {id};
      }
    }

    /** The message arm of the loop. */
    method OnMessage(m: Message, write: WriteResult)
      requires Tickets(View()) && exit == Running
      modifies this
      ensures View() == TakeMessage(old(View()), m, write) && Tickets(View())
    {
      messages := messages + [m];
      match m
      case Response(id, result) => ResolvePending(id, Answered(result));
      case Error(id, error) => ResolvePending(id, Refused(error));
      case NotificationMessage(Some(n)) => DeliverEvent(ServerNotification(n));
      case NotificationMessage(None) =>
      case RequestMessage(_, _, Some(r)) => DeliverEvent(ServerRequest(r));
      case RequestMessage(id, name, None) =>
        writes := writes + [Unsupported(id, name)];
        if write.WriteFailed? {
          Leave(BrokenWrite(endpoint, write.reason));
        }
      case Ignored =>
      case _ => Leave(Fatal(endpoint, m).value);
    }

    /** One turn of the worker's loop, or the consumer leaving. */
    method Advance(action: Action)
      requires Tickets(View())
      modifies this
      ensures View() == Step(old(View()), action) && Tickets(View())
    {
      if action.DropConsumer? {
        consumerOpen := false;
      } else if exit == Running {
        match action
        case OnCommand(command, write) => OnCommand(command, write);
        case OnMessage(m, write) => OnMessage(m, write);
        case CommandsClosed => DrainPending(None);
      }
    }
  }

  // ---------------------------------------------------------------- what the client reads

  /**
   A connected client as its reader sees it: the events of the handshake not yet read, the worker with everything it
   has put into the event channel, how much of that was taken out, and what `next_event` has yielded.
  */
  datatype Session = Session(
    pendingEvents: seq<AppServerEvent>, worker: State, taken: nat, yielded: seq<AppServerEvent>)

  function Opened(endpoint: string, handshake: seq<AppServerEvent>): Session {
    Session(handshake, Connected(endpoint), 0, [])
  }

  /** The event `next_event` gives; with none there it waits, or reports the end once the worker is gone. */
  function Upcoming(c: Session): Option<AppServerEvent> {
    if c.pendingEvents != [] then Some(c.pendingEvents[0])
    else if c.taken < |c.worker.events| then Some(c.worker.events[c.taken])
    else None
  }

  function ReadNext(c: Session): Session {
    if c.pendingEvents != [] then
      c.(pendingEvents := c.pendingEvents[1..], yielded := c.yielded + [c.pendingEvents[0]])
    else if c.taken < |c.worker.events| then
      c.(taken := c.taken + 1, yielded := c.yielded + [c.worker.events[c.taken]])
    else c
  }

  datatype SessionStep = Work(action: Action) | Read

  function SessionNext(c: Session, step: SessionStep): Session {
    match step
    case Work(action) => c.(worker := Step(c.worker, action))
    case Read => ReadNext(c)
  }

  function SessionRun(c: Session, steps: seq<SessionStep>): Session {
    if steps == [] then c else SessionNext(SessionRun(c, steps[..|steps| - 1]), steps[|steps| - 1])
  }

  function WorkOf(steps: seq<SessionStep>): seq<Action> {
    if steps == [] then []
    else WorkOf(steps[..|steps| - 1]) + match steps[|steps| - 1] case Work(action) => [action] case Read => []
  }

  /** What is still to be read. */
  function Left(c: Session): seq<AppServerEvent>
    requires c.taken <= |c.worker.events|
  {
    c.pendingEvents + c.worker.events[c.taken..]
  }

  /** What was read and what is left is the handshake's events and then all of the worker's. */
  ghost predicate Conserved(c: Session, handshake: seq<AppServerEvent>) {
    && c.taken <= |c.worker.events|
    && (c.pendingEvents != [] ==> c.taken == 0)
    && c.yielded + Left(c) == handshake + c.worker.events
  }

  lemma EventsGrow(s: State, action: Action)
    ensures s.events <= Step(s, action).events
  {
    if s.exit == Running && action.OnMessage? {
      MessageAdds(s, action.message, action.write);
    }
  }

  lemma WorkConserved(c: Session, action: Action, handshake: seq<AppServerEvent>)
    requires Conserved(c, handshake)
    ensures Conserved(SessionNext(c, Work(action)), handshake)
  {
    EventsGrow(c.worker, action);
    var events := Step(c.worker, action).events;
    SentMore(c.yielded, c.pendingEvents, c.worker.events, c.taken, handshake, events[|c.worker.events|..]);
    assert events == c.worker.events + events[|c.worker.events|..];
  }

  /** More at the end of the channel is more at the end of what is left. */
  lemma SentMore<T>(yielded: seq<T>, pending: seq<T>, sent: seq<T>, taken: nat, handshake: seq<T>, more: seq<T>)
    requires taken <= |sent| && yielded + (pending + sent[taken..]) == handshake + sent
    ensures yielded + (pending + (sent + more)[taken..]) == handshake + (sent + more)
  {
    assert (sent + more)[taken..] == sent[taken..] + more;
    assert yielded + (pending + (sent[taken..] + more)) == (yielded + (pending + sent[taken..])) + more;
    assert (handshake + sent) + more == handshake + (sent + more);
  }

  lemma ReadConserved(c: Session, handshake: seq<AppServerEvent>)
    requires Conserved(c, handshake)
    ensures Conserved(ReadNext(c), handshake)
    ensures Upcoming(c) == if Left(c) == [] then None else Some(Left(c)[0])
    ensures ReadNext(c).yielded == c.yielded + (if Left(c) == [] then [] else [Left(c)[0]])
  {
    if Left(c) != [] {
      assert Left(c) == [Left(c)[0]] + Left(ReadNext(c));
      assert c.yielded + Left(c) == (c.yielded + [Left(c)[0]]) + Left(ReadNext(c));
    }
  }

  lemma {:induction false} SessionConserved(endpoint: string, handshake: seq<AppServerEvent>, steps: seq<SessionStep>)
    ensures var c := SessionRun(Opened(endpoint, handshake), steps);
            c.worker == Run(Connected(endpoint), WorkOf(steps)) && Conserved(c, handshake)
  {
    var c0 := Opened(endpoint, handshake);
    if steps == [] {
      assert [] + (handshake + []) == handshake + [];
    } else {
      var front, last := steps[..|steps| - 1], steps[|steps| - 1];
      SessionConserved(endpoint, handshake, front);
      match last
      case Work(action) =>
        WorkConserved(SessionRun(c0, front), action, handshake);
        assert WorkOf(steps)[..|WorkOf(steps)| - 1] == WorkOf(front);
      case Read =>
        ReadConserved(SessionRun(c0, front), handshake);
        assert WorkOf(steps) == WorkOf(front);
    }
  }

  /** The handshake ended well, on message n. */
  ghost predicate Accepted(incoming: seq<Incoming>, n: nat) {
    n < |incoming| && Accepts(incoming[n].message) && forall i | 0 <= i < n :: Undecided(incoming[i])
  }

  /**
   From the first message after the initialize request to the end of the connection, in whatever way reading and work
   interleave: what `next_event` has yielded, followed by what is left, is the decodable notifications and requests
   of all messages, those before the accepting response and those the worker got, and then the disconnection. Nothing
   is lost, doubled or reordered. A reader whose channel was closed early gets a prefix.
  */
  lemma WholeStream(endpoint: string, incoming: seq<Incoming>, n: nat, steps: seq<SessionStep>)
    requires Accepted(incoming, n)
    ensures var c := SessionRun(Opened(endpoint, Decoded(Messages(incoming[..n]))), steps);
            var stream := Decoded(Messages(incoming[..n]) + c.worker.messages) + Farewell(c.worker.exit);
            && c.taken <= |c.worker.events|
            && c.yielded + Left(c) <= stream
            && (c.worker.consumerOpen ==> c.yielded + Left(c) == stream)
            && (Upcoming(c).None? <==> Left(c) == [])
  {
    var before := Messages(incoming[..n]);
    var c := SessionRun(Opened(endpoint, Decoded(before)), steps);
    SessionConserved(endpoint, Decoded(before), steps);
    EventsRun(endpoint, WorkOf(steps));
    DecodedConcat(before, c.worker.messages);
    Prefixed(Decoded(before), c.worker.events, Decoded(c.worker.messages), Farewell(c.worker.exit));
  }

  lemma Prefixed<T>(p: seq<T>, events: seq<T>, decoded: seq<T>, end: seq<T>)
    ensures events <= decoded + end ==> p + events <= (p + decoded) + end
    ensures events == decoded + end ==> p + events == (p + decoded) + end
  {
    assert p + (decoded + end) == (p + decoded) + end;
  }

  /** The client object: the events of the handshake and the receiving end of the worker's channel. */
  class RemoteAppServerClient {
    var pendingEvents: seq<AppServerEvent>
    const serverVersion: Option<string>
    const worker: RemoteWorker
    var taken: nat
    ghost var yielded: seq<AppServerEvent>

    ghost function Value(): Session
      reads this, worker
    {
      Session(pendingEvents, worker.View(), taken, yielded)
    }

    constructor (endpoint: string, handshake: seq<AppServerEvent>, serverVersion: Option<string>)
      ensures Value() == Opened(endpoint, handshake) && this.serverVersion == serverVersion
      ensures fresh(worker) && Tickets(worker.View())
    {
      this.serverVersion := serverVersion;
      pendingEvents, taken, yielded := handshake, 0, [];
      worker := new RemoteWorker(endpoint);
    }

    /** Takes the oldest event, the handshake's first; `None` while there is none. */
    method NextEvent() returns (event: Option<AppServerEvent>)
      modifies this
      ensures Value() == ReadNext(old(Value())) && event == Upcoming(old(Value()))
    {
      if pendingEvents != [] {
        event := Some(pendingEvents[0]);
        pendingEvents := pendingEvents[1..];
      } else if taken < |worker.events| {
        event := Some(worker.events[taken]);
        taken := taken + 1;
      } else {
        return None;
      }
      yielded := yielded + [event.value];
    }
  }

  /**
   A client exists exactly if the handshake succeeded, and it starts with the handshake's events and a fresh worker.
  */
  method ConnectWithStream(endpoint: string, params: string, userAgent: string -> Option<string>,
                           request: WriteResult, incoming: seq<Incoming>, notification: WriteResult)
      returns (client: RemoteAppServerClient?, outcome: Outcome, n: nat)
    ensures client != null <==> request.WriteOk? && notification.WriteOk? && Accepted(incoming, n)
    ensures client != null ==>
              && fresh(client) && fresh(client.worker) && Tickets(client.worker.View())
              && client.Value() == Opened(endpoint, Decoded(Messages(incoming[..n])))
              && client.serverVersion == VersionFrom(userAgent, incoming[n].message.result)
  {
    var writes;
    client := null;
    outcome, writes, n := InitializeRemoteConnection(endpoint, params, userAgent, request, incoming, notification);
    if outcome.Initialized? {
      client := new RemoteAppServerClient(endpoint, outcome.events, outcome.serverVersion);
    }
  }
}
