/**
 The in-process event forwarder and its worker (codex-rs/app-server-client/src/lib.rs).

 The worker and the consumer share a bounded channel. A step is one atomic action of either side: the
 worker takes the next runtime event, the worker resumes the send it is in the middle of, the consumer
 receives, the consumer drops its receiver. A run is any sequence of steps, so every schedule is covered.
*/
module EventForwarder {
  import opened Common

  // ---------------------------------------------------------------- events

  datatype NotificationKind =
    | TurnCompleted | ThreadSettingsUpdated | ItemCompleted | AgentMessageDelta | PlanDelta
    | ReasoningSummaryTextDelta | ReasoningTextDelta
    | BestEffort(name: string)

  datatype ServerRequest = AuthTokensRefresh(id: string) | ClientRequest(id: string, name: string)

  datatype ServerEvent =
    | Lagged(skipped: nat)
    | Notification(kind: NotificationKind, payload: string)
    | Request(request: ServerRequest)

  /** Transcript and completion notifications are lossless; everything else may be dropped. */
  predicate RequiresDelivery(e: ServerEvent) {
    e.Notification? && !e.kind.BestEffort?
  }

  /** A channel slot; `marker` tells the forwarder's own lag markers from `Lagged` events of the runtime. */
  datatype Slot = Slot(event: ServerEvent, marker: bool)

  datatype Failure = Failure(request: ServerRequest, code: int)

  // ---------------------------------------------------------------- the shared state

  /** Where the worker stands: between events, or before a channel operation for the event it holds. */
  datatype Pc =
    | Idle
    | SendingMarker(event: ServerEvent)
    | SendingEvent(event: ServerEvent)
    | TryingEvent(event: ServerEvent)

  /** The forwarder's variables, the channel, and a record of what passed through. */
  datatype State = State(
    capacity: nat,
    usizeMax: nat,
    queue: seq<Slot>,
    receiverOpen: bool,
    skippedEvents: nat,
    streamEnabled: bool,
    pc: Pc,
    record: Record)

  datatype Record = Record(
    offered: seq<ServerEvent>,     // taken from the runtime
    forwarded: seq<ServerEvent>,   // handed to the forwarder
    sent: seq<Slot>,               // put into the channel
    received: seq<Slot>,           // taken out by the consumer
    failed: seq<Failure>,          // answered with an error
    lost: seq<ServerEvent>,        // held when the stream was disabled
    saturated: nat,                // skips not counted because the counter was at its maximum
    forwardedAtDrop: nat)          // how many had been forwarded when the receiver was dropped

  function Initial(capacity: nat, usizeMax: nat): State {
    State(capacity, usizeMax, [], true, 0, true, Idle, Record([], [], [], [], [], [], 0, 0))
  }

  datatype Action = TakeEvent(event: ServerEvent) | Resume | Receive | DropReceiver

  // ---------------------------------------------------------------- steps

  function Enqueue(s: State, slot: Slot): State {
    s.(queue := s.queue + [slot], record := s.record.(sent := s.record.sent + [slot]))
  }

  function SaturatingIncrement(s: State): State {
    if s.skippedEvents < s.usizeMax then s.(skippedEvents := s.skippedEvents + 1)
    else s.(record := s.record.(saturated := s.record.saturated + 1))
  }

  /** A full queue: count the event as skipped, and answer it if it is a request. */
  function DropEvent(s: State, e: ServerEvent): State {
    var s1 := SaturatingIncrement(s);
    var failed := if e.Request? then s1.record.failed + [Failure(e.request, -32001)] else s1.record.failed;
    s1.(pc := Idle, record := s1.record.(failed := failed))
  }

  /** A closed channel: stop reading runtime events. */
  function DisableStream(s: State, e: ServerEvent): State {
    s.(pc := Idle, streamEnabled := false, record := s.record.(lost := s.record.lost + [e]))
  }

  function SendMarker(s: State): State {
    Enqueue(s, Slot(Lagged(s.skippedEvents), true)).(skippedEvents := 0)
  }

  /** `forward_in_process_event` up to its first channel operation on the event itself. */
  function Forward(s: State, e: ServerEvent): State {
    var s1 := s.(record := s.record.(forwarded := s.record.forwarded + [e]));
    if s1.skippedEvents > 0 then
      if RequiresDelivery(e) then s1.(pc := SendingMarker(e))
      else if !s1.receiverOpen then DisableStream(s1, e)
      else if |s1.queue| >= s1.capacity then DropEvent(s1, e)
      else SendMarker(s1).(pc := TryingEvent(e))
    else s1.(pc := if RequiresDelivery(e) then SendingEvent(e) else TryingEvent(e))
  }

  function Take(s: State, e: ServerEvent): State {
    var s1 := s.(record := s.record.(offered := s.record.offered + [e]));
    if e.Request? && e.request.AuthTokensRefresh? then
      s1.(record := s1.record.(failed := s1.record.failed + [Failure(e.request, -32000)]))
    else Forward(s1, e)
  }

  function Continue(s: State): State {
    match s.pc
    case Idle => s
    case SendingMarker(e) =>
      if !s.receiverOpen then DisableStream(s, e)
      else if |s.queue| >= s.capacity then s
      else SendMarker(s).(pc := SendingEvent(e))
    case SendingEvent(e) =>
      if !s.receiverOpen then DisableStream(s, e)
      else if |s.queue| >= s.capacity then s
      else Enqueue(s, Slot(e, false)).(pc := Idle)
    case TryingEvent(e) =>
      if !s.receiverOpen then DisableStream(s, e)
      else if |s.queue| >= s.capacity then DropEvent(s, e)
      else Enqueue(s, Slot(e, false)).(pc := Idle)
  }

  function Step(s: State, action: Action): State {
    match action
    case TakeEvent(e) => if s.streamEnabled && s.pc.Idle? then Take(s, e) else s
    case Resume => Continue(s)
    case Receive =>
      if s.receiverOpen && s.queue != [] then
        s.(queue := s.queue[1..], record := s.record.(received := s.record.received + [s.queue[0]]))
      else s
    case DropReceiver =>
      if s.receiverOpen then
        s.(receiverOpen := false, record := s.record.(forwardedAtDrop := |s.record.forwarded|))
      else s
  }

  function Run(s: State, actions: seq<Action>): State {
    if actions == [] then s else Step(Run(s, actions[..|actions| - 1]), actions[|actions| - 1])
  }

  // ---------------------------------------------------------------- gap accounting

  function Weight(slot: Slot): nat {
    if slot.marker then (if slot.event.Lagged? then slot.event.skipped else 0) else 1
  }

  /** Delivered events plus the counts of the forwarder's own markers. */
  function Accounted(slots: seq<Slot>): nat {
    if slots == [] then 0 else Accounted(slots[..|slots| - 1]) + Weight(slots[|slots| - 1])
  }

  function Held(s: State): seq<ServerEvent> {
    match s.pc case Idle => [] case SendingMarker(e) => [e] case SendingEvent(e) => [e] case TryingEvent(e) => [e]
  }

  ghost predicate Accounting(s: State) {
    && Accounted(s.record.sent) + s.skippedEvents + s.record.saturated + |Held(s)| + |s.record.lost|
          == |s.record.forwarded|
    && s.skippedEvents <= s.usizeMax
    && (s.streamEnabled <==> s.record.lost == []) && |s.record.lost| <= 1
    && (!s.streamEnabled ==> s.pc.Idle?)
    && (s.pc.SendingEvent? || s.pc.TryingEvent? ==> s.skippedEvents == 0)
    && (s.pc.SendingMarker? ==> s.skippedEvents > 0)
    && (Held(s) != [] ==> s.record.forwarded != [] && s.record.forwarded[|s.record.forwarded| - 1] == Held(s)[0])
    && (s.record.saturated > 0 ==> |s.record.forwarded| > s.usizeMax)
  }

  lemma AccountedOne(slots: seq<Slot>, slot: Slot)
    ensures Accounted(slots + [slot]) == Accounted(slots) + Weight(slot)
  {
    assert (slots + [slot])[..|slots|] == slots;
  }

  lemma ForwardAccounting(s: State, e: ServerEvent)
    requires Accounting(s) && s.streamEnabled && s.pc.Idle?
    ensures Accounting(Forward(s, e))
  {
    AccountedOne(s.record.sent, Slot(Lagged(s.skippedEvents), true));
    var s1 := s.(record := s.record.(forwarded := s.record.forwarded + [e]));
    if s.skippedEvents > 0 && !RequiresDelivery(e) && s.receiverOpen && |s.queue| >= s.capacity {
      DropAccounting(s1, e);
    }
  }

  lemma DropAccounting(s: State, e: ServerEvent)
    requires Accounting(s.(pc := TryingEvent(e)))
              || (s.pc.Idle? && s.skippedEvents > 0 && Accounting(s.(pc := SendingMarker(e))))
    ensures Accounting(DropEvent(s, e))
  {
  }

  lemma SendAccounting(s: State)
    requires Accounting(s) && (s.pc.SendingEvent? || s.pc.TryingEvent?) && s.receiverOpen && |s.queue| < s.capacity
    ensures Accounting(Continue(s))
  {
    AccountedOne(s.record.sent, Slot(s.pc.event, false));
  }

  lemma MarkerAccounting(s: State)
    requires Accounting(s) && s.pc.SendingMarker? && s.receiverOpen && |s.queue| < s.capacity
    ensures Accounting(Continue(s))
  {
    AccountedOne(s.record.sent, Slot(Lagged(s.skippedEvents), true));
  }

  lemma ContinueAccounting(s: State)
    requires Accounting(s)
    ensures Accounting(Continue(s))
  {
    if !s.pc.Idle? && s.receiverOpen {
      if |s.queue| < s.capacity {
        if s.pc.SendingMarker? {
          MarkerAccounting(s);
        } else {
          SendAccounting(s);
        }
      } else if s.pc.TryingEvent? {
        DropAccounting(s, s.pc.event);
      }
    }
  }

  lemma AccountingStep(s: State, action: Action)
    requires Accounting(s)
    ensures Accounting(Step(s, action))
  {
    match action
    case TakeEvent(e) =>
      if s.streamEnabled && s.pc.Idle? && !(e.Request? && e.request.AuthTokensRefresh?) {
        ForwardAccounting(s.(record := s.record.(offered := s.record.offered + [e])), e);
      }
    case Resume => ContinueAccounting(s);
    case _ =>
  }

  // ---------------------------------------------------------------- what moves in one step

  /** Events of the runtime in the channel, in order, without the forwarder's markers. */
  function Payload(slots: seq<Slot>): seq<ServerEvent> {
    if slots == [] then []
    else Payload(slots[..|slots| - 1]) + if slots[|slots| - 1].marker then [] else [slots[|slots| - 1].event]
  }

  lemma PayloadOne(slots: seq<Slot>, slot: Slot)
    ensures Payload(slots + [slot]) == Payload(slots) + if slot.marker then [] else [slot.event]
  {
    assert (slots + [slot])[..|slots|] == slots;
  }

  /** What a step appends to the record, and the events it drops. */
  datatype Delta = Delta(
    offered: seq<ServerEvent>, forwarded: seq<ServerEvent>, sent: seq<Slot>, failed: seq<Failure>,
    dropped: seq<ServerEvent>, lost: seq<ServerEvent>)

  const NOTHING := Delta([], [], [], [], [], [])

  function Failures(dropped: seq<ServerEvent>): seq<Failure> {
    if dropped != [] && dropped[0].Request? then [Failure(dropped[0].request, -32001)] else []
  }

  function Marker(s: State): Slot {
    Slot(Lagged(s.skippedEvents), true)
  }

  function DeltaOf(s: State, action: Action): Delta {
    match action
    case TakeEvent(e) =>
      if !(s.streamEnabled && s.pc.Idle?) then NOTHING
      else if e.Request? && e.request.AuthTokensRefresh? then Delta([e], [], [], [Failure(e.request, -32000)], [], [])
      else if s.skippedEvents == 0 || RequiresDelivery(e) then Delta([e], [e], [], [], [], [])
      else if !s.receiverOpen then Delta([e], [e], [], [], [], [e])
      else if |s.queue| >= s.capacity then Delta([e], [e], [], Failures([e]), [e], [])
      else Delta([e], [e], [Marker(s)], [], [], [])
    case Resume =>
      if s.pc.Idle? then NOTHING
      else if !s.receiverOpen then NOTHING.(lost := [s.pc.event])
      else if |s.queue| < s.capacity then
        NOTHING.(sent := [if s.pc.SendingMarker? then Marker(s) else Slot(s.pc.event, false)])
      else if s.pc.TryingEvent? then NOTHING.(failed := Failures([s.pc.event]), dropped := [s.pc.event])
      else NOTHING
    case _ => NOTHING
  }

  ghost predicate Appends(r: Record, d: Delta, r': Record) {
    r'.offered == r.offered + d.offered && r'.forwarded == r.forwarded + d.forwarded && r'.sent == r.sent + d.sent
    && r'.failed == r.failed + d.failed && r'.lost == r.lost + d.lost
  }

  lemma StepAppends(s: State, action: Action)
    ensures Appends(s.record, DeltaOf(s, action), Step(s, action).record)
  {
    match action
    case TakeEvent(e) =>
    case Resume =>
    case _ =>
  }

  /** The tier of the held event decides how it is sent. */
  ghost predicate Tiered(s: State) {
    match s.pc
    case Idle => true
    case TryingEvent(e) => !RequiresDelivery(e)
    case SendingMarker(e) => RequiresDelivery(e)
    case SendingEvent(e) => RequiresDelivery(e)
  }

  /** The notifications whose loss would corrupt the transcript or leave a surface waiting, one by one. */
  predicate MustArrive(e: ServerEvent) {
    && e.Notification?
    && e.kind in {TurnCompleted, ThreadSettingsUpdated, ItemCompleted, AgentMessageDelta, PlanDelta,
                  ReasoningSummaryTextDelta, ReasoningTextDelta}
  }

  /** An event taken in is held, delivered, dropped or lost, and only best-effort events are dropped. */
  ghost predicate Balances(held: seq<ServerEvent>, d: Delta, held': seq<ServerEvent>) {
    && held + d.forwarded == Payload(d.sent) + d.dropped + d.lost + held' && |held + d.forwarded| <= 1
    && (forall e | e in d.dropped :: !MustArrive(e))
    && if d.forwarded == d.offered then d.failed == Failures(d.dropped)
       else d.forwarded == [] && d.dropped == [] && |d.offered| == 1
            && d.offered[0].Request? && d.offered[0].request.AuthTokensRefresh?
            && d.failed == [Failure(d.offered[0].request, -32000)]
  }

  lemma PayloadOfOne(slot: Slot)
    ensures Payload([slot]) == if slot.marker then [] else [slot.event]
  {
    PayloadOne([], slot);
    assert [] + [slot] == [slot];
  }

  lemma TakeBalances(s: State, e: ServerEvent)
    requires s.streamEnabled && s.pc.Idle?
    ensures Tiered(Take(s, e)) && Balances([], DeltaOf(s, TakeEvent(e)), Held(Take(s, e)))
  {
    PayloadOfOne(Marker(s));
  }

  lemma ResumeBalances(s: State)
    requires Tiered(s)
    ensures Tiered(Continue(s)) && Balances(Held(s), DeltaOf(s, Resume), Held(Continue(s)))
  {
    PayloadOfOne(Marker(s));
    if !s.pc.Idle? {
      PayloadOfOne(Slot(s.pc.event, false));
    }
  }

  lemma StepBalances(s: State, action: Action)
    requires Tiered(s)
    ensures Tiered(Step(s, action)) && Balances(Held(s), DeltaOf(s, action), Held(Step(s, action)))
  {
    match action
    case TakeEvent(e) =>
      if s.streamEnabled && s.pc.Idle? {
        TakeBalances(s, e);
      }
    case Resume => ResumeBalances(s);
    case _ =>
  }

  // ---------------------------------------------------------------- the index of a delivered event

  ghost predicate AllPlaced(r: Record) {
    forall i | 0 <= i < |r.sent| && !r.sent[i].marker ::
      Accounted(r.sent[..i]) < |r.forwarded| && r.forwarded[Accounted(r.sent[..i])] == r.sent[i].event
  }

  lemma PlacedExtend(r: Record, r': Record, slot: Slot)
    requires AllPlaced(r) && r.forwarded <= r'.forwarded && r'.sent == r.sent + [slot]
    requires !slot.marker ==> Accounted(r.sent) < |r'.forwarded| && r'.forwarded[Accounted(r.sent)] == slot.event
    ensures AllPlaced(r')
  {
    forall i | 0 <= i < |r'.sent| && !r'.sent[i].marker
      ensures Accounted(r'.sent[..i]) < |r'.forwarded| && r'.forwarded[Accounted(r'.sent[..i])] == r'.sent[i].event
    {
      assert r'.sent[..i] == r.sent[..i];
      assert i == |r.sent| ==> r.sent[..i] == r.sent;
    }
  }

  lemma PlacedStep(s: State, action: Action)
    requires Accounting(s) && AllPlaced(s.record) && Step(s, action).record.saturated == 0
    ensures AllPlaced(Step(s, action).record)
  {
    StepAppends(s, action);
    var d, r' := DeltaOf(s, action), Step(s, action).record;
    if d.sent != [] {
      assert d.sent == [d.sent[0]];
      PlacedExtend(s.record, r', d.sent[0]);
    } else {
      assert r'.sent == s.record.sent;
    }
  }

  // ---------------------------------------------------------------- the lossless tier

  lemma {:induction false} PayloadConcat(a: seq<Slot>, b: seq<Slot>)
    ensures Payload(a + b) == Payload(a) + Payload(b)
    decreases |b|
  {
    if b == [] {
      assert a + b == a;
    } else {
      assert (a + b)[..|a + b| - 1] == a + b[..|b| - 1];
      PayloadConcat(a, b[..|b| - 1]);
    }
  }

  ghost predicate Subsequence<T>(a: seq<T>, b: seq<T>)
    decreases |b|
  {
    a == [] || (b != [] && ((a[|a| - 1] == b[|b| - 1] && Subsequence(a[..|a| - 1], b[..|b| - 1]))
                            || Subsequence(a, b[..|b| - 1])))
  }

  lemma SubsequenceBoth<T>(a: seq<T>, b: seq<T>, x: T)
    requires Subsequence(a, b)
    ensures Subsequence(a + [x], b + [x])
  {
    assert (a + [x])[..|a|] == a && (b + [x])[..|b|] == b;
  }

  lemma {:induction false} SubsequenceFront<T>(a: seq<T>, b: seq<T>)
    requires a != [] && Subsequence(a, b)
    ensures Subsequence(a[..|a| - 1], b)
    decreases |b|
  {
    if !Subsequence(a[..|a| - 1], b[..|b| - 1]) {
      SubsequenceFront(a, b[..|b| - 1]);
    }
  }

  function Tier(events: seq<ServerEvent>): seq<ServerEvent> {
    Filter(MustArrive, events)
  }

  /** Every lossless event forwarded is in the channel, held, or lost with the stream; the rest is in order too. */
  ghost predicate Lossless(r: Record, held: seq<ServerEvent>) {
    Tier(Payload(r.sent)) + Tier(held) + Tier(r.lost) == Tier(r.forwarded)
        && Subsequence(Payload(r.sent) + held, r.forwarded)
  }

  lemma TierSplit(r: Record, d: Delta, r': Record)
    requires Appends(r, d, r')
    ensures Tier(Payload(r'.sent)) == Tier(Payload(r.sent)) + Tier(Payload(d.sent))
    ensures Tier(r'.lost) == Tier(r.lost) + Tier(d.lost) && Tier(r'.forwarded) == Tier(r.forwarded) + Tier(d.forwarded)
  {
    PayloadConcat(r.sent, d.sent);
    FilterConcat(MustArrive, Payload(r.sent), Payload(d.sent));
    FilterConcat(MustArrive, r.lost, d.lost);
    FilterConcat(MustArrive, r.forwarded, d.forwarded);
  }

  lemma FlowLengths(held: seq<ServerEvent>, d: Delta, held': seq<ServerEvent>)
    requires Balances(held, d, held')
    ensures |held| + |d.forwarded| == |Payload(d.sent)| + |d.dropped| + |d.lost| + |held'| <= 1
  {
    assert |held + d.forwarded| == |Payload(d.sent) + d.dropped + d.lost + held'|;
  }

  lemma TierMove(r: Record, held: seq<ServerEvent>, d: Delta, r': Record, held': seq<ServerEvent>)
    requires Appends(r, d, r') && Balances(held, d, held') && Lossless(r, held)
    requires r.lost != [] ==> held == d.forwarded == []
    ensures Tier(Payload(r'.sent)) + Tier(held') + Tier(r'.lost) == Tier(r'.forwarded)
  {
    TierSplit(r, d, r');
    FlowLengths(held, d, held');
    FlowTier(held, d, held');
    if r.lost == [] {
      assert held' == [] || d.lost == [];
      assert Tier(Payload(r.sent)) + Tier(held) == Tier(r.forwarded) && Tier(r'.lost) == Tier(d.lost);
      Regroup(Tier(Payload(r.sent)), Tier(held), Tier(d.forwarded), Tier(Payload(d.sent)), Tier(d.lost), Tier(held'));
    } else {
      assert Payload(d.sent) == d.lost == held' == [];
      assert Tier(r'.forwarded) == Tier(r.forwarded);
    }
  }

  lemma Regroup<T>(p: seq<T>, h: seq<T>, f: seq<T>, pd: seq<T>, dl: seq<T>, h': seq<T>)
    requires h + f == pd + dl + h' && (dl == [] || h' == [])
    ensures (p + h) + f == (p + pd) + h' + dl
  {
    assert (p + h) + f == p + (h + f);
  }

  lemma FlowTier(held: seq<ServerEvent>, d: Delta, held': seq<ServerEvent>)
    requires Balances(held, d, held')
    ensures Tier(held) + Tier(d.forwarded) == Tier(Payload(d.sent)) + Tier(d.lost) + Tier(held')
  {
    FilterConcat(MustArrive, held, d.forwarded);
    FilterConcat(MustArrive, Payload(d.sent) + d.dropped + d.lost, held');
    FilterConcat(MustArrive, Payload(d.sent) + d.dropped, d.lost);
    FilterConcat(MustArrive, Payload(d.sent), d.dropped);
    FilterNone(MustArrive, d.dropped);
  }

  lemma OrderMove(r: Record, held: seq<ServerEvent>, d: Delta, r': Record, held': seq<ServerEvent>)
    requires Appends(r, d, r') && Balances(held, d, held') && Lossless(r, held)
    ensures Subsequence(Payload(r'.sent) + held', r'.forwarded)
  {
    PayloadConcat(r.sent, d.sent);
    var all := Payload(r.sent) + held + d.forwarded;
    if d.forwarded == [] {
      assert all == Payload(r.sent) + held && r'.forwarded == r.forwarded;
    } else {
      SubsequenceBoth(Payload(r.sent) + held, r.forwarded, d.forwarded[0]);
      assert d.forwarded == [d.forwarded[0]];
    }
    FlowEnd(Payload(r.sent), held, d, held');
    if d.dropped != [] || d.lost != [] {
      SubsequenceFront(all, r'.forwarded);
    }
  }

  /** What was held or taken in ends up delivered or held, or else is the last event and goes away. */
  lemma FlowEnd(p: seq<ServerEvent>, held: seq<ServerEvent>, d: Delta, held': seq<ServerEvent>)
    requires Balances(held, d, held')
    ensures var all := p + held + d.forwarded;
            if d.dropped == d.lost == [] then (p + Payload(d.sent)) + held' == all
            else all != [] && (p + Payload(d.sent)) + held' == all[..|all| - 1]
  {
    FlowLengths(held, d, held');
    Associative(p, held, d.forwarded);
    Associative(p, Payload(d.sent), held');
    if d.dropped == d.lost == [] {
      assert held + d.forwarded == Payload(d.sent) + held';
    } else {
      assert Payload(d.sent) + held' == [];
      DropLast(p, held + d.forwarded);
    }
  }

  lemma DropLast<T>(a: seq<T>, b: seq<T>)
    requires |b| == 1
    ensures (a + b)[..|a + b| - 1] == a == a + []
  {
  }

  lemma LosslessStep(s: State, action: Action)
    requires Accounting(s) && Tiered(s) && Lossless(s.record, Held(s))
    ensures Lossless(Step(s, action).record, Held(Step(s, action)))
  {
    StepAppends(s, action);
    StepBalances(s, action);
    TierMove(s.record, Held(s), DeltaOf(s, action), Step(s, action).record, Held(Step(s, action)));
    OrderMove(s.record, Held(s), DeltaOf(s, action), Step(s, action).record, Held(Step(s, action)));
  }

  // ---------------------------------------------------------------- server requests

  function IsRequest(): ServerEvent -> bool {
    (e: ServerEvent) => e.Request?
  }

  function Requests(events: seq<ServerEvent>): multiset<ServerEvent> {
    multiset(Filter(IsRequest(), events))
  }

  function FailedRequest(): Failure -> ServerEvent {
    (f: Failure) => Request(f.request)
  }

  /** Requests answered with an error. */
  function Answered(failed: seq<Failure>): multiset<ServerEvent> {
    multiset(Map(FailedRequest(), failed))
  }

  lemma RequestsConcat(a: seq<ServerEvent>, b: seq<ServerEvent>)
    ensures Requests(a + b) == Requests(a) + Requests(b)
  {
    FilterConcat(IsRequest(), a, b);
  }

  lemma AnsweredConcat(a: seq<Failure>, b: seq<Failure>)
    ensures Answered(a + b) == Answered(a) + Answered(b)
  {
    MapConcat(FailedRequest(), a, b);
  }

  /**
   Every request the runtime sent is in the channel, answered, held, or lost with the stream, and in one place only.
  */
  ghost predicate Disposed(r: Record, held: seq<ServerEvent>) {
    Requests(r.offered) == Requests(Payload(r.sent)) + Answered(r.failed) + Requests(held) + Requests(r.lost)
  }

  lemma DroppedAnswered(dropped: seq<ServerEvent>)
    requires |dropped| <= 1
    ensures Answered(Failures(dropped)) == Requests(dropped)
  {
    if dropped != [] {
      assert dropped == [dropped[0]];
      assert Filter(IsRequest(), dropped[1..]) == [];
      if dropped[0].Request? {
        assert Map(FailedRequest(), Failures(dropped)) == [dropped[0]];
      }
    }
  }

  lemma FlowRequests(held: seq<ServerEvent>, d: Delta, held': seq<ServerEvent>)
    requires Balances(held, d, held')
    ensures Requests(held) + Requests(d.forwarded) == Requests(Payload(d.sent)) + Requests(d.dropped)
              + Requests(d.lost) + Requests(held')
  {
    RequestsConcat(held, d.forwarded);
    RequestsConcat(Payload(d.sent) + d.dropped + d.lost, held');
    RequestsConcat(Payload(d.sent) + d.dropped, d.lost);
    RequestsConcat(Payload(d.sent), d.dropped);
  }

  lemma OfferedAnswered(held: seq<ServerEvent>, d: Delta, held': seq<ServerEvent>)
    requires Balances(held, d, held')
    ensures Requests(d.offered) + Requests(d.dropped) == Requests(d.forwarded) + Answered(d.failed)
  {
    FlowLengths(held, d, held');
    if d.forwarded == d.offered {
      DroppedAnswered(d.dropped);
    } else {
      DroppedAnswered(d.dropped);
      assert d.offered == [d.offered[0]] && Filter(IsRequest(), d.offered[1..]) == [];
      assert Map(FailedRequest(), d.failed) == [d.offered[0]];
    }
  }

  lemma DisposedMove(r: Record, held: seq<ServerEvent>, d: Delta, r': Record, held': seq<ServerEvent>)
    requires Appends(r, d, r') && Balances(held, d, held') && Disposed(r, held)
    ensures Disposed(r', held')
  {
    PayloadConcat(r.sent, d.sent);
    RequestsConcat(r.offered, d.offered);
    RequestsConcat(Payload(r.sent), Payload(d.sent));
    RequestsConcat(r.lost, d.lost);
    AnsweredConcat(r.failed, d.failed);
    FlowRequests(held, d, held');
    OfferedAnswered(held, d, held');
    Tally(Requests(r.offered), Requests(Payload(r.sent)), Answered(r.failed), Requests(held), Requests(r.lost),
          Requests(d.offered), Requests(Payload(d.sent)), Answered(d.failed), Requests(d.lost), Requests(held'),
          Requests(d.forwarded), Requests(d.dropped));
  }

  /** The sums of the last lemma, for arbitrary multisets. */
  lemma Tally<T>(o: multiset<T>, p: multiset<T>, a: multiset<T>, h: multiset<T>, l: multiset<T>, do: multiset<T>,
                 dp: multiset<T>, da: multiset<T>, dl: multiset<T>, h': multiset<T>, f: multiset<T>, x: multiset<T>)
    requires o == p + a + h + l && h + f == dp + x + dl + h' && do + x == f + da
    ensures o + do == (p + dp) + (a + da) + h' + (l + dl)
  {
    forall t ensures (o + do)[t] == ((p + dp) + (a + da) + h' + (l + dl))[t] {
      assert (h + f)[t] == (dp + x + dl + h')[t] && (do + x)[t] == (f + da)[t];
    }
  }

  // ---------------------------------------------------------------- the channel and the dropped receiver

  ghost predicate Channel(s: State) {
    && |s.queue| <= s.capacity
    && s.record.received <= s.record.sent
    && (s.receiverOpen ==> s.record.received + s.queue == s.record.sent)
  }

  ghost predicate AfterDrop(s: State) {
    if s.receiverOpen then s.streamEnabled
    else
      && |s.record.forwarded| <= s.record.forwardedAtDrop + 1
      && (s.streamEnabled && s.pc.Idle? ==> |s.record.forwarded| == s.record.forwardedAtDrop)
  }

  predicate IsAuth(e: ServerEvent) {
    e.Request? && e.request.AuthTokensRefresh?
  }

  ghost predicate Codes(r: Record) {
    && (forall e | e in r.forwarded :: !IsAuth(e))
    && (forall f | f in r.failed :: f.code == if f.request.AuthTokensRefresh? then -32000 else -32001)
  }

  lemma EnqueueChannel(s: State, slot: Slot)
    requires Channel(s) && |s.queue| < s.capacity
    ensures Channel(Enqueue(s, slot))
  {
    assert (s.record.received + s.queue) + [slot] == s.record.received + (s.queue + [slot]);
  }

  lemma TakeChannel(s: State, e: ServerEvent)
    requires Channel(s)
    ensures Channel(Take(s, e))
  {
    if |s.queue| < s.capacity {
      EnqueueChannel(s, Slot(Lagged(s.skippedEvents), true));
    }
  }

  lemma ContinueChannel(s: State)
    requires Channel(s)
    ensures Channel(Continue(s))
  {
  }

  lemma ChannelStep(s: State, action: Action)
    requires Channel(s)
    ensures Channel(Step(s, action))
  {
    match action
    case TakeEvent(e) => TakeChannel(s, e);
    case Resume => ContinueChannel(s);
    case Receive =>
      if s.receiverOpen && s.queue != [] {
        assert s.queue == [s.queue[0]] + s.queue[1..];
      }
    case DropReceiver =>
  }

  lemma AfterDropStep(s: State, action: Action)
    requires AfterDrop(s)
    ensures AfterDrop(Step(s, action))
  {
    match action
    case TakeEvent(e) =>
    case Resume =>
    case _ =>
  }

  lemma CodesMove(r: Record, held: seq<ServerEvent>, d: Delta, r': Record, held': seq<ServerEvent>)
    requires Codes(r) && Appends(r, d, r') && Balances(held, d, held')
    requires forall e | e in held + d.forwarded :: !IsAuth(e)
    ensures Codes(r')
  {
    FlowLengths(held, d, held');
    if d.dropped != [] {
      assert held + d.forwarded == Payload(d.sent) + d.dropped + d.lost + held';
      assert d.dropped[0] in held + d.forwarded;
    }
    assert forall f | f in d.failed :: f.code == if f.request.AuthTokensRefresh? then -32000 else -32001;
  }

  // ---------------------------------------------------------------- every run

  ghost predicate Inv(s: State) {
    && Accounting(s) && Tiered(s) && Lossless(s.record, Held(s)) && Disposed(s.record, Held(s))
    && Channel(s) && AfterDrop(s) && Codes(s.record)
    && (s.record.saturated == 0 ==> AllPlaced(s.record))
  }

  lemma HeldWasForwarded(s: State, action: Action)
    requires Accounting(s) && Codes(s.record)
    ensures forall e | e in Held(s) + DeltaOf(s, action).forwarded :: !IsAuth(e)
  {
  }

  lemma SaturatedGrows(s: State, action: Action)
    ensures s.record.saturated <= Step(s, action).record.saturated
  {
  }

  lemma InvStep(s: State, action: Action)
    requires Inv(s)
    ensures Inv(Step(s, action))
  {
    var s' := Step(s, action);
    AccountingStep(s, action);
    StepAppends(s, action);
    StepBalances(s, action);
    LosslessStep(s, action);
    DisposedMove(s.record, Held(s), DeltaOf(s, action), s'.record, Held(s'));
    ChannelStep(s, action);
    AfterDropStep(s, action);
    HeldWasForwarded(s, action);
    CodesMove(s.record, Held(s), DeltaOf(s, action), s'.record, Held(s'));
    SaturatedGrows(s, action);
    if s'.record.saturated == 0 {
      PlacedStep(s, action);
    }
  }

  lemma {:induction false} InvRun(capacity: nat, usizeMax: nat, actions: seq<Action>)
    ensures Inv(Run(Initial(capacity, usizeMax), actions))
    decreases |actions|
  {
    if actions == [] {
      var s := Initial(capacity, usizeMax);
      assert Requests([]) == Answered([]) == multiset{};
    } else {
      InvRun(capacity, usizeMax, actions[..|actions| - 1]);
      InvStep(Run(Initial(capacity, usizeMax), actions[..|actions| - 1]), actions[|actions| - 1]);
    }
  }

  /**
   Exact gap accounting. Delivered events, marker counts, the skip counter, the event in hand and the
   event lost when the stream was disabled add up to the events forwarded, and every delivered event sits
   at the index that what precedes it accounts for, as long as fewer events than the counter can hold
   have been forwarded; what saturation leaves out is exactly the number of saturated skips.
  */
  lemma GapAccounting(capacity: nat, usizeMax: nat, actions: seq<Action>)
    ensures var s := Run(Initial(capacity, usizeMax), actions);
            && Accounted(s.record.sent) + s.skippedEvents + s.record.saturated + |Held(s)| + |s.record.lost|
               == |s.record.forwarded|
            && (|s.record.forwarded| <= usizeMax ==> s.record.saturated == 0)
            && (s.record.saturated == 0 ==> AllPlaced(s.record))
            && (s.streamEnabled && s.pc.Idle? ==> Held(s) == s.record.lost == [])
  {
    InvRun(capacity, usizeMax, actions);
    UsizeFixed(Initial(capacity, usizeMax), actions);
  }

  lemma {:induction false} UsizeFixed(s: State, actions: seq<Action>)
    ensures Run(s, actions).usizeMax == s.usizeMax && Run(s, actions).capacity == s.capacity
    decreases |actions|
  {
    if actions != [] {
      UsizeFixed(s, actions[..|actions| - 1]);
    }
  }

  /**
   The lossless tier. The stream stays enabled as long as the receiver is there. Between events, while it
   is enabled, the transcript and completion
   notifications put into the channel are exactly those the runtime offered, in order; everything delivered is a
   subsequence of what was forwarded; and the consumer has received a prefix of the channel's content.
  */
  lemma LosslessTier(capacity: nat, usizeMax: nat, actions: seq<Action>)
    ensures var s := Run(Initial(capacity, usizeMax), actions);
            && (s.receiverOpen ==> s.streamEnabled)
            && (s.streamEnabled && s.pc.Idle? ==> Tier(Payload(s.record.sent)) == Tier(s.record.offered))
            && Subsequence(Payload(s.record.sent) + Held(s), s.record.forwarded)
            && s.record.received <= s.record.sent && (s.receiverOpen ==> s.record.received + s.queue == s.record.sent)
            && |s.queue| <= s.capacity
  {
    InvRun(capacity, usizeMax, actions);
    TierOffered(capacity, usizeMax, actions);
    var s := Run(Initial(capacity, usizeMax), actions);
    if s.streamEnabled && s.pc.Idle? {
      assert Tier(Held(s)) == Tier(s.record.lost) == [];
      assert Tier(Payload(s.record.sent)) + [] + [] == Tier(Payload(s.record.sent));
    }
  }

  /** Every such notification the runtime offers reaches the forwarder. */
  lemma {:induction false} TierOffered(capacity: nat, usizeMax: nat, actions: seq<Action>)
    ensures var r := Run(Initial(capacity, usizeMax), actions).record; Tier(r.offered) == Tier(r.forwarded)
    decreases |actions|
  {
    if actions != [] {
      TierOffered(capacity, usizeMax, actions[..|actions| - 1]);
      TierOfferedStep(Run(Initial(capacity, usizeMax), actions[..|actions| - 1]), actions[|actions| - 1]);
    }
  }

  lemma TierOfferedStep(s: State, action: Action)
    requires Tier(s.record.offered) == Tier(s.record.forwarded)
    ensures var r := Step(s, action).record; Tier(r.offered) == Tier(r.forwarded)
  {
    var d := DeltaOf(s, action);
    StepAppends(s, action);
    FilterConcat(MustArrive, s.record.offered, d.offered);
    FilterConcat(MustArrive, s.record.forwarded, d.forwarded);
    OfferedTier(s, action);
  }

  lemma OfferedTier(s: State, action: Action)
    ensures Tier(DeltaOf(s, action).offered) == Tier(DeltaOf(s, action).forwarded)
  {
    var d := DeltaOf(s, action);
    if d.offered != d.forwarded {
      assert d.forwarded == [];
      FilterNone(MustArrive, d.offered);
    }
  }

  /**
   A best-effort event is delivered if and only if there is room for it and for the lag marker due before it.
   Otherwise it is counted as skipped, and answered with -32001 if it is a request.
  */
  lemma BestEffortDeliveredIff(s: State, e: ServerEvent)
    requires s.streamEnabled && s.pc.Idle? && s.receiverOpen && !MustArrive(e) && !IsAuth(e)
    ensures var s' := Step(Step(s, TakeEvent(e)), Resume);
            var due := if s.skippedEvents > 0 then [Slot(Lagged(s.skippedEvents), true)] else [];
            && s'.pc.Idle?
            && (if |s.queue| + |due| < s.capacity then
                  && s'.record.sent == s.record.sent + due + [Slot(e, false)] && s'.record.failed == s.record.failed
                  && s'.skippedEvents == 0
                else
                  && s'.record.sent == s.record.sent + (if |s.queue| < s.capacity then due else [])
                  && s'.record.failed == s.record.failed + (if e.Request? then [Failure(e.request, -32001)] else [])
                  && s'.skippedEvents + s'.record.saturated
                     == (if |s.queue| < s.capacity then 0 else s.skippedEvents) + s.record.saturated + 1)
  {
    var s1 := Step(s, TakeEvent(e));
    assert s.record.sent + [] == s.record.sent;
  }

  /** A must-arrive event is sent, behind the lag marker that is due, as soon as there is room, and waits until then. */
  lemma MustArriveWaits(s: State, e: ServerEvent)
    requires s.streamEnabled && s.pc.Idle? && s.receiverOpen && MustArrive(e)
    ensures var s1 := Step(s, TakeEvent(e));
            && s1.record.sent == s.record.sent && s1.record.failed == s.record.failed
            && s1.skippedEvents == s.skippedEvents && Held(s1) == [e]
            && (|s.queue| >= s.capacity ==> Step(s1, Resume) == s1)
            && (s.skippedEvents == 0 && |s.queue| < s.capacity ==>
                  Step(s1, Resume).record.sent == s.record.sent + [Slot(e, false)])
            && (s.skippedEvents > 0 && |s.queue| + 1 < s.capacity ==>
                  Step(Step(s1, Resume), Resume).record.sent
                  == s.record.sent + [Slot(Lagged(s.skippedEvents), true)] + [Slot(e, false)])
  {
  }

  lemma {:induction false} SubsequenceMembers<T>(a: seq<T>, b: seq<T>, x: T)
    requires Subsequence(a, b) && x in a
    ensures x in b
    decreases |b|
  {
    var front := b[..|b| - 1];
    if Subsequence(a, front) {
      SubsequenceMembers(a, front, x);
    } else if x in a[..|a| - 1] {
      SubsequenceMembers(a[..|a| - 1], front, x);
    }
  }

  lemma RequestCount(events: seq<ServerEvent>, e: ServerEvent)
    requires e.Request?
    ensures Requests(events)[e] == multiset(events)[e]
  {
    if events != [] {
      RequestCount(events[1..], e);
      assert events == [events[0]] + events[1..];
    }
  }

  /**
   Requests are conserved: each one the runtime offered was delivered, was answered with an error, is in hand, or was
   lost when the stream was disabled under it; with the stream enabled and nothing in hand only the first two remain.
  */
  lemma RequestsConserved(capacity: nat, usizeMax: nat, actions: seq<Action>)
    ensures var s := Run(Initial(capacity, usizeMax), actions);
            && Requests(s.record.offered) == Requests(Payload(s.record.sent)) + Answered(s.record.failed)
                                             + Requests(Held(s)) + Requests(s.record.lost)
            && (s.streamEnabled && s.pc.Idle? ==>
                  Requests(s.record.offered) == Requests(Payload(s.record.sent)) + Answered(s.record.failed))
  {
    InvRun(capacity, usizeMax, actions);
    assert Requests([]) == multiset{};
  }

  /** A step that meets a gone receiver with a request: the one in hand, or one that a pending lag marker announces. */
  predicate DropsRequest(s: State, action: Action) {
    && !s.receiverOpen
    && match action
       case Resume => !s.pc.Idle? && s.pc.event.Request?
       case TakeEvent(e) => s.streamEnabled && s.pc.Idle? && s.skippedEvents > 0 && e.Request? && !IsAuth(e)
       case _ => false
  }

  /** One step loses this request, without delivering or answering it, exactly under that guard. */
  lemma RequestLostIff(s: State, action: Action, e: ServerEvent)
    requires e.Request?
    ensures Step(s, action).record.lost == s.record.lost + [e]
            <==> DropsRequest(s, action) && e == if action.Resume? then s.pc.event else action.event
  {
    StepAppends(s, action);
    var lost, lost' := s.record.lost, Step(s, action).record.lost;
    assert lost'[|lost|..] == DeltaOf(s, action).lost;
    assert lost' == lost + [e] ==> lost'[|lost|..] == [e];
  }

  lemma DropsRequestDelta(s: State, action: Action)
    ensures DropsRequest(s, action) <==> Requests(DeltaOf(s, action).lost) != multiset{}
  {
    var lost := DeltaOf(s, action).lost;
    if lost != [] {
      assert lost == [lost[0]] && lost[1..] == [];
      assert Filter(IsRequest(), lost) == if lost[0].Request? then [lost[0]] else [];
    }
  }

  /** No step of the run met a gone receiver with a request. */
  ghost predicate NeverDrops(s: State, actions: seq<Action>) {
    forall k | 0 <= k < |actions| :: !DropsRequest(Run(s, actions[..k]), actions[k])
  }

  lemma {:induction false} LostRequestsRun(capacity: nat, usizeMax: nat, actions: seq<Action>)
    ensures var s := Initial(capacity, usizeMax);
            NeverDrops(s, actions) <==> Requests(Run(s, actions).record.lost) == multiset{}
    decreases |actions|
  {
    var s := Initial(capacity, usizeMax);
    if actions == [] {
      assert Requests([]) == multiset{};
    } else {
      var n := |actions| - 1;
      var before, action := Run(s, actions[..n]), actions[n];
      LostRequestsRun(capacity, usizeMax, actions[..n]);
      NeverDropsSnoc(s, actions);
      StepAppends(before, action);
      DropsRequestDelta(before, action);
      RequestsConcat(before.record.lost, DeltaOf(before, action).lost);
      SumEmpty(Requests(before.record.lost), Requests(DeltaOf(before, action).lost));
    }
  }

  lemma NeverDropsSnoc(s: State, actions: seq<Action>)
    requires actions != []
    ensures var n := |actions| - 1;
            NeverDrops(s, actions) <==> NeverDrops(s, actions[..n]) && !DropsRequest(Run(s, actions[..n]), actions[n])
  {
    var n := |actions| - 1;
    assert forall k | 0 <= k <= n :: actions[..n][..k] == actions[..k];
    if NeverDrops(s, actions[..n]) && !DropsRequest(Run(s, actions[..n]), actions[n]) {
      forall k | 0 <= k < |actions| ensures !DropsRequest(Run(s, actions[..k]), actions[k]) {
        if k < n {
          assert !DropsRequest(Run(s, actions[..n][..k]), actions[..n][k]);
        }
      }
    }
    if NeverDrops(s, actions) {
      forall k | 0 <= k < n ensures !DropsRequest(Run(s, actions[..n][..k]), actions[..n][k]) {
        assert !DropsRequest(Run(s, actions[..k]), actions[k]);
      }
    }
  }

  lemma SumEmpty<T>(a: multiset<T>, b: multiset<T>)
    ensures a + b == multiset{} <==> a == multiset{} && b == multiset{}
  {
    if a + b == multiset{} {
      forall t ensures a[t] == 0 && b[t] == 0 {
        assert (a + b)[t] == 0;
      }
    }
  }

  lemma NothingLost<T>(a: multiset<T>, b: multiset<T>)
    ensures a + b == a <==> b == multiset{}
  {
    if a + b == a {
      forall t ensures b[t] == 0 {
        assert (a + b)[t] == a[t];
      }
    }
  }

  /**
   The promise that no request is left without delivery or answer, exactly: in any run, what was offered is what was
   delivered, answered or is in hand, if and only if no step met a gone receiver with a request.
  */
  lemma EveryRequestDisposedIff(capacity: nat, usizeMax: nat, actions: seq<Action>)
    ensures var s := Run(Initial(capacity, usizeMax), actions);
            Requests(s.record.offered) == Requests(Payload(s.record.sent)) + Answered(s.record.failed)
                + Requests(Held(s))
            <==> NeverDrops(Initial(capacity, usizeMax), actions)
    ensures Run(Initial(capacity, usizeMax), actions).receiverOpen ==> NeverDrops(Initial(capacity, usizeMax), actions)
  {
    var s := Run(Initial(capacity, usizeMax), actions);
    InvRun(capacity, usizeMax, actions);
    LostRequestsRun(capacity, usizeMax, actions);
    NothingLost(Requests(Payload(s.record.sent)) + Answered(s.record.failed) + Requests(Held(s)),
        Requests(s.record.lost));
    assert s.receiverOpen ==> s.record.lost == [];
    assert Requests([]) == multiset{};
  }

  /** How the promise fails: any client request taken once the receiver is gone is neither delivered nor answered. */
  lemma RequestLostUnanswered(capacity: nat, usizeMax: nat, r: ServerRequest)
    requires r.ClientRequest?
    ensures var s := Run(Initial(capacity, usizeMax), [DropReceiver, TakeEvent(Request(r)), Resume]);
            && s.record.offered == [Request(r)] && s.record.sent == [] && s.record.failed == []
            && s.pc.Idle? && s.record.lost == [Request(r)]
  {
    var s0, take := Initial(capacity, usizeMax), TakeEvent(Request(r));
    var run := [DropReceiver, take, Resume];
    assert run[..2] == [DropReceiver, take] && run[..2][..1] == [DropReceiver] && [DropReceiver][..0] == [];
    assert Run(s0, []) == s0;
    var s1 := Run(s0, [DropReceiver]);
    assert s1 == Step(s0, DropReceiver);
    assert !s1.receiverOpen && s1.pc.Idle? && s1.record == s0.record;
    var s2 := Run(s0, [DropReceiver, take]);
    assert s2 == Step(s1, take) && s2.pc == TryingEvent(Request(r));
  }

  /**
   Between events, while the stream is enabled, a request the runtime sent once is either in the channel
   or answered with an error, not both and not neither; auth-token refreshes are always answered, with
   -32000, and never delivered.
  */
  lemma RequestDisposition(capacity: nat, usizeMax: nat, actions: seq<Action>, e: ServerEvent)
    requires var s := Run(Initial(capacity, usizeMax), actions);
             e.Request? && multiset(s.record.offered)[e] == 1 && s.streamEnabled && s.pc.Idle?
    ensures var r := Run(Initial(capacity, usizeMax), actions).record;
            && (e in Payload(r.sent) <==> e !in Map(FailedRequest(), r.failed))
            && (IsAuth(e) ==> e !in Payload(r.sent) && Failure(e.request, -32000) in r.failed)
            && (forall f | f in r.failed && f.request == e.request :: f.code == if IsAuth(e) then -32000 else -32001)
  {
    InvRun(capacity, usizeMax, actions);
    var s := Run(Initial(capacity, usizeMax), actions);
    var r := s.record;
    RequestCount(r.offered, e);
    RequestCount(Payload(r.sent), e);
    assert Requests(Held(s)) == Requests(r.lost) == multiset{};
    assert 1 == multiset(Payload(r.sent))[e] + Answered(r.failed)[e];
    if IsAuth(e) {
      if e in Payload(r.sent) {
        SubsequenceMembers(Payload(r.sent) + Held(s), r.forwarded, e);
      }
      AnsweredBy(r.failed, e);
    }
  }

  lemma AnsweredBy(failed: seq<Failure>, e: ServerEvent)
    ensures e in Map(FailedRequest(), failed) <==> exists f :: f in failed && Request(f.request) == e
    ensures e in multiset(Map(FailedRequest(), failed)) <==> e in Map(FailedRequest(), failed)
  {
    var m := Map(FailedRequest(), failed);
    forall f | f in failed && Request(f.request) == e ensures e in m {
      var i :| 0 <= i < |failed| && failed[i] == f;
      assert m[i] == e;
    }
  }

  /**
   After the receiver is dropped at most one more event reaches the forwarder, and when it has, or when
   one was in hand, the event branch goes off; once off it stays off.
  */
  lemma DropEndsForwarding(capacity: nat, usizeMax: nat, actions: seq<Action>)
    requires !Run(Initial(capacity, usizeMax), actions).receiverOpen
    ensures var s := Run(Initial(capacity, usizeMax), actions);
            && |s.record.forwarded| <= s.record.forwardedAtDrop + 1
            && (|s.record.forwarded| > s.record.forwardedAtDrop && s.pc.Idle? ==> !s.streamEnabled)
            && (!s.pc.Idle? ==> !Continue(s).streamEnabled && Continue(s).pc.Idle?)
  {
    InvRun(capacity, usizeMax, actions);
  }

  lemma DisabledStep(s: State, action: Action)
    requires !s.streamEnabled && s.pc.Idle?
    ensures var s' := Step(s, action); !s'.streamEnabled && s'.pc.Idle? && s'.record.forwarded == s.record.forwarded
  {
  }

  lemma {:induction false} DisabledForGood(s: State, actions: seq<Action>)
    requires !s.streamEnabled && s.pc.Idle?
    ensures var s' := Run(s, actions); !s'.streamEnabled && s'.pc.Idle? && s'.record.forwarded == s.record.forwarded
    decreases |actions|
  {
    if actions != [] {
      DisabledForGood(s, actions[..|actions| - 1]);
      DisabledStep(Run(s, actions[..|actions| - 1]), actions[|actions| - 1]);
    }
  }

  // ---------------------------------------------------------------- the worker as an object

  /** The worker's variables and the channel, updated in place. The record is kept for the contracts only. */
  class InProcessWorker {
    const capacity: nat
    const usizeMax: nat
    var queue: seq<Slot>
    var receiverOpen: bool
    var skippedEvents: nat
    var streamEnabled: bool
    var pc: Pc
    ghost var record: Record

    ghost function Value(): State
      reads this
    {
      State(capacity, usizeMax, queue, receiverOpen, skippedEvents, streamEnabled, pc, record)
    }

    constructor (capacity: nat, usizeMax: nat)
      ensures Value() == Initial(capacity, usizeMax)
    {
      this.capacity, this.usizeMax := capacity, usizeMax;
      queue, receiverOpen, skippedEvents, streamEnabled, pc := [], true, 0, true, Idle;
      record := Record([], [], [], [], [], [], 0, 0);
    }

    /** One event of the runtime, up to the first point where the worker can be interrupted. */
    method OnRuntimeEvent(event: ServerEvent) returns (failed: seq<Failure>)
      requires streamEnabled && pc.Idle?
      modifies this
      ensures Value() == Step(old(Value()), TakeEvent(event))
      ensures record.failed == old(record.failed) + failed
    {
      failed := [];
      record := record.(offered := record.offered + [event]);
      if event.Request? && event.request.AuthTokensRefresh? {
        failed := [Failure(event.request, -32000)];
        record := record.(failed := record.failed + failed);
        return;
      }
      record := record.(forwarded := record.forwarded + [event]);
      if skippedEvents > 0 {
        if RequiresDelivery(event) {
          pc := SendingMarker(event);
          return;
        }
        if !receiverOpen {
          StopStream(event);
          return;
        }
        if |queue| >= capacity {
          failed := SkipEvent(event);
          return;
        }
        Push(Slot(Lagged(skippedEvents), true));
        skippedEvents := 0;
      }
      pc := if RequiresDelivery(event) then SendingEvent(event) else TryingEvent(event);
    }

    /** The channel operation the worker is at; a blocked send changes nothing. */
    method ResumeSend() returns (failed: seq<Failure>)
      requires !pc.Idle?
      modifies this
      ensures Value() == Step(old(Value()), Resume)
      ensures record.failed == old(record.failed) + failed
    {
      failed := [];
      var event := pc.event;
      if !receiverOpen {
        StopStream(event);
      } else if |queue| >= capacity {
        if pc.TryingEvent? {
          failed := SkipEvent(event);
        }
      } else if pc.SendingMarker? {
        Push(Slot(Lagged(skippedEvents), true));
        skippedEvents := 0;
        pc := SendingEvent(event);
      } else {
        Push(Slot(event, false));
        pc := Idle;
      }
    }

    /** `next_event` of the consumer. */
    method NextEvent() returns (slot: Option<Slot>)
      requires receiverOpen
      modifies this`queue, this`record
      ensures Value() == Step(old(Value()), Receive)
      ensures slot == if old(queue) == [] then None else Some(old(queue)[0])
    {
      if queue == [] {
        return None;
      }
      slot := Some(queue[0]);
      record := record.(received := record.received + [queue[0]]);
      queue := queue[1..];
    }

    /** The first thing `shutdown` does. */
    method DropEventReceiver()
      requires receiverOpen
      modifies this`receiverOpen, this`record
      ensures Value() == Step(old(Value()), DropReceiver)
    {
      receiverOpen := false;
      record := record.(forwardedAtDrop := |record.forwarded|);
    }

    method Push(slot: Slot)
      modifies this`queue, this`record
      ensures Value() == Enqueue(old(Value()), slot)
    {
      queue := queue + [slot];
      record := record.(sent := record.sent + [slot]);
    }

    method SkipEvent(event: ServerEvent) returns (failed: seq<Failure>)
      modifies this`skippedEvents, this`pc, this`record
      ensures Value() == DropEvent(old(Value()), event)
      ensures failed == Failures([event])
    {
      if skippedEvents < usizeMax {
        skippedEvents := skippedEvents + 1;
      } else {
        record := record.(saturated := record.saturated + 1);
      }
      failed := if event.Request? then [Failure(event.request, -32001)] else [];
      record := record.(failed := record.failed + failed);
      pc := Idle;
    }

    method StopStream(event: ServerEvent)
      modifies this`streamEnabled, this`pc, this`record
      ensures Value() == DisableStream(old(Value()), event)
    {
      streamEnabled := false;
      record := record.(lost := record.lost + [event]);
      pc := Idle;
    }
  }
}