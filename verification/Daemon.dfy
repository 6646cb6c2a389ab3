/**
 The app-server daemon (codex-rs/app-server-daemon/src/lib.rs and update_loop.rs): lifecycle operations of any number
 of processes, run under one operation lock.

 Every await that reads or changes something shared is one atomic step, and steps of different processes, process
 deaths and changes in the environment interleave in any way. What a call to the outside returns is part of the step.
 Of the pid backend only this is used: starting does nothing while a recorded process is alive and otherwise launches
 one with the given flag or fails; a successful stop leaves none; a failed stop may leave it running.
*/
module Daemon {
  import opened Common

  datatype RestartMode = IfVersionChanged | Always

  datatype UpdaterRefreshMode = NoRefresh | ReexecIfManagedBinaryChanged

  datatype RestartDecision = NotReadyYet | Current | DoRestart

  datatype Op =
    | Start
    | Restart
    | Stop
    | SetRemoteControl(enable: bool, thenStart: bool)
    | Bootstrap(enable: bool)
    | EnsureRemoteControl
    | RestartIfRunning(updater: string, binary: string)  // identities of the updater's and the managed executable

  datatype Outcome =
    | AlreadyRunning | Started | Restarted | Stopped | NotRunning
    | AlreadySet | RemoteControlSet | Bootstrapped
    | NotReady | AlreadyCurrent | Reexeced
    | NotManaged  // "app server is running but is not managed"
    | Failed | Killed

  /** The version a running server reports, if it answers, and then that of the managed executable. */
  datatype Versions = Versions(info: Option<string>, managed: Option<string>)

  /** What an operation has done to the shared state, the successful waits for readiness and the versions compared. */
  datatype Effect =
    | ReadVersions(versions: Versions)
    | SavedFlag(flag: bool)
    | StoppedServer
    | Launched(flag: bool, binary: string)
    | StartedUpdater
    | SeenReady
    | ReplacedUpdater(updater: string, binary: string)

  /** Where an operation stands; `flag` is the remote-control flag it works with. */
  datatype Pc =
    | Idle
    | Waiting(op: Op)                       // polling for the lock
    | Begin(op: Op)                         // holds the lock, has not read the settings
    | Probe(op: Op, flag: bool)
    | Owner(op: Op, flag: bool)             // a probe succeeded: whose server is it
    | Check(op: Op, flag: bool)             // is the managed server running
    | Unowned(op: Op, flag: bool)           // it is not: does another server answer
    | Decide(op: Op, flag: bool)            // the updater compares versions
    | Save(op: Op, flag: bool, running: bool)
    | StopServer(op: Op, flag: bool)
    | Launch(op: Op, flag: bool)
    | StartUpdater(op: Op, flag: bool)
    | AwaitReady(op: Op, outcome: Outcome)
    | Reexec(op: Op)
    | Finished(outcome: Outcome)

  datatype Settings = Missing | Stored(flag: bool) | Unreadable

  datatype Server = Server(flag: bool, binary: string)

  /**
   The operation lock, with the operation its holder was invoked for, the stage it is in, and what it has done so far:
   in earlier stages and in this one.
  */
  datatype Lock = Free | Held(pid: nat, invoked: Op, op: Op, earlier: seq<Effect>, effects: seq<Effect>)

  datatype Hold = Hold(pid: nat, invoked: Op, op: Op, earlier: seq<Effect>, effects: seq<Effect>, outcome: Outcome)

  /** What the operations read and change, and what the environment can change under them. */
  datatype Shared = Shared(
    settings: Settings,
    managed: Option<Server>,
    unmanaged: bool,           // another server answers on the socket
    updater: bool,             // the update loop is running
    installed: string)         // identity of the managed executable

  datatype World = World(
    lock: Lock,
    shared: Shared,
    pcs: map<nat, Pc>,
    history: seq<Hold>)        // the holds that have ended

  datatype Target =
    | At(pc: Pc)
    | Over(outcome: Outcome)
    | Stage(op: Op)            // the next stage of the same operation, under the same lock

  /** One step of an operation: what it leaves, what it did and where it goes. */
  datatype Move = Move(after: Shared, did: seq<Effect>, to: Target)

  /** The outcome of a call to the outside. A failure that is `partial` may have had some of its effect. */
  datatype Choice = Fails(partial: bool) | Works(version: string, managedVersion: string)

  datatype Step =
    | Invoke(pid: nat, op: Op)
    | Act(pid: nat, choice: Choice)
    | Kill(pid: nat)
    | Crash                    // the managed server dies
    | UpdaterDies
    | UnmanagedChange(live: bool)
    | Install(binary: string)

  // ---------------------------------------------------------------- decisions

  function Decision(mode: RestartMode, info: Option<string>, managedVersion: Option<string>): RestartDecision {
    if mode == IfVersionChanged && info.None? then NotReadyYet
    else if mode == IfVersionChanged && managedVersion.Some? && info == managedVersion then Current
    else DoRestart
  }

  predicate ShouldReexec(refresh: UpdaterRefreshMode, outcome: Outcome) {
    refresh == ReexecIfManagedBinaryChanged && outcome == Restarted
  }

  function UpdateModes(updater: string, managed: string): (RestartMode, UpdaterRefreshMode) {
    if updater == managed then (IfVersionChanged, NoRefresh) else (Always, ReexecIfManagedBinaryChanged)
  }

  // ---------------------------------------------------------------- steps

  /** An absent settings file means the default. */
  function Load(settings: Settings): Option<bool> {
    match settings
    case Missing => Some(false)
    case Stored(flag) => Some(flag)
    case Unreadable => None
  }

  /** An unmanaged server answers every probe; the managed one may not be ready yet. */
  predicate ProbeOk(w: Shared, c: Choice) {
    w.unmanaged || (w.managed.Some? && c.Works?)
  }

  function Goto(w: Shared, pc: Pc): Move {
    Move(w, [], At(pc))
  }

  function End(w: Shared, outcome: Outcome): Move {
    Move(w, [], Over(outcome))
  }

  function BeginMove(w: Shared, op: Op, c: Choice): Move {
    if op.Bootstrap? then (if c.Fails? then End(w, Failed) else Goto(w, Probe(op, op.enable)))
    else
      match Load(w.settings)
      case None => End(w, Failed)
      case Some(flag) =>
        if c.Fails? then End(w, Failed)
        else if op.Start? || op.Restart? then Goto(w, Probe(op, flag))
        else if op.EnsureRemoteControl? then
          Move(w, [], Stage(if w.updater then SetRemoteControl(true, true) else Bootstrap(true)))
        else Goto(w, Check(op, flag))
  }

  function ProbeMove(w: Shared, op: Op, flag: bool, c: Choice): Move {
    if ProbeOk(w, c) then Goto(w, Owner(op, flag))
    else if op.Bootstrap? then Goto(w, Save(op, flag, false))
    else Goto(w, Check(op, flag))
  }

  function OwnerMove(w: Shared, op: Op, flag: bool, c: Choice): Move {
    if c.Fails? then End(w, Failed)
    else if op.Start? then End(w, AlreadyRunning)
    else if w.managed.None? then End(w, NotManaged)
    else if op.Bootstrap? then Goto(w, Save(op, flag, true))
    else Goto(w, Check(op, flag))
  }

  /** A finished change of the remote-control flag may be the first stage of an operation. */
  function Finish(op: Op, outcome: Outcome): Target {
    if op.SetRemoteControl? && op.thenStart then Stage(Start) else Over(outcome)
  }

  function CheckMove(w: Shared, op: Op, flag: bool, c: Choice): Move {
    if c.Fails? then End(w, Failed)
    else if w.managed.Some? then
      match op
      case Start => Goto(w, AwaitReady(op, AlreadyRunning))
      case RestartIfRunning(_, _) => Goto(w, Decide(op, flag))
      case SetRemoteControl(enable, _) =>
        Goto(w, if enable == flag then AwaitReady(op, AlreadySet) else Save(op, enable, true))
      case _ => Goto(w, StopServer(op, flag))
    else if op.Start? || op.Restart? || op.Bootstrap? then Goto(w, Launch(op, flag))
    else Goto(w, Unowned(op, flag))
  }

  function UnownedMove(w: Shared, op: Op, flag: bool, c: Choice): Move {
    if ProbeOk(w, c) then End(w, NotManaged)
    else if op.SetRemoteControl? then
      (if op.enable == flag then Move(w, [], Finish(op, AlreadySet)) else Goto(w, Save(op, op.enable, false)))
    else End(w, NotRunning)
  }

  function DecideMove(w: Shared, op: Op, flag: bool, c: Choice): Move
    requires op.RestartIfRunning?
  {
    var answered := ProbeOk(w, c) || (w.managed.Some? && c.Fails? && c.partial);
    if answered && c.Fails? then End(w, Failed)  // the version of the managed executable could not be read
    else
      var read := if answered then Versions(Some(c.version), Some(c.managedVersion)) else Versions(None, None);
      var to := match Decision(UpdateModes(op.updater, op.binary).0, read.info, read.managed)
        case NotReadyYet => Over(NotReady)
        case Current => Over(AlreadyCurrent)
        case DoRestart => At(StopServer(op, flag));
      Move(w, [ReadVersions(read)], to)
  }

  function SaveMove(w: Shared, op: Op, flag: bool, running: bool, c: Choice): Move {
    if c.Fails? then End(w.(settings := if c.partial then Unreadable else w.settings), Failed)
    else
      Move(w.(settings := Stored(flag)), [SavedFlag(flag)],
           if op.Bootstrap? then At(Check(op, flag))
           else if running then At(StopServer(op, flag)) else Finish(op, RemoteControlSet))
  }

  function StopMove(w: Shared, op: Op, flag: bool, c: Choice): Move {
    if c.Fails? then End(if c.partial then w.(managed := None) else w, Failed)
    else Move(w.(managed := None), [StoppedServer], if op.Stop? then Over(Stopped) else At(Launch(op, flag)))
  }

  function OutcomeOf(op: Op): Outcome {
    match op
    case Start => Started
    case SetRemoteControl(_, _) => RemoteControlSet
    case Bootstrap(_) => Bootstrapped
    case _ => Restarted
  }

  function LaunchMove(w: Shared, op: Op, flag: bool, c: Choice): Move {
    if c.Fails? then End(w, Failed)
    else
      var binary := if op.RestartIfRunning? then op.binary else w.installed;
      var next := At(if op.Bootstrap? then StartUpdater(op, flag) else AwaitReady(op, OutcomeOf(op)));
      if w.managed.Some? then Move(w, [], next)
      else Move(w.(managed := Some(Server(flag, binary))), [Launched(flag, binary)], next)
  }

  function StartUpdaterMove(w: Shared, op: Op, c: Choice): Move {
    if c.Fails? then End(if c.partial then w.(updater := false) else w, Failed)
    else Move(w.(updater := true), [StartedUpdater], At(AwaitReady(op, OutcomeOf(op))))
  }

  function ReadyMove(w: Shared, op: Op, outcome: Outcome, c: Choice): Move {
    if !ProbeOk(w, c) then End(w, Failed)
    else
      var reexec := op.RestartIfRunning? && ShouldReexec(UpdateModes(op.updater, op.binary).1, outcome);
      Move(w, [SeenReady], if reexec then At(Reexec(op)) else Finish(op, outcome))
  }

  /** A successful exec replaces the process, which drops the lock with it. */
  function ReexecMove(w: Shared, op: Op, c: Choice): Move
    requires op.RestartIfRunning?
  {
    if c.Fails? then End(w, Failed) else Move(w, [ReplacedUpdater(op.updater, op.binary)], Over(Reexeced))
  }

  predicate Busy(pc: Pc) {
    !pc.Idle? && !pc.Finished?
  }

  /** A process between taking the lock and releasing it. */
  predicate Active(pc: Pc) {
    Busy(pc) && !pc.Waiting?
  }

  function MoveOf(w: Shared, pc: Pc, c: Choice): Move
    requires Active(pc)
  {
    match pc
    case Begin(op) => BeginMove(w, op, c)
    case Probe(op, flag) => ProbeMove(w, op, flag, c)
    case Owner(op, flag) => OwnerMove(w, op, flag, c)
    case Check(op, flag) => CheckMove(w, op, flag, c)
    case Unowned(op, flag) => UnownedMove(w, op, flag, c)
    case Decide(op, flag) => if op.RestartIfRunning? then DecideMove(w, op, flag, c) else Goto(w, pc)
    case Save(op, flag, running) => SaveMove(w, op, flag, running, c)
    case StopServer(op, flag) => StopMove(w, op, flag, c)
    case Launch(op, flag) => LaunchMove(w, op, flag, c)
    case StartUpdater(op, flag) => StartUpdaterMove(w, op, c)
    case AwaitReady(op, outcome) => ReadyMove(w, op, outcome, c)
    case Reexec(op) => if op.RestartIfRunning? then ReexecMove(w, op, c) else Goto(w, pc)
  }

  // ---------------------------------------------------------------- processes

  function PcOf(w: World, p: nat): Pc {
    if p in w.pcs then w.pcs[p] else Idle
  }

  predicate Holds(w: World, p: nat) {
    w.lock.Held? && w.lock.pid == p
  }

  /** A process moves; the holder's hold is continued or, at the end of its operation, released. */
  function Apply(w: World, p: nat, m: Move): World {
    var pc := match m.to case At(pc) => pc case Over(outcome) => Finished(outcome) case Stage(op) => Begin(op);
    var w1 := w.(shared := m.after, pcs := w.pcs[p := pc]);
    if !Holds(w, p) then w1
    else
      var effects := w.lock.effects + m.did;
      match m.to
      case At(_) => w1.(lock := w.lock.(effects := effects))
      case Stage(op) => w1.(lock := Held(p, w.lock.invoked, op, w.lock.earlier + effects, []))
      case Over(outcome) =>
        w1.(lock := Free, history := w.history + [Hold(p, w.lock.invoked, w.lock.op, w.lock.earlier, effects, outcome)])
  }

  /** Take the lock if it is free; otherwise sleep and try again, or give up. */
  function Wait(w: World, p: nat, op: Op, c: Choice): World {
    if c.Fails? then Apply(w, p, End(w.shared, Failed))
    else if w.lock.Free? then w.(lock := Held(p, op, op, [], []), pcs := w.pcs[p := Begin(op)])
    else w
  }

  /** Changing the flag and then starting is only ever a stage of another operation. */
  predicate External(op: Op) {
    !(op.SetRemoteControl? && op.thenStart)
  }

  function Next(w: World, s: Step): World {
    match s
    case Invoke(p, op) => if Busy(PcOf(w, p)) || !External(op) then w else w.(pcs := w.pcs[p := Waiting(op)])
    case Act(p, c) =>
      var pc := PcOf(w, p);
      if pc.Waiting? then Wait(w, p, pc.op, c) else if Active(pc) then Apply(w, p, MoveOf(w.shared, pc, c)) else w
    case Kill(p) => if Busy(PcOf(w, p)) then Apply(w, p, End(w.shared, Killed)) else w
    case Crash => w.(shared := w.shared.(managed := None))
    case UpdaterDies => w.(shared := w.shared.(updater := false))
    case UnmanagedChange(live) => w.(shared := w.shared.(unmanaged := live))
    case Install(binary) => w.(shared := w.shared.(installed := binary))
  }

  function Run(w: World, steps: seq<Step>): World {
    if steps == [] then w else Next(Run(w, steps[..|steps| - 1]), steps[|steps| - 1])
  }

  // ---------------------------------------------------------------- the lock

  /** The processes at work inside an operation are exactly the lock's holder. */
  ghost predicate Exclusive(w: World) {
    forall p: nat :: Active(PcOf(w, p)) <==> Holds(w, p)
  }

  lemma MovesStayActive(w: Shared, pc: Pc, c: Choice)
    requires Active(pc)
    ensures MoveOf(w, pc, c).to.At? ==> Active(MoveOf(w, pc, c).to.pc)
  {
  }

  /** Only process p moved, and it is active exactly if it holds the lock. */
  lemma ExclusiveAt(w: World, w': World, p: nat)
    requires Exclusive(w)
    requires forall q: nat | q != p :: PcOf(w', q) == PcOf(w, q) && (Holds(w', q) <==> Holds(w, q))
    requires Active(PcOf(w', p)) <==> Holds(w', p)
    ensures Exclusive(w')
  {
    forall q: nat ensures Active(PcOf(w', q)) <==> Holds(w', q) {
      assert Active(PcOf(w, q)) <==> Holds(w, q);
    }
  }

  lemma ExclusiveStep(w: World, s: Step)
    requires Exclusive(w)
    ensures Exclusive(Next(w, s))
  {
    if s.Act? || s.Kill? || s.Invoke? {
      assert Active(PcOf(w, s.pid)) <==> Holds(w, s.pid);
      if s.Act? && Active(PcOf(w, s.pid)) {
        MovesStayActive(w.shared, PcOf(w, s.pid), s.choice);
      }
      ExclusiveAt(w, Next(w, s), s.pid);
    } else {
      assert Active(PcOf(w, 0)) <==> Holds(w, 0);
      ExclusiveAt(w, Next(w, s), 0);
    }
  }

  lemma {:induction false} ExclusiveRun(w: World, steps: seq<Step>)
    requires Exclusive(w)
    ensures Exclusive(Run(w, steps))
  {
    if steps != [] {
      ExclusiveRun(w, steps[..|steps| - 1]);
      ExclusiveStep(Run(w, steps[..|steps| - 1]), steps[|steps| - 1]);
    }
  }

  /** Which move changes what. */
  lemma MoveChanges(w: Shared, pc: Pc, c: Choice)
    requires Active(pc)
    ensures var after := MoveOf(w, pc, c).after;
            && (after.settings != w.settings ==> pc.Save?)
            && (after.managed.Some? && after.managed != w.managed ==> pc.Launch? && w.managed.None?)
            && (after.managed.None? && w.managed.Some? ==> pc.StopServer?)
            && (after.updater && !w.updater ==> pc.StartUpdater?)
  {
  }

  /**
   Whatever the interleaving, the settings are written, the server is started or stopped and the updater is started
   only by the process that holds the lock at that moment; apart from that things only die.
  */
  lemma OnlyTheHolderActs(w: World, steps: seq<Step>, s: Step)
    requires Exclusive(w)
    ensures var w1 := Run(w, steps);
            var w2 := Next(w1, s);
            && (w2.shared.settings != w1.shared.settings ==> s.Act? && Holds(w1, s.pid) && PcOf(w1, s.pid).Save?)
            && (w2.shared.managed.Some? && w2.shared.managed != w1.shared.managed ==>
                  s.Act? && Holds(w1, s.pid) && PcOf(w1, s.pid).Launch? && w1.shared.managed.None?)
            && (w2.shared.managed.None? && w1.shared.managed.Some? ==>
                  s == Crash || (s.Act? && Holds(w1, s.pid) && PcOf(w1, s.pid).StopServer?))
            && (w2.shared.updater && !w1.shared.updater ==>
                  s.Act? && Holds(w1, s.pid) && PcOf(w1, s.pid).StartUpdater?)
  {
    ExclusiveRun(w, steps);
    var w1 := Run(w, steps);
    if s.Act? {
      var pc := PcOf(w1, s.pid);
      assert Active(pc) <==> Holds(w1, s.pid);
      if Active(pc) {
        MoveChanges(w1.shared, pc, s.choice);
        assert Next(w1, s).shared == MoveOf(w1.shared, pc, s.choice).after;
      }
    }
  }
}
