/** What each operation of the daemon does when nothing else moves and every call to the outside works. */
module DaemonAlone {
  import opened Common
  import opened Daemon
  import opened DaemonRuns

  /** What an operation leaves, what it did and how it ended. */
  datatype Result = Result(after: Shared, effects: seq<Effect>, outcome: Outcome)

  // ---------------------------------------------------------------- the promise

  /** The server is launched with this flag and seen ready, after `before`. */
  function Relaunching(w: Shared, before: seq<Effect>, flag: bool, binary: string, outcome: Outcome): Result {
    Result(w.(managed := Some(Server(flag, binary))), before + [Launched(flag, binary), SeenReady], outcome)
  }

  function StopFirst(w: Shared): seq<Effect> {
    if w.managed.Some? then [StoppedServer] else []
  }

  /** Changing the flag. A server that runs with the old one is replaced; none is started. */
  function SetAlone(w: Shared, flag: bool, enable: bool): Result {
    if flag == enable then Result(w, if w.managed.Some? then [SeenReady] else [], AlreadySet)
    else
      var saved := w.(settings := Stored(enable));
      if w.managed.None? then Result(saved, [SavedFlag(enable)], RemoteControlSet)
      else Relaunching(saved, [SavedFlag(enable), StoppedServer], enable, w.installed, RemoteControlSet)
  }

  function StartAlone(w: Shared, flag: bool): Result {
    if w.managed.Some? then Result(w, [], AlreadyRunning) else Relaunching(w, [], flag, w.installed, Started)
  }

  function SetThenStartAlone(w: Shared, flag: bool, enable: bool): Result {
    var set_ := SetAlone(w, flag, enable);
    var started := StartAlone(set_.after, enable);
    Result(started.after, set_.effects + started.effects, started.outcome)
  }

  function BootstrapAlone(w: Shared, enable: bool): Result {
    Result(w.(settings := Stored(enable), managed := Some(Server(enable, w.installed)), updater := true),
           [SavedFlag(enable)] + StopFirst(w) + [Launched(enable, w.installed), StartedUpdater, SeenReady],
           Bootstrapped)
  }

  /** The updater's check of a running server that reports `version`, with `managed` the version installed. */
  function UpdateAlone(w: Shared, flag: bool, updater: string, binary: string, version: string, managed: string): Result
  {
    var read := [ReadVersions(Versions(Some(version), Some(managed)))];
    var restarted := Relaunching(w, read + [StoppedServer], flag, binary, Restarted);
    if updater != binary then
      Result(restarted.after, restarted.effects + [ReplacedUpdater(updater, binary)], Reexeced)
    else if version == managed then Result(w, read, AlreadyCurrent)
    else restarted
  }

  /**
   Every operation. Settings that cannot be read stop all but a bootstrap; a server that answers but is not managed is
   left alone; apart from that the flag is the saved one, off if none is saved.
  */
  function Alone(w: Shared, op: Op, version: string, managed: string): Result {
    var flag := w.settings == Stored(true);
    if w.settings.Unreadable? && !op.Bootstrap? then Result(w, [], Failed)
    else if w.unmanaged && w.managed.None? then Result(w, [], if op.Start? then AlreadyRunning else NotManaged)
    else
      match op
      case Start => StartAlone(w, flag)
      case Restart => Relaunching(w, StopFirst(w), flag, w.installed, Restarted)
      case Stop =>
        if w.managed.Some? then Result(w.(managed := None), [StoppedServer], Stopped) else Result(w, [], NotRunning)
      case SetRemoteControl(enable, thenStart) =>
        if thenStart then SetThenStartAlone(w, flag, enable) else SetAlone(w, flag, enable)
      case Bootstrap(enable) => BootstrapAlone(w, enable)
      case EnsureRemoteControl => if w.updater then SetThenStartAlone(w, flag, true) else BootstrapAlone(w, true)
      case RestartIfRunning(updater, binary) =>
        if w.managed.None? then Result(w, [], NotRunning)
        else UpdateAlone(w, flag, updater, binary, version, managed)
  }

  // ---------------------------------------------------------------- playing an operation out

  /** Only the updater compares versions and replaces itself. */
  predicate Proper(pc: Pc) {
    Active(pc) && (pc.Decide? || pc.Reexec? ==> pc.op.RestartIfRunning?)
  }

  function Stages(op: Op): nat {
    if op.EnsureRemoteControl? then 2 else if op.SetRemoteControl? && op.thenStart then 1 else 0
  }

  function Distance(pc: Pc): nat {
    match pc
    case Begin(_) => 11
    case Probe(_, _) => 10
    case Owner(_, _) => 9
    case Save(op, _, _) => if op.Bootstrap? then 8 else 5
    case Check(_, _) => 7
    case Unowned(_, _) => 6
    case Decide(_, _) => 6
    case StopServer(_, _) => 4
    case Launch(_, _) => 3
    case StartUpdater(_, _) => 2
    case AwaitReady(_, _) => 1
    case _ => 0
  }

  /** Where a move leads: on in its operation, or to a later stage of it. */
  predicate Advanced(pc: Pc, to: Target)
    requires Active(pc)
  {
    && (to.At? ==> Proper(to.pc) && to.pc.op == pc.op && Distance(to.pc) < Distance(pc))
    && (to.Stage? ==> Stages(to.op) < Stages(pc.op))
  }

  lemma FindingAdvances(w: Shared, pc: Pc, c: Choice)
    requires Proper(pc) && Distance(pc) > 5
    ensures Advanced(pc, MoveOf(w, pc, c).to)
  {
  }

  lemma ChangingAdvances(w: Shared, pc: Pc, c: Choice)
    requires Proper(pc) && Distance(pc) <= 5
    ensures Advanced(pc, MoveOf(w, pc, c).to)
  {
  }

  lemma Advances(w: Shared, pc: Pc, c: Choice)
    requires Proper(pc)
    ensures Advanced(pc, MoveOf(w, pc, c).to)
  {
    if Distance(pc) > 5 {
      FindingAdvances(w, pc, c);
    } else {
      ChangingAdvances(w, pc, c);
    }
  }

  /** The operation continued to its end, every call with the same result. */
  function Play(w: Shared, pc: Pc, c: Choice): Result
    requires Proper(pc)
    decreases Stages(pc.op), Distance(pc)
  {
    Advances(w, pc, c);
    var m := MoveOf(w, pc, c);
    match m.to
    case Over(outcome) => Result(m.after, m.did, outcome)
    case At(next) => var r := Play(m.after, next, c); Result(r.after, m.did + r.effects, r.outcome)
    case Stage(op) => var r := Play(m.after, Begin(op), c); Result(r.after, m.did + r.effects, r.outcome)
  }

  // ---------------------------------------------------------------- the parts the operations share

  function Prepend(e: seq<Effect>, r: Result): Result {
    r.(effects := e + r.effects)
  }

  /** What is left of an operation that has come to this outcome: nothing, or the start after a change of the flag. */
  function Rest(w: Shared, op: Op, outcome: Outcome, c: Choice): Result {
    if op.SetRemoteControl? && op.thenStart then Play(w, Begin(Start), c) else Result(w, [], outcome)
  }

  lemma PrependTwice(a: seq<Effect>, b: seq<Effect>, r: Result)
    ensures Prepend(a, Prepend(b, r)) == Prepend(a + b, r)
  {
    assert a + (b + r.effects) == (a + b) + r.effects;
  }

  /** Waiting for a server that runs. */
  lemma ReadyPlay(w: Shared, op: Op, outcome: Outcome, c: Choice)
    requires c.Works? && w.managed.Some?
    ensures Play(w, AwaitReady(op, outcome), c) ==
            if op.RestartIfRunning? && op.updater != op.binary && outcome == Restarted
            then Result(w, [SeenReady, ReplacedUpdater(op.updater, op.binary)], Reexeced)
            else Prepend([SeenReady], Rest(w, op, outcome, c))
  {
    if op.RestartIfRunning? {
      assert Play(w, Reexec(op), c) == Result(w, [ReplacedUpdater(op.updater, op.binary)], Reexeced);
    }
  }

  lemma LaunchPlay(w: Shared, op: Op, flag: bool, c: Choice)
    requires c.Works? && w.managed.None? && !op.Bootstrap?
    ensures var binary := if op.RestartIfRunning? then op.binary else w.installed;
            var up := w.(managed := Some(Server(flag, binary)));
            Play(w, Launch(op, flag), c)
                == Prepend([Launched(flag, binary)], Play(up, AwaitReady(op, OutcomeOf(op)), c))
  {
  }

  lemma BootstrapLaunchPlay(w: Shared, op: Op, flag: bool, c: Choice)
    requires c.Works? && w.managed.None? && op.Bootstrap?
    ensures Play(w, Launch(op, flag), c) ==
            Result(w.(managed := Some(Server(flag, w.installed)), updater := true),
                   [Launched(flag, w.installed), StartedUpdater, SeenReady], Bootstrapped)
  {
    var up := w.(managed := Some(Server(flag, w.installed)));
    UpdaterPlay(up, op, flag, c);
    assert Play(w, Launch(op, flag), c) == Prepend([Launched(flag, w.installed)], Play(up, StartUpdater(op, flag), c));
  }

  lemma UpdaterPlay(w: Shared, op: Op, flag: bool, c: Choice)
    requires c.Works? && w.managed.Some? && op.Bootstrap?
    ensures Play(w, StartUpdater(op, flag), c) ==
            Result(w.(updater := true), [StartedUpdater, SeenReady], Bootstrapped)
  {
    ReadyPlay(w.(updater := true), op, Bootstrapped, c);
  }

  lemma StopPlay(w: Shared, op: Op, flag: bool, c: Choice)
    requires c.Works?
    ensures var down := w.(managed := None);
            Play(w, StopServer(op, flag), c) ==
            if op.Stop? then Result(down, [StoppedServer], Stopped)
            else Prepend([StoppedServer], Play(down, Launch(op, flag), c))
  {
  }

  /** Stopping the server and launching it again, for all but a bootstrap. */
  lemma ReplacePlay(w: Shared, op: Op, flag: bool, c: Choice)
    requires c.Works? && !op.Stop? && !op.Bootstrap?
    ensures var binary := if op.RestartIfRunning? then op.binary else w.installed;
            var up := w.(managed := Some(Server(flag, binary)));
            Play(w, StopServer(op, flag), c) ==
            Prepend([StoppedServer, Launched(flag, binary)], Play(up, AwaitReady(op, OutcomeOf(op)), c))
  {
    var binary := if op.RestartIfRunning? then op.binary else w.installed;
    StopPlay(w, op, flag, c);
    LaunchPlay(w.(managed := None), op, flag, c);
    PrependTwice([StoppedServer], [Launched(flag, binary)],
                 Play(w.(managed := Some(Server(flag, binary))), AwaitReady(op, OutcomeOf(op)), c));
    assert [StoppedServer] + [Launched(flag, binary)] == [StoppedServer, Launched(flag, binary)];
  }

  // ---------------------------------------------------------------- each operation

  /** A machine whose settings can be read, with this flag, and where no foreign server answers. */
  predicate Plain(w: Shared, flag: bool) {
    (w.settings == Stored(flag) || (w.settings == Missing && !flag)) && (w.unmanaged ==> w.managed.Some?)
  }

  lemma StartPlay(w: Shared, flag: bool, c: Choice)
    requires Plain(w, flag) && c.Works?
    ensures Play(w, Begin(Start), c) == StartAlone(w, flag)
  {
    if w.managed.Some? {
      assert Play(w, Owner(Start, flag), c) == Result(w, [], AlreadyRunning);
      assert Play(w, Probe(Start, flag), c) == Result(w, [], AlreadyRunning);
    } else {
      var up := w.(managed := Some(Server(flag, w.installed)));
      LaunchPlay(w, Start, flag, c);
      ReadyPlay(up, Start, Started, c);
      var r := StartAlone(w, flag);
      assert r.effects == [Launched(flag, w.installed)] + [SeenReady];
      assert Play(w, Check(Start, flag), c) == r;
      assert Play(w, Probe(Start, flag), c) == r;
    }
  }

  lemma RestartPlay(w: Shared, flag: bool, c: Choice)
    requires Plain(w, flag) && c.Works?
    ensures Play(w, Begin(Restart), c) == Relaunching(w, StopFirst(w), flag, w.installed, Restarted)
  {
    var r := Relaunching(w, StopFirst(w), flag, w.installed, Restarted);
    RestartChecks(w, flag, c);
    assert w.managed.Some? ==> Play(w, Owner(Restart, flag), c) == r;
    assert Play(w, Probe(Restart, flag), c) == r;
  }

  lemma RestartChecks(w: Shared, flag: bool, c: Choice)
    requires c.Works?
    ensures Play(w, Check(Restart, flag), c) == Relaunching(w, StopFirst(w), flag, w.installed, Restarted)
  {
    ReadyPlay(w.(managed := Some(Server(flag, w.installed))), Restart, Restarted, c);
    if w.managed.Some? {
      ReplacePlay(w, Restart, flag, c);
      assert [StoppedServer, Launched(flag, w.installed)] + [SeenReady]
          == [StoppedServer] + [Launched(flag, w.installed), SeenReady];
    } else {
      LaunchPlay(w, Restart, flag, c);
      assert [Launched(flag, w.installed)] + [SeenReady] == [] + [Launched(flag, w.installed), SeenReady];
    }
  }

  lemma StopOpPlay(w: Shared, flag: bool, c: Choice)
    requires Plain(w, flag) && c.Works?
    ensures Play(w, Begin(Stop), c) ==
            if w.managed.Some? then Result(w.(managed := None), [StoppedServer], Stopped) else Result(w, [], NotRunning)
  {
    if w.managed.Some? {
      StopPlay(w, Stop, flag, c);
      assert Play(w, Check(Stop, flag), c) == Result(w.(managed := None), [StoppedServer], Stopped);
    } else {
      assert Play(w, Unowned(Stop, flag), c) == Result(w, [], NotRunning);
      assert Play(w, Check(Stop, flag), c) == Result(w, [], NotRunning);
    }
  }

  /** Changing the flag, up to the start that may follow. */
  lemma SetPlay(w: Shared, op: Op, flag: bool, c: Choice)
    requires Plain(w, flag) && c.Works? && op.SetRemoteControl?
    ensures var r := SetAlone(w, flag, op.enable);
            Play(w, Begin(op), c) == Prepend(r.effects, Rest(r.after, op, r.outcome, c))
  {
    if w.managed.Some? {
      SetRunningPlay(w, op, flag, c);
    } else {
      SetStoppedPlay(w, op, flag, c);
    }
    assert Play(w, Begin(op), c) == Prepend([], Play(w, Check(op, flag), c));
  }

  lemma SetRunningPlay(w: Shared, op: Op, flag: bool, c: Choice)
    requires c.Works? && op.SetRemoteControl? && w.managed.Some?
    ensures var r := SetAlone(w, flag, op.enable);
            Play(w, Check(op, flag), c) == Prepend(r.effects, Rest(r.after, op, r.outcome, c))
  {
    if flag == op.enable {
      ReadyPlay(w, op, AlreadySet, c);
    } else {
      SetSavesPlay(w, op, c);
    }
  }

  lemma SetStoppedPlay(w: Shared, op: Op, flag: bool, c: Choice)
    requires c.Works? && op.SetRemoteControl? && w.managed.None? && !w.unmanaged
    ensures var r := SetAlone(w, flag, op.enable);
            Play(w, Check(op, flag), c) == Prepend(r.effects, Rest(r.after, op, r.outcome, c))
  {
    SetSavesPlay(w, op, c);
    var r := SetAlone(w, flag, op.enable);
    assert Play(w, Unowned(op, flag), c) == Prepend(r.effects, Rest(r.after, op, r.outcome, c));
  }

  lemma SetSavesPlay(w: Shared, op: Op, c: Choice)
    requires c.Works? && op.SetRemoteControl?
    ensures var r := SetAlone(w, !op.enable, op.enable);
            Play(w, Save(op, op.enable, w.managed.Some?), c) == Prepend(r.effects, Rest(r.after, op, r.outcome, c))
  {
    var saved, up := w.(settings := Stored(op.enable)), Some(Server(op.enable, w.installed));
    if w.managed.Some? {
      var rest := Rest(saved.(managed := up), op, RemoteControlSet, c);
      ReplacePlay(saved, op, op.enable, c);
      ReadyPlay(saved.(managed := up), op, RemoteControlSet, c);
      PrependTwice([StoppedServer, Launched(op.enable, w.installed)], [SeenReady], rest);
      PrependTwice([SavedFlag(op.enable)], [StoppedServer, Launched(op.enable, w.installed)] + [SeenReady], rest);
      assert [SavedFlag(op.enable)] + ([StoppedServer, Launched(op.enable, w.installed)] + [SeenReady])
          == [SavedFlag(op.enable), StoppedServer] + [Launched(op.enable, w.installed), SeenReady];
    }
  }

  lemma SetOpPlay(w: Shared, op: Op, flag: bool, c: Choice)
    requires Plain(w, flag) && c.Works? && op.SetRemoteControl?
    ensures Play(w, Begin(op), c) ==
            if op.thenStart then SetThenStartAlone(w, flag, op.enable) else SetAlone(w, flag, op.enable)
  {
    SetPlay(w, op, flag, c);
    if op.thenStart {
      StartPlay(SetAlone(w, flag, op.enable).after, op.enable, c);
    }
  }

  /** A bootstrap that has saved its flag. */
  lemma BootstrapLaunches(w: Shared, op: Op, c: Choice)
    requires c.Works? && op.Bootstrap?
    ensures Play(w, Check(op, op.enable), c) ==
            Result(w.(managed := Some(Server(op.enable, w.installed)), updater := true),
                   StopFirst(w) + [Launched(op.enable, w.installed), StartedUpdater, SeenReady], Bootstrapped)
  {
    BootstrapLaunchPlay(w.(managed := None), op, op.enable, c);
    if w.managed.Some? {
      StopPlay(w, op, op.enable, c);
    } else {
      assert w.(managed := None) == w;
    }
  }

  lemma BootstrapSaves(w: Shared, op: Op, running: bool, c: Choice)
    requires c.Works? && op.Bootstrap?
    ensures Play(w, Save(op, op.enable, running), c) == BootstrapAlone(w, op.enable)
  {
    var launched := [Launched(op.enable, w.installed), StartedUpdater, SeenReady];
    BootstrapLaunches(w.(settings := Stored(op.enable)), op, c);
    assert [SavedFlag(op.enable)] + (StopFirst(w) + launched) == [SavedFlag(op.enable)] + StopFirst(w) + launched;
  }

  lemma BootstrapPlay(w: Shared, enable: bool, c: Choice)
    requires c.Works? && (w.unmanaged ==> w.managed.Some?)
    ensures Play(w, Begin(Bootstrap(enable)), c) == BootstrapAlone(w, enable)
  {
    var op, r := Bootstrap(enable), BootstrapAlone(w, enable);
    BootstrapSaves(w, op, w.managed.Some?, c);
    assert w.managed.Some? ==> Play(w, Owner(op, enable), c) == r;
    assert Play(w, Probe(op, enable), c) == r;
  }

  lemma EnsurePlay(w: Shared, flag: bool, c: Choice)
    requires Plain(w, flag) && c.Works?
    ensures Play(w, Begin(EnsureRemoteControl), c) ==
            if w.updater then SetThenStartAlone(w, flag, true) else BootstrapAlone(w, true)
  {
    if w.updater {
      SetOpPlay(w, SetRemoteControl(true, true), flag, c);
    } else {
      BootstrapPlay(w, true, c);
    }
  }

  lemma UpdatePlay(w: Shared, op: Op, flag: bool, c: Choice)
    requires Plain(w, flag) && c.Works? && op.RestartIfRunning?
    ensures Play(w, Begin(op), c) ==
            if w.managed.None? then Result(w, [], NotRunning)
            else UpdateAlone(w, flag, op.updater, op.binary, c.version, c.managedVersion)
  {
    if w.managed.None? {
      assert Play(w, Unowned(op, flag), c) == Result(w, [], NotRunning);
      assert Play(w, Check(op, flag), c) == Result(w, [], NotRunning);
    } else {
      var r := UpdateAlone(w, flag, op.updater, op.binary, c.version, c.managedVersion);
      DecidePlay(w, op, flag, c);
      assert Play(w, Check(op, flag), c) == r;
    }
  }

  /** The updater's restart. */
  lemma UpdaterRestartPlay(w: Shared, op: Op, flag: bool, c: Choice)
    requires c.Works? && op.RestartIfRunning?
    ensures var restarted := Relaunching(w, [StoppedServer], flag, op.binary, Restarted);
            Play(w, StopServer(op, flag), c) ==
            if op.updater == op.binary then restarted
            else Result(restarted.after, restarted.effects + [ReplacedUpdater(op.updater, op.binary)], Reexeced)
  {
    var launched, replaced := Launched(flag, op.binary), ReplacedUpdater(op.updater, op.binary);
    ReplacePlay(w, op, flag, c);
    ReadyPlay(w.(managed := Some(Server(flag, op.binary))), op, Restarted, c);
    assert [StoppedServer, launched] + [SeenReady] == [StoppedServer] + [launched, SeenReady];
    assert [StoppedServer, launched] + [SeenReady, replaced] == [StoppedServer] + [launched, SeenReady] + [replaced];
  }

  lemma DecidePlay(w: Shared, op: Op, flag: bool, c: Choice)
    requires c.Works? && op.RestartIfRunning? && w.managed.Some?
    ensures Play(w, Decide(op, flag), c) == UpdateAlone(w, flag, op.updater, op.binary, c.version, c.managedVersion)
  {
    var read := [ReadVersions(Versions(Some(c.version), Some(c.managedVersion)))];
    if op.updater == op.binary && c.version == c.managedVersion {
      assert MoveOf(w, Decide(op, flag), c) == Move(w, read, Over(AlreadyCurrent));
    } else {
      assert MoveOf(w, Decide(op, flag), c) == Move(w, read, At(StopServer(op, flag)));
      var launched, replaced := [Launched(flag, op.binary), SeenReady], [ReplacedUpdater(op.updater, op.binary)];
      UpdaterRestartPlay(w, op, flag, c);
      Joins(read, [StoppedServer], launched, replaced);
    }
  }

  lemma Joins(a: seq<Effect>, b: seq<Effect>, c: seq<Effect>, d: seq<Effect>)
    ensures a + (b + c) == a + b + c && a + (b + c + d) == a + b + c + d
  {
  }

  /** A foreign server makes every operation give way. */
  lemma {:induction false} ForeignPlay(w: Shared, op: Op, c: Choice)
    requires c.Works? && w.unmanaged && w.managed.None? && (op.Bootstrap? || !w.settings.Unreadable?)
    ensures Play(w, Begin(op), c) == Result(w, [], if op.Start? then AlreadyRunning else NotManaged)
    decreases Stages(op)
  {
    var flag := if op.Bootstrap? then op.enable else w.settings == Stored(true);
    var r := Result(w, [], if op.Start? then AlreadyRunning else NotManaged);
    if op.EnsureRemoteControl? {
      ForeignPlay(w, if w.updater then SetRemoteControl(true, true) else Bootstrap(true), c);
    } else if op.Start? || op.Restart? || op.Bootstrap? {
      assert Play(w, Owner(op, flag), c) == r;
      assert Play(w, Probe(op, flag), c) == r;
    } else {
      assert Play(w, Unowned(op, flag), c) == r;
      assert Play(w, Check(op, flag), c) == r;
    }
  }

  lemma AlonePlay(w: Shared, op: Op, c: Choice)
    requires c.Works?
    ensures Play(w, Begin(op), c) == Alone(w, op, c.version, c.managedVersion)
  {
    var flag := w.settings == Stored(true);
    if w.settings.Unreadable? && !op.Bootstrap? {
    } else if w.unmanaged && w.managed.None? {
      ForeignPlay(w, op, c);
    } else {
      match op
      case Start => StartPlay(w, flag, c);
      case Restart => RestartPlay(w, flag, c);
      case Stop => StopOpPlay(w, flag, c);
      case SetRemoteControl(_, _) => SetOpPlay(w, op, flag, c);
      case Bootstrap(enable) => BootstrapPlay(w, enable, c);
      case EnsureRemoteControl => EnsurePlay(w, flag, c);
      case RestartIfRunning(_, _) => UpdatePlay(w, op, flag, c);
    }
  }

  // ---------------------------------------------------------------- as a run

  function Acts(p: nat, c: Choice, n: nat): seq<Step> {
    if n == 0 then [] else [Act(p, c)] + Acts(p, c, n - 1)
  }

  lemma {:induction false} RunFrom(w: World, s: Step, steps: seq<Step>)
    ensures Run(w, [s] + steps) == Run(Next(w, s), steps)
  {
    var n := |steps|;
    if n == 0 {
      assert [s] + steps == [] + [s] && steps == [];
      RunAppend(w, [], s);
    } else {
      RunFrom(w, s, steps[..n - 1]);
      RunAppend(w, [s] + steps[..n - 1], steps[n - 1]);
      RunAppend(Next(w, s), steps[..n - 1], steps[n - 1]);
      assert [s] + steps[..n - 1] + [steps[n - 1]] == [s] + steps && steps[..n - 1] + [steps[n - 1]] == steps;
    }
  }

  /** The hold that the holder's operation ends in, given what had been done before and what is left. */
  predicate Ends(w: World, w': World, r: Result) {
    && w.lock.Held? && w'.lock.Free? && w'.shared == r.after
    && |w'.history| == |w.history| + 1 && w.history <= w'.history
    && PcOf(w', w.lock.pid) == Finished(r.outcome)
    && var h := w'.history[|w.history|];
       && h.pid == w.lock.pid && h.invoked == w.lock.invoked && h.outcome == r.outcome
       && h.earlier + h.effects == w.lock.earlier + w.lock.effects + r.effects
  }

  lemma EndsNow(w: World, p: nat, m: Move)
    requires Holds(w, p) && m.to.Over?
    ensures Ends(w, Apply(w, p, m), Result(m.after, m.did, m.to.outcome))
  {
    assert w.lock.earlier + (w.lock.effects + m.did) == w.lock.earlier + w.lock.effects + m.did;
  }

  lemma EndsLater(w: World, p: nat, m: Move, w': World, r: Result)
    requires Holds(w, p) && !m.to.Over? && Ends(Apply(w, p, m), w', r)
    ensures Ends(w, w', Result(r.after, m.did + r.effects, r.outcome))
  {
    Joins(w.lock.earlier, w.lock.effects, m.did, r.effects);
    assert w.lock.earlier + w.lock.effects + (m.did + r.effects) == w.lock.earlier + w.lock.effects + m.did + r.effects;
    assert w.lock.earlier + (w.lock.effects + m.did) + [] == w.lock.earlier + (w.lock.effects + m.did);
  }

  function Onward(to: Target): Pc
    requires !to.Over?
  {
    match to case At(pc) => pc case Stage(op) => Begin(op)
  }

  /** One step of the holder, in the world and in the play. */
  lemma OneMove(w: World, p: nat, pc: Pc, c: Choice) returns (m: Move, w1: World)
    requires Holds(w, p) && PcOf(w, p) == pc && Proper(pc)
    ensures w1 == Apply(w, p, m) && w1 == Next(w, Act(p, c))
    ensures m.to.Over? ==> Play(w.shared, pc, c) == Result(m.after, m.did, m.to.outcome)
    ensures !m.to.Over? ==>
              var next := Onward(m.to);
              && Holds(w1, p) && PcOf(w1, p) == next && Proper(next) && w1.shared == m.after
              && (Stages(next.op) < Stages(pc.op) || (next.op == pc.op && Distance(next) < Distance(pc)))
              && Play(w.shared, pc, c) == Prepend(m.did, Play(m.after, next, c))
  {
    Advances(w.shared, pc, c);
    m := MoveOf(w.shared, pc, c);
    w1 := Apply(w, p, m);
  }

  lemma ActsFirst(w: World, p: nat, c: Choice, k: nat)
    ensures Run(w, Acts(p, c, k + 1)) == Run(Next(w, Act(p, c)), Acts(p, c, k))
  {
    RunFrom(w, Act(p, c), Acts(p, c, k));
  }

  /** Each world is the one before it after a step of the process. */
  predicate Linked(ws: seq<World>, p: nat, c: Choice) {
    |ws| < 2 || (ws[1] == Next(ws[0], Act(p, c)) && Linked(ws[1..], p, c))
  }

  lemma LinkedCons(w: World, ws: seq<World>, p: nat, c: Choice)
    requires ws != [] && ws[0] == Next(w, Act(p, c)) && Linked(ws, p, c)
    ensures Linked([w] + ws, p, c)
  {
    assert ([w] + ws)[1..] == ws;
  }

  lemma {:induction false} LinkedRun(ws: seq<World>, p: nat, c: Choice)
    requires ws != [] && Linked(ws, p, c)
    ensures Run(ws[0], Acts(p, c, |ws| - 1)) == ws[|ws| - 1]
  {
    if |ws| > 1 {
      LinkedRun(ws[1..], p, c);
      ActsFirst(ws[0], p, c, |ws| - 2);
    }
  }

  /** From one of these worlds to the last of them the holder's operation ends this way. */
  predicate Reaches(ws: seq<World>, p: nat, c: Choice, r: Result) {
    ws != [] && Linked(ws, p, c) && Ends(ws[0], ws[|ws| - 1], r)
  }

  lemma LastMove(w: World, p: nat, pc: Pc, c: Choice, m: Move, w1: World)
    requires Holds(w, p) && m.to.Over? && w1 == Next(w, Act(p, c)) && w1 == Apply(w, p, m)
    ensures Reaches([w, w1], p, c, Result(m.after, m.did, m.to.outcome))
  {
    EndsNow(w, p, m);
  }

  lemma EarlierMove(w: World, p: nat, c: Choice, m: Move, ws: seq<World>, r: Result)
    requires Holds(w, p) && !m.to.Over? && ws != [] && ws[0] == Next(w, Act(p, c)) && ws[0] == Apply(w, p, m)
    requires Reaches(ws, p, c, r)
    ensures Reaches([w] + ws, p, c, Prepend(m.did, r))
  {
    LinkedCons(w, ws, p, c);
    EndsLater(w, p, m, ws[|ws| - 1], r);
  }

  lemma {:induction false} PlaysOut(w: World, p: nat, pc: Pc, c: Choice) returns (ws: seq<World>)
    requires Holds(w, p) && PcOf(w, p) == pc && Proper(pc)
    ensures ws != [] && ws[0] == w && Reaches(ws, p, c, Play(w.shared, pc, c))
    decreases Stages(pc.op), Distance(pc)
  {
    var m, w1 := OneMove(w, p, pc, c);
    if m.to.Over? {
      ws := [w, w1];
      LastMove(w, p, pc, c, m, w1);
    } else {
      var rest := PlaysOut(w1, p, Onward(m.to), c);
      ws := [w] + rest;
      EarlierMove(w, p, c, m, rest, Play(m.after, Onward(m.to), c));
    }
  }

  /** A process that waits takes the lock if it is free and can give up at any time; nothing else changes. */
  lemma Waits(w: World, p: nat, op: Op, c: Choice)
    requires PcOf(w, p) == Waiting(op) && !Holds(w, p)
    ensures Next(w, Act(p, c)) ==
            if c.Fails? then w.(pcs := w.pcs[p := Finished(Failed)])
            else if w.lock.Free? then w.(lock := Held(p, op, op, [], []), pcs := w.pcs[p := Begin(op)]) else w
    ensures Next(w, Kill(p)) == w.(pcs := w.pcs[p := Finished(Killed)])
  {
  }

  /** The world after process p has taken the free lock. */
  function Entered(w: World, p: nat, op: Op): World {
    w.(lock := Held(p, op, op, [], []), pcs := w.pcs[p := Begin(op)])
  }

  lemma Enters(w: World, p: nat, op: Op, c: Choice, k: nat) returns (steps: seq<Step>)
    requires w.lock.Free? && !Busy(PcOf(w, p)) && External(op) && c.Works?
    ensures steps == [Invoke(p, op)] + Acts(p, c, k + 1)
    ensures Run(w, steps) == Run(Entered(w, p, op), Acts(p, c, k))
  {
    var w1 := Next(w, Invoke(p, op));
    assert PcOf(w1, p) == Waiting(op);
    var w2 := Next(w1, Act(p, c));
    assert w2.pcs == w.pcs[p := Begin(op)];
    steps := [Invoke(p, op)] + Acts(p, c, k + 1);
    RunFrom(w, Invoke(p, op), Acts(p, c, k + 1));
    ActsFirst(w1, p, c, k);
  }

  /** Process p has performed this operation in one hold, alone, and released the lock. */
  predicate Performed(w: World, p: nat, op: Op, w': World, r: Result) {
    && w'.lock.Free? && PcOf(w', p) == Finished(r.outcome) && w'.shared == r.after
    && |w'.history| == |w.history| + 1 && w.history <= w'.history
    && var h := w'.history[|w.history|];
       h.pid == p && h.invoked == op && h.outcome == r.outcome && h.earlier + h.effects == r.effects
  }

  lemma EndsPerformed(w: World, p: nat, op: Op, w': World, r: Result)
    requires Ends(Entered(w, p, op), w', r)
    ensures Performed(w, p, op, w', r)
  {
    assert [] + [] + r.effects == r.effects;
  }

  lemma PlaysFromBegin(w: World, p: nat, op: Op, c: Choice) returns (k: nat, w': World)
    requires c.Works?
    ensures w' == Run(Entered(w, p, op), Acts(p, c, k))
    ensures Performed(w, p, op, w', Alone(w.shared, op, c.version, c.managedVersion))
  {
    var ws := PlaysOut(Entered(w, p, op), p, Begin(op), c);
    k, w' := |ws| - 1, ws[|ws| - 1];
    AlonePlay(w.shared, op, c);
    EndsPerformed(w, p, op, w', Play(w.shared, Begin(op), c));
    LinkedRun(ws, p, c);
  }

  /**
   An operation that is invoked while the lock is free, and whose calls all work while nothing else moves, takes the
   lock, does exactly what `Alone` says, reports that outcome and releases the lock.
  */
  lemma OperationAlone(w: World, p: nat, op: Op, version: string, managed: string)
    returns (n: nat, steps: seq<Step>, w': World)
    requires w.lock.Free? && !Busy(PcOf(w, p)) && External(op)
    ensures steps == [Invoke(p, op)] + Acts(p, Works(version, managed), n) && w' == Run(w, steps)
    ensures Performed(w, p, op, w', Alone(w.shared, op, version, managed))
  {
    n, w' := PlaysFromBegin(w, p, op, Works(version, managed));
    steps := Enters(w, p, op, Works(version, managed), n);
    n := n + 1;
  }

  /**
   A call that fails ends the operation, wherever it is, with nothing more done than the part of a failed save, stop
   or start of the updater that may have happened; only a probe that fails is an answer.
  */
  lemma FailedCallEnds(w: World, p: nat, partial: bool)
    requires Exclusive(w) && Holds(w, p) && Proper(PcOf(w, p))
    requires var pc := PcOf(w, p); !pc.Probe? && !pc.Unowned? && !pc.Decide? && (pc.AwaitReady? ==> !w.shared.unmanaged)
    ensures var w', pc := Next(w, Act(p, Fails(partial))), PcOf(w, p);
            && w'.lock.Free? && PcOf(w', p) == Finished(Failed)
            && w'.history == w.history + [Hold(p, w.lock.invoked, w.lock.op, w.lock.earlier, w.lock.effects, Failed)]
            && w'.shared == (if !partial then w.shared
                             else if pc.Save? then w.shared.(settings := Unreadable)
                             else if pc.StopServer? then w.shared.(managed := None)
                             else if pc.StartUpdater? then w.shared.(updater := false) else w.shared)
  {
    assert w.lock.effects + [] == w.lock.effects;
  }
}
