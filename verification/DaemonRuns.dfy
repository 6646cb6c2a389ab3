/** What every run of the daemon's operations keeps: settings agreement, legal traces, and hands off foreign servers. */
module DaemonRuns {
  import opened Common
  import opened Daemon

  // ---------------------------------------------------------------- agreement with the settings

  /** A running managed server has the saved remote-control flag. */
  predicate Agreed(w: Shared) {
    match w.settings
    case Missing => w.managed.Some? ==> !w.managed.value.flag
    case Stored(flag) => w.managed.Some? ==> w.managed.value.flag == flag
    case Unreadable => true
  }

  /** Between saving a new flag and stopping the server that still has the old one. */
  predicate Window(pc: Pc) {
    (pc.StopServer? && pc.op.SetRemoteControl?) || ((pc.Check? || pc.StopServer?) && pc.op.Bootstrap?)
  }

  /** What an operation relies on at each point, as long as nobody else saves, starts or stops. */
  predicate PcOk(pc: Pc, w: Shared) {
    match pc
    case Probe(op, flag) => (op.Start? || op.Restart? || op.Bootstrap?) && Knows(op, flag, w)
    case Owner(op, flag) => (op.Start? || op.Restart? || op.Bootstrap?) && Knows(op, flag, w)
    case Check(op, flag) =>
      !op.EnsureRemoteControl? && Load(w.settings) == Some(flag) && (op.Bootstrap? ==> flag == op.enable)
    case Unowned(op, flag) =>
      (op.Stop? || op.SetRemoteControl? || op.RestartIfRunning?) && Load(w.settings) == Some(flag) && w.managed.None?
    case Decide(op, flag) => op.RestartIfRunning? && Load(w.settings) == Some(flag)
    case Save(op, flag, running) =>
      || (op.Bootstrap? && flag == op.enable)
      || (op.SetRemoteControl? && flag == op.enable && Load(w.settings) == Some(!flag) && (running || w.managed.None?))
    case StopServer(op, flag) =>
      && !op.Start? && !op.EnsureRemoteControl? && Load(w.settings) == Some(flag)
      && (op.Bootstrap? || op.SetRemoteControl? ==> flag == op.enable)
    case Launch(op, flag) =>
      && !op.Stop? && !op.EnsureRemoteControl? && Load(w.settings) == Some(flag) && w.managed.None?
      && (op.Bootstrap? || op.SetRemoteControl? ==> flag == op.enable)
    case StartUpdater(op, flag) => op.Bootstrap? && Agreed(w) && Load(w.settings) == Some(op.enable)
    case AwaitReady(op, outcome) =>
      && (op.SetRemoteControl? || op.Bootstrap? ==> Load(w.settings) == Some(op.enable))
      && (|| (op.Start? && outcome == AlreadyRunning) || (op.SetRemoteControl? && outcome == AlreadySet)
          || (!op.Stop? && !op.EnsureRemoteControl? && outcome == OutcomeOf(op) && Agreed(w)))
    case Reexec(op) => op.RestartIfRunning? && Agreed(w)
    case _ => true
  }

  predicate Knows(op: Op, flag: bool, w: Shared) {
    if op.Bootstrap? then flag == op.enable else Load(w.settings) == Some(flag)
  }

  lemma MovePcOk(w: Shared, pc: Pc, c: Choice)
    requires Active(pc) && PcOk(pc, w)
    ensures var m := MoveOf(w, pc, c); m.to.At? ==> PcOk(m.to.pc, m.after)
  {
  }

  /** Agreement survives every move except one that ends an operation inside the window. */
  lemma MoveAgreed(w: Shared, pc: Pc, c: Choice)
    requires Active(pc) && PcOk(pc, w) && (Agreed(w) || Window(pc))
    ensures var m := MoveOf(w, pc, c);
            Agreed(m.after) || (m.to.At? && Window(m.to.pc)) || (m.to.Over? && Window(pc))
  {
  }

  /** The lock excludes, and its holder's assumptions hold. */
  ghost predicate Sound(w: World) {
    Exclusive(w) && (w.lock.Held? ==> PcOk(PcOf(w, w.lock.pid), w.shared))
  }

  /** The holder's next position is one its assumptions hold at. */
  lemma ApplyPcOk(w: World, p: nat, m: Move)
    requires Holds(w, p) && (m.to.At? ==> PcOk(m.to.pc, m.after))
    ensures var w' := Apply(w, p, m); w'.lock.Held? ==> PcOk(PcOf(w', w'.lock.pid), w'.shared)
  {
  }

  /** Nothing an operation relies on can be taken away by the environment. */
  lemma EnvironmentPcOk(pc: Pc, w: Shared, w': Shared)
    requires PcOk(pc, w) && w'.settings == w.settings && (w'.managed == w.managed || w'.managed.None?)
    ensures PcOk(pc, w')
  {
  }

  lemma SoundStep(w: World, s: Step)
    requires Sound(w)
    ensures Sound(Next(w, s))
  {
    ExclusiveStep(w, s);
    if s.Act? || s.Kill? || s.Invoke? {
      var pc := PcOf(w, s.pid);
      assert Active(pc) <==> Holds(w, s.pid);
      if s.Act? && Active(pc) {
        MovePcOk(w.shared, pc, s.choice);
        ApplyPcOk(w, s.pid, MoveOf(w.shared, pc, s.choice));
      }
    } else if w.lock.Held? {
      EnvironmentPcOk(PcOf(w, w.lock.pid), w.shared, Next(w, s).shared);
    }
  }

  lemma {:induction false} SoundRun(w: World, steps: seq<Step>)
    requires Sound(w)
    ensures Sound(Run(w, steps))
  {
    if steps != [] {
      SoundRun(w, steps[..|steps| - 1]);
      SoundStep(Run(w, steps[..|steps| - 1]), steps[|steps| - 1]);
    }
  }

  /** The holder is changing the flag and the server it found still runs with the old one. */
  predicate Stale(pc: Pc, w: Shared) {
    pc.StopServer? && pc.op.SetRemoteControl? && w.managed.Some? ==> w.managed.value.flag != pc.flag
  }

  /** Agreement, except inside the window of the operation in progress. */
  predicate Settled(w: World) {
    if w.lock.Free? then Agreed(w.shared)
    else
      var pc := PcOf(w, w.lock.pid);
      (Agreed(w.shared) || Window(pc)) && Stale(pc, w.shared)
  }

  /** The holder is killed, or a call of its fails, between its save and its stop. */
  predicate Interrupts(w: World, s: Step) {
    && w.lock.Held? && Window(PcOf(w, w.lock.pid))
    && (s == Kill(w.lock.pid) || (s.Act? && s.pid == w.lock.pid && s.choice.Fails?))
  }

  lemma MoveStale(w: Shared, pc: Pc, c: Choice)
    requires Active(pc) && PcOk(pc, w) && (Agreed(w) || Window(pc)) && Stale(pc, w)
    ensures var m := MoveOf(w, pc, c); m.to.At? ==> Stale(m.to.pc, m.after)
  {
  }

  lemma SettledStep(w: World, s: Step)
    requires Sound(w) && Settled(w) && !Interrupts(w, s)
    ensures Settled(Next(w, s))
  {
    if s.Act? || s.Kill? || s.Invoke? {
      assert Active(PcOf(w, s.pid)) <==> Holds(w, s.pid);
      if s.Act? && Active(PcOf(w, s.pid)) {
        MoveAgreed(w.shared, PcOf(w, s.pid), s.choice);
        MoveStale(w.shared, PcOf(w, s.pid), s.choice);
      }
    }
  }

  /**
   Settings agreement. In every run in which no operation ends between saving a flag and stopping the server that has
   the old one, a running managed server has the saved flag whenever the lock is free.
  */
  lemma {:induction false} SettingsAgreement(w: World, steps: seq<Step>)
    requires Sound(w) && Settled(w)
    requires forall k | 0 <= k < |steps| :: !Interrupts(Run(w, steps[..k]), steps[k])
    ensures Settled(Run(w, steps))
    ensures Run(w, steps).lock.Free? ==> Agreed(Run(w, steps).shared)
  {
    if steps != [] {
      var n := |steps| - 1;
      forall k | 0 <= k < n ensures !Interrupts(Run(w, steps[..n][..k]), steps[..n][k]) {
        assert steps[..n][..k] == steps[..k];
      }
      SettingsAgreement(w, steps[..n]);
      SoundRun(w, steps[..n]);
      assert !Interrupts(Run(w, steps[..n]), steps[n]);
      SettledStep(Run(w, steps[..n]), steps[n]);
    }
  }

  /**
   Such an interruption leaves the agreement exactly when the old server has died already, or dies in the stop that is
   reported as failed, or happens to have the flag being bootstrapped.
  */
  lemma InterruptionBreaks(w: World, s: Step)
    requires Sound(w) && Settled(w) && Interrupts(w, s)
    ensures var pc := PcOf(w, w.lock.pid);
            && Next(w, s).lock.Free?
            && (Agreed(Next(w, s).shared) <==>
                  || w.shared.managed.None?
                  || (pc.StopServer? && s.Act? && s.choice.partial)
                  || (pc.op.Bootstrap? && w.shared.managed.value.flag == pc.op.enable))
  {
    assert Active(PcOf(w, w.lock.pid)) <==> Holds(w, w.lock.pid);
  }

  /** An operation that reports having started or changed something leaves agreement, whatever it found. */
  lemma ReportedChangesAgree(w: World, s: Step)
    requires Sound(w) && |Next(w, s).history| > |w.history|
    requires Next(w, s).history[|w.history|].outcome in {Started, Restarted, RemoteControlSet, Bootstrapped, Reexeced}
    ensures Agreed(Next(w, s).shared)
  {
    assert Active(PcOf(w, s.pid)) <==> Holds(w, s.pid);
  }

  lemma RunAppend(w: World, steps: seq<Step>, s: Step)
    ensures Run(w, steps + [s]) == Next(Run(w, steps), s)
  {
    assert (steps + [s])[..|steps|] == steps;
  }

  const OK := Works("", "")

  /** Invoking a change of the flag, taking the free lock and reading the settings. */
  lemma SetBegins(w: World, p: nat, enable: bool) returns (steps: seq<Step>)
    requires w.lock.Free? && !Busy(PcOf(w, p)) && Load(w.shared.settings).Some?
    ensures steps == [Invoke(p, SetRemoteControl(enable, false)), Act(p, OK), Act(p, OK)]
    ensures var op, w' := SetRemoteControl(enable, false), Run(w, steps);
            && w'.shared == w.shared && w'.lock == Held(p, op, op, [], [])
            && PcOf(w', p) == Check(op, Load(w.shared.settings).value)
  {
    var op, act := SetRemoteControl(enable, false), Act(p, OK);
    var s1 := [Invoke(p, op)];
    RunAppend(w, [], Invoke(p, op));
    assert [] + [Invoke(p, op)] == s1;
    assert PcOf(Run(w, s1), p) == Waiting(op);
    RunAppend(w, s1, act);
    assert PcOf(Run(w, s1 + [act]), p) == Begin(op);
    RunAppend(w, s1 + [act], act);
    steps := s1 + [act] + [act];
  }

  /** From there: find the server running and save. */
  lemma SetSaves(w: World, p: nat, op: Op, flag: bool)
    requires PcOf(w, p) == Check(op, flag) && w.lock == Held(p, op, op, [], []) && w.shared.managed.Some?
    requires op.SetRemoteControl? && op.enable != flag
    ensures var w' := Next(Next(w, Act(p, OK)), Act(p, OK));
            && PcOf(w', p) == StopServer(op, op.enable) && Holds(w', p)
            && w'.shared == w.shared.(settings := Stored(op.enable))
  {
    var w1 := Next(w, Act(p, OK));
    assert PcOf(w1, p) == Save(op, op.enable, true) && w1.shared == w.shared && Holds(w1, p);
  }

  /** Then fail to stop it. */
  lemma StopFails(w: World, p: nat, op: Op, flag: bool)
    requires PcOf(w, p) == StopServer(op, flag) && Holds(w, p)
    ensures var w' := Next(w, Act(p, Fails(false)));
            w'.lock.Free? && PcOf(w', p) == Finished(Failed) && w'.shared == w.shared
  {
  }

  lemma SetFailsToStop(w: World, p: nat, op: Op, flag: bool)
    requires PcOf(w, p) == Check(op, flag) && w.lock == Held(p, op, op, [], []) && w.shared.managed.Some?
    requires op.SetRemoteControl? && op.enable != flag
    ensures var w' := Next(Next(Next(w, Act(p, OK)), Act(p, OK)), Act(p, Fails(false)));
            w'.lock.Free? && PcOf(w', p) == Finished(Failed) && w'.shared == w.shared.(settings := Stored(op.enable))
  {
    SetSaves(w, p, op, flag);
    StopFails(Next(Next(w, Act(p, OK)), Act(p, OK)), p, op, op.enable);
  }

  /**
   How the agreement fails: with the old flag saved and the managed server running with it, a change of the flag whose
   stop fails ends with the new flag saved and the old server still running.
  */
  lemma FailedStopDisagrees(w: World, p: nat, enable: bool)
    requires w.lock.Free? && !Busy(PcOf(w, p)) && Load(w.shared.settings) == Some(!enable)
    requires w.shared.managed.Some? && w.shared.managed.value.flag == !enable
    ensures var op := SetRemoteControl(enable, false);
            var w' := Run(w, [Invoke(p, op), Act(p, OK), Act(p, OK), Act(p, OK), Act(p, OK), Act(p, Fails(false))]);
            && w'.lock.Free? && PcOf(w', p) == Finished(Failed)
            && w'.shared == w.shared.(settings := Stored(enable)) && Agreed(w.shared) && !Agreed(w'.shared)
  {
    var op, act, fail := SetRemoteControl(enable, false), Act(p, OK), Act(p, Fails(false));
    var s3 := SetBegins(w, p, enable);
    var w3 := Run(w, s3);
    RunAppend(w, s3, act);
    RunAppend(w, s3 + [act], act);
    RunAppend(w, s3 + [act] + [act], fail);
    assert [Invoke(p, op), act, act, act, act, fail] == s3 + [act] + [act] + [fail];
    SetFailsToStop(w3, p, op, !enable);
  }

  lemma SetFindsFlag(w: World, p: nat, op: Op)
    requires op.SetRemoteControl? && !op.thenStart && PcOf(w, p) == Check(op, op.enable)
              && w.lock == Held(p, op, op, [], [])
    requires w.shared.managed.Some?
    ensures var w' := Next(Next(w, Act(p, OK)), Act(p, OK));
            w'.lock.Free? && PcOf(w', p) == Finished(AlreadySet) && w'.shared == w.shared
  {
    var w1 := Next(w, Act(p, OK));
    assert PcOf(w1, p) == AwaitReady(op, AlreadySet) && w1.shared == w.shared && Holds(w1, p);
  }

  /** Trying the same change again then reports that it is already in force and repairs nothing. */
  lemma RetryDoesNotRepair(w: World, p: nat, enable: bool)
    requires w.lock.Free? && !Busy(PcOf(w, p)) && w.shared.settings == Stored(enable) && w.shared.managed.Some?
    ensures var op := SetRemoteControl(enable, false);
            var w' := Run(w, [Invoke(p, op), Act(p, OK), Act(p, OK), Act(p, OK), Act(p, OK)]);
            w'.lock.Free? && PcOf(w', p) == Finished(AlreadySet) && w'.shared == w.shared
  {
    var op, act := SetRemoteControl(enable, false), Act(p, OK);
    var s3 := SetBegins(w, p, enable);
    var w3 := Run(w, s3);
    RunAppend(w, s3, act);
    RunAppend(w, s3 + [act], act);
    assert [Invoke(p, op), act, act, act, act] == s3 + [act] + [act];
    SetFindsFlag(w3, p, op);
  }

  // ---------------------------------------------------------------- what a hold may contain

  /** What an operation does before it touches the server. */
  function Before(op: Op, v: Versions): seq<Effect> {
    if op.SetRemoteControl? || op.Bootstrap? then [SavedFlag(op.enable)]
    else if op.RestartIfRunning? then [ReadVersions(v)] else []
  }

  /** The updater goes on to restart if its executable has changed, or has read two different versions. */
  predicate Calls(op: Op, v: Versions) {
    op.RestartIfRunning? ==>
      && (v.info.None? <==> v.managed.None?)
      && (op.updater == op.binary ==> v.info.Some? && v.info != v.managed)
  }

  function Stopping(stopped: bool): seq<Effect> {
    if stopped then [StoppedServer] else []
  }

  /** The trace of an operation that ends up launching a server. */
  function Relaunch(op: Op, v: Versions, stopped: bool, flag: bool, binary: string): seq<Effect> {
    Before(op, v) + Stopping(stopped) + [Launched(flag, binary)] + if op.Bootstrap? then [StartedUpdater] else []
  }

  /**
   Start never stops a server; changing the flag and the updater launch only after stopping one; flag and binary are
   theirs.
  */
  predicate Legal(op: Op, v: Versions, stopped: bool, flag: bool) {
    && !op.Stop? && !op.EnsureRemoteControl?
    && Calls(op, v)
    && (op.Start? ==> !stopped)
    && (op.SetRemoteControl? || op.RestartIfRunning? ==> stopped)
    && (op.SetRemoteControl? || op.Bootstrap? ==> flag == op.enable)
  }

  /** This is such a trace, followed by something. */
  predicate RelaunchedBy(op: Op, v: Versions, stopped: bool, flag: bool, binary: string, e: seq<Effect>,
                         after: seq<Effect>)
  {
    && Legal(op, v, stopped, flag) && (op.RestartIfRunning? ==> binary == op.binary)
    && e == Relaunch(op, v, stopped, flag, binary) + after
  }

  ghost predicate Relaunched(op: Op, e: seq<Effect>, after: seq<Effect>) {
    exists v, stopped, flag, binary :: RelaunchedBy(op, v, stopped, flag, binary, e, after)
  }

  /** What has been done when an operation is at this point. */
  ghost predicate Traced(pc: Pc, e: seq<Effect>) {
    match pc
    case Check(op, _) => e == if op.Bootstrap? then [SavedFlag(op.enable)] else []
    case StopServer(op, _) => exists v :: Calls(op, v) && e == Before(op, v)
    case Launch(op, flag) => exists v, stopped :: Legal(op, v, stopped, flag) && e == Before(op, v) + Stopping(stopped)
    case StartUpdater(op, flag) =>
      exists v, stopped, binary ::
        Legal(op, v, stopped, flag) && e + [StartedUpdater] == Relaunch(op, v, stopped, flag, binary)
    case AwaitReady(op, outcome) => if outcome == OutcomeOf(op) then Relaunched(op, e, []) else e == []
    case Reexec(op) => op.RestartIfRunning? && op.updater != op.binary && Relaunched(op, e, [SeenReady])
    case _ => e == []
  }

  predicate PartOf(op: Op, v: Versions, stopped: bool, flag: bool, binary: string, e: seq<Effect>) {
    && Legal(op, v, stopped, flag) && (op.RestartIfRunning? ==> binary == op.binary)
    && e <= Relaunch(op, v, stopped, flag, binary) + [SeenReady]
  }

  /** Some first part of a legal trace. */
  ghost predicate Partial(op: Op, e: seq<Effect>) {
    e == [] || exists v, stopped, flag, binary :: PartOf(op, v, stopped, flag, binary, e)
  }

  /** What has been done when an operation ends this way. */
  ghost predicate Accounted(op: Op, e: seq<Effect>, outcome: Outcome) {
    match outcome
    case AlreadyRunning => op.Start? && (e == [] || e == [SeenReady])
    case AlreadySet => op.SetRemoteControl? && (e == [] || e == [SeenReady])
    case RemoteControlSet => op.SetRemoteControl? && (e == [SavedFlag(op.enable)] || Relaunched(op, e, [SeenReady]))
    case Started => op.Start? && Relaunched(op, e, [SeenReady])
    case Bootstrapped => op.Bootstrap? && Relaunched(op, e, [SeenReady])
    case Restarted =>
      (op.Restart? || (op.RestartIfRunning? && op.updater == op.binary)) && Relaunched(op, e, [SeenReady])
    case Reexeced =>
      && op.RestartIfRunning? && op.updater != op.binary
      && Relaunched(op, e, [SeenReady, ReplacedUpdater(op.updater, op.binary)])
    case Stopped => op.Stop? && e == [StoppedServer]
    case NotReady => op.RestartIfRunning? && op.updater == op.binary && e == [ReadVersions(Versions(None, None))]
    case AlreadyCurrent =>
      && op.RestartIfRunning? && op.updater == op.binary
      && |e| == 1 && e[0].ReadVersions? && e[0].versions.info.Some? && e[0].versions.managed == e[0].versions.info
    case NotRunning => e == []
    case NotManaged => e == []
    case Failed => Partial(op, e)
    case Killed => Partial(op, e)
  }

  function AnyBinary(op: Op): string {
    if op.RestartIfRunning? then op.binary else ""
  }

  lemma LaunchPartial(op: Op, v: Versions, flag: bool, stopped: bool, e: seq<Effect>)
    requires Legal(op, v, stopped, flag) && (e == Before(op, v) || e == Before(op, v) + Stopping(stopped))
    ensures Partial(op, e)
  {
    var rest := [Launched(flag, AnyBinary(op))] + (if op.Bootstrap? then [StartedUpdater] else []) + [SeenReady];
    assert Relaunch(op, v, stopped, flag, AnyBinary(op)) + [SeenReady] == Before(op, v) + Stopping(stopped) + rest;
    assert PartOf(op, v, stopped, flag, AnyBinary(op), e);
  }

  lemma UpdaterPartial(op: Op, flag: bool, e: seq<Effect>)
    requires op.Bootstrap? && Traced(StartUpdater(op, flag), e)
    ensures Partial(op, e)
  {
    var v, stopped, binary :|
      Legal(op, v, stopped, flag) && e + [StartedUpdater] == Relaunch(op, v, stopped, flag, binary);
    assert Relaunch(op, v, stopped, flag, binary) + [SeenReady] == e + [StartedUpdater, SeenReady];
    assert PartOf(op, v, stopped, flag, binary, e);
  }

  lemma RelaunchedPartial(op: Op, e: seq<Effect>, after: seq<Effect>)
    requires Relaunched(op, e, after) && after <= [SeenReady]
    ensures Partial(op, e)
  {
    var v, stopped, flag, binary :| RelaunchedBy(op, v, stopped, flag, binary, e, after);
    assert PartOf(op, v, stopped, flag, binary, e);
  }

  lemma TracedPartial(w: Shared, pc: Pc, e: seq<Effect>)
    requires Active(pc) && PcOk(pc, w) && Traced(pc, e)
    ensures Partial(pc.op, e)
  {
    match pc
    case Check(op, flag) =>
      if op.Bootstrap? {
        LaunchPartial(op, Versions(None, None), flag, true, e);
      }
    case StopServer(op, flag) =>
      if !op.Stop? {
        var v :| Calls(op, v) && e == Before(op, v);
        LaunchPartial(op, v, flag, true, e);
      }
    case Launch(op, flag) =>
      var v, stopped :| Legal(op, v, stopped, flag) && e == Before(op, v) + Stopping(stopped);
      LaunchPartial(op, v, flag, stopped, e);
    case StartUpdater(op, flag) => UpdaterPartial(op, flag, e);
    case AwaitReady(op, outcome) =>
      if outcome == OutcomeOf(op) {
        RelaunchedPartial(op, e, []);
      }
    case Reexec(op) => RelaunchedPartial(op, e, [SeenReady]);
    case _ =>
  }

  lemma LaunchReached(op: Op, v: Versions, flag: bool, stopped: bool, e: seq<Effect>)
    requires Legal(op, v, stopped, flag) && e == Before(op, v)
    ensures Traced(Launch(op, flag), e + Stopping(stopped))
  {
  }

  /** A move continues the trace of its operation, or ends it accounted for. */
  ghost predicate Continues(op: Op, e: seq<Effect>, m: Move) {
    match m.to
    case At(next) => Active(next) && next.op == op && Traced(next, e + m.did)
    case Stage(next) =>
      if op.EnsureRemoteControl? then e + m.did == [] && next in {SetRemoteControl(true, true), Bootstrap(true)}
      else next == Start && FlagSet(op, e + m.did) && !External(op)
    case Over(outcome) => Accounted(op, e + m.did, outcome)
  }

  /** A change of the flag came to its successful end. */
  ghost predicate FlagSet(op: Op, e: seq<Effect>) {
    op.SetRemoteControl? && (Accounted(op, e, AlreadySet) || Accounted(op, e, RemoteControlSet))
  }

  lemma QuietTraced(w: Shared, pc: Pc, c: Choice)
    requires PcOk(pc, w) && (pc.Begin? || pc.Probe? || pc.Owner? || pc.Unowned?)
    ensures Continues(pc.op, [], MoveOf(w, pc, c))
  {
    assert [] + MoveOf(w, pc, c).did == [];
  }

  lemma DecideTraced(w: Shared, op: Op, flag: bool, c: Choice)
    requires PcOk(Decide(op, flag), w)
    ensures Continues(op, [], DecideMove(w, op, flag, c))
  {
    var m := DecideMove(w, op, flag, c);
    assert [] + m.did == m.did;
    if m.to.At? {
      assert Calls(op, m.did[0].versions) && m.did == Before(op, m.did[0].versions);
    }
  }

  lemma SaveTraced(w: Shared, op: Op, flag: bool, running: bool, c: Choice)
    requires PcOk(Save(op, flag, running), w)
    ensures Continues(op, [], SaveMove(w, op, flag, running, c))
  {
    assert [] + SaveMove(w, op, flag, running, c).did == SaveMove(w, op, flag, running, c).did;
    assert Calls(op, Versions(None, None)) && Before(op, Versions(None, None)) == [SavedFlag(op.enable)];
  }

  lemma CheckTraced(w: Shared, op: Op, flag: bool, c: Choice, e: seq<Effect>)
    requires PcOk(Check(op, flag), w) && Traced(Check(op, flag), e)
    ensures Continues(op, e, CheckMove(w, op, flag, c))
  {
    assert e + [] == e;
    TracedPartial(w, Check(op, flag), e);
    assert op.Restart? || op.Stop? || op.Bootstrap? ==>
        Calls(op, Versions(None, None)) && e == Before(op, Versions(None, None));
    if op.Start? || op.Restart? || op.Bootstrap? {
      LaunchReached(op, Versions(None, None), flag, false, e);
    }
  }

  lemma StopTraced(w: Shared, op: Op, flag: bool, c: Choice, e: seq<Effect>)
    requires PcOk(StopServer(op, flag), w) && Traced(StopServer(op, flag), e)
    ensures Continues(op, e, StopMove(w, op, flag, c))
  {
    assert e + [] == e;
    TracedPartial(w, StopServer(op, flag), e);
    if !op.Stop? {
      var v :| Calls(op, v) && e == Before(op, v);
      LaunchReached(op, v, flag, true, e);
    }
  }

  lemma LaunchTraced(w: Shared, op: Op, flag: bool, c: Choice, e: seq<Effect>)
    requires PcOk(Launch(op, flag), w) && Traced(Launch(op, flag), e)
    ensures Continues(op, e, LaunchMove(w, op, flag, c))
  {
    assert e + [] == e;
    TracedPartial(w, Launch(op, flag), e);
    var m, binary := LaunchMove(w, op, flag, c), if op.RestartIfRunning? then op.binary else w.installed;
    var v, stopped :| Legal(op, v, stopped, flag) && e == Before(op, v) + Stopping(stopped);
    assert op.Bootstrap? && c.Works? ==> (e + m.did) + [StartedUpdater] == Relaunch(op, v, stopped, flag, binary);
    assert !op.Bootstrap? && c.Works? ==> RelaunchedBy(op, v, stopped, flag, binary, e + m.did, []);
  }

  lemma StartUpdaterTraced(w: Shared, op: Op, flag: bool, c: Choice, e: seq<Effect>)
    requires PcOk(StartUpdater(op, flag), w) && Traced(StartUpdater(op, flag), e)
    ensures Continues(op, e, StartUpdaterMove(w, op, c))
  {
    assert e + [] == e;
    TracedPartial(w, StartUpdater(op, flag), e);
    var v, stopped, binary :|
      Legal(op, v, stopped, flag) && e + [StartedUpdater] == Relaunch(op, v, stopped, flag, binary);
    assert RelaunchedBy(op, v, stopped, flag, binary, e + [StartedUpdater], []);
  }

  lemma RelaunchedThen(op: Op, e: seq<Effect>, after: seq<Effect>, more: seq<Effect>)
    requires Relaunched(op, e, after)
    ensures Relaunched(op, e + more, after + more)
  {
    var v, stopped, flag, binary :| RelaunchedBy(op, v, stopped, flag, binary, e, after);
    Associative(Relaunch(op, v, stopped, flag, binary), after, more);
    assert RelaunchedBy(op, v, stopped, flag, binary, e + more, after + more);
  }

  lemma ReadyTraced(w: Shared, op: Op, outcome: Outcome, c: Choice, e: seq<Effect>)
    requires PcOk(AwaitReady(op, outcome), w) && Traced(AwaitReady(op, outcome), e)
    ensures Continues(op, e, ReadyMove(w, op, outcome, c))
  {
    assert e + [] == e && [] + [SeenReady] == [SeenReady];
    TracedPartial(w, AwaitReady(op, outcome), e);
    if outcome == OutcomeOf(op) {
      RelaunchedThen(op, e, [], [SeenReady]);
    }
  }

  lemma ReexecTraced(w: Shared, op: Op, c: Choice, e: seq<Effect>)
    requires PcOk(Reexec(op), w) && Traced(Reexec(op), e)
    ensures Continues(op, e, ReexecMove(w, op, c))
  {
    var replaced := [ReplacedUpdater(op.updater, op.binary)];
    assert e + [] == e && [SeenReady] + replaced == [SeenReady, ReplacedUpdater(op.updater, op.binary)];
    TracedPartial(w, Reexec(op), e);
    RelaunchedThen(op, e, [SeenReady], replaced);
  }

  lemma MoveTraced(w: Shared, pc: Pc, c: Choice, e: seq<Effect>)
    requires Active(pc) && PcOk(pc, w) && Traced(pc, e)
    ensures Continues(pc.op, e, MoveOf(w, pc, c))
  {
    match pc
    case Check(op, flag) => CheckTraced(w, op, flag, c, e);
    case Decide(op, flag) => DecideTraced(w, op, flag, c);
    case Save(op, flag, running) => SaveTraced(w, op, flag, running, c);
    case StopServer(op, flag) => StopTraced(w, op, flag, c, e);
    case Launch(op, flag) => LaunchTraced(w, op, flag, c, e);
    case StartUpdater(op, flag) => StartUpdaterTraced(w, op, flag, c, e);
    case AwaitReady(op, outcome) => ReadyTraced(w, op, outcome, c, e);
    case Reexec(op) => ReexecTraced(w, op, c, e);
    case _ => QuietTraced(w, pc, c);
  }

  /** Ensuring remote control bootstraps, or enables the flag and then starts; the other operations have one stage. */
  predicate StageOf(invoked: Op, op: Op) {
    if invoked.EnsureRemoteControl?
    then op in {EnsureRemoteControl, SetRemoteControl(true, true), Bootstrap(true), Start}
    else op == invoked && External(op)
  }

  /** Only a start can follow something in its hold: a successful change of the flag to enabled. */
  ghost predicate EarlierOk(invoked: Op, op: Op, earlier: seq<Effect>) {
    && StageOf(invoked, op)
    && (if invoked.EnsureRemoteControl? && op.Start? then FlagSet(SetRemoteControl(true, true), earlier)
          else earlier == [])
  }

  ghost predicate HoldOk(h: Hold) {
    EarlierOk(h.invoked, h.op, h.earlier) && Accounted(h.op, h.effects, h.outcome)
  }

  /** Every hold that has ended is accounted for, and the current one is on a legal trace. */
  ghost predicate Legible(w: World) {
    && (forall h | h in w.history :: HoldOk(h))
    && (forall p | p in w.pcs && w.pcs[p].Waiting? :: External(w.pcs[p].op))
    && (w.lock.Held? ==>
          var pc := PcOf(w, w.lock.pid);
          && Active(pc) && pc.op == w.lock.op && Traced(pc, w.lock.effects)
          && EarlierOk(w.lock.invoked, w.lock.op, w.lock.earlier))
  }

  lemma ApplyLegible(w: World, p: nat, m: Move)
    requires Legible(w) && Holds(w, p) && Continues(w.lock.op, w.lock.effects, m)
    ensures Legible(Apply(w, p, m))
  {
    var w', e := Apply(w, p, m), w.lock.effects + m.did;
    if m.to.Stage? {
      assert w.lock.earlier == [] && w.lock.earlier + e == e;
    }
  }

  lemma LegibleStep(w: World, s: Step)
    requires Sound(w) && Legible(w)
    ensures Legible(Next(w, s))
  {
    if s.Act? || s.Kill? || s.Invoke? {
      var pc := PcOf(w, s.pid);
      assert Active(pc) <==> Holds(w, s.pid);
      if s.Act? && Active(pc) {
        MoveTraced(w.shared, pc, s.choice, w.lock.effects);
        ApplyLegible(w, s.pid, MoveOf(w.shared, pc, s.choice));
      } else if s.Kill? && Active(pc) {
        TracedPartial(w.shared, pc, w.lock.effects);
        assert w.lock.effects + [] == w.lock.effects;
        ApplyLegible(w, s.pid, End(w.shared, Killed));
      }
    }
  }

  /** Every hold of every run is a legal trace of its operation and ends with the outcome that trace calls for. */
  lemma {:induction false} EveryHoldAccounted(w: World, steps: seq<Step>)
    requires Sound(w) && Legible(w)
    ensures Legible(Run(w, steps))
  {
    if steps != [] {
      EveryHoldAccounted(w, steps[..|steps| - 1]);
      SoundRun(w, steps[..|steps| - 1]);
      LegibleStep(Run(w, steps[..|steps| - 1]), steps[|steps| - 1]);
    }
  }

  lemma RelaunchedReplaces(op: Op, e: seq<Effect>, after: seq<Effect>, replaced: Effect)
    requires Relaunched(op, e, after) && replaced.ReplacedUpdater? && replaced in e
    ensures replaced in after
  {
    var v, stopped, flag, binary :| RelaunchedBy(op, v, stopped, flag, binary, e, after);
    assert replaced !in Relaunch(op, v, stopped, flag, binary);
  }

  lemma PartialReplacesNothing(op: Op, e: seq<Effect>, replaced: Effect)
    requires Partial(op, e) && replaced.ReplacedUpdater?
    ensures replaced !in e
  {
    if e != [] {
      var v, stopped, flag, binary :| PartOf(op, v, stopped, flag, binary, e);
      assert replaced !in Relaunch(op, v, stopped, flag, binary) + [SeenReady];
    }
  }

  lemma OnlyReexecReplaces(op: Op, e: seq<Effect>, outcome: Outcome, replaced: Effect)
    requires Accounted(op, e, outcome) && replaced.ReplacedUpdater? && replaced in e
    ensures outcome == Reexeced && replaced == ReplacedUpdater(op.updater, op.binary)
  {
    match outcome
    case Failed => PartialReplacesNothing(op, e, replaced);
    case Killed => PartialReplacesNothing(op, e, replaced);
    case Reexeced => RelaunchedReplaces(op, e, [SeenReady, ReplacedUpdater(op.updater, op.binary)], replaced);
    case _ =>
      if Relaunched(op, e, [SeenReady]) {
        RelaunchedReplaces(op, e, [SeenReady], replaced);
      }
  }

  /**
   The updater replaces itself only at the end of a hold in which it found the managed executable changed, stopped the
   server, launched it from that executable and saw it ready; nothing else happens in that hold.
  */
  lemma ReexecOnlyAfterRestart(w: World, steps: seq<Step>, h: Hold, updater: string, binary: string)
    requires Sound(w) && Legible(w) && h in Run(w, steps).history
    requires ReplacedUpdater(updater, binary) in h.earlier + h.effects
    ensures h.outcome == Reexeced && h.invoked == RestartIfRunning(updater, binary) && updater != binary
              && h.earlier == []
    ensures exists v, flag ::
              h.effects == [ReadVersions(v), StoppedServer, Launched(flag, binary), SeenReady,
                            ReplacedUpdater(updater, binary)]
  {
    EveryHoldAccounted(w, steps);
    assert HoldOk(h);
    var replaced := ReplacedUpdater(updater, binary);
    if replaced in h.earlier {
      var set_ := SetRemoteControl(true, true);
      var outcome := if Accounted(set_, h.earlier, AlreadySet) then AlreadySet else RemoteControlSet;
      OnlyReexecReplaces(set_, h.earlier, outcome, replaced);
    } else {
      OnlyReexecReplaces(h.op, h.effects, h.outcome, replaced);
      ReexecTrace(h.op, h.effects);
    }
  }

  lemma ReexecTrace(op: Op, e: seq<Effect>)
    requires Accounted(op, e, Reexeced)
    ensures exists v, flag ::
              e == [ReadVersions(v), StoppedServer, Launched(flag, op.binary), SeenReady,
                    ReplacedUpdater(op.updater, op.binary)]
  {
    var after := [SeenReady, ReplacedUpdater(op.updater, op.binary)];
    var v, stopped, flag, binary :| RelaunchedBy(op, v, stopped, flag, binary, e, after);
    assert e == [ReadVersions(v), StoppedServer, Launched(flag, op.binary), SeenReady,
                 ReplacedUpdater(op.updater, op.binary)];
  }

  /** What the updater's hold read, against how it ended. */
  predicate Decided(op: Op, e: seq<Effect>, outcome: Outcome)
    requires op.RestartIfRunning?
  {
    if e == [] then outcome in {NotRunning, NotManaged, Failed, Killed}
    else
      && e[0].ReadVersions?
      && var v, same := e[0].versions, op.updater == op.binary;
         && (v.info.None? <==> v.managed.None?)
         && (outcome == NotReady <==> same && v.info.None?)
         && (outcome == AlreadyCurrent <==> same && v.info.Some? && v.info == v.managed)
         && (if outcome in {NotReady, AlreadyCurrent} then |e| == 1
             else outcome in {if same then Restarted else Reexeced, Failed, Killed})
         && (outcome in {Restarted, Reexeced} || |e| > 1 ==> |e| > 1 && e[1] == StoppedServer)
  }

  lemma RelaunchStarts(op: Op, v: Versions, stopped: bool, flag: bool, binary: string, after: seq<Effect>)
    requires op.RestartIfRunning? && stopped
    ensures var e := Relaunch(op, v, stopped, flag, binary) + after;
            |e| > 1 && e[0] == ReadVersions(v) && e[1] == StoppedServer
  {
    assert Relaunch(op, v, stopped, flag, binary) == [ReadVersions(v), StoppedServer, Launched(flag, binary)];
  }

  lemma AccountedDecided(op: Op, e: seq<Effect>, outcome: Outcome)
    requires op.RestartIfRunning? && Accounted(op, e, outcome)
    ensures Decided(op, e, outcome)
  {
    match outcome
    case Restarted =>
      var v, stopped, flag, binary :| RelaunchedBy(op, v, stopped, flag, binary, e, [SeenReady]);
      RelaunchStarts(op, v, stopped, flag, binary, [SeenReady]);
    case Reexeced =>
      var after := [SeenReady, ReplacedUpdater(op.updater, op.binary)];
      var v, stopped, flag, binary :| RelaunchedBy(op, v, stopped, flag, binary, e, after);
      RelaunchStarts(op, v, stopped, flag, binary, after);
    case Failed => PartialDecided(op, e, Failed);
    case Killed => PartialDecided(op, e, Killed);
    case _ =>
  }

  lemma PartialDecided(op: Op, e: seq<Effect>, outcome: Outcome)
    requires op.RestartIfRunning? && Partial(op, e) && outcome in {Failed, Killed}
    ensures Decided(op, e, outcome)
  {
    if e != [] {
      var v, stopped, flag, binary :| PartOf(op, v, stopped, flag, binary, e);
      RelaunchStarts(op, v, stopped, flag, binary, [SeenReady]);
    }
  }

  /** What is read, and where the updater goes from there. */
  lemma UpdaterReads(w: Shared, op: Op, flag: bool, c: Choice)
    requires op.RestartIfRunning?
    ensures var m := MoveOf(w, Decide(op, flag), c);
            var answered := w.unmanaged || (w.managed.Some? && (c.Works? || c.partial));
            && m.after == w
            && (m.to == Over(Failed) <==> answered && c.Fails?)
            && (m.to != Over(Failed) ==>
                  m.did == [ReadVersions(if answered then Versions(Some(c.version), Some(c.managedVersion))
                                         else Versions(None, None))])
            && (m.to == Over(NotReady) <==> !answered && op.updater == op.binary)
            && (m.to == Over(AlreadyCurrent) <==>
                  answered && c.Works? && op.updater == op.binary && c.version == c.managedVersion)
            && (m.to in {Over(Failed), Over(NotReady), Over(AlreadyCurrent), At(StopServer(op, flag))})
  {
  }

  /**
   In every run, how a hold of the updater ends is decided by what it read in that hold. With its executable unchanged
   it is not ready if and only if the server did not answer, current if and only if both versions were read and are
   equal, and restarts only after different ones; with its executable changed it always goes on to the stop.
  */
  lemma VersionsDecide(w: World, steps: seq<Step>, h: Hold)
    requires Sound(w) && Legible(w) && h in Run(w, steps).history && h.invoked.RestartIfRunning?
    ensures h.op == h.invoked && h.earlier == [] && Decided(h.invoked, h.effects, h.outcome)
  {
    EveryHoldAccounted(w, steps);
    assert HoldOk(h);
    AccountedDecided(h.op, h.effects, h.outcome);
  }

  /** Under a hold that is to ensure remote control, the flag is enabled by the time the start comes. */
  predicate Enabling(w: World) {
    w.lock.Held? && w.lock.invoked.EnsureRemoteControl? && w.lock.op.Start? ==> Load(w.shared.settings) == Some(true)
  }

  /** A start touches no settings, and a change of the flag or a bootstrap that is done has saved its flag. */
  lemma MoveKeepsFlag(w: Shared, pc: Pc, c: Choice)
    requires Active(pc) && PcOk(pc, w)
    ensures var m := MoveOf(w, pc, c);
            && (pc.op.Start? ==> m.after.settings == w.settings)
            && (m.to.Stage? && m.to.op.Start? ==>
                  pc.op.SetRemoteControl? && Load(m.after.settings) == Some(pc.op.enable))
            && (m.to == Over(Bootstrapped) ==> pc.op.Bootstrap? && Load(m.after.settings) == Some(pc.op.enable))
  {
  }

  lemma EnablingStep(w: World, s: Step)
    requires Sound(w) && Legible(w) && Enabling(w)
    ensures Enabling(Next(w, s))
  {
    if s.Act? || s.Kill? || s.Invoke? {
      var pc := PcOf(w, s.pid);
      assert Active(pc) <==> Holds(w, s.pid);
      if s.Act? && Active(pc) {
        MoveKeepsFlag(w.shared, pc, s.choice);
        MoveTraced(w.shared, pc, s.choice, w.lock.effects);
      }
    }
  }

  lemma {:induction false} EnablingRun(w: World, steps: seq<Step>)
    requires Sound(w) && Legible(w) && Enabling(w)
    ensures Enabling(Run(w, steps))
  {
    if steps != [] {
      EnablingRun(w, steps[..|steps| - 1]);
      SoundRun(w, steps[..|steps| - 1]);
      EveryHoldAccounted(w, steps[..|steps| - 1]);
      EnablingStep(Run(w, steps[..|steps| - 1]), steps[|steps| - 1]);
    }
  }

  /** A hold ends by a move of its holder or by its death. */
  lemma EndedBy(w: World, s: Step)
    requires Exclusive(w) && |Next(w, s).history| > |w.history|
    ensures (s.Act? || s.Kill?) && Holds(w, s.pid) && Active(PcOf(w, s.pid))
    ensures var h := Next(w, s).history[|w.history|];
            && h.invoked == w.lock.invoked && h.op == w.lock.op
            && (if s.Kill? then h.outcome == Killed
                else var m := MoveOf(w.shared, PcOf(w, s.pid), s.choice);
                     m.to == Over(h.outcome) && Next(w, s).shared == m.after)
  {
    assert Active(PcOf(w, s.pid)) <==> Holds(w, s.pid);
  }

  lemma EnsureEnablesStep(w: World, s: Step)
    requires Sound(w) && Legible(w) && Enabling(w) && |Next(w, s).history| > |w.history|
    requires var h := Next(w, s).history[|w.history|];
             h.invoked.EnsureRemoteControl? && h.outcome !in {NotManaged, Failed, Killed}
    ensures Next(w, s).shared.settings == Stored(true)
  {
    EndedBy(w, s);
    var pc := PcOf(w, s.pid);
    MoveKeepsFlag(w.shared, pc, s.choice);
    MoveTraced(w.shared, pc, s.choice, w.lock.effects);
  }

  /** In every run, an operation that ensured remote control and succeeded leaves the flag saved as enabled. */
  lemma EnsureEnables(w: World, steps: seq<Step>, s: Step)
    requires Sound(w) && Legible(w) && Enabling(w)
    requires var w1 := Run(w, steps);
             && |Next(w1, s).history| > |w1.history|
             && var h := Next(w1, s).history[|w1.history|];
                h.invoked.EnsureRemoteControl? && h.outcome !in {NotManaged, Failed, Killed}
    ensures Next(Run(w, steps), s).shared.settings == Stored(true)
  {
    SoundRun(w, steps);
    EveryHoldAccounted(w, steps);
    EnablingRun(w, steps);
    EnsureEnablesStep(Run(w, steps), s);
  }

  /** A machine on which no operation has run yet satisfies everything the theorems about runs ask for. */
  lemma FreshWorld(shared: Shared)
    ensures var w := World(Free, shared, map[], []);
            Sound(w) && Legible(w) && Enabling(w) && (Settled(w) <==> Agreed(shared))
  {
  }

  // ---------------------------------------------------------------- servers of other people

  /** Somebody else's server answers on the socket and none of ours runs. */
  predicate Foreign(w: Shared) {
    w.unmanaged && w.managed.None?
  }

  /** Steps of daemon processes; the environment is quiet. */
  predicate ByProcess(s: Step) {
    s.Invoke? || s.Act? || s.Kill?
  }

  /** Where an operation can be that has only met a foreign server. */
  predicate Harmless(pc: Pc) {
    || !Active(pc) || pc.Begin? || pc.Probe? || pc.Owner? || pc.Unowned?
    || (pc.Check? && (pc.op.Stop? || pc.op.SetRemoteControl? || pc.op.RestartIfRunning?))
  }

  /** The operation gave way: nothing done, and no claim to have done anything. */
  predicate Declined(h: Hold) {
    h.earlier == [] && h.effects == [] && h.outcome in {AlreadyRunning, NotManaged, Failed, Killed}
  }

  lemma HarmlessMove(w: Shared, pc: Pc, c: Choice)
    requires Foreign(w) && Active(pc) && Harmless(pc)
    ensures var m := MoveOf(w, pc, c);
            && m.after == w && m.did == []
            && (m.to.At? ==> Harmless(m.to.pc))
            && (m.to.Over? ==> m.to.outcome in {AlreadyRunning, NotManaged, Failed})
  {
  }

  /** Only harmless work since the history was this long. */
  ghost predicate HandsOff(w: World, n: nat) {
    && Exclusive(w) && Foreign(w.shared) && n <= |w.history|
    && (forall i | n <= i < |w.history| :: Declined(w.history[i]))
    && (w.lock.Held? ==> Harmless(PcOf(w, w.lock.pid)) && w.lock.earlier == [] && w.lock.effects == [])
  }

  lemma HandsOffStep(w: World, s: Step, n: nat)
    requires HandsOff(w, n) && ByProcess(s)
    ensures HandsOff(Next(w, s), n) && Next(w, s).shared == w.shared && w.history <= Next(w, s).history
  {
    ExclusiveStep(w, s);
    var pc := PcOf(w, s.pid);
    assert Active(pc) <==> Holds(w, s.pid);
    if s.Act? && Active(pc) {
      HarmlessMove(w.shared, pc, s.choice);
    }
  }

  /**
   While a foreign server answers and none of ours runs, no operation, in any interleaving, stops it, starts another
   or touches the settings, and every operation that ends has given way.
  */
  lemma {:induction false} ForeignServerUntouched(w: World, steps: seq<Step>)
    requires Exclusive(w) && w.lock.Free? && Foreign(w.shared) && forall s | s in steps :: ByProcess(s)
    ensures var w' := Run(w, steps);
            && w'.shared == w.shared && w.history <= w'.history
            && HandsOff(w', |w.history|)
  {
    if steps != [] {
      var n := |steps| - 1;
      ForeignServerUntouched(w, steps[..n]);
      HandsOffStep(Run(w, steps[..n]), steps[n], |w.history|);
    }
  }
}
