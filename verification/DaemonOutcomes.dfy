/** What the daemon's operations leave behind: exactly when one leaves the server without the
    saved setting, how that is mended, and what the updater's reports are worth. */
module DaemonOutcomes {
  import opened Basics
  import opened Daemon
  import opened DaemonRuns

  // ----- exactly when settings and server come apart

  lemma {:induction false} LaunchingAgrees(w: World, flag: bool, binary: Option<string>, rest: Todo, ok: nat -> bool,
                                           k: nat)
    requires w.server.None? && w.saved == flag && rest.Done?
    ensures var r := Carry(w, Launching(flag, binary, rest), ok, k);
            Agrees(r.world) && r.world.saved == w.saved && (r.finished ==> r.world.server.Some?)
  {
    var waiting := Then(AwaitReady, rest);
    var e := Effect(w, Start(flag, binary));
    if ok(k) && e.Some? { assert Carry(w, Launching(flag, binary, rest), ok, k) == Carry(e.value, waiting, ok, k + 1); }
  }

  lemma {:induction false} ReconfigureAgreesIff(w: World, flag: bool, ok: nat -> bool, k: nat)
    requires w.saved == flag
    ensures var r := Carry(w, Reconfigure(flag), ok, k);
            && (Agrees(r.world) <==> Agrees(w) || (ok(k) && w.managed.Some? && ok(k + 1)))
            && r.world.saved == w.saved && (r.finished ==> Agrees(r.world) && r.world.server.Some?)
  {
    var launch := Launching(flag, None, Done);
    var stop := Then(Stop, launch);
    if ok(k) && w.managed.Some? {
      assert Carry(w, Reconfigure(flag), ok, k) == Carry(w, stop, ok, k + 1);
      if ok(k + 1) {
        assert Carry(w, stop, ok, k + 1) == Carry(w.(server := None), launch, ok, k + 2);
        LaunchingAgrees(w.(server := None), flag, None, Done, ok, k + 2);
      }
    }
  }

  /** Changing the setting leaves a server without it exactly when the server runs, the
      setting does change and is saved, and then the binary is missing, or looking for it or the
      stop fails. */
  lemma {:induction false} SetRemoteControlAgreesIff(w: World, enabled: bool, probe: Answer, ok: nat -> bool)
    requires Agrees(w)
    ensures Agrees(Alone(w, SetRemoteControl(enabled), probe, ok).world)
            <==> !(w.server.Some? && w.saved != enabled && ok(0) && !(ok(1) && w.managed.Some? && ok(2)))
  {
    if w.server.Some? && w.saved != enabled && ok(0) {
      var v := w.(saved := enabled);
      assert Alone(w, SetRemoteControl(enabled), probe, ok) == Carry(v, Reconfigure(enabled), ok, 1);
      ReconfigureAgreesIff(v, enabled, ok, 1);
    }
  }

  lemma {:induction false} RelaunchKeeps(w: World, updater: bool, ok: nat -> bool, k: nat)
    ensures var r := Carry(w, RelaunchingUpdater(updater), ok, k);
            r.world.server == w.server && r.world.saved == w.saved
  {
    var waiting := Then(AwaitReady, Done);
    var start := Then(StartUpdater, waiting);
    WaitingKeeps(w.(updater := true), ok, k + 1);
    WaitingKeeps(w.(updater := true), ok, k + 2);
    if updater && ok(k) {
      assert Carry(w, RelaunchingUpdater(updater), ok, k) == Carry(w.(updater := false), start, ok, k + 1);
    }
  }

  lemma {:induction false} WaitingKeeps(w: World, ok: nat -> bool, k: nat)
    ensures Carry(w, Then(AwaitReady, Done), ok, k).world == w
  {
  }

  lemma {:induction false} BootstrapAgreesIff(w: World, enabled: bool, probe: Answer, ok: nat -> bool)
    requires Agrees(w)
    ensures Agrees(Alone(w, Bootstrap(enabled), probe, ok).world)
            <==> !(w.managed.Some? && w.server.Some? && w.saved != enabled && ok(0) && !ok(1))
  {
    if PlanBootstrap(w, enabled, probe).Some? && ok(0) {
      var rest := RelaunchingUpdater(w.updater);
      var launch := Then(Start(enabled, None), rest);
      var v := w.(saved := enabled);
      assert Alone(w, Bootstrap(enabled), probe, ok) == Carry(v, Then(Stop, launch), ok, 1);
      if ok(1) {
        var u := v.(server := None);
        assert Carry(v, Then(Stop, launch), ok, 1) == Carry(u, launch, ok, 2);
        RelaunchKeeps(u.(server := Some(Server(enabled, w.managed.value))), w.updater, ok, 3);
      }
    }
  }

  lemma {:induction false} ConcludingKeeps(w: World, reexec: bool, binary: string, ok: nat -> bool, k: nat)
    ensures Carry(w, Concluding(reexec, binary), ok, k).world == w
  {
  }

  lemma {:induction false} RefreshAgrees(w: World, mode: RestartMode, refresh: RefreshMode, binary: string,
                                         probe: Answer, ok: nat -> bool)
    requires Agrees(w)
    ensures Agrees(Alone(w, Refresh(mode, refresh, binary), probe, ok).world)
  {
    var rest := Concluding(ShouldReexecUpdater(refresh, Restarted), binary);
    var launch := Launching(w.saved, Some(binary), rest);
    var u := w.(server := None);
    var v := w.(server := Some(Server(w.saved, binary)));
    CarryLast(w, Report(WasNotReady, binary), ok, 0);
    CarryLast(w, Report(WasCurrent, binary), ok, 0);
    CarryLast(w, Report(WasNotRunning, binary), ok, 0);
    if PlanRefresh(w, mode, refresh, binary, probe) == Some(Then(Stop, launch)) && ok(0) {
      assert Alone(w, Refresh(mode, refresh, binary), probe, ok) == Carry(u, launch, ok, 1);
      if ok(1) {
        assert Carry(u, launch, ok, 1) == Carry(v, Then(AwaitReady, rest), ok, 2);
        ConcludingKeeps(v, ShouldReexecUpdater(refresh, Restarted), binary, ok, 3);
      }
    }
  }

  lemma {:induction false} StartAgrees(w: World, probe: Answer, ok: nat -> bool)
    requires Agrees(w)
    ensures Agrees(Alone(w, StartServer, probe, ok).world)
  {
    WaitingKeeps(w, ok, 0);
    if !Answered(w, probe) && w.server.None? && ok(0) && w.managed.Some? {
      var launch := Launching(w.saved, None, Done);
      assert Alone(w, StartServer, probe, ok) == Carry(w, launch, ok, 1);
      LaunchingAgrees(w, w.saved, None, Done, ok, 1);
    }
  }

  /** A restart that goes through mends them, whatever came before. */
  lemma {:induction false} RestartMends(w: World, probe: Answer, ok: nat -> bool)
    ensures var r := Alone(w, RestartServer, probe, ok);
            && (r.finished ==> Agrees(r.world) && r.world.server.Some?)
            && (Agrees(w) ==> Agrees(r.world))
  {
    ReconfigureAgreesIff(w, w.saved, ok, 0);
  }

  /** Ensuring remote control takes them apart exactly when it saves the setting for a server
      that runs without it and then, with an updater running, misses the binary or fails to
      look for it or to stop the server, or, without one, fails to stop the server. */
  lemma {:induction false} EnsuredAgreesIff(w: World, probe: nat -> Answer, ok: nat -> nat -> bool)
    requires Agrees(w)
    ensures Agrees(EnsuredAlone(w, probe, ok).world)
            <==> !(w.server.Some? && !w.saved && ok(0)(0)
                   && (if w.updater then !(ok(0)(1) && w.managed.Some? && ok(0)(2)) else w.managed.Some? && !ok(0)(1)))
  {
    if !w.updater {
      BootstrapAgreesIff(w, true, probe(0), ok(0));
    } else {
      SetRemoteControlAgreesIff(w, true, probe(0), ok(0));
      var configured := Alone(w, SetRemoteControl(true), probe(0), ok(0));
      if configured.finished {
        SetFinishedAgrees(w, probe(0), ok(0));
        StartAgrees(configured.world, probe(1), ok(1));
      }
    }
  }

  lemma {:induction false} SetFinishedAgrees(w: World, probe: Answer, ok: nat -> bool)
    requires Agrees(w) && Alone(w, SetRemoteControl(true), probe, ok).finished
    ensures Agrees(Alone(w, SetRemoteControl(true), probe, ok).world)
  {
    SetRemoteControlAgreesIff(w, true, probe, ok);
    if w.server.Some? && !w.saved && ok(0) {
      var v := w.(saved := true);
      assert Alone(w, SetRemoteControl(true), probe, ok) == Carry(v, Reconfigure(true), ok, 1);
      ReconfigureAgreesIff(v, true, ok, 1);
    }
  }

  /** Starting, restarting, stopping and the updater's refresh never take settings and server
      apart, however they fail. */
  lemma {:induction false} OthersAgree(w: World, c: Command, probe: Answer, ok: nat -> bool)
    requires Agrees(w) && (c.StartServer? || c.RestartServer? || c.StopServer? || c.Refresh?)
    ensures Agrees(Alone(w, c, probe, ok).world)
  {
    match c
    case StartServer => StartAgrees(w, probe, ok);
    case RestartServer => RestartMends(w, probe, ok);
    case StopServer =>
    case Refresh(mode, refresh, binary) => RefreshAgrees(w, mode, refresh, binary, probe, ok);
  }

  /** Asking for the same setting again does not mend them: it finds the setting saved and leaves the
      server as it is. */
  lemma {:induction false} RetryDoesNotMend(w: World, enabled: bool, probe: Answer, ok: nat -> bool)
    requires !Agrees(w) && w.saved == enabled
    ensures Alone(w, SetRemoteControl(enabled), probe, ok).world == w
  {
    WaitingKeeps(w, ok, 0);
  }

  /** So it can happen that a command is answered as already done, with every step going
      well, and the server does not have the setting. */
  lemma {:induction false} AlreadyEnabledWithoutIt()
    ensures var w := World(false, Some(Server(false, "1")), None, false, Some("1"));
            var first := Alone(w, SetRemoteControl(true), FromManaged, k => k < 2);
            var again := Alone(first.world, SetRemoteControl(true), FromManaged, k => true);
            Agrees(w) && !first.finished && again.finished && again.world.saved &&
                !again.world.server.value.remoteControl
  {
    var w := World(false, Some(Server(false, "1")), None, false, Some("1"));
    SetRemoteControlAgreesIff(w, true, FromManaged, (k: nat) => k < 2);
  }

  // ----- what the updater reports

  /** The updater finds a running server current exactly when it is not made to restart it and
      the answer it gets, whoever gives it, is the version of its binary. */
  lemma {:induction false} ReportsCurrentIff(w: World, mode: RestartMode, refresh: RefreshMode, binary: string,
                                             probe: Answer)
    requires w.server.Some?
    ensures PlanRefresh(w, mode, refresh, binary, probe) == Some(Then(Report(WasCurrent, binary), Done))
            <==> mode.IfVersionChanged? && Heard(w, probe) == Some(binary)
  {
  }

  /** That is then true of the managed server exactly when the managed server answered, or
      another that is of the same version. */
  lemma {:induction false} CurrentTrueIff(w: World, mode: RestartMode, refresh: RefreshMode, binary: string,
                                          probe: Answer)
    requires PlanRefresh(w, mode, refresh, binary, probe) == Some(Then(Report(WasCurrent, binary), Done))
    ensures w.server.Some?
    ensures w.server.value.version == binary <==> probe.FromManaged? || w.unmanaged == Some(w.server.value.version)
    ensures w.server.value.version == binary <==> !Misheard(w, probe)
  {
    if w.server.Some? { ReportsCurrentIff(w, mode, refresh, binary, probe); }
  }

  /** So a managed server "1" is reported current for binary "2" when another server answers
      with that version. */
  lemma {:induction false} CurrentByAnotherServer(mode: RestartMode, refresh: RefreshMode)
    requires mode.IfVersionChanged?
    ensures var w := World(false, Some(Server(false, "1")), Some("2"), true, Some("2"));
            PlanRefresh(w, mode, refresh, "2", FromOther) == Some(Then(Report(WasCurrent, "2"), Done)) &&
                w.server.value.version != "2"
  {
    ReportsCurrentIff(World(false, Some(Server(false, "1")), Some("2"), true, Some("2")), mode, refresh, "2",
        FromOther);
    assert "1"[0] != "2"[0];
  }

  /** The step says of a binary that the running server was restarted with it. */
  predicate ClaimsRestart(step: Step, binary: string) {
    (step.Reexec? && step.image == binary) || step == Report(Restarted, binary)
  }

  predicate Claiming(step: Step) {
    step.Reexec? || (step.Report? && (step.outcome.WasCurrent? || step.outcome.Restarted?))
  }

  predicate Unclaiming(todo: Todo) {
    todo.Then? ==> !Claiming(todo.step) && Unclaiming(todo.rest)
  }

  /** Every claim among the steps will be right about a server that then runs: one of a
      restart always, and one of being current exactly if the job has not misheard. */
  predicate Truthful(todo: Todo, version: Option<string>, misheard: bool) {
    match todo
    case Done => true
    case Then(step, rest) =>
      match step
      case Stop => Truthful(rest, None, misheard)
      case Start(_, binary) =>
        if binary.Some? then Truthful(rest, binary, misheard) &&
            (version.Some? ==> Truthful(rest, version, misheard)) else Unclaiming(rest)
      case Report(outcome, image) =>
        && (version.Some? && outcome.Restarted? ==> version.value == image)
        && (version.Some? && outcome.WasCurrent? ==> (version.value == image <==> !misheard))
        && Truthful(rest, version, misheard)
      case Reexec(image) => (version.Some? ==> version.value == image) && Truthful(rest, version, misheard)
      case Decide(_) => Unclaiming(rest)
      case _ => Truthful(rest, version, misheard)
  }

  /** A re-exec comes only after the server was started again. */
  predicate StartsFirst(todo: Todo, started: bool) {
    match todo
    case Done => true
    case Then(step, rest) =>
      match step
      case Reexec(_) => started && StartsFirst(rest, started)
      case Start(_, _) => StartsFirst(rest, true)
      case Decide(_) => Unclaiming(rest)
      case _ => StartsFirst(rest, started)
  }

  function Version(w: World): Option<string> {
    if w.server.Some? then Some(w.server.value.version) else None
  }

  lemma {:induction false} UnclaimingTruthful(todo: Todo, version: Option<string>, misheard: bool, started: bool)
    requires Unclaiming(todo)
    ensures Truthful(todo, version, misheard) && StartsFirst(todo, started)
  {
    if todo.Then? {
      UnclaimingTruthful(todo.rest, version, misheard, started);
      UnclaimingTruthful(todo.rest, None, misheard, true);
      if todo.step.Start? { UnclaimingTruthful(todo.rest, todo.step.binary, misheard, true); }
    }
  }

  lemma {:induction false} TruthfulAfterCrash(todo: Todo, version: Option<string>, misheard: bool)
    requires Truthful(todo, version, misheard)
    ensures Truthful(todo, None, misheard)
  {
    if todo.Then? && !todo.step.Stop? && !todo.step.Start? && !todo.step.Decide? {
      TruthfulAfterCrash(todo.rest, version, misheard);
    }
  }

  lemma {:induction false} TailUnclaiming(rest: Todo)
    requires Tail(rest)
    ensures Unclaiming(rest)
  {
    assert Unclaiming(Done) && Unclaiming(Then(Unlock, Done));
  }

  lemma {:induction false} UnclaimingThenTail(todo: Todo, rest: Todo)
    requires Unclaiming(todo) && Tail(rest)
    ensures Unclaiming(Append(todo, rest))
  {
    TailUnclaiming(rest);
    if todo.Then? { UnclaimingThenTail(todo.rest, rest); }
  }

  lemma {:induction false} TruthfulThenTail(todo: Todo, rest: Todo, version: Option<string>, misheard: bool,
                                            started: bool)
    requires Truthful(todo, version, misheard) && StartsFirst(todo, started) && Tail(rest) && Plain(todo)
    ensures Truthful(Append(todo, rest), version, misheard) && StartsFirst(Append(todo, rest), started)
  {
    if todo.Done? {
      TailUnclaiming(rest);
      UnclaimingTruthful(rest, version, misheard, started);
    } else {
      match todo.step
      case Stop => TruthfulThenTail(todo.rest, rest, None, misheard, started);
      case Start(_, binary) =>
        if binary.Some? {
          TruthfulThenTail(todo.rest, rest, binary, misheard, true);
          if version.Some? { TruthfulThenTail(todo.rest, rest, version, misheard, true); }
        } else {
          UnclaimingThenTail(todo.rest, rest);
          UnclaimingTruthful(Append(todo.rest, rest), version, misheard, true);
        }
      case Decide(_) =>
      case TryLock(_) =>
      case Unlock =>
      case _ => TruthfulThenTail(todo.rest, rest, version, misheard, started);
    }
  }

  lemma {:induction false} LaunchUnclaiming(flag: bool)
    ensures var launch := Launching(flag, None, Done); Unclaiming(launch) && Unclaiming(Reconfigure(flag))
  {
    assert Unclaiming(Done) && Unclaiming(Then(AwaitReady, Done));
    var launch := Launching(flag, None, Done);
    assert Unclaiming(launch) && Unclaiming(Then(Stop, launch));
  }

  lemma {:induction false} BootstrapUnclaiming(enabled: bool, updater: bool)
    ensures Unclaiming(Then(Save(enabled), Then(Stop, Then(Start(enabled, None), RelaunchingUpdater(updater)))))
  {
    var start := Then(StartUpdater, Then(AwaitReady, Done));
    assert Unclaiming(Done) && Unclaiming(Then(AwaitReady, Done)) && Unclaiming(start) &&
        Unclaiming(RelaunchingUpdater(updater));
    var launch := Then(Start(enabled, None), RelaunchingUpdater(updater));
    assert Unclaiming(launch) && Unclaiming(Then(Stop, launch));
  }

  /** Only the updater's operation claims anything. */
  lemma {:induction false} OthersUnclaiming(w: World, c: Command, probe: Answer)
    requires !c.Refresh? && !c.EnsureRemoteControlStarted? && Plan(w, c, probe).Some?
    ensures Unclaiming(Plan(w, c, probe).value)
  {
    assert Unclaiming(Done) && Unclaiming(Then(AwaitReady, Done));
    match c
    case StartServer => LaunchUnclaiming(w.saved);
    case RestartServer => LaunchUnclaiming(w.saved);
    case StopServer =>
    case SetRemoteControl(enabled) => LaunchUnclaiming(enabled);
    case Bootstrap(enabled) => BootstrapUnclaiming(enabled, w.updater);
  }

  lemma {:induction false} ConcludingTruthful(reexec: bool, binary: string, misheard: bool)
    ensures Truthful(Concluding(reexec, binary), Some(binary), misheard) &&
            StartsFirst(Concluding(reexec, binary), true)
  {
    assert Truthful(Done, Some(binary), misheard) && StartsFirst(Done, true);
  }

  lemma {:induction false} RestartTruthful(saved: bool, reexec: bool, binary: string, version: Option<string>,
                                           misheard: bool)
    ensures var plan := Then(Stop, Launching(saved, Some(binary), Concluding(reexec, binary)));
            Truthful(plan, version, misheard) && StartsFirst(plan, false)
  {
    var rest := Concluding(reexec, binary);
    ConcludingTruthful(reexec, binary, misheard);
    var waiting := Then(AwaitReady, rest);
    assert Truthful(waiting, Some(binary), misheard) && StartsFirst(waiting, true);
    var launch := Launching(saved, Some(binary), rest);
    assert Truthful(launch, None, misheard) && StartsFirst(launch, false);
  }

  lemma {:induction false} RefreshTruthful(w: World, mode: RestartMode, refresh: RefreshMode, binary: string,
                                           probe: Answer)
    requires PlanRefresh(w, mode, refresh, binary, probe).Some?
    ensures var plan := PlanRefresh(w, mode, refresh, binary, probe).value;
            Truthful(plan, Version(w), Misheard(w, probe)) && StartsFirst(plan, false)
  {
    RestartTruthful(w.saved, ShouldReexecUpdater(refresh, Restarted), binary, Version(w), Misheard(w, probe));
    assert Truthful(Done, Version(w), Misheard(w, probe)) && StartsFirst(Done, false);
    if PlanRefresh(w, mode, refresh, binary, probe) == Some(Then(Report(WasCurrent, binary), Done)) {
      CurrentTrueIff(w, mode, refresh, binary, probe);
    }
  }

  ghost predicate HonestJob(job: Job, w: World) {
    Truthful(job.todo, Version(w), job.misheard) && StartsFirst(job.todo, job.started)
  }

  ghost predicate Trusted(s: State) {
    Disciplined(s) && (s.lock.Some? ==> HonestJob(s.jobs[s.lock.value], s.world))
  }

  lemma {:induction false} StartedAnyway(todo: Todo, started: bool)
    requires StartsFirst(todo, false)
    ensures StartsFirst(todo, started)
  {
    if todo.Then? && !todo.step.Start? && !todo.step.Decide? { StartedAnyway(todo.rest, started); }
  }

  lemma {:induction false} DecideHonest(w: World, job: Job, probe: Answer)
    requires Orderly(job.todo) && job.todo.step.Decide? && Plan(w, job.todo.step.command, probe).Some?
    ensures HonestJob(job.(todo := Append(Plan(w, job.todo.step.command, probe).value, job.todo.rest),
            misheard := Misheard(w, probe)), w)
  {
    var c, rest := job.todo.step.command, job.todo.rest;
    var plan := Plan(w, c, probe).value;
    if c.EnsureRemoteControlStarted? {
      TailUnclaiming(rest);
      assert Append(Then(Decide(StartServer), Done), rest) == Then(Decide(StartServer), rest);
      assert w.updater ==> Append(plan, rest) == Then(Decide(SetRemoteControl(true)), Then(Decide(StartServer), rest));
      assert !w.updater ==> Append(plan, rest) == Then(Decide(Bootstrap(true)), rest);
      assert Unclaiming(Then(Decide(StartServer), rest));
    } else {
      PlansArePlain(w, c, probe);
      if c.Refresh? {
        RefreshTruthful(w, c.mode, c.refresh, c.binary, probe);
        StartedAnyway(plan, job.started);
      } else {
        OthersUnclaiming(w, c, probe);
        UnclaimingTruthful(plan, Version(w), Misheard(w, probe), job.started);
      }
      TruthfulThenTail(plan, rest, Version(w), Misheard(w, probe), job.started);
    }
  }

  lemma {:induction false} StepHonest(w: World, job: Job)
    requires HonestJob(job, w) && job.todo.Then? && Effect(w, job.todo.step).Some?
    ensures HonestJob(Past(job), Effect(w, job.todo.step).value)
  {
    if job.todo.step.Start? && job.todo.step.binary.None? {
      UnclaimingTruthful(job.todo.rest, Version(Effect(w, job.todo.step).value), job.misheard, true);
    }
  }

  lemma {:induction false} LockHonest(s: State, pid: Pid)
    requires Trusted(s) && pid in s.jobs && s.jobs[pid].todo.Then? && s.jobs[pid].todo.step.TryLock?
    ensures Trusted(TookLock(s, pid))
  {
    LockStepKeeps(s, pid);
    assert Unclaiming(Done) && Unclaiming(Then(Unlock, Done));
    assert Idle(s.jobs[pid]);
  }

  lemma {:induction false} TookHonest(s: State, pid: Pid, probe: Answer)
    requires Trusted(s) && pid in s.jobs && s.jobs[pid].todo.Then? &&
             !Fails(s.world, s.jobs[pid].todo.step, true, probe)
    ensures Trusted(Took(s, pid, probe))
  {
    var job := s.jobs[pid];
    TookKeepsDiscipline(s, pid, probe);
    if job.todo.step.TryLock? {
      LockHonest(s, pid);
    } else if s.lock == Some(pid) && job.todo.step.Decide? {
      DecideHonest(s.world, job, probe);
    } else if s.lock == Some(pid) && !job.todo.step.Unlock? {
      StepHonest(s.world, job);
    }
  }

  lemma {:induction false} ActionHonest(s: State, a: Action)
    requires Trusted(s) && Enabled(s, a)
    ensures Trusted(Apply(s, a))
  {
    DisciplineKept(s, a);
    match a
    case Advance(pid, ok, probe) => if !Fails(s.world, s.jobs[pid].todo.step, ok, probe) { TookHonest(s, pid, probe); }
    case Crash =>
      if s.lock.Some? {
        TruthfulAfterCrash(s.jobs[s.lock.value].todo, Version(s.world), s.jobs[s.lock.value].misheard);
      }
    case _ =>
  }

  lemma {:induction false} RunHonest(s: State, run: seq<Action>)
    requires Trusted(s) && Runs(s, run)
    ensures Trusted(Final(s, run))
    decreases |run|
  {
    if run != [] {
      ActionHonest(s, run[0]);
      RunHonest(Apply(s, run[0]), run[1..]);
    }
  }

  /** In every run, when the updater reports a restart or replaces itself, the managed server,
      if it runs, is of the version of the updater's binary, and the updater replaces itself
      only in an operation that has started the server again. When it reports the server
      current, that is so exactly if it did not go by the answer of another server of another
      version. */
  lemma {:induction false} ReportsAreTrue(s0: State, run: seq<Action>, pid: Pid, binary: string)
    requires s0.lock.None? && s0.jobs == map[] && Runs(s0, run)
    requires pid in Final(s0, run).jobs && Final(s0, run).jobs[pid].todo.Then?
    ensures var s := Final(s0, run);
            var job := s.jobs[pid];
            && (ClaimsRestart(job.todo.step, binary) && s.world.server.Some? ==> s.world.server.value.version == binary)
            && (job.todo.step.Reexec? ==> job.started)
            && (job.todo.step == Report(WasCurrent, binary) && s.world.server.Some? ==>
                  (s.world.server.value.version == binary <==> !job.misheard))
  {
    RunHonest(s0, run);
  }
}
