/** Several daemon processes and the world around them, as interleaved steps. Taking the lock
    and giving it back are steps of each operation's program like any other. */
module DaemonRuns {
  import opened Basics
  import opened Daemon

  type Pid = nat

  /** An operation under way: what it has still to do, whether it has saved the settings,
      whether it has started the server, and whether the version it went by was that of
      another server of another version. */
  datatype Job = Job(todo: Todo, saved: bool, started: bool, misheard: bool)

  datatype State = State(world: World, lock: Option<Pid>, jobs: map<Pid, Job>)

  datatype Action =
    | Begin(pid: Pid, command: Command)
    | Advance(pid: Pid, ok: bool, probe: Answer)
    | End(pid: Pid)
    | Kill(pid: Pid)
    | Crash
    | OtherServer(version: Option<string>)
    | Install(version: Option<string>)
    | UpdaterDies

  function Append(todo: Todo, rest: Todo): Todo {
    match todo
    case Done => rest
    case Then(step, more) => Then(step, Append(more, rest))
  }

  /** Every operation takes the lock, looks about and decides, and gives the lock back. */
  function Program(c: Command): Todo {
    Then(TryLock(c), Then(Decide(c), Then(Unlock, Done)))
  }

  predicate Enabled(s: State, a: Action) {
    match a
    case Begin(pid, _) => pid !in s.jobs
    case Advance(pid, _, _) => pid in s.jobs && s.jobs[pid].todo.Then?
    case End(pid) => pid in s.jobs && s.jobs[pid].todo.Done?
    case Kill(pid) => pid in s.jobs
    case _ => true
  }

  function Freed(s: State, pid: Pid): Option<Pid> {
    if s.lock == Some(pid) then None else s.lock
  }

  /** The process is gone or done with, and its lock with it. */
  function Gone(s: State, pid: Pid): State {
    s.(jobs := s.jobs - {pid}, lock := Freed(s, pid))
  }

  /** The step in hand fails: an injected failure, which for the lock is its deadline, a
      refusal, or a step that cannot be taken. */
  predicate Fails(w: World, step: Step, ok: bool, probe: Answer) {
    || !ok
    || (step.Decide? && Plan(w, step.command, probe).None?)
    || (!step.Decide? && !step.TryLock? && !step.Unlock? && Effect(w, step).None?)
  }

  /** The updater reports a lock that is taken; the other operations wait for it. */
  function TookLock(s: State, pid: Pid): State
    requires pid in s.jobs && s.jobs[pid].todo.Then? && s.jobs[pid].todo.step.TryLock?
  {
    var job := s.jobs[pid];
    var c := job.todo.step.command;
    if s.lock.None? then s.(lock := Some(pid), jobs := s.jobs[pid := job.(todo := job.todo.rest)])
    else if c.Refresh? then s.(jobs := s.jobs[pid := job.(todo := Then(Report(Busy, c.binary), Done))])
    else s
  }

  /** The answer came from another server, and of another version than the managed one. */
  predicate Misheard(w: World, probe: Answer) {
    probe.FromOther? && w.server.Some? && w.unmanaged.Some? && w.unmanaged.value != w.server.value.version
  }

  function Took(s: State, pid: Pid, probe: Answer): State
    requires pid in s.jobs && s.jobs[pid].todo.Then? && !Fails(s.world, s.jobs[pid].todo.step, true, probe)
  {
    var job := s.jobs[pid];
    var step, rest := job.todo.step, job.todo.rest;
    if step.TryLock? then TookLock(s, pid)
    else if step.Unlock? then s.(lock := Freed(s, pid), jobs := s.jobs[pid := job.(todo := rest)])
    else if step.Decide? then
      s.(jobs := s.jobs[pid := job.(todo := Append(Plan(s.world, step.command, probe).value, rest),
          misheard := Misheard(s.world, probe))])
    else if step.Reexec? then Gone(s, pid)
    else s.(world := Effect(s.world, step).value, jobs := s.jobs[pid := Past(job)])
  }

  function Past(job: Job): Job
    requires job.todo.Then?
  {
    var step := job.todo.step;
    job.(todo := job.todo.rest, saved := job.saved || step.Save?, started := job.started || step.Start?)
  }

  function Apply(s: State, a: Action): State
    requires Enabled(s, a)
  {
    match a
    case Begin(pid, command) => s.(jobs := s.jobs[pid := Job(Program(command), false, false, false)])
    case Advance(pid, ok, probe) =>
      if Fails(s.world, s.jobs[pid].todo.step, ok, probe) then Gone(s, pid) else Took(s, pid, probe)
    case End(pid) => Gone(s, pid)
    case Kill(pid) => Gone(s, pid)
    case Crash => s.(world := s.world.(server := None))
    case OtherServer(version) => s.(world := s.world.(unmanaged := version))
    case Install(version) => s.(world := s.world.(managed := version))
    case UpdaterDies => s.(world := s.world.(updater := false))
  }

  ghost predicate Runs(s: State, run: seq<Action>)
    decreases |run|
  {
    run == [] || (Enabled(s, run[0]) && Runs(Apply(s, run[0]), run[1..]))
  }

  ghost function Final(s: State, run: seq<Action>): State
    requires Runs(s, run)
    decreases |run|
  {
    if run == [] then s else Final(Apply(s, run[0]), run[1..])
  }

  // ----- the lock

  /** The steps that change the settings, the server or the updater, or replace a process. */
  predicate Mutates(step: Step) {
    step.Save? || step.Stop? || step.Start? || step.StopUpdater? || step.StartUpdater? || step.Reexec?
  }

  /** The steps change nothing before they take the lock nor after they give it back, take it
      only when they do not hold it, and end without it. */
  predicate Locked(todo: Todo, held: bool) {
    match todo
    case Done => !held
    case Then(step, rest) =>
      match step
      case TryLock(_) => !held && Locked(rest, true)
      case Unlock => held && Locked(rest, false)
      case _ => (Mutates(step) || step.Decide? ==> held) && Locked(rest, held)
  }

  /** What may follow a decision. */
  predicate Tail(todo: Todo) {
    todo == Then(Unlock, Done) || todo == Then(Decide(StartServer), Then(Unlock, Done))
  }

  /** A plan proper: no decisions and no lock steps in it. */
  predicate Plain(todo: Todo) {
    todo.Then? ==> !todo.step.Decide? && !todo.step.TryLock? && !todo.step.Unlock? && Plain(todo.rest)
  }

  /** A job that holds the lock: a plan or a decision, then at most the decision to start, then
      the lock given back. */
  predicate Orderly(todo: Todo) {
    match todo
    case Done => false
    case Then(step, rest) =>
      match step
      case TryLock(_) => false
      case Unlock => rest.Done?
      case Decide(c) => Tail(rest) && (c.EnsureRemoteControlStarted? ==> rest == Then(Unlock, Done))
      case _ => Orderly(rest)
  }

  /** A job without the lock: not yet started on, or with nothing left to do but report. */
  ghost predicate Idle(job: Job) {
    || job.todo.Done?
    || (exists binary :: job.todo == Then(Report(Busy, binary), Done))
    || (!job.saved && exists c :: job.todo == Program(c))
  }

  ghost predicate Disciplined(s: State) {
    && (s.lock.Some? ==> s.lock.value in s.jobs)
    && (forall p :: p in s.jobs && s.lock == Some(p) ==> Orderly(s.jobs[p].todo))
    && (forall p :: p in s.jobs && s.lock != Some(p) ==> Idle(s.jobs[p]))
  }

  lemma {:induction false} PlainThenTail(todo: Todo, rest: Todo)
    requires Plain(todo) && Tail(rest)
    ensures Orderly(Append(todo, rest))
  {
    if todo.Then? { PlainThenTail(todo.rest, rest); }
  }

  lemma {:induction false} LaunchingPlain(flag: bool, binary: Option<string>, rest: Todo)
    requires Plain(rest)
    ensures Plain(Launching(flag, binary, rest)) && Plain(Then(Stop, Launching(flag, binary, rest)))
  {
    assert Plain(Then(AwaitReady, rest));
    assert Plain(Launching(flag, binary, rest));
  }

  lemma {:induction false} ReconfigurePlain(flag: bool)
    ensures Plain(Reconfigure(flag)) && Plain(Then(AwaitReady, Done)) && Plain(Launching(flag, None, Done))
  {
    assert Plain(Done) && Plain(Then(AwaitReady, Done));
    LaunchingPlain(flag, None, Done);
    assert Plain(Then(Stop, Launching(flag, None, Done)));
  }

  lemma {:induction false} BootstrapPlain(enabled: bool, updater: bool)
    ensures Plain(Then(Save(enabled), Then(Stop, Then(Start(enabled, None), RelaunchingUpdater(updater)))))
  {
    var start := Then(StartUpdater, Then(AwaitReady, Done));
    assert Plain(Done) && Plain(Then(AwaitReady, Done)) && Plain(start) && Plain(RelaunchingUpdater(updater));
    var launch := Then(Start(enabled, None), RelaunchingUpdater(updater));
    assert Plain(launch) && Plain(Then(Stop, launch));
  }

  lemma {:induction false} RefreshPlain(w: World, c: Command, probe: Answer)
    requires c.Refresh? && Plan(w, c, probe).Some?
    ensures Plain(Plan(w, c, probe).value)
  {
    var rest := Concluding(ShouldReexecUpdater(c.refresh, Restarted), c.binary);
    assert Plain(Done) && Plain(rest);
    LaunchingPlain(w.saved, Some(c.binary), rest);
  }

  predicate OnlyDecides(todo: Todo) {
    todo.Then? ==> todo.step.Decide? && OnlyDecides(todo.rest)
  }

  /** No plan touches the lock; only the one to ensure remote control makes decisions, and it
      does nothing else. */
  lemma {:induction false} PlansArePlain(w: World, c: Command, probe: Answer)
    requires Plan(w, c, probe).Some?
    ensures !c.EnsureRemoteControlStarted? ==> Plain(Plan(w, c, probe).value)
    ensures c.EnsureRemoteControlStarted? ==> OnlyDecides(Plan(w, c, probe).value)
  {
    match c
    case StartServer => ReconfigurePlain(w.saved);
    case RestartServer => ReconfigurePlain(w.saved);
    case StopServer => assert Plain(Done);
    case SetRemoteControl(enabled) => ReconfigurePlain(enabled);
    case Bootstrap(enabled) => BootstrapPlain(enabled, w.updater);
    case EnsureRemoteControlStarted => assert OnlyDecides(Done) && OnlyDecides(Then(Decide(StartServer), Done));
    case Refresh(_, _, _) => RefreshPlain(w, c, probe);
  }

  lemma {:induction false} DecideOrderly(w: World, todo: Todo, probe: Answer)
    requires Orderly(todo) && todo.step.Decide? && Plan(w, todo.step.command, probe).Some?
    ensures Orderly(Append(Plan(w, todo.step.command, probe).value, todo.rest))
  {
    var c, rest := todo.step.command, todo.rest;
    if !c.EnsureRemoteControlStarted? {
      PlansArePlain(w, c, probe);
      PlainThenTail(Plan(w, c, probe).value, rest);
    } else {
      var enable, start := Then(Decide(SetRemoteControl(true)), Then(Decide(StartServer), Done)),
          Then(Decide(Bootstrap(true)), Done);
      assert Append(Then(Decide(StartServer), Done), rest) == Then(Decide(StartServer), rest);
      assert Append(enable, rest) == Then(Decide(SetRemoteControl(true)), Then(Decide(StartServer), rest));
      assert Append(start, rest) == Then(Decide(Bootstrap(true)), rest);
    }
  }

  lemma {:induction false} ProgramOrderly(c: Command)
    ensures Orderly(Program(c).rest)
  {
  }

  lemma {:induction false} LockStepKeeps(s: State, pid: Pid)
    requires Disciplined(s) && pid in s.jobs && s.jobs[pid].todo.Then? && s.jobs[pid].todo.step.TryLock?
    ensures Disciplined(TookLock(s, pid))
  {
    ProgramOrderly(s.jobs[pid].todo.step.command);
  }

  lemma {:induction false} JobReplaced(s: State, pid: Pid, w: World, job: Job)
    requires Disciplined(s) && pid in s.jobs
    requires s.lock == Some(pid) ==> Orderly(job.todo)
    requires s.lock != Some(pid) ==> Idle(job)
    ensures Disciplined(s.(world := w, jobs := s.jobs[pid := job]))
  {
  }

  lemma {:induction false} UnlockKeeps(s: State, pid: Pid)
    requires Disciplined(s) && pid in s.jobs && s.jobs[pid].todo.Then? && s.jobs[pid].todo.step.Unlock?
    ensures s.lock == Some(pid)
    ensures Disciplined(s.(lock := None, jobs := s.jobs[pid := s.jobs[pid].(todo := s.jobs[pid].todo.rest)]))
  {
  }

  lemma {:induction false} GoneDisciplined(s: State, pid: Pid)
    requires Disciplined(s)
    ensures Disciplined(Gone(s, pid))
  {
  }

  lemma {:induction false} PastKeeps(s: State, pid: Pid)
    requires Disciplined(s) && pid in s.jobs && s.jobs[pid].todo.Then?
    requires Effect(s.world, s.jobs[pid].todo.step).Some?
    ensures var w := Effect(s.world, s.jobs[pid].todo.step).value;
            Disciplined(s.(world := w, jobs := s.jobs[pid := Past(s.jobs[pid])]))
  {
    JobReplaced(s, pid, Effect(s.world, s.jobs[pid].todo.step).value, Past(s.jobs[pid]));
  }

  lemma {:induction false} TookKeepsDiscipline(s: State, pid: Pid, probe: Answer)
    requires Disciplined(s) && pid in s.jobs && s.jobs[pid].todo.Then? &&
             !Fails(s.world, s.jobs[pid].todo.step, true, probe)
    ensures Disciplined(Took(s, pid, probe))
  {
    var job := s.jobs[pid];
    var step := job.todo.step;
    if step.TryLock? {
      LockStepKeeps(s, pid);
    } else if step.Unlock? {
      UnlockKeeps(s, pid);
    } else if step.Decide? {
      var plan := Plan(s.world, step.command, probe).value;
      DecideOrderly(s.world, job.todo, probe);
      JobReplaced(s, pid, s.world, job.(todo := Append(plan, job.todo.rest), misheard := Misheard(s.world, probe)));
    } else if step.Reexec? {
      GoneDisciplined(s, pid);
    } else {
      PastKeeps(s, pid);
    }
  }

  lemma {:induction false} DisciplineKept(s: State, a: Action)
    requires Disciplined(s) && Enabled(s, a)
    ensures Disciplined(Apply(s, a))
  {
    match a
    case Begin(pid, command) => assert Idle(Job(Program(command), false, false, false));
    case Advance(pid, ok, probe) =>
      if !Fails(s.world, s.jobs[pid].todo.step, ok, probe) {
        TookKeepsDiscipline(s, pid, probe);
      }
    case _ =>
  }

  lemma {:induction false} DisciplineAlways(s: State, run: seq<Action>)
    requires Disciplined(s) && Runs(s, run)
    ensures Disciplined(Final(s, run))
    decreases |run|
  {
    if run != [] {
      DisciplineKept(s, run[0]);
      DisciplineAlways(Apply(s, run[0]), run[1..]);
    }
  }

  lemma {:induction false} OrderlyLocked(todo: Todo)
    requires Orderly(todo)
    ensures Locked(todo, true)
  {
    var last := Then(Unlock, Done);
    assert Locked(Done, false) && Locked(last, true) && Locked(Then(Decide(StartServer), last), true);
    if !todo.step.Unlock? && !todo.step.Decide? { OrderlyLocked(todo.rest); }
  }

  lemma {:induction false} IdleLocked(job: Job)
    requires Idle(job)
    ensures Locked(job.todo, false)
  {
    assert Locked(Done, false) && Locked(Then(Unlock, Done), true);
    if c :| job.todo == Program(c) { assert Locked(Then(Decide(c), Then(Unlock, Done)), true); }
  }

  predicate Changes(v: World, w: World) {
    v.saved != w.saved || v.server != w.server || v.updater != w.updater
  }

  /** Nobody's steps, in any run, change anything before taking the lock or after giving it
      back. So a step that saves settings, starts or stops the server, starts or stops the
      updater, or replaces a process is taken by the one process that holds the lock; apart
      from those steps only a server that crashes and an updater that dies change these. */
  lemma {:induction false} OnlyTheLockHolderActs(s0: State, run: seq<Action>, a: Action)
    requires s0.lock.None? && s0.jobs == map[] && Runs(s0, run) && Enabled(Final(s0, run), a)
    ensures var s, t := Final(s0, run), Apply(Final(s0, run), a);
            && (forall p :: p in s.jobs ==> Locked(s.jobs[p].todo, s.lock == Some(p)))
            && (a.Advance? && Mutates(s.jobs[a.pid].todo.step) ==> s.lock == Some(a.pid))
            && (Changes(s.world, t.world) && !a.Crash? && !a.UpdaterDies? ==> a.Advance? && s.lock == Some(a.pid))
  {
    DisciplineAlways(s0, run);
    var s := Final(s0, run);
    forall p | p in s.jobs ensures Locked(s.jobs[p].todo, s.lock == Some(p)) {
      if s.lock == Some(p) { OrderlyLocked(s.jobs[p].todo); } else { IdleLocked(s.jobs[p]); }
    }
  }

  // ----- settings and server agree

  function Flag(w: World): Option<bool> {
    if w.server.Some? then Some(w.server.value.remoteControl) else None
  }

  predicate Agree(saved: bool, flag: Option<bool>) {
    flag.Some? ==> flag.value == saved
  }

  /** A step that may save settings is still to come. */
  predicate SaveAhead(todo: Todo) {
    todo.Then? && (todo.step.Save? || (todo.step.Decide? && !todo.step.command.StartServer?) || SaveAhead(todo.rest))
  }

  predicate StopAhead(todo: Todo) {
    todo.Then? && (todo.step.Stop? || StopAhead(todo.rest))
  }

  /** Carried through, the steps leave the server with the saved setting. */
  predicate Sound(todo: Todo, saved: bool, flag: Option<bool>) {
    match todo
    case Done => Agree(saved, flag)
    case Then(step, rest) =>
      match step
      case Save(f) => !SaveAhead(rest) && Sound(rest, f, flag)
      case Stop => Sound(rest, saved, None)
      case Start(f, _) => f == saved && !SaveAhead(rest) && Sound(rest, saved, if flag.Some? then flag else Some(f))
      case TryLock(_) => false
      case Unlock => Agree(saved, flag) && rest.Done?
      case Decide(c) =>
        Agree(saved, flag) && Tail(rest) && (c.EnsureRemoteControlStarted? ==> rest == Then(Unlock, Done))
      case Reexec(_) => Agree(saved, flag) && Sound(rest, saved, flag)
      case _ => Sound(rest, saved, flag)
  }

  /** Without a save or a stop to come, sound steps mean agreement now. */
  lemma {:induction false} SoundNow(todo: Todo, saved: bool, flag: Option<bool>)
    requires Sound(todo, saved, flag) && !SaveAhead(todo) && !StopAhead(todo)
    ensures Agree(saved, flag)
  {
    if todo.Then? && !todo.step.Decide? && !todo.step.Unlock? {
      SoundNow(todo.rest, saved, if todo.step.Start? && flag.None? then Some(todo.step.flag) else flag);
    }
  }

  lemma {:induction false} SoundIfAgreeing(todo: Todo, saved: bool, flag: Option<bool>, other: Option<bool>)
    requires Sound(todo, saved, flag) && !SaveAhead(todo) && Agree(saved, other)
    ensures Sound(todo, saved, other)
  {
    if todo.Then? && !todo.step.Decide? && !todo.step.Unlock? {
      if todo.step.Start? {
        SoundIfAgreeing(todo.rest, saved, if flag.Some? then flag else Some(saved),
            if other.Some? then other else Some(saved));
      } else if !todo.step.Stop? {
        SoundIfAgreeing(todo.rest, saved, flag, other);
      }
    }
  }

  lemma {:induction false} SoundAfterCrash(todo: Todo, saved: bool, flag: Option<bool>)
    requires Sound(todo, saved, flag)
    ensures Sound(todo, saved, None)
  {
    if todo.Then? {
      match todo.step
      case Save(f) => SoundAfterCrash(todo.rest, f, flag);
      case Start(f, _) => SoundIfAgreeing(todo.rest, saved, if flag.Some? then flag else Some(f), Some(f));
      case Stop =>
      case Decide(_) =>
      case TryLock(_) =>
      case Unlock =>
      case _ => SoundAfterCrash(todo.rest, saved, flag);
    }
  }

  lemma {:induction false} TailSaves(todo: Todo, rest: Todo)
    requires Tail(rest)
    ensures SaveAhead(Append(todo, rest)) == SaveAhead(todo)
  {
    if todo.Then? { TailSaves(todo.rest, rest); }
  }

  lemma {:induction false} SoundThenTail(todo: Todo, rest: Todo, saved: bool, flag: Option<bool>)
    requires Sound(todo, saved, flag) && Tail(rest) && Plain(todo)
    ensures Sound(Append(todo, rest), saved, flag)
  {
    if todo.Then? {
      TailSaves(todo.rest, rest);
      match todo.step
      case Save(f) => SoundThenTail(todo.rest, rest, f, flag);
      case Stop => SoundThenTail(todo.rest, rest, saved, None);
      case Start(f, _) => SoundThenTail(todo.rest, rest, saved, if flag.Some? then flag else Some(f));
      case Decide(_) =>
      case TryLock(_) =>
      case Unlock =>
      case _ => SoundThenTail(todo.rest, rest, saved, flag);
    }
  }

  lemma {:induction false} WaitingSound(saved: bool, flag: Option<bool>)
    requires Agree(saved, flag)
    ensures var todo := Then(AwaitReady, Done); Sound(todo, saved, flag) && !SaveAhead(todo)
  {
    assert Sound(Done, saved, flag) && !SaveAhead(Done);
  }

  lemma {:induction false} LaunchingSound(saved: bool, binary: Option<string>, rest: Todo)
    requires !SaveAhead(rest) && Sound(rest, saved, Some(saved))
    ensures Sound(Launching(saved, binary, rest), saved, None) && !SaveAhead(Launching(saved, binary, rest))
  {
    var waiting := Then(AwaitReady, rest);
    assert !SaveAhead(waiting) && Sound(waiting, saved, Some(saved));
  }

  lemma {:induction false} ReconfigureSound(saved: bool, flag: Option<bool>)
    ensures Sound(Reconfigure(saved), saved, flag) && !SaveAhead(Reconfigure(saved))
  {
    LaunchingSound(saved, None, Done);
    var launch := Launching(saved, None, Done);
    assert Sound(Then(Stop, launch), saved, flag);
  }

  lemma {:induction false} RelaunchSound(updater: bool, saved: bool)
    ensures var todo := RelaunchingUpdater(updater); Sound(todo, saved, Some(saved)) && !SaveAhead(todo)
  {
    var waiting := Then(AwaitReady, Done);
    var start := Then(StartUpdater, waiting);
    WaitingSound(saved, Some(saved));
    assert Sound(start, saved, Some(saved)) && !SaveAhead(start);
  }

  lemma {:induction false} ConcludingSound(reexec: bool, binary: string, saved: bool)
    ensures var todo := Concluding(reexec, binary); Sound(todo, saved, Some(saved)) && !SaveAhead(todo)
  {
  }

  predicate SoundIn(w: World, todo: Todo) {
    Sound(todo, w.saved, Flag(w))
  }

  lemma {:induction false} PlanStartSound(w: World, probe: Answer)
    requires Agrees(w)
    ensures SoundIn(w, PlanStart(w, probe)) && !SaveAhead(PlanStart(w, probe))
  {
    WaitingSound(w.saved, Flag(w));
    LaunchingSound(w.saved, None, Done);
  }

  lemma {:induction false} PlanBootstrapSound(w: World, enabled: bool, probe: Answer)
    requires PlanBootstrap(w, enabled, probe).Some?
    ensures SoundIn(w, PlanBootstrap(w, enabled, probe).value)
  {
    var rest := RelaunchingUpdater(w.updater);
    RelaunchSound(w.updater, enabled);
    var launch := Then(Start(enabled, None), rest);
    assert Sound(launch, enabled, None) && !SaveAhead(launch);
    var stop := Then(Stop, launch);
    assert Sound(stop, enabled, Flag(w)) && !SaveAhead(stop);
  }

  lemma {:induction false} PlanRefreshSound(w: World, mode: RestartMode, refresh: RefreshMode, binary: string,
                                            probe: Answer)
    requires Agrees(w) && PlanRefresh(w, mode, refresh, binary, probe).Some?
    ensures SoundIn(w, PlanRefresh(w, mode, refresh, binary, probe).value)
  {
    var reexec := ShouldReexecUpdater(refresh, Restarted);
    var rest := Concluding(reexec, binary);
    ConcludingSound(reexec, binary, w.saved);
    LaunchingSound(w.saved, Some(binary), rest);
  }

  lemma {:induction false} PlanSetSound(w: World, enabled: bool, probe: Answer)
    requires Agrees(w) && PlanSetRemoteControl(w, enabled, probe).Some?
    ensures SoundIn(w, PlanSetRemoteControl(w, enabled, probe).value)
  {
    ReconfigureSound(enabled, Flag(w));
    WaitingSound(w.saved, Flag(w));
  }

  /** A plan made from an agreeing world is sound. */
  lemma {:induction false} PlanSound(w: World, c: Command, probe: Answer)
    requires Agrees(w) && !c.EnsureRemoteControlStarted? && Plan(w, c, probe).Some?
    ensures SoundIn(w, Plan(w, c, probe).value)
  {
    match c
    case StartServer => PlanStartSound(w, probe);
    case RestartServer => ReconfigureSound(w.saved, Flag(w));
    case StopServer =>
    case SetRemoteControl(enabled) => PlanSetSound(w, enabled, probe);
    case Bootstrap(enabled) => PlanBootstrapSound(w, enabled, probe);
    case Refresh(mode, refresh, binary) => PlanRefreshSound(w, mode, refresh, binary, probe);
  }

  /** The job keeps settings and server together: they agree until it saves, its remaining
      steps bring them together again, and it saves once. */
  ghost predicate JobOk(job: Job, w: World) {
    && Sound(job.todo, w.saved, Flag(w))
    && (!job.saved ==> Agrees(w))
    && (job.saved ==> !SaveAhead(job.todo))
  }

  ghost predicate Together(s: State) {
    && Disciplined(s)
    && (s.lock.None? ==> Agrees(s.world))
    && (s.lock.Some? ==> JobOk(s.jobs[s.lock.value], s.world))
  }

  /** The job has saved settings that the server it has still to stop does not have yet. */
  predicate InWindow(job: Job) {
    job.saved && StopAhead(job.todo)
  }

  /** The action makes a job give up between its save and its stop. */
  predicate GivesUpInWindow(s: State, a: Action)
    requires Enabled(s, a)
  {
    || (a.Kill? && InWindow(s.jobs[a.pid]))
    || (a.Advance? && Fails(s.world, s.jobs[a.pid].todo.step, a.ok, a.probe) && InWindow(s.jobs[a.pid]))
  }

  lemma {:induction false} OutsideWindow(job: Job, w: World)
    requires JobOk(job, w) && !InWindow(job)
    ensures Agrees(w)
  {
    if job.saved { SoundNow(job.todo, w.saved, Flag(w)); }
  }

  lemma {:induction false} DecideKeeps(w: World, job: Job, misheard: bool, probe: Answer)
    requires JobOk(job, w) && job.todo.Then? && job.todo.step.Decide? && Plan(w, job.todo.step.command, probe).Some?
    ensures JobOk(job.(todo := Append(Plan(w, job.todo.step.command, probe).value, job.todo.rest),
            misheard := misheard), w)
  {
    var c, rest := job.todo.step.command, job.todo.rest;
    var plan := Plan(w, c, probe).value;
    if c.EnsureRemoteControlStarted? {
      assert Append(Then(Decide(StartServer), Done), rest) == Then(Decide(StartServer), rest);
      assert w.updater ==> Append(plan, rest) == Then(Decide(SetRemoteControl(true)), Then(Decide(StartServer), rest));
      assert !w.updater ==> Append(plan, rest) == Then(Decide(Bootstrap(true)), rest);
    } else {
      PlanSound(w, c, probe);
      PlansArePlain(w, c, probe);
      SoundThenTail(plan, rest, w.saved, Flag(w));
      if job.saved {
        PlanStartSound(w, probe);
        TailSaves(plan, rest);
      }
    }
  }

  lemma {:induction false} StepKeeps(w: World, job: Job)
    requires JobOk(job, w) && job.todo.Then? && Effect(w, job.todo.step).Some?
    ensures JobOk(Past(job), Effect(w, job.todo.step).value)
  {
  }

  lemma {:induction false} CrashKeeps(w: World, job: Job)
    requires JobOk(job, w)
    ensures JobOk(job, w.(server := None))
  {
    SoundAfterCrash(job.todo, w.saved, Flag(w));
  }

  lemma {:induction false} GoneKeeps(s: State, pid: Pid)
    requires Together(s) && pid in s.jobs && (s.lock == Some(pid) ==> Agrees(s.world))
    ensures Together(Gone(s, pid))
  {
  }

  lemma {:induction false} LockKeeps(s: State, pid: Pid)
    requires Together(s) && pid in s.jobs && s.jobs[pid].todo.Then? && s.jobs[pid].todo.step.TryLock?
    ensures Together(TookLock(s, pid))
  {
    LockStepKeeps(s, pid);
  }

  lemma {:induction false} HolderKeeps(s: State, pid: Pid, probe: Answer)
    requires Together(s) && pid in s.jobs && s.lock == Some(pid)
    requires s.jobs[pid].todo.Then? && !Fails(s.world, s.jobs[pid].todo.step, true, probe)
    ensures Together(Took(s, pid, probe))
  {
    var job := s.jobs[pid];
    TookKeepsDiscipline(s, pid, probe);
    if job.todo.step.Decide? {
      DecideKeeps(s.world, job, Misheard(s.world, probe), probe);
    } else if job.todo.step.Reexec? {
      GoneKeeps(s, pid);
    } else if !job.todo.step.Unlock? {
      StepKeeps(s.world, job);
    }
  }

  lemma {:induction false} TookKeeps(s: State, pid: Pid, probe: Answer)
    requires Together(s) && pid in s.jobs && s.jobs[pid].todo.Then? &&
             !Fails(s.world, s.jobs[pid].todo.step, true, probe)
    ensures Together(Took(s, pid, probe))
  {
    if s.jobs[pid].todo.step.TryLock? {
      LockKeeps(s, pid);
    } else if s.lock == Some(pid) {
      HolderKeeps(s, pid, probe);
    } else {
      TookKeepsDiscipline(s, pid, probe);
    }
  }

  lemma {:induction false} GivesUpKeeps(s: State, pid: Pid)
    requires Together(s) && pid in s.jobs && !InWindow(s.jobs[pid])
    ensures Together(Gone(s, pid))
  {
    if s.lock == Some(pid) { OutsideWindow(s.jobs[pid], s.world); }
    GoneKeeps(s, pid);
  }

  lemma {:induction false} ActionKeeps(s: State, a: Action)
    requires Together(s) && Enabled(s, a) && !GivesUpInWindow(s, a)
    ensures Together(Apply(s, a))
  {
    match a
    case Advance(pid, ok, probe) =>
      if Fails(s.world, s.jobs[pid].todo.step, ok, probe) {
        GivesUpKeeps(s, pid);
      } else {
        TookKeeps(s, pid, probe);
      }
    case End(pid) => GoneKeeps(s, pid);
    case Kill(pid) => GivesUpKeeps(s, pid);
    case Crash => if s.lock.Some? { CrashKeeps(s.world, s.jobs[s.lock.value]); }
    case Begin(_, _) => DisciplineKept(s, a);
    case _ =>
  }

  /** No process gives up between its save and its stop. */
  ghost predicate Untroubled(s: State, run: seq<Action>)
    requires Runs(s, run)
    decreases |run|
  {
    run == [] || (!GivesUpInWindow(s, run[0]) && Untroubled(Apply(s, run[0]), run[1..]))
  }

  lemma {:induction false} RunKeeps(s: State, run: seq<Action>)
    requires Together(s) && Runs(s, run) && Untroubled(s, run)
    ensures Together(Final(s, run))
    decreases |run|
  {
    if run != [] {
      ActionKeeps(s, run[0]);
      RunKeeps(Apply(s, run[0]), run[1..]);
    }
  }

  /** However operations, the updater, crashes, kills and installs interleave, as long as no
      process gives up between its save and its stop, whenever the lock is free a running
      managed server has the saved remote-control setting. */
  lemma {:induction false} SettingsAgreeWhenFree(s: State, run: seq<Action>)
    requires s.lock.None? && s.jobs == map[] && Agrees(s.world) && Runs(s, run) && Untroubled(s, run)
    ensures Final(s, run).lock.None? ==> Agrees(Final(s, run).world)
  {
    RunKeeps(s, run);
  }
}
