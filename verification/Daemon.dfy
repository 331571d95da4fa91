/** The daemon's lifecycle operations on one managed app server: the plan each makes once it
    holds the operation lock, and the steps of a plan. */
module Daemon {
  import opened Basics

  datatype Server = Server(remoteControl: bool, version: string)

  /** What the operations work on: the saved setting, the managed server, the version of some
      other server on the socket, whether the updater runs, and the version of the managed
      binary if it is installed. */
  datatype World = World(saved: bool, server: Option<Server>, unmanaged: Option<string>, updater: bool,
      managed: Option<string>)

  /** A running managed server has the saved setting. */
  predicate Agrees(w: World) {
    w.server.Some? ==> w.server.value.remoteControl == w.saved
  }

  // ----- the updater's decisions

  datatype RestartMode = IfVersionChanged | Always
  datatype RefreshMode = NoRefresh | ReexecIfManagedBinaryChanged
  datatype RestartDecision = NotReady | AlreadyCurrent | Restart
  datatype RestartOutcome = Busy | WasNotRunning | WasNotReady | WasCurrent | Restarted

  /** A server is left alone only if it answers with the managed version, or does not answer
      and the restart is not forced. */
  function Decision(mode: RestartMode, running: Option<string>, managed: Option<string>): (r: RestartDecision)
    ensures r.AlreadyCurrent? <==> mode.IfVersionChanged? && running.Some? && running == managed
    ensures r.NotReady? <==> mode.IfVersionChanged? && running.None?
  {
    match (mode, running, managed)
    case (IfVersionChanged, None, _) => NotReady
    case (IfVersionChanged, Some(v), Some(m)) => if v == m then AlreadyCurrent else Restart
    case _ => Restart
  }

  function ShouldReexecUpdater(refresh: RefreshMode, outcome: RestartOutcome): (r: bool)
    ensures r ==> outcome.Restarted?
  {
    refresh.ReexecIfManagedBinaryChanged? && outcome.Restarted?
  }

  function UpdateModesForIdentities(running: string, managed: string): (r: (RestartMode, RefreshMode)) {
    if running == managed then (IfVersionChanged, NoRefresh) else (Always, ReexecIfManagedBinaryChanged)
  }

  /** An updater that is the managed binary never replaces itself; one that is not restarts a
      running server whatever it answers, and replaces itself only after that. */
  lemma {:induction false} UpdaterRefreshesServerFirst(running: string, managed: string, version: Option<string>,
                                                       binary: string, outcome: RestartOutcome)
    ensures var (mode, refresh) := UpdateModesForIdentities(running, managed);
            && (running == managed ==> !ShouldReexecUpdater(refresh, outcome))
            && (running != managed ==> Decision(mode, version, if version.Some? then Some(binary) else None) == Restart)
            && (ShouldReexecUpdater(refresh, outcome) <==> running != managed && outcome.Restarted?)
  {
  }

  // ----- plans

  datatype Command =
    | StartServer
    | RestartServer
    | StopServer
    | SetRemoteControl(enabled: bool)
    | Bootstrap(enabled: bool)
    | EnsureRemoteControlStarted
    | Refresh(mode: RestartMode, refresh: RefreshMode, binary: string)

  datatype Step =
    | EnsureBinary
    | Save(flag: bool)
    | Stop
    | Start(flag: bool, binary: Option<string>)   // None: the managed path
    | StopUpdater
    | StartUpdater
    | AwaitReady
    | Reexec(image: string)
    | Report(outcome: RestartOutcome, image: string)
    | TryLock(command: Command)
    | Decide(command: Command)
    | Unlock

  /** The steps an operation has still to take. */
  datatype Todo = Done | Then(step: Step, rest: Todo)

  /** Who answers a probe of the socket. The answer does not say. */
  datatype Answer = NoAnswer | FromManaged | FromOther

  /** The version a probe learns: that of whichever server answers, if it is there. */
  function Heard(w: World, probe: Answer): Option<string> {
    match probe
    case NoAnswer => None
    case FromManaged => if w.server.Some? then Some(w.server.value.version) else None
    case FromOther => w.unmanaged
  }

  predicate Answered(w: World, probe: Answer) {
    Heard(w, probe).Some?
  }

  function Launching(flag: bool, binary: Option<string>, rest: Todo): Todo {
    Then(Start(flag, binary), Then(AwaitReady, rest))
  }

  function PlanStart(w: World, probe: Answer): Todo {
    if Answered(w, probe) then Done
    else if w.server.Some? then Then(AwaitReady, Done)
    else Then(EnsureBinary, Launching(w.saved, None, Done))
  }

  function PlanRestart(w: World, probe: Answer): Option<Todo> {
    if Answered(w, probe) && w.server.None? then None
    else Some(Then(EnsureBinary, Then(Stop, Launching(w.saved, None, Done))))
  }

  function PlanStop(w: World, probe: Answer): Option<Todo> {
    if w.server.Some? then Some(Then(Stop, Done))
    else if Answered(w, probe) then None
    else Some(Done)
  }

  /** The running server is restarted with the setting just saved. */
  function Reconfigure(enabled: bool): Todo {
    Then(EnsureBinary, Then(Stop, Launching(enabled, None, Done)))
  }

  function PlanSetRemoteControl(w: World, enabled: bool, probe: Answer): Option<Todo> {
    if w.server.None? && Answered(w, probe) then None
    else if w.saved == enabled then Some(if w.server.Some? then Then(AwaitReady, Done) else Done)
    else Some(Then(Save(enabled), if w.server.Some? then Reconfigure(enabled) else Done))
  }

  /** The updater process is replaced, then the server waited for. */
  function RelaunchingUpdater(updater: bool): Todo {
    var start := Then(StartUpdater, Then(AwaitReady, Done));
    if updater then Then(StopUpdater, start) else start
  }

  function PlanBootstrap(w: World, enabled: bool, probe: Answer): Option<Todo> {
    if w.managed.None? then None
    else if Answered(w, probe) && w.server.None? then None
    else Some(Then(Save(enabled), Then(Stop, Then(Start(enabled, None), RelaunchingUpdater(w.updater)))))
  }

  /** After a restart the updater gives way to the new binary, if called for, and then does
      not come back to report. */
  function Concluding(reexec: bool, binary: string): Todo {
    Then(if reexec then Reexec(binary) else Report(Restarted, binary), Done)
  }

  function PlanRefresh(w: World, mode: RestartMode, refresh: RefreshMode, binary: string, probe: Answer): Option<Todo> {
    if w.server.Some? then
      var running := Heard(w, probe);
      match Decision(mode, running, if running.Some? then Some(binary) else None)
      case NotReady => Some(Then(Report(WasNotReady, binary), Done))
      case AlreadyCurrent => Some(Then(Report(WasCurrent, binary), Done))
      case Restart =>
        Some(Then(Stop, Launching(w.saved, Some(binary), Concluding(ShouldReexecUpdater(refresh, Restarted), binary))))
    else if Answered(w, probe) then None
    else Some(Then(Report(WasNotRunning, binary), Done))
  }

  /** What an operation sets out to do, from what it sees; None when it refuses. */
  function Plan(w: World, c: Command, probe: Answer): Option<Todo> {
    match c
    case StartServer => Some(PlanStart(w, probe))
    case RestartServer => PlanRestart(w, probe)
    case StopServer => PlanStop(w, probe)
    case SetRemoteControl(enabled) => PlanSetRemoteControl(w, enabled, probe)
    case Bootstrap(enabled) => PlanBootstrap(w, enabled, probe)
    case EnsureRemoteControlStarted =>
      Some(if w.updater then Then(Decide(SetRemoteControl(true)), Then(Decide(StartServer), Done))
          else Then(Decide(Bootstrap(true)), Done))
    case Refresh(mode, refresh, binary) => PlanRefresh(w, mode, refresh, binary, probe)
  }

  /** What a step leaves behind when it succeeds; None when it cannot. The lock steps and
      decisions leave the world alone and are taken elsewhere. */
  function Effect(w: World, step: Step): Option<World> {
    match step
    case EnsureBinary => if w.managed.Some? then Some(w) else None
    case Save(flag) => Some(w.(saved := flag))
    case Stop => Some(w.(server := None))
    case Start(flag, binary) =>
      if w.server.Some? then Some(w)
      else if binary.Some? then Some(w.(server := Some(Server(flag, binary.value))))
      else if w.managed.Some? then Some(w.(server := Some(Server(flag, w.managed.value))))
      else None
    case StopUpdater => Some(w.(updater := false))
    case StartUpdater => Some(w.(updater := true))
    case AwaitReady => if w.server.Some? || w.unmanaged.Some? then Some(w) else None
    case Reexec(_) => Some(w)
    case Report(_, _) => Some(w)
    case TryLock(_) => None
    case Decide(_) => None
    case Unlock => None
  }

  datatype Carried = Carried(world: World, finished: bool)

  /** Steps carried out with nobody else about: `ok(k)` is what the k-th step comes back
      with, and the first that fails ends it. */
  function Carry(w: World, todo: Todo, ok: nat -> bool, k: nat): (r: Carried)
    decreases todo
  {
    match todo
    case Done => Carried(w, true)
    case Then(step, rest) =>
      var e := Effect(w, step);
      if !ok(k) || e.None? then Carried(w, false) else Carry(e.value, rest, ok, k + 1)
  }

  lemma {:induction false} CarryLast(w: World, step: Step, ok: nat -> bool, k: nat)
    requires step.Report? || step.Reexec?
    ensures Carry(w, Then(step, Done), ok, k) == Carried(w, ok(k))
  {
  }

  /** An operation from start to end with nobody else about. */
  function Alone(w: World, c: Command, probe: Answer, ok: nat -> bool): (r: Carried) {
    var plan := Plan(w, c, probe);
    if plan.None? then Carried(w, false) else Carry(w, plan.value, ok, 0)
  }

  // ----- the operations as they run

  class Lifecycle {
    var saved: bool
    var server: Option<Server>
    var unmanaged: Option<string>
    var updater: bool
    var managed: Option<string>

    ghost function Contents(): World
      reads this
    {
      World(saved, server, unmanaged, updater, managed)
    }

    /** Asks the socket who is there. */
    method Probe(probe: Answer) returns (version: Option<string>)
      ensures version == Heard(Contents(), probe)
    {
      if probe == FromOther { return unmanaged; }
      if probe == FromManaged && server.Some? { return Some(server.value.version); }
      return None;
    }

    method StartBackend(flag: bool, binary: Option<string>) returns (ok: bool)
      modifies this`server
      ensures ok == Effect(old(Contents()), Start(flag, binary)).Some?
      ensures Contents() == if ok then Effect(old(Contents()), Start(flag, binary)).value else old(Contents())
    {
      if server.Some? { return true; }
      var version := if binary.Some? then binary else managed;
      if version.None? { return false; }
      server := Some(Server(flag, version.value));
      ok := true;
    }

    /** Starts the backend and waits until it answers. */
    method Launch(flag: bool, binary: Option<string>, ghost rest: Todo, ok: nat -> bool, k: nat) returns (done: bool)
      modifies this`server
      ensures var all := Carry(old(Contents()), Launching(flag, binary, rest), ok, k);
              if done then Carry(Contents(), rest, ok, k + 2) == all else Carried(Contents(), false) == all
    {
      if !ok(k) { return false; }
      var started := StartBackend(flag, binary);
      ghost var waiting := Then(AwaitReady, rest);
      assert started ==>
          Carry(old(Contents()), Launching(flag, binary, rest), ok, k) == Carry(Contents(), waiting, ok, k + 1);
      done := started && ok(k + 1);
    }

    method StartLocked(probe: Answer, ok: nat -> bool) returns (done: bool)
      modifies this`server
      ensures Carried(Contents(), done) == Alone(old(Contents()), StartServer, probe, ok)
    {
      var answer := Probe(probe);
      if answer.Some? { return true; }
      if server.Some? { return ok(0); }
      if !ok(0) || managed.None? { return false; }
      done := Launch(saved, None, Done, ok, 1);
    }

    method RestartLocked(probe: Answer, ok: nat -> bool) returns (done: bool)
      modifies this`server
      ensures Carried(Contents(), done) == Alone(old(Contents()), RestartServer, probe, ok)
    {
      var answer := Probe(probe);
      if answer.Some? && server.None? { return false; }
      done := RestartBackend(saved, ok, 0);
    }

    /** Checks the binary, stops the server if it runs, and starts it. */
    method RestartBackend(flag: bool, ok: nat -> bool, k: nat) returns (done: bool)
      modifies this`server
      ensures Carried(Contents(), done) == Carry(old(Contents()), Reconfigure(flag), ok, k)
    {
      if !ok(k) || managed.None? { return false; }
      ghost var launch := Launching(flag, None, Done);
      assert Carry(Contents(), Reconfigure(flag), ok, k) == Carry(Contents(), Then(Stop, launch), ok, k + 1);
      if !ok(k + 1) { return false; }
      server := None;
      assert Carry(old(Contents()), Then(Stop, launch), ok, k + 1) == Carry(Contents(), launch, ok, k + 2);
      done := Launch(flag, None, Done, ok, k + 2);
    }

    method StopLocked(probe: Answer, ok: nat -> bool) returns (done: bool)
      modifies this`server
      ensures Carried(Contents(), done) == Alone(old(Contents()), StopServer, probe, ok)
    {
      if server.Some? {
        if !ok(0) { return false; }
        server := None;
        return true;
      }
      var answer := Probe(probe);
      return answer.None?;
    }

    method SetRemoteControlLocked(enabled: bool, probe: Answer, ok: nat -> bool) returns (done: bool)
      modifies this`saved, this`server
      ensures Carried(Contents(), done) == Alone(old(Contents()), SetRemoteControl(enabled), probe, ok)
    {
      var running := server.Some?;
      if !running {
        var answer := Probe(probe);
        if answer.Some? { return false; }
      }
      if saved == enabled { return !running || ok(0); }
      if !ok(0) { return false; }
      saved := enabled;
      assert Alone(old(Contents()), SetRemoteControl(enabled), probe, ok) ==
          Carry(Contents(), if running then Reconfigure(enabled) else Done, ok, 1);
      if !running { return true; }
      done := RestartBackend(saved, ok, 1);
    }

    /** Replaces the updater process and waits until the server answers. */
    method RelaunchUpdater(ok: nat -> bool, k: nat) returns (done: bool)
      requires server.Some?
      modifies this`updater
      ensures Carried(Contents(), done) == Carry(old(Contents()), RelaunchingUpdater(old(updater)), ok, k)
    {
      var j := k;
      ghost var start := Then(StartUpdater, Then(AwaitReady, Done));
      if updater {
        if !ok(k) { return false; }
        updater := false;
        j := k + 1;
        assert Carry(old(Contents()), RelaunchingUpdater(true), ok, k) == Carry(Contents(), start, ok, j);
      }
      if !ok(j) { return false; }
      updater := true;
      done := ok(j + 1);
    }

    method BootstrapLocked(enabled: bool, probe: Answer, ok: nat -> bool) returns (done: bool)
      modifies this`saved, this`server, this`updater
      ensures Carried(Contents(), done) == Alone(old(Contents()), Bootstrap(enabled), probe, ok)
    {
      if managed.None? { return false; }
      var answer := Probe(probe);
      if answer.Some? && server.None? { return false; }
      ghost var launch := Then(Start(enabled, None), RelaunchingUpdater(updater));
      if !ok(0) { return false; }
      saved := enabled;
      assert Alone(old(Contents()), Bootstrap(enabled), probe, ok) == Carry(Contents(), Then(Stop, launch), ok, 1);
      if !ok(1) { return false; }
      server := None;
      assert Alone(old(Contents()), Bootstrap(enabled), probe, ok) == Carry(Contents(), launch, ok, 2);
      if !ok(2) { return false; }
      var _ := StartBackend(enabled, None);
      done := RelaunchUpdater(ok, 3);
    }

    method TryRestartIfRunning(mode: RestartMode, refresh: RefreshMode, binary: string, probe: Answer, ok: nat -> bool)
        returns (done: bool)
      modifies this`server
      ensures Carried(Contents(), done) == Alone(old(Contents()), Refresh(mode, refresh, binary), probe, ok)
    {
      if server.None? {
        var answer := Probe(probe);
        CarryLast(Contents(), Report(WasNotRunning, binary), ok, 0);
        return answer.None? && ok(0);
      }
      var running := Probe(probe);
      var decision := Decision(mode, running, if running.Some? then Some(binary) else None);
      if !decision.Restart? {
        ghost var report := Report(if decision.NotReady? then WasNotReady else WasCurrent, binary);
        assert Alone(Contents(), Refresh(mode, refresh, binary), probe, ok) ==
            Carry(Contents(), Then(report, Done), ok, 0);
        CarryLast(Contents(), report, ok, 0);
        return ok(0);
      }
      if !ok(0) { return false; }
      server := None;
      var reexec := ShouldReexecUpdater(refresh, Restarted);
      var ready := Launch(saved, Some(binary), Concluding(reexec, binary), ok, 1);
      if !ready { return false; }
      CarryLast(Contents(), if reexec then Reexec(binary) else Report(Restarted, binary), ok, 3);
      return ok(3);
    }

    /** Enables remote control and starts the server, or bootstraps when no updater runs. */
    method EnsureRemoteControlStartedLocked(probe: nat -> Answer, ok: nat -> nat -> bool) returns (done: bool)
      modifies this
      ensures Carried(Contents(), done) == EnsuredAlone(old(Contents()), probe, ok)
    {
      if !updater {
        done := BootstrapLocked(true, probe(0), ok(0));
        return;
      }
      done := SetRemoteControlLocked(true, probe(0), ok(0));
      if !done { return; }
      done := StartLocked(probe(1), ok(1));
    }
  }

  /** The two decisions of `EnsureRemoteControlStarted`, each from what is there by then. */
  function EnsuredAlone(w: World, probe: nat -> Answer, ok: nat -> nat -> bool): (r: Carried) {
    if !w.updater then Alone(w, Bootstrap(true), probe(0), ok(0))
    else
      var configured := Alone(w, SetRemoteControl(true), probe(0), ok(0));
      if configured.finished then Alone(configured.world, StartServer, probe(1), ok(1)) else configured
  }
}
