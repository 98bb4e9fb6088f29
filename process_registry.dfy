/**
 * The `running_processes` registry: script name to child-process handle.
 * The operating system is abstract: a handle only records its pid, the
 * command line it was launched with and whether `poll()` still reports it
 * alive. `Popen`, `terminate`, `wait(timeout)` and `kill` are oracles whose
 * outcomes are given as parameters.
 */
module ProcessRegistry {
  import opened BotConfig
  import opened ScriptTable

  /** Seconds granted to a terminated child before it is killed. */
  const GRACE: nat := 5

  /** The interpreter every script is launched with. */
  const INTERPRETER: string := "python3"

  /** A `subprocess.Popen` handle; `alive` is `poll() is None`. */
  datatype Proc = Proc(pid: int, argv: seq<string>, alive: bool)

  type Registry = map<string, Proc>

  /** `name in running_processes and running_processes[name].poll() is None`. */
  function IsRunning(reg: Registry, name: string): (running: bool)
    ensures running ==> name in LiveNames(reg) && CountRunning(reg) > 0
  {
    name in reg && reg[name].alive
  }

  /** The names whose registered handle is still alive. */
  function LiveNames(reg: Registry): set<string> {
    set k | k in reg && reg[k].alive
  }

  /** How many registered handles are still alive (the settings counter). */
  function CountRunning(reg: Registry): (n: nat)
    ensures n <= |reg|
    ensures n == 0 <==> forall k :: k in reg ==> !reg[k].alive
  {
    var live := LiveNames(reg);
    assert live <= reg.Keys;
    CardinalityMonotone(live, reg.Keys);
    assert (forall k :: k in reg ==> !reg[k].alive) ==> live == {};
    assert live == {} ==> forall k :: k in reg ==> k !in live;
    |live|
  }

  lemma {:induction false} CardinalityMonotone<T>(a: set<T>, b: set<T>)
    requires a <= b
    ensures |a| <= |b|
    decreases |b|
  {
    if a != {} {
      var x :| x in a;
      CardinalityMonotone(a - {x}, b - {x});
    }
  }

  /** What `Popen` did: returned a child with this pid, or raised. */
  datatype SpawnOutcome = Spawned(pid: int) | SpawnRaised(error: string)

  /** What a signal call did: returned, or raised. */
  datatype Signal = Delivered | SignalRaised(error: string)

  /**
   * The behaviour of one child while it is being stopped: whether `terminate()`
   * raises, whether the child exits within the grace period (else `wait(5)`
   * raises `TimeoutExpired`), and whether `kill()` raises.
   */
  datatype StopOracle = StopOracle(terminate: Signal, exitsInGrace: bool, kill: Signal)

  /** The calls made on the operating system, in order. */
  datatype OsCall = Popen(argv: seq<string>) | Terminate | WaitAtMost(seconds: nat) | Kill | WaitForExit

  datatype StartOutcome = ScriptNotFound | AlreadyRunning | Started(pid: int) | StartFailed(error: string)

  datatype StopOutcome = NoProcessFound | NotRunning | Stopped | StopFailed(error: string)

  /** The result of one registry command: its outcome, the new registry, the calls it made. */
  datatype Step<O> = Step(outcome: O, reg: Registry, calls: seq<OsCall>)

  /** `script_path = scripts.get(name)` followed by `if script_path:`. */
  function Launchable(t: Table, name: string): (ok: bool)
    ensures ok ==> name in t.paths && |t.paths[name]| > 0
    ensures ok && Valid(t) ==> name in t.names
  {
    name in t.paths && t.paths[name] != ""
  }

  function Argv(path: string): seq<string> {
    [INTERPRETER, path]
  }

  /** The start branch of the button handler, as a transition of the registry. */
  function StartEffect(reg: Registry, t: Table, name: string, spawn: SpawnOutcome): (r: Step<StartOutcome>)
    ensures r.outcome.ScriptNotFound? <==> !Launchable(t, name)
    ensures r.outcome.AlreadyRunning? <==> Launchable(t, name) && IsRunning(reg, name)
    ensures r.outcome.Started? <==> Launchable(t, name) && !IsRunning(reg, name) && spawn.Spawned?
    ensures r.outcome.StartFailed? ==> spawn == SpawnRaised(r.outcome.error)
    ensures !r.outcome.Started? ==> r.reg == reg
    ensures r.outcome.Started? ==>
              && r.outcome.pid == spawn.pid
              && IsRunning(r.reg, name)
              && r.reg == reg[name := Proc(spawn.pid, Argv(t.paths[name]), true)]
    ensures r.calls == if r.outcome.Started? || r.outcome.StartFailed? then [Popen(Argv(t.paths[name]))] else []
  {
    if !Launchable(t, name) then Step(ScriptNotFound, reg, [])
    else if IsRunning(reg, name) then Step(AlreadyRunning, reg, [])
    else
      var argv := Argv(t.paths[name]);
      match spawn
      case Spawned(pid) => Step(Started(pid), reg[name := Proc(pid, argv, true)], [Popen(argv)])
      case SpawnRaised(e) => Step(StartFailed(e), reg, [Popen(argv)])
  }

  /** The calls the graceful-then-forceful shutdown makes, and the error it raised if any. */
  datatype Shutdown = Shutdown(calls: seq<OsCall>, failure: Option<string>)

  /** `terminate(); try: wait(timeout=5) except TimeoutExpired: kill(); wait()`. */
  function ShutdownOf(o: StopOracle): (r: Shutdown)
    ensures |r.calls| >= 1 && r.calls[0] == Terminate
    ensures o.terminate.Delivered? <==> |r.calls| >= 2
    ensures |r.calls| >= 2 ==> r.calls[1] == WaitAtMost(GRACE)
    ensures Kill in r.calls <==> o.terminate.Delivered? && !o.exitsInGrace
    ensures WaitForExit in r.calls <==> r.calls == [Terminate, WaitAtMost(GRACE), Kill, WaitForExit]
    ensures r.failure.None? <==> o.terminate.Delivered? && (o.exitsInGrace || o.kill.Delivered?)
    ensures r.failure.None? <==> WaitForExit in r.calls || r.calls == [Terminate, WaitAtMost(GRACE)]
    ensures o.terminate.SignalRaised? ==> r.calls == [Terminate] && r.failure == Some(o.terminate.error)
    ensures o.terminate.Delivered? && !o.exitsInGrace && o.kill.SignalRaised? ==>
              r.calls == [Terminate, WaitAtMost(GRACE), Kill] && r.failure == Some(o.kill.error)
  {
    match o.terminate
    case SignalRaised(e) => Shutdown([Terminate], Some(e))
    case Delivered =>
      if o.exitsInGrace then Shutdown([Terminate, WaitAtMost(GRACE)], None)
      else
        match o.kill
        case SignalRaised(e) => Shutdown([Terminate, WaitAtMost(GRACE), Kill], Some(e))
        case Delivered => Shutdown([Terminate, WaitAtMost(GRACE), Kill, WaitForExit], None)
  }

  /** The stop branch of the button handler, as a transition of the registry. */
  function StopEffect(reg: Registry, name: string, o: StopOracle): (r: Step<StopOutcome>)
    ensures r.outcome.NoProcessFound? <==> name !in reg
    ensures r.outcome.NotRunning? <==> name in reg && !reg[name].alive
    ensures r.outcome.Stopped? <==> IsRunning(reg, name) && ShutdownOf(o).failure.None?
    ensures r.outcome.StopFailed? ==> IsRunning(reg, name) && ShutdownOf(o).failure == Some(r.outcome.error)
    ensures r.outcome.Stopped? ==> r.reg == reg - {name} && !IsRunning(r.reg, name)
    ensures !r.outcome.Stopped? ==> r.reg == reg
    ensures r.calls == if IsRunning(reg, name) then ShutdownOf(o).calls else []
  {
    if name !in reg then Step(NoProcessFound, reg, [])
    else if !reg[name].alive then Step(NotRunning, reg, [])
    else
      var s := ShutdownOf(o);
      match s.failure
      case None => Step(Stopped, reg - {name}, s.calls)
      case Some(e) => Step(StopFailed(e), reg, s.calls)
  }

  /**
   * Starting a script that is not running and then stopping it cleanly leaves
   * every other entry as it was and no entry, live or stale, for that name.
   */
  lemma StartThenStop(reg: Registry, t: Table, name: string, pid: int, o: StopOracle)
    requires Launchable(t, name) && !IsRunning(reg, name)
    requires o.terminate.Delivered? && (o.exitsInGrace || o.kill.Delivered?)
    ensures StartEffect(reg, t, name, Spawned(pid)).outcome == Started(pid)
    ensures var started := StartEffect(reg, t, name, Spawned(pid)).reg;
            StopEffect(started, name, o).outcome == Stopped && StopEffect(started, name, o).reg == reg - {name}
  {
  }

  /** The settings counter after a start: one more live process exactly when the start succeeded. */
  lemma CountAfterStart(reg: Registry, t: Table, name: string, spawn: SpawnOutcome)
    ensures var r := StartEffect(reg, t, name, spawn);
            CountRunning(r.reg) == if r.outcome.Started? then CountRunning(reg) + 1 else CountRunning(reg)
  {
    var r := StartEffect(reg, t, name, spawn);
    if r.outcome.Started? {
      assert LiveNames(r.reg) == LiveNames(reg) + {name};
      assert name !in LiveNames(reg);
    }
  }

  /** The settings counter after a stop: one live process fewer exactly when the stop succeeded. */
  lemma CountAfterStop(reg: Registry, name: string, o: StopOracle)
    ensures var r := StopEffect(reg, name, o);
            CountRunning(r.reg) == if r.outcome.Stopped? then CountRunning(reg) - 1 else CountRunning(reg)
  {
    var r := StopEffect(reg, name, o);
    if r.outcome.Stopped? {
      assert LiveNames(r.reg) == LiveNames(reg) - {name};
      assert name in LiveNames(reg);
    }
  }
}
