/**
 * Demo mode: the start/stop controller over the `demo_running` flag and
 * its task, the mapping of a synthetic generator frame to an
 * `UnifiedTelemetry`, and the loop that broadcasts those frames. The
 * generator itself is not part of this model; its frames and its lap
 * state are parameters.
 */
module Demo {
  import opened Common
  import opened Telemetry
  import Coaching
  import opened Hub

  // ---- The controller ----

  /**
   * The background task running the demo loop: none yet, running,
   * cancelled by `stop_demo`, or ended by an exception of its own (the
   * generator import or `generate_frame` raising).
   */
  datatype DemoTask = NoTask | Active | Cancelled | Failed

  datatype ControlState = ControlState(running: bool, task: DemoTask)

  /**
   * The outcome of the start and stop endpoints: one of the four replies,
   * or `Raised` when `stop_demo` re-raises the exception of a task that
   * had already failed (awaiting it catches only the cancellation).
   */
  datatype DemoReply = Started | AlreadyRunning | Stopped | AlreadyStopped | Raised

  /** The `status` field of a reply; a raised exception sends no reply body. */
  function ReplyStatus(r: DemoReply): (status: Option<string>)
    ensures status.None? <==> r == Raised
  {
    match r
    case Started => Some("started")
    case AlreadyRunning => Some("already_running")
    case Stopped => Some("stopped")
    case AlreadyStopped => Some("already_stopped")
    case Raised => None
  }

  /** Distinct replies carry distinct statuses. */
  lemma ReplyStatusInjective(r1: DemoReply, r2: DemoReply)
    requires ReplyStatus(r1).Some? && ReplyStatus(r1) == ReplyStatus(r2)
    ensures r1 == r2
  {
    var names := ["started", "already_running", "stopped", "already_stopped"];
    assert names[0] != names[1] && names[0] != names[2] && names[0] != names[3];
    assert names[1] != names[2] && names[1] != names[3] && names[2] != names[3];
  }

  /** Before start-up: not running, no task. */
  const Initial := ControlState(false, NoTask)

  /**
   * The controller's invariant: a live task always has the flag set, and a
   * set flag has a task that is live or has failed on its own.
   */
  predicate ControlValid(s: ControlState) {
    && (s.task == Active ==> s.running)
    && (s.running ==> s.task == Active || s.task == Failed)
  }

  /** `start_demo`: start when stopped, otherwise change nothing. */
  function StartStep(s: ControlState): (ControlState, DemoReply) {
    if !s.running then (ControlState(true, Active), Started)
    else (s, AlreadyRunning)
  }

  /**
   * `stop_demo`: when running, clear the flag and cancel the task. A live
   * task ends cancelled and the reply is "stopped"; a task that already
   * failed stays failed and its exception is re-raised.
   */
  function StopStep(s: ControlState): (ControlState, DemoReply) {
    if s.running then
      match s.task
      case NoTask => (ControlState(false, NoTask), Stopped)
      case Failed => (ControlState(false, Failed), Raised)
      case _ => (ControlState(false, Cancelled), Stopped)
    else (s, AlreadyStopped)
  }

  /** The demo task raises: a live task fails, and nothing clears the flag. */
  function CrashStep(s: ControlState): ControlState {
    if s.task == Active then s.(task := Failed) else s
  }

  /** The reply tells the state before the call; afterwards the flag is set (start) or clear (stop). */
  lemma StartStopReplies(s: ControlState)
    ensures StartStep(s).1 == Started <==> !s.running
    ensures StartStep(s).1 == AlreadyRunning <==> s.running
    ensures StartStep(s).0.running
    ensures StopStep(s).1 == Stopped <==> s.running && s.task != Failed
    ensures StopStep(s).1 == Raised <==> s.running && s.task == Failed
    ensures StopStep(s).1 == AlreadyStopped <==> !s.running
    ensures !StopStep(s).0.running
    ensures s.running ==> StartStep(s).0 == s
    ensures !s.running ==> StopStep(s).0 == s
  {
  }

  /** The start, stop and crash steps keep the invariant. */
  lemma StepsKeepValid(s: ControlState)
    requires ControlValid(s)
    ensures ControlValid(StartStep(s).0) && ControlValid(StopStep(s).0) && ControlValid(CrashStep(s))
  {
  }

  /** Starting twice is starting once, and the second call answers "already_running"; the same for stopping. */
  lemma StartStopIdempotent(s: ControlState)
    ensures StartStep(StartStep(s).0) == (StartStep(s).0, AlreadyRunning)
    ensures StopStep(StopStep(s).0) == (StopStep(s).0, AlreadyStopped)
  {
  }

  /** Stopping a demo that was started cancels its task. */
  lemma StopAfterStart(s: ControlState)
    ensures StopStep(StartStep(s).0) ==
      (ControlState(false, if s.running && s.task == NoTask then NoTask
                           else if s.running && s.task == Failed then Failed
                           else Cancelled),
       if s.running && s.task == Failed then Raised else Stopped)
  {
  }

  /**
   * After the demo task has failed, `start_demo` still answers
   * "already_running" although no demo runs; the next `stop_demo` clears
   * the flag and raises, after which a start succeeds again.
   */
  lemma CrashedDemoBlocksStart(s: ControlState)
    requires s.running && s.task == Active
    ensures var crashed := CrashStep(s);
      && StartStep(crashed) == (crashed, AlreadyRunning)
      && StopStep(crashed) == (ControlState(false, Failed), Raised)
      && StartStep(StopStep(crashed).0) == (ControlState(true, Active), Started)
  {
  }

  // ---- The demo frame ----

  /** The fields of a generator frame that the mapping reads. */
  datatype GeneratorFrame = GeneratorFrame(
    timestamp: real,
    speed: real,
    rpm: int,
    gear: int,
    maxRpm: int,
    lapDistance: real,
    lapTime: real,
    lapNumber: int,
    lastLapTime: real,
    bestLapTime: real,
    throttle: real,
    brake: real,
    clutch: real,
    steering: real,
    gForceLateral: real,
    gForceLongitudinal: real,
    gForceVertical: real,
    tireTempFL: real, tireTempFR: real, tireTempRL: real, tireTempRR: real,
    tirePressureFL: real, tirePressureFR: real, tirePressureRL: real, tirePressureRR: real,
    brakeTempFL: real, brakeTempFR: real, brakeTempRL: real, brakeTempRR: real,
    oilTemp: real,
    waterTemp: real,
    fuelLevel: real,
    fuelRemainingLaps: real,
    sessionType: string
  )

  /** The lap state of the generator that the mapping reads directly. */
  datatype SimulatorState = SimulatorState(lapNumber: int, lapTime: real, bestLapTime: real)

  const DemoGame := "Demo Mode"
  /** Sentinel best-lap value meaning "no lap yet". */
  const NoBestLap := 999.0

  /** A best-lap value derived from the generator's, absent while there is no best lap. */
  function BestOr(sim: SimulatorState, offset: real): Option<real> {
    if sim.bestLapTime < NoBestLap then Some(sim.bestLapTime + offset) else None
  }

  /** The fixed five-car leaderboard around the player. */
  function DemoLeaderboard(sim: SimulatorState): seq<LeaderboardEntry> {
    [ LeaderboardEntry(1, "77", "You", "LEAD", BestOr(sim, 0.0), 30.234, 48.567, 28.123),
      LeaderboardEntry(2, "33", "M. Verstappen", "+2.345", BestOr(sim, 0.234), 30.345, 48.678, 28.234),
      LeaderboardEntry(3, "44", "L. Hamilton", "+5.678", BestOr(sim, 0.567), 30.456, 48.789, 28.345),
      LeaderboardEntry(4, "16", "C. Leclerc", "+8.912", BestOr(sim, 0.891), 30.567, 48.890, 28.456),
      LeaderboardEntry(5, "55", "C. Sainz", "+12.234", BestOr(sim, 1.234), 30.678, 48.901, 28.567) ]
  }

  /** The conversion in `demo_mode` of one generator frame. */
  function DemoToUnified(f: GeneratorFrame, sim: SimulatorState): UnifiedTelemetry {
    UnifiedTelemetry(
      timestamp := f.timestamp,
      game := DemoGame,
      speed := f.speed,
      rpm := f.rpm,
      gear := f.gear,
      maxRpm := f.maxRpm,
      lapDistance := f.lapDistance,
      lapTime := f.lapTime,
      lapNumber := f.lapNumber,
      lastLapTime := f.lastLapTime,
      bestLapTime := f.bestLapTime,
      currentLapTime := f.lapTime,
      throttle := f.throttle,
      brake := f.brake,
      clutch := f.clutch,
      steering := f.steering,
      gForceLateral := f.gForceLateral,
      gForceLongitudinal := f.gForceLongitudinal,
      gForceVertical := f.gForceVertical,
      tireTempFL := f.tireTempFL, tireTempFR := f.tireTempFR,
      tireTempRL := f.tireTempRL, tireTempRR := f.tireTempRR,
      tirePressureFL := f.tirePressureFL, tirePressureFR := f.tirePressureFR,
      tirePressureRL := f.tirePressureRL, tirePressureRR := f.tirePressureRR,
      brakeTempFL := f.brakeTempFL, brakeTempFR := f.brakeTempFR,
      brakeTempRL := f.brakeTempRL, brakeTempRR := f.brakeTempRR,
      oilTemp := f.oilTemp,
      waterTemp := f.waterTemp,
      fuelLevel := f.fuelLevel,
      fuel := f.fuelLevel * 120.0,
      fuelLaps := Trunc(f.fuelRemainingLaps),
      tc := 2,
      abs := 3,
      brakeBias := 0.56,
      engineMap := 1,
      position := 1 + sim.lapNumber % 3,
      totalCars := 20,
      sessionType := f.sessionType,
      sessionTimeRemaining := 1800.0 - (sim.lapTime + (sim.lapNumber - 1) as real * 150.0),
      trackName := "Spa-Francorchamps",
      carName := "Mercedes-AMG GT3",
      sector1Delta := if sim.bestLapTime < NoBestLap then Some(-0.234) else None,
      sector2Delta := if sim.bestLapTime < NoBestLap then Some(0.156) else None,
      sector3Delta := if sim.bestLapTime < NoBestLap then Some(-0.089) else None,
      leaderboard := Some(DemoLeaderboard(sim)),
      coachingMessages := [],
      coachingMessage := None
    )
  }

  /** The simulated position cycles through 1, 2, 3 and changes every lap. */
  lemma DemoPosition(f: GeneratorFrame, sim: SimulatorState)
    ensures 1 <= DemoToUnified(f, sim).position <= 3
    ensures DemoToUnified(f, sim).position - 1 == sim.lapNumber % 3
    ensures DemoToUnified(f, sim).position != DemoToUnified(f, sim.(lapNumber := sim.lapNumber + 1)).position
  {
    var n := sim.lapNumber;
    assert (n + 1) % 3 == (n % 3 + 1) % 3;
  }

  /** Sector deltas are present exactly when the generator has a best lap. */
  lemma DemoSectorsIff(f: GeneratorFrame, sim: SimulatorState)
    ensures var u := DemoToUnified(f, sim);
      && (u.sector1Delta.Some? <==> sim.bestLapTime < 999.0)
      && (u.sector2Delta.Some? <==> sim.bestLapTime < 999.0)
      && (u.sector3Delta.Some? <==> sim.bestLapTime < 999.0)
  {
  }

  /** Five cars in position order, the player leading, best laps present only with a best lap and slower down the order. */
  lemma DemoLeaderboardShape(f: GeneratorFrame, sim: SimulatorState)
    ensures DemoToUnified(f, sim).leaderboard.Some?
    ensures var lb := DemoToUnified(f, sim).leaderboard.value;
      && |lb| == 5
      && (forall i :: 0 <= i < 5 ==> lb[i].position == i + 1)
      && lb[0].driverName == "You" && lb[0].gap == "LEAD"
      && (forall i :: 0 <= i < 5 ==> (lb[i].bestLap.Some? <==> sim.bestLapTime < 999.0))
      && (forall i, j :: 0 <= i < j < 5 && sim.bestLapTime < 999.0 ==> lb[i].bestLap.value < lb[j].bestLap.value)
  {
    var lb := DemoLeaderboard(sim);
    assert lb[0].position == 1 && lb[1].position == 2 && lb[2].position == 3 && lb[3].position == 4 && lb[4].position == 5;
  }

  /** The fuel amount is the level of a 120-litre tank; the lap estimate is the generator's, truncated. */
  lemma DemoFuel(f: GeneratorFrame, sim: SimulatorState)
    ensures var u := DemoToUnified(f, sim);
      && u.fuel / 120.0 == f.fuelLevel
      && (0.0 <= f.fuelLevel <= 1.0 ==> 0.0 <= u.fuel <= 120.0)
      && (f.fuelRemainingLaps >= 0.0 ==> u.fuelLaps as real <= f.fuelRemainingLaps < u.fuelLaps as real + 1.0)
  {
  }

  /** A 30-minute session clock with laps counted as 150 seconds each. */
  lemma DemoSessionClock(f: GeneratorFrame, sim: SimulatorState)
    ensures var u := DemoToUnified(f, sim);
      u.sessionTimeRemaining + sim.lapTime + (sim.lapNumber - 1) as real * 150.0 == 1800.0
  {
  }

  /** The demo frame is marked as such, aliases the lap time and starts without coaching messages. */
  lemma DemoFixedFields(f: GeneratorFrame, sim: SimulatorState)
    ensures var u := DemoToUnified(f, sim);
      && u.game == "Demo Mode"
      && u.currentLapTime == u.lapTime == f.lapTime
      && u.coachingMessages == [] && u.coachingMessage == None
      && u.tc == 2 && u.abs == 3 && u.brakeBias == 0.56 && u.engineMap == 1 && u.totalCars == 20
  {
  }

  // ---- The loop ----

  /** One iteration of the demo loop: the generator's output and the outcome of the broadcast. */
  datatype DemoTick = DemoTick(frame: GeneratorFrame, sim: SimulatorState, failing: set<ClientId>, sinkOk: bool)

  /** The clients some broadcast of the ticks failed to reach. */
  function FailingClients(ticks: seq<DemoTick>): set<ClientId> {
    if ticks == [] then {} else FailingClients(ticks[..|ticks| - 1]) + ticks[|ticks| - 1].failing
  }

  /** The frame the hub holds after the ticks: the last one, annotated with its coaching. */
  function LatestAfter(prior: Option<UnifiedTelemetry>, ticks: seq<DemoTick>): Option<UnifiedTelemetry> {
    if ticks == [] then prior
    else
      var u := DemoToUnified(ticks[|ticks| - 1].frame, ticks[|ticks| - 1].sim);
      Some(u.(coachingMessages := Coaching.Analyze(u)))
  }

  /** How a run of the demo task ends: a `stop_demo` call, or the generator raising. */
  datatype DemoEnding = StopRequested | GeneratorRaised

  /** The process-wide demo flag and task, and the hub the demo feeds. */
  class DemoController {
    var running: bool
    var task: DemoTask
    const hub: TelemetryHub

    constructor (hub: TelemetryHub)
      ensures ControlState(running, task) == Initial && this.hub == hub
    {
      running := false;
      task := NoTask;
      this.hub := hub;
    }

    /** The start-up hook: the demo is started unconditionally. */
    method Startup()
      modifies this
      ensures running && task == Active
    {
      running := true;
      task := Active;
    }

    method StartDemo() returns (reply: DemoReply)
      modifies this
      ensures (ControlState(running, task), reply) == StartStep(old(ControlState(running, task)))
    {
      if !running {
        running := true;
        task := Active;
        return Started;
      }
      return AlreadyRunning;
    }

    method StopDemo() returns (reply: DemoReply)
      modifies this
      ensures (ControlState(running, task), reply) == StopStep(old(ControlState(running, task)))
    {
      if running {
        running := false;
        if task == Failed {
          // cancel() on a finished task does nothing; awaiting it re-raises
          return Raised;
        }
        if task != NoTask {
          task := Cancelled;
        }
        return Stopped;
      }
      return AlreadyStopped;
    }

    /** The demo task raises: it ends failed and leaves the flag as it was. */
    method Crash()
      modifies this
      ensures ControlState(running, task) == CrashStep(old(ControlState(running, task)))
    {
      if task == Active {
        task := Failed;
      }
    }

    /**
     * `demo_mode()` in its task, while the flag is set: map each generator
     * frame and broadcast it. After the ticks the run ends as `ending`
     * says: either `stop_demo` is called and its reply returned, or the
     * generator raises and the task fails with the flag still set.
     */
    method RunDemo(ticks: seq<DemoTick>, ending: DemoEnding) returns (reply: Option<DemoReply>)
      modifies this, hub
      ensures ghost var live := old(running && task == Active);
        && (!live ==> hub.clients == old(hub.clients) && hub.latest == old(hub.latest))
        && (live ==>
              hub.clients == old(hub.clients) - FailingClients(ticks) &&
              hub.latest == LatestAfter(old(hub.latest), ticks))
      ensures ending == StopRequested ==>
        reply.Some? &&
        (ControlState(running, task), reply.value) == StopStep(old(ControlState(running, task)))
      ensures ending == GeneratorRaised ==>
        reply == None && ControlState(running, task) == CrashStep(old(ControlState(running, task)))
    {
      if running && task == Active {
        var i := 0;
        while i < |ticks|
          invariant 0 <= i <= |ticks|
          invariant hub.clients == old(hub.clients) - FailingClients(ticks[..i])
          invariant hub.latest == LatestAfter(old(hub.latest), ticks[..i])
          invariant running == old(running) && task == old(task)
          decreases |ticks| - i
        {
          var tick := ticks[i];
          var unified := DemoToUnified(tick.frame, tick.sim);
          var _, _ := hub.BroadcastTelemetry(unified, tick.failing, tick.sinkOk);
          assert ticks[..i + 1][..i] == ticks[..i];
          i := i + 1;
        }
        assert ticks[..i] == ticks;
      }
      match ending
      case StopRequested =>
        var r := StopDemo();
        reply := Some(r);
      case GeneratorRaised =>
        Crash();
        reply := None;
    }
  }
}
