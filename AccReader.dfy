/**
 * The Assetto Corsa Competizione reader. ACC publishes three shared-memory
 * regions (physics, graphics, static); the reader converts one snapshot of
 * the three into an `UnifiedTelemetryData`. The shared-memory library and
 * the platform query are outside the model: their results are parameters.
 */
module AccReader {
  import opened Common
  import opened ReaderData

  /** The fields of the physics region the reader uses. */
  datatype Physics = Physics(
    speedKmh: real,
    rpms: int,
    gear: int,                 // ACC: 0 reverse, 1 neutral, k >= 2 gear k - 1
    gas: real,
    brake: real,
    clutch: real,
    steerAngle: real,
    accG: seq<real>,           // x, y, z
    tyreCoreTemp: seq<real>,   // FL, FR, RL, RR
    wheelPressure: seq<real>,  // FL, FR, RL, RR
    brakeTemp: seq<real>,      // FL, FR, RL, RR
    oilTemp: real,
    waterTemp: real,
    fuel: real,                // litres
    brakeBias: real
  )

  /** The fields of the graphics region the reader uses; times are in milliseconds. */
  datatype Graphics = Graphics(
    normalizedCarPosition: real,
    iCurrentTime: int,
    completedLaps: int,
    iLastTime: int,
    iBestTime: int,
    tc: int,
    abs: int,
    engineMap: int,
    position: int,
    session: int,
    sessionTimeLeft: real
  )

  /** The fields of the static region the reader uses. */
  datatype Static = Static(
    maxRpm: int,
    maxFuel: real,
    numCars: int,
    track: string,
    carModel: string
  )

  /** The array slot that holds a wheel's value in the physics region. */
  function WheelIndex(w: Wheel): (i: nat)
    ensures i < 4
  {
    match w
    case FL => 0
    case FR => 1
    case RL => 2
    case RR => 3
  }

  /** WheelIndex assigns each of the four slots to exactly one wheel. */
  lemma WheelIndexBijective()
    ensures forall w1: Wheel, w2: Wheel :: WheelIndex(w1) == WheelIndex(w2) ==> w1 == w2
    ensures {WheelIndex(FL), WheelIndex(FR), WheelIndex(RL), WheelIndex(RR)} == {0, 1, 2, 3}
  {
    assert WheelIndex(FL) == 0 && WheelIndex(FR) == 1 && WheelIndex(RL) == 2 && WheelIndex(RR) == 3;
  }

  /** What an ACC gear code means, as the reader documents it. */
  function AccGearMeaning(code: int): Option<GearState> {
    if code == 0 then Some(Reverse)
    else if code == 1 then Some(Neutral)
    else if code >= 2 then Some(Forward(code - 1))
    else None
  }

  /** The session-code table of `_get_session_type`. */
  const SessionTypes: map<int, string> := map[
    0 := "Practice",
    1 := "Qualifying",
    2 := "Race",
    3 := "Hotlap",
    4 := "Time Attack",
    5 := "Drift",
    6 := "Drag",
    7 := "Hotstint",
    8 := "Hotlap Superpole"
  ]

  /** `_get_session_type`: look the code up, "Unknown" when it is not in the table. */
  function SessionType(code: int): (name: string)
    ensures name == "Unknown" <==> !(0 <= code <= 8)
    ensures 0 <= code <= 8 ==> name == SessionTypes[code]
  {
    if code in SessionTypes then SessionTypes[code] else "Unknown"
  }

  /** Distinct known session codes get distinct names, so a name identifies its code. */
  lemma SessionTypeInjective(a: int, b: int)
    requires 0 <= a <= 8 && 0 <= b <= 8
    requires SessionType(a) == SessionType(b)
    ensures a == b
  {
    var names := ["Practice", "Qualifying", "Race", "Hotlap", "Time Attack", "Drift", "Drag", "Hotstint", "Hotlap Superpole"];
    assert forall k :: 0 <= k <= 8 ==> SessionType(k) == names[k];
    assert names[0][0] == 'P' && names[1][0] == 'Q' && names[2][0] == 'R' && names[5][1] == 'r' && names[6][1] == 'r';
    assert |names[3]| == 6 && |names[4]| == 11 && |names[5]| == 5 && |names[6]| == 4 && |names[7]| == 8 && |names[8]| == 16;
  }

  /** The physics arrays hold every slot the conversion reads; otherwise indexing raises. */
  predicate ArraysComplete(p: Physics) {
    |p.accG| >= 3 && |p.tyreCoreTemp| >= 4 && |p.wheelPressure| >= 4 && |p.brakeTemp| >= 4
  }

  /**
   * The conversion in `read_telemetry` of one snapshot of the three regions.
   * An array too short to index raises inside the `try`, which yields `None`.
   */
  function ConvertRegions(p: Physics, g: Graphics, s: Static): (r: Option<UnifiedTelemetryData>)
    ensures r.Some? <==> ArraysComplete(p)
  {
    if !ArraysComplete(p) then None
    else Some(UnifiedTelemetryData(
      speed := p.speedKmh,
      rpm := p.rpms,
      gear := p.gear - 1,
      maxRpm := s.maxRpm,
      lapDistance := g.normalizedCarPosition,
      lapTime := g.iCurrentTime as real / 1000.0,
      lapNumber := g.completedLaps + 1,
      lastLapTime := g.iLastTime as real / 1000.0,
      bestLapTime := g.iBestTime as real / 1000.0,
      throttle := p.gas,
      brake := p.brake,
      clutch := p.clutch,
      steering := p.steerAngle,
      gForceLateral := p.accG[0],
      gForceLongitudinal := p.accG[1],
      gForceVertical := p.accG[2],
      tireTempFL := p.tyreCoreTemp[0], tireTempFR := p.tyreCoreTemp[1],
      tireTempRL := p.tyreCoreTemp[2], tireTempRR := p.tyreCoreTemp[3],
      tirePressureFL := p.wheelPressure[0], tirePressureFR := p.wheelPressure[1],
      tirePressureRL := p.wheelPressure[2], tirePressureRR := p.wheelPressure[3],
      brakeTempFL := p.brakeTemp[0], brakeTempFR := p.brakeTemp[1],
      brakeTempRL := p.brakeTemp[2], brakeTempRR := p.brakeTemp[3],
      oilTemp := p.oilTemp,
      waterTemp := p.waterTemp,
      fuelLevel := if s.maxFuel > 0.0 then p.fuel / s.maxFuel else 0.0,
      fuel := p.fuel,
      fuelLaps := 0,
      tc := g.tc,
      abs := g.abs,
      brakeBias := p.brakeBias,
      engineMap := g.engineMap,
      position := g.position,
      totalCars := s.numCars,
      sessionType := SessionType(g.session),
      sessionTimeRemaining := g.sessionTimeLeft / 1000.0,
      trackName := s.track,
      carName := s.carModel,
      sector1Delta := None,
      sector2Delta := None,
      sector3Delta := None
    ))
  }

  /** The gear is re-encoded so that it means the same gear in the canonical scheme. */
  lemma AccGearReencoded(p: Physics, g: Graphics, s: Static)
    requires ArraysComplete(p)
    ensures GearMeaning(ConvertRegions(p, g, s).value.gear) == AccGearMeaning(p.gear)
  {
  }

  /** The millisecond clocks become seconds: multiplying back by 1000 gives the input. */
  lemma AccTimesInSeconds(p: Physics, g: Graphics, s: Static)
    requires ArraysComplete(p)
    ensures var d := ConvertRegions(p, g, s).value;
      && d.lapTime * 1000.0 == g.iCurrentTime as real
      && d.lastLapTime * 1000.0 == g.iLastTime as real
      && d.bestLapTime * 1000.0 == g.iBestTime as real
      && d.sessionTimeRemaining * 1000.0 == g.sessionTimeLeft
  {
  }

  /** The lap in progress is one past the completed laps. */
  lemma AccLapNumber(p: Physics, g: Graphics, s: Static)
    requires ArraysComplete(p)
    ensures ConvertRegions(p, g, s).value.lapNumber - 1 == g.completedLaps
  {
  }

  /** Fuel: the level is the fraction of capacity (0 for a zero capacity), the amount passes through, no lap estimate. */
  lemma AccFuel(p: Physics, g: Graphics, s: Static)
    requires ArraysComplete(p)
    ensures var d := ConvertRegions(p, g, s).value;
      && (s.maxFuel > 0.0 ==> d.fuelLevel * s.maxFuel == p.fuel)
      && (s.maxFuel <= 0.0 ==> d.fuelLevel == 0.0)
      && (0.0 <= p.fuel <= s.maxFuel ==> 0.0 <= d.fuelLevel <= 1.0)
      && d.fuel == p.fuel
      && d.fuelLaps == 0
  {
    var d := ConvertRegions(p, g, s).value;
    if 0.0 < s.maxFuel {
      assert d.fuelLevel == p.fuel / s.maxFuel;
      if 0.0 <= p.fuel <= s.maxFuel {
        assert p.fuel / s.maxFuel <= s.maxFuel / s.maxFuel;
      }
    }
  }

  /** Each wheel reads its own array slot; the g-forces pass through in x, y, z order. */
  lemma AccWheelsAndForces(p: Physics, g: Graphics, s: Static)
    requires ArraysComplete(p)
    ensures var d := ConvertRegions(p, g, s).value;
      && (forall w: Wheel ::
            && TireTemp(d, w) == p.tyreCoreTemp[WheelIndex(w)]
            && TirePressure(d, w) == p.wheelPressure[WheelIndex(w)]
            && BrakeTemp(d, w) == p.brakeTemp[WheelIndex(w)])
      && d.gForceLateral == p.accG[0]
      && d.gForceLongitudinal == p.accG[1]
      && d.gForceVertical == p.accG[2]
  {
    var d := ConvertRegions(p, g, s).value;
    forall w: Wheel
      ensures TireTemp(d, w) == p.tyreCoreTemp[WheelIndex(w)]
      ensures TirePressure(d, w) == p.wheelPressure[WheelIndex(w)]
      ensures BrakeTemp(d, w) == p.brakeTemp[WheelIndex(w)]
    {
    }
  }

  /** ACC supplies no sector deltas, so a converted frame never carries them. */
  lemma AccSectorsAbsent(p: Physics, g: Graphics, s: Static)
    requires ArraysComplete(p)
    ensures var d := ConvertRegions(p, g, s).value;
      d.sector1Delta == None && d.sector2Delta == None && d.sector3Delta == None
  {
  }

  /** The session is reported by name, "Unknown" exactly for a code outside the table. */
  lemma AccSessionName(p: Physics, g: Graphics, s: Static)
    requires ArraysComplete(p)
    ensures var d := ConvertRegions(p, g, s).value;
      (d.sessionType == "Unknown" <==> !(0 <= g.session <= 8))
  {
  }

  /** `ACCReader`: the only state is whether the shared-memory handle `asm` is set. */
  class AccReader {
    var asm: bool
    const isWindows: bool
    const libraryAvailable: bool

    constructor (isWindows: bool, libraryAvailable: bool)
      ensures !asm
      ensures this.isWindows == isWindows && this.libraryAvailable == libraryAvailable
    {
      asm := false;
      this.isWindows := isWindows;
      this.libraryAvailable := libraryAvailable;
    }

    /**
     * `connect()`. `openOk` says whether creating the shared-memory handle
     * succeeded, `firstPhysics` is what the first physics read returned
     * (`None` also for a read that raised). A failed first read returns
     * false but leaves the new handle in `asm`.
     */
    method Connect(openOk: bool, firstPhysics: Option<Physics>) returns (ok: bool)
      modifies this
      ensures ok <==> isWindows && libraryAvailable && openOk && firstPhysics.Some?
      ensures asm == if isWindows && libraryAvailable && openOk then true else old(asm)
    {
      if !isWindows {
        return false;
      }
      if !libraryAvailable {
        return false;
      }
      if !openOk {
        return false;
      }
      asm := true;
      if firstPhysics.None? {
        return false;
      }
      return true;
    }

    /**
     * `read_telemetry()` given what the three region reads returned
     * (`None` for a missing region or a read that raised).
     */
    method ReadTelemetry(physics: Option<Physics>, graphics: Option<Graphics>, statics: Option<Static>)
      returns (r: Option<UnifiedTelemetryData>)
      ensures !asm ==> r == None
      ensures (physics.None? || graphics.None? || statics.None?) ==> r == None
      ensures asm && physics.Some? && graphics.Some? && statics.Some? ==>
        r == ConvertRegions(physics.value, graphics.value, statics.value)
      ensures r.Some? ==> asm && physics.Some? && ArraysComplete(physics.value)
    {
      if !asm {
        return None;
      }
      if physics.None? || graphics.None? || statics.None? {
        return None;
      }
      r := ConvertRegions(physics.value, graphics.value, statics.value);
    }

    /** `disconnect()`: clear the handle; a second call changes nothing. */
    method Disconnect()
      modifies this
      ensures !asm
    {
      if asm {
        asm := false;
      }
    }
  }
}
