/**
 * The record every telemetry reader produces (`UnifiedTelemetryData` of the
 * readers package), with the canonical gear encoding and the wheel order.
 */
module ReaderData {
  import opened Common

  /** The four wheel positions, in the order the record lists them. */
  datatype Wheel = FL | FR | RL | RR

  /** The sim-agnostic frame of the readers package. */
  datatype UnifiedTelemetryData = UnifiedTelemetryData(
    // Basic
    speed: real,            // km/h
    rpm: int,
    gear: int,              // -1 reverse, 0 neutral, k >= 1 forward gear k
    maxRpm: int,
    // Position
    lapDistance: real,      // 0.0 to 1.0
    lapTime: real,          // seconds
    lapNumber: int,
    lastLapTime: real,
    bestLapTime: real,
    // Inputs
    throttle: real,
    brake: real,
    clutch: real,
    steering: real,
    // Forces
    gForceLateral: real,
    gForceLongitudinal: real,
    gForceVertical: real,
    // Tires
    tireTempFL: real, tireTempFR: real, tireTempRL: real, tireTempRR: real,
    tirePressureFL: real, tirePressureFR: real, tirePressureRL: real, tirePressureRR: real,
    // Brakes
    brakeTempFL: real, brakeTempFR: real, brakeTempRL: real, brakeTempRR: real,
    // Engine and fuel
    oilTemp: real,
    waterTemp: real,
    fuelLevel: real,        // 0.0 to 1.0
    fuel: real,             // litres
    fuelLaps: int,
    // Electronics
    tc: int,
    abs: int,
    brakeBias: real,
    engineMap: int,
    // Race position
    position: int,
    totalCars: int,
    // Session
    sessionType: string,
    sessionTimeRemaining: real,
    trackName: string,
    carName: string,
    // Sector deltas: absent unless a reader supplies them
    sector1Delta: Option<real> := None,
    sector2Delta: Option<real> := None,
    sector3Delta: Option<real> := None
  )

  /** What a gear value means. */
  datatype GearState = Reverse | Neutral | Forward(n: nat)

  /** The canonical gear encoding of the record: -1 reverse, 0 neutral, k >= 1 gear k. */
  function GearMeaning(gear: int): (m: Option<GearState>)
    ensures m == Some(Reverse) <==> gear == -1
    ensures m == Some(Neutral) <==> gear == 0
    ensures gear >= 1 ==> m == Some(Forward(gear))
    ensures m == None <==> gear < -1
  {
    if gear == -1 then Some(Reverse)
    else if gear == 0 then Some(Neutral)
    else if gear >= 1 then Some(Forward(gear))
    else None
  }

  /** The tyre temperature of one wheel. */
  function TireTemp(d: UnifiedTelemetryData, w: Wheel): real {
    match w
    case FL => d.tireTempFL
    case FR => d.tireTempFR
    case RL => d.tireTempRL
    case RR => d.tireTempRR
  }

  /** The tyre pressure of one wheel. */
  function TirePressure(d: UnifiedTelemetryData, w: Wheel): real {
    match w
    case FL => d.tirePressureFL
    case FR => d.tirePressureFR
    case RL => d.tirePressureRL
    case RR => d.tirePressureRR
  }

  /** The brake temperature of one wheel. */
  function BrakeTemp(d: UnifiedTelemetryData, w: Wheel): real {
    match w
    case FL => d.brakeTempFL
    case FR => d.brakeTempFR
    case RL => d.brakeTempRL
    case RR => d.brakeTempRR
  }
}
