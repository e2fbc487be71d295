/**
 * The frame the server distributes (`UnifiedTelemetry` of the backend's
 * main module). It is a different record from the readers'
 * `UnifiedTelemetryData`: it adds a timestamp, the game name, the
 * current-lap alias, a leaderboard and the coaching annotations.
 */
module Telemetry {
  import opened Common

  /**
   * One advisory message of the coaching engine. Each constructor stands
   * for one message text and carries the number the text formats.
   */
  datatype Message =
    | TireOverheat
    | ColdTires
    | TireImbalance(spread: real)
    | BrakeFadeCritical
    | BrakeTempsHigh
    | LowFuel(lapsRemaining: int)
    | PedalOverlap
    | ShiftUp
    | HighLateralG(g: real)
    | LapDelta(sign: string, delta: real)

  /** One row of the leaderboard snapshot. */
  datatype LeaderboardEntry = LeaderboardEntry(
    position: int,
    carNumber: string,
    driverName: string,
    gap: string,
    bestLap: Option<real>,
    sector1: real,
    sector2: real,
    sector3: real
  )

  datatype UnifiedTelemetry = UnifiedTelemetry(
    timestamp: real,
    game: string,
    // Basic
    speed: real,
    rpm: int,
    gear: int,
    maxRpm: int,
    // Position
    lapDistance: real,
    lapTime: real,
    lapNumber: int,
    lastLapTime: real,
    bestLapTime: real,
    currentLapTime: real,
    // Inputs
    throttle: real,
    brake: real,
    clutch: real,
    steering: real,
    // Forces
    gForceLateral: real,
    gForceLongitudinal: real,
    gForceVertical: real,
    // Tires
    tireTempFL: real, tireTempFR: real, tireTempRL: real, tireTempRR: real,
    tirePressureFL: real, tirePressureFR: real, tirePressureRL: real, tirePressureRR: real,
    // Brakes
    brakeTempFL: real, brakeTempFR: real, brakeTempRL: real, brakeTempRR: real,
    // Engine and fuel
    oilTemp: real,
    waterTemp: real,
    fuelLevel: real,
    fuel: real,
    fuelLaps: int,
    // Electronics
    tc: int,
    abs: int,
    brakeBias: real,
    engineMap: int,
    // Race position
    position: int,
    totalCars: int,
    // Session
    sessionType: string,
    sessionTimeRemaining: real,
    trackName: string,
    carName: string,
    // Sector deltas
    sector1Delta: Option<real>,
    sector2Delta: Option<real>,
    sector3Delta: Option<real>,
    // Leaderboard
    leaderboard: Option<seq<LeaderboardEntry>>,
    // Coaching
    coachingMessages: seq<Message>,
    coachingMessage: Option<Message>
  )
}
