/**
 * The coaching engine (`CoachingEngine.analyze`): fixed threshold rules
 * evaluated in a fixed order on one frame. Readings are exact reals.
 */
module Coaching {
  import opened Common
  import opened Telemetry

  function Max4(a: real, b: real, c: real, d: real): (m: real)
    ensures m >= a && m >= b && m >= c && m >= d
    ensures m == a || m == b || m == c || m == d
  {
    var ab := if a >= b then a else b;
    var cd := if c >= d then c else d;
    if ab >= cd then ab else cd
  }

  function Min4(a: real, b: real, c: real, d: real): (m: real)
    ensures m <= a && m <= b && m <= c && m <= d
    ensures m == a || m == b || m == c || m == d
  {
    var ab := if a <= b then a else b;
    var cd := if c <= d then c else d;
    if ab <= cd then ab else cd
  }

  function AvgTireTemp(t: UnifiedTelemetry): real {
    (t.tireTempFL + t.tireTempFR + t.tireTempRL + t.tireTempRR) / 4.0
  }

  /** `max(tire_temps) - min(tire_temps)`. */
  function TireSpread(t: UnifiedTelemetry): (s: real)
    ensures s >= 0.0
  {
    Max4(t.tireTempFL, t.tireTempFR, t.tireTempRL, t.tireTempRR)
      - Min4(t.tireTempFL, t.tireTempFR, t.tireTempRL, t.tireTempRR)
  }

  function AvgBrakeTemp(t: UnifiedTelemetry): real {
    (t.brakeTempFL + t.brakeTempFR + t.brakeTempRL + t.brakeTempRR) / 4.0
  }

  /** `lap_time - best_lap_time * lap_distance`: time lost against the best lap at this point of the lap. */
  function LapDeltaOf(t: UnifiedTelemetry): real {
    t.lapTime - t.bestLapTime * t.lapDistance
  }

  // The eight rules, each contributing at most one message.

  function TireTempRule(t: UnifiedTelemetry): seq<Message> {
    if AvgTireTemp(t) > 105.0 then [TireOverheat]
    else if AvgTireTemp(t) < 70.0 then [ColdTires]
    else []
  }

  function ImbalanceRule(t: UnifiedTelemetry): seq<Message> {
    if TireSpread(t) > 15.0 then [TireImbalance(TireSpread(t))] else []
  }

  function BrakeTempRule(t: UnifiedTelemetry): seq<Message> {
    if AvgBrakeTemp(t) > 800.0 then [BrakeFadeCritical]
    else if AvgBrakeTemp(t) > 650.0 then [BrakeTempsHigh]
    else []
  }

  function FuelRule(t: UnifiedTelemetry): seq<Message> {
    if t.fuelLevel < 0.15 then [LowFuel(Trunc(t.fuelLevel * 50.0))] else []
  }

  function OverlapRule(t: UnifiedTelemetry): seq<Message> {
    if t.throttle > 0.2 && t.brake > 0.2 then [PedalOverlap] else []
  }

  function RpmRule(t: UnifiedTelemetry): seq<Message> {
    if t.rpm as real > t.maxRpm as real * 0.95 then [ShiftUp] else []
  }

  function LateralRule(t: UnifiedTelemetry): seq<Message> {
    if Abs(t.gForceLateral) > 2.5 then [HighLateralG(Abs(t.gForceLateral))] else []
  }

  function DeltaRule(t: UnifiedTelemetry): seq<Message> {
    if t.bestLapTime < 999.0 && t.lapTime > 0.0 && Abs(LapDeltaOf(t)) > 0.5 then
      [LapDelta(if LapDeltaOf(t) > 0.0 then "+" else "", LapDeltaOf(t))]
    else []
  }

  /** `CoachingEngine.analyze`: the messages of all rules, in rule order. */
  function Analyze(t: UnifiedTelemetry): seq<Message> {
    TireTempRule(t) + ImbalanceRule(t) + BrakeTempRule(t) + FuelRule(t)
      + OverlapRule(t) + RpmRule(t) + LateralRule(t) + DeltaRule(t)
  }

  /** The position of a message's rule in the evaluation order. */
  function Rank(m: Message): (k: nat)
    ensures k < 8
  {
    match m
    case TireOverheat => 0
    case ColdTires => 0
    case TireImbalance(_) => 1
    case BrakeFadeCritical => 2
    case BrakeTempsHigh => 2
    case LowFuel(_) => 3
    case PedalOverlap => 4
    case ShiftUp => 5
    case HighLateralG(_) => 6
    case LapDelta(_, _) => 7
  }

  /** Messages appear in strictly increasing rule order: at most one per rule, never out of order. */
  ghost predicate InRuleOrder(s: seq<Message>) {
    forall i, j :: 0 <= i < j < |s| ==> Rank(s[i]) < Rank(s[j])
  }

  ghost predicate RanksBelow(s: seq<Message>, k: nat) {
    forall i :: 0 <= i < |s| ==> Rank(s[i]) < k
  }

  /** Appending the output of rule `k` to output of the earlier rules keeps the order. */
  lemma AppendRule(s: seq<Message>, r: seq<Message>, k: nat)
    requires InRuleOrder(s) && RanksBelow(s, k)
    requires |r| <= 1 && forall i :: 0 <= i < |r| ==> Rank(r[i]) == k
    ensures InRuleOrder(s + r) && RanksBelow(s + r, k + 1)
  {
    forall i, j | 0 <= i < j < |s + r|
      ensures Rank((s + r)[i]) < Rank((s + r)[j])
    {
      if j < |s| {
        assert (s + r)[i] == s[i] && (s + r)[j] == s[j];
      } else {
        assert (s + r)[i] == s[i] && (s + r)[j] == r[0];
      }
    }
  }

  /** `analyze` emits its messages in the fixed rule order. */
  lemma AnalyzeInRuleOrder(t: UnifiedTelemetry)
    ensures InRuleOrder(Analyze(t))
  {
    var s0 := TireTempRule(t);
    var s1 := s0 + ImbalanceRule(t);
    var s2 := s1 + BrakeTempRule(t);
    var s3 := s2 + FuelRule(t);
    var s4 := s3 + OverlapRule(t);
    var s5 := s4 + RpmRule(t);
    var s6 := s5 + LateralRule(t);
    AppendRule([], s0, 0);
    assert [] + s0 == s0;
    AppendRule(s0, ImbalanceRule(t), 1);
    AppendRule(s1, BrakeTempRule(t), 2);
    AppendRule(s2, FuelRule(t), 3);
    AppendRule(s3, OverlapRule(t), 4);
    AppendRule(s4, RpmRule(t), 5);
    AppendRule(s5, LateralRule(t), 6);
    AppendRule(s6, DeltaRule(t), 7);
  }

  lemma {:induction false} RankAtLeastIndex(s: seq<Message>, k: nat)
    requires InRuleOrder(s) && k < |s|
    ensures Rank(s[k]) >= k
  {
    if k > 0 {
      RankAtLeastIndex(s, k - 1);
    }
  }

  /** A sequence in rule order holds at most one message per rule, so at most eight. */
  lemma RuleOrderBound(s: seq<Message>)
    requires InRuleOrder(s)
    ensures |s| <= 8
  {
    if |s| > 8 {
      RankAtLeastIndex(s, 8);
    }
  }

  /** `analyze` returns at most eight messages. */
  lemma AnalyzeAtMostEight(t: UnifiedTelemetry)
    ensures |Analyze(t)| <= 8
  {
    AnalyzeInRuleOrder(t);
    RuleOrderBound(Analyze(t));
  }

  /** The output of the rule at position `k` of the evaluation order. */
  function RuleOutput(k: nat, t: UnifiedTelemetry): seq<Message> {
    if k == 0 then TireTempRule(t)
    else if k == 1 then ImbalanceRule(t)
    else if k == 2 then BrakeTempRule(t)
    else if k == 3 then FuelRule(t)
    else if k == 4 then OverlapRule(t)
    else if k == 5 then RpmRule(t)
    else if k == 6 then LateralRule(t)
    else if k == 7 then DeltaRule(t)
    else []
  }

  /** A message is in the output exactly when its own rule produced it: no rule emits another rule's message. */
  lemma MemberOfAnalyze(t: UnifiedTelemetry, m: Message)
    ensures m in Analyze(t) <==> m in RuleOutput(Rank(m), t)
  {
    forall k: nat | k < 8
      ensures forall x :: x in RuleOutput(k, t) ==> Rank(x) == k
    {
    }
    var a := Analyze(t);
    assert a == RuleOutput(0, t) + RuleOutput(1, t) + RuleOutput(2, t) + RuleOutput(3, t)
      + RuleOutput(4, t) + RuleOutput(5, t) + RuleOutput(6, t) + RuleOutput(7, t);
  }

  lemma TireOverheatIff(t: UnifiedTelemetry)
    ensures TireOverheat in Analyze(t) <==> AvgTireTemp(t) > 105.0
  {
    MemberOfAnalyze(t, TireOverheat);
  }

  lemma ColdTiresIff(t: UnifiedTelemetry)
    ensures ColdTires in Analyze(t) <==> AvgTireTemp(t) < 70.0
  {
    MemberOfAnalyze(t, ColdTires);
  }

  /** The overheat and cold-tyre messages never appear together. */
  lemma TireMessagesExclusive(t: UnifiedTelemetry)
    ensures !(TireOverheat in Analyze(t) && ColdTires in Analyze(t))
  {
    TireOverheatIff(t);
    ColdTiresIff(t);
  }

  /** The imbalance message appears exactly when the spread exceeds 15, and carries the spread. */
  lemma TireImbalanceIff(t: UnifiedTelemetry, spread: real)
    ensures TireImbalance(spread) in Analyze(t) <==> TireSpread(t) > 15.0 && spread == TireSpread(t)
  {
    MemberOfAnalyze(t, TireImbalance(spread));
  }

  /** Above 800 the critical message fires and the elevated one does not. */
  lemma BrakeCriticalIff(t: UnifiedTelemetry)
    ensures BrakeFadeCritical in Analyze(t) <==> AvgBrakeTemp(t) > 800.0
    ensures AvgBrakeTemp(t) > 800.0 ==> BrakeTempsHigh !in Analyze(t)
  {
    MemberOfAnalyze(t, BrakeFadeCritical);
    MemberOfAnalyze(t, BrakeTempsHigh);
  }

  lemma BrakeHighIff(t: UnifiedTelemetry)
    ensures BrakeTempsHigh in Analyze(t) <==> 650.0 < AvgBrakeTemp(t) <= 800.0
  {
    MemberOfAnalyze(t, BrakeTempsHigh);
  }

  /** Low fuel carries `int(fuel_level * 50)`; for a non-negative level that is 0 to 7 laps. */
  lemma LowFuelIff(t: UnifiedTelemetry, laps: int)
    ensures LowFuel(laps) in Analyze(t) <==> t.fuelLevel < 0.15 && laps == Trunc(t.fuelLevel * 50.0)
    ensures LowFuel(laps) in Analyze(t) && t.fuelLevel >= 0.0 ==> 0 <= laps <= 7
  {
    MemberOfAnalyze(t, LowFuel(laps));
  }

  /** The overlap needs both pedals strictly above 0.2. */
  lemma PedalOverlapIff(t: UnifiedTelemetry)
    ensures PedalOverlap in Analyze(t) <==> t.throttle > 0.2 && t.brake > 0.2
  {
    MemberOfAnalyze(t, PedalOverlap);
  }

  /** The shift message needs the rpm strictly above 95% of the maximum. */
  lemma ShiftUpIff(t: UnifiedTelemetry)
    ensures ShiftUp in Analyze(t) <==> t.rpm as real > t.maxRpm as real * 0.95
  {
    MemberOfAnalyze(t, ShiftUp);
  }

  /** The lateral message carries the magnitude, strictly above 2.5 g, of either sign. */
  lemma HighLateralGIff(t: UnifiedTelemetry, g: real)
    ensures HighLateralG(g) in Analyze(t) <==> Abs(t.gForceLateral) > 2.5 && g == Abs(t.gForceLateral)
  {
    MemberOfAnalyze(t, HighLateralG(g));
  }

  /** The delta message needs a best lap, a running lap and a delta of more than half a second; "+" marks a positive delta. */
  lemma LapDeltaIff(t: UnifiedTelemetry, sign: string, delta: real)
    ensures LapDelta(sign, delta) in Analyze(t) <==>
      && t.bestLapTime < 999.0 && t.lapTime > 0.0
      && delta == LapDeltaOf(t) && Abs(delta) > 0.5
      && sign == (if delta > 0.0 then "+" else "")
  {
    MemberOfAnalyze(t, LapDelta(sign, delta));
    assert RuleOutput(7, t) == DeltaRule(t);
    var d := LapDeltaOf(t);
    if t.bestLapTime < 999.0 && t.lapTime > 0.0 && Abs(d) > 0.5 {
      assert DeltaRule(t) == [LapDelta(if d > 0.0 then "+" else "", d)];
    } else {
      assert DeltaRule(t) == [];
    }
  }

  // Worked cases of the thresholds.

  lemma LowFuelTenPercent(t: UnifiedTelemetry)
    requires t.fuelLevel == 0.10
    ensures LowFuel(5) in Analyze(t)
  {
    LowFuelIff(t, 5);
  }

  lemma ShiftBoundary(t: UnifiedTelemetry)
    requires t.maxRpm == 10000
    ensures t.rpm == 9500 ==> ShiftUp !in Analyze(t)
    ensures t.rpm == 9501 ==> ShiftUp in Analyze(t)
  {
    ShiftUpIff(t);
  }

  lemma OverlapExamples(t: UnifiedTelemetry)
    ensures t.throttle == 0.5 && t.brake == 0.3 ==> PedalOverlap in Analyze(t)
    ensures t.throttle == 0.2 && t.brake == 0.2 ==> PedalOverlap !in Analyze(t)
  {
    PedalOverlapIff(t);
  }

  /** Tyres at 110, 108, 106, 107: overheated, but a spread of 4 is no imbalance. */
  lemma HotEvenTires(t: UnifiedTelemetry)
    requires t.tireTempFL == 110.0 && t.tireTempFR == 108.0 && t.tireTempRL == 106.0 && t.tireTempRR == 107.0
    ensures TireOverheat in Analyze(t)
    ensures forall m :: m in Analyze(t) ==> !m.TireImbalance?
  {
    TireOverheatIff(t);
    assert TireSpread(t) == 4.0;
    forall m | m in Analyze(t)
      ensures !m.TireImbalance?
    {
      if m.TireImbalance? {
        TireImbalanceIff(t, m.spread);
      }
    }
  }
}
