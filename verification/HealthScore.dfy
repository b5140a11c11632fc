/**
 * The health score computed from the id -> raw attribute map: five integer
 * sub-scores on a 1..10 scale, a final score that is the worst critical
 * sub-score when one is below 5 and the mean of all five otherwise, and a
 * rank S / A / B / C.
 */
module HealthScore {
  import opened Bytes
  import opened SmartTable

  const ReallocatedSectors: byte := 5
  const PowerOnHours: byte := 9
  const AirflowTemperature: byte := 190
  const Temperature: byte := 194
  const PendingSectors: byte := 197
  const UncorrectableSectors: byte := 198

  datatype Rank = S | A | B | C

  datatype SubScores = SubScores(reallocated: int, pending: int, uncorrectable: int, temperature: int, hours: int)

  datatype HealthReport = HealthReport(scores: SubScores, finalScore: real, rank: Rank)

  /** A missing attribute reads as raw 0. */
  function RawOf(m: map<byte, nat>, id: byte): nat {
    if id in m then m[id] else 0
  }

  /** 10 with no reallocated sectors, 5 with fewer than 10, 1 otherwise. */
  function ReallocatedScore(raw: nat): (s: int)
    ensures 1 <= s <= 10
    ensures s == 10 <==> raw == 0
  {
    if raw == 0 then 10 else if raw < 10 then 5 else 1
  }

  /** Pending and uncorrectable sectors: 10 for none, 1 for any. */
  function SectorScore(raw: nat): (s: int)
    ensures s == 1 || s == 10
    ensures s == 10 <==> raw == 0
  {
    if raw == 0 then 10 else 1
  }

  /** The temperature reading: the low byte of 194's raw value, or of 190's, or 0. */
  function TemperatureOf(m: map<byte, nat>): (t: nat)
    ensures t < 256
    ensures Temperature in m ==> t == m[Temperature] % 256
    ensures Temperature !in m && AirflowTemperature in m ==> t == m[AirflowTemperature] % 256
    ensures Temperature !in m && AirflowTemperature !in m ==> t == 0
  {
    var raw := if Temperature in m then m[Temperature]
               else if AirflowTemperature in m then m[AirflowTemperature]
               else 0;
    raw % 256
  }

  /** 0 (no reading) or below 45 degrees: 10; below 55: 8; below 60: 5; else 2. */
  function TemperatureScore(t: nat): (s: int)
    ensures 2 <= s <= 10
  {
    if t == 0 then 10
    else if t < 45 then 10
    else if t < 55 then 8
    else if t < 60 then 5
    else 2
  }

  /** 10 below 10000 power-on hours, one point less per further 10000, down to 5. */
  function HoursScore(hours: nat): (s: int)
    ensures 5 <= s <= 10
  {
    if hours < 10000 then 10
    else if hours < 20000 then 9
    else if hours < 30000 then 8
    else if hours < 40000 then 7
    else if hours < 50000 then 6
    else 5
  }

  /**
   * The five sub-scores of a map: reallocated from id 5, pending from 197,
   * uncorrectable from 198, temperature from 194 (or 190), hours from 9.
   */
  function ScoreAttributes(m: map<byte, nat>): (s: SubScores)
    ensures InRange(s)
    ensures s.reallocated == 10 <==> ReallocatedSectors !in m || m[ReallocatedSectors] == 0
    ensures s.pending == 10 <==> PendingSectors !in m || m[PendingSectors] == 0
    ensures s.uncorrectable == 10 <==> UncorrectableSectors !in m || m[UncorrectableSectors] == 0
    ensures s.temperature == 10 <==>
      if Temperature in m then m[Temperature] % 256 < 45
      else AirflowTemperature !in m || m[AirflowTemperature] % 256 < 45
    ensures s.hours == 10 <==> PowerOnHours !in m || m[PowerOnHours] < 10000
  {
    SubScores(ReallocatedScore(RawOf(m, ReallocatedSectors)),
              SectorScore(RawOf(m, PendingSectors)),
              SectorScore(RawOf(m, UncorrectableSectors)),
              TemperatureScore(TemperatureOf(m)),
              HoursScore(RawOf(m, PowerOnHours)))
  }

  predicate InRange(s: SubScores) {
    && 1 <= s.reallocated <= 10 && 1 <= s.pending <= 10 && 1 <= s.uncorrectable <= 10
    && 1 <= s.temperature <= 10 && 1 <= s.hours <= 10
  }

  function Min3(a: int, b: int, c: int): (r: int)
    ensures r <= a && r <= b && r <= c
    ensures r == a || r == b || r == c
  {
    if a <= b && a <= c then a else if b <= c then b else c
  }

  /** The worst of the three critical sub-scores (reallocated, pending, uncorrectable). */
  function CriticalMin(s: SubScores): int {
    Min3(s.reallocated, s.pending, s.uncorrectable)
  }

  function Mean(s: SubScores): real {
    (s.reallocated + s.pending + s.uncorrectable + s.temperature + s.hours) as real / 5.0
  }

  /** The critical minimum when it is below 5, otherwise the mean of the five. */
  function FinalScore(s: SubScores): (f: real)
    requires InRange(s)
    ensures 1.0 <= f <= 10.0
    ensures CriticalMin(s) < 5 ==> f == CriticalMin(s) as real
    ensures CriticalMin(s) >= 5 ==> f * 5.0 == (s.reallocated + s.pending + s.uncorrectable + s.temperature + s.hours) as real
  {
    if CriticalMin(s) < 5 then CriticalMin(s) as real else Mean(s)
  }

  /** Lower bounds of the bands, inclusive. */
  function RankOf(f: real): (r: Rank)
    ensures r == S <==> f >= 9.0
    ensures r == A <==> 7.0 <= f < 9.0
    ensures r == B <==> 5.0 <= f < 7.0
    ensures r == C <==> f < 5.0
  {
    if f >= 9.0 then S else if f >= 7.0 then A else if f >= 5.0 then B else C
  }

  function Analyze(m: map<byte, nat>): (report: HealthReport)
    ensures InRange(report.scores)
    ensures 1.0 <= report.finalScore <= 10.0
    ensures report.rank == RankOf(report.finalScore)
  {
    var s := ScoreAttributes(m);
    HealthReport(s, FinalScore(s), RankOf(FinalScore(s)))
  }

  /** An attribute that is missing scores as if it were present with raw 0, for every id but 194. */
  lemma MissingAttributeReadsAsZero(m: map<byte, nat>, id: byte)
    requires id !in m && id != Temperature
    ensures ScoreAttributes(m) == ScoreAttributes(m[id := 0])
  {
  }

  /**
   * For id 194 that rule fails: a missing 194 falls back to 190, while a
   * present 194 with raw 0 reads as no temperature at all.
   */
  lemma MissingTemperatureFallsBack()
    ensures var m := map[AirflowTemperature := 60];
      ScoreAttributes(m).temperature == 2 && ScoreAttributes(m[Temperature := 0]).temperature == 10
  {
  }

  /** More damage, heat or wear never scores better. */
  lemma SubScoresMonotone(x: nat, y: nat)
    requires x <= y
    ensures ReallocatedScore(x) >= ReallocatedScore(y)
    ensures SectorScore(x) >= SectorScore(y)
    ensures TemperatureScore(x) >= TemperatureScore(y)
    ensures HoursScore(x) >= HoursScore(y)
  {
  }

  /**
   * With no critical sub-score below 5, the reallocated score is at least 5,
   * pending and uncorrectable are 10, temperature at least 2 and hours at
   * least 5, so the mean is at least 32 / 5.
   */
  lemma HealthyMeanBound(m: map<byte, nat>)
    requires CriticalMin(ScoreAttributes(m)) >= 5
    ensures Analyze(m).finalScore >= 32.0 / 5.0
    ensures Analyze(m).rank != C
  {
  }

  /**
   * Rank C happens exactly when a critical attribute reports damage: any
   * pending or uncorrectable sector, or 10 or more reallocated sectors.
   */
  lemma RankCExactlyOnDamage(m: map<byte, nat>)
    ensures Analyze(m).rank == C <==>
      RawOf(m, PendingSectors) != 0 || RawOf(m, UncorrectableSectors) != 0 || RawOf(m, ReallocatedSectors) >= 10
  {
  }

  /** Composite examples: all perfect, one critical failure, a blended mean. */
  lemma CompositeExamples()
    ensures FinalScore(SubScores(10, 10, 10, 10, 10)) == 10.0 && RankOf(10.0) == S
    ensures FinalScore(SubScores(1, 10, 10, 10, 10)) == 1.0 && RankOf(1.0) == C
    ensures FinalScore(SubScores(5, 10, 10, 8, 9)) == 8.4 && RankOf(8.4) == A
  {
  }

  /** Sub-score values at each band boundary. */
  lemma ThresholdExamples()
    ensures ReallocatedScore(0) == 10 && ReallocatedScore(7) == 5 && ReallocatedScore(250) == 1
    ensures SectorScore(0) == 10 && SectorScore(1) == 1
    ensures TemperatureScore(44) == 10 && TemperatureScore(45) == 8 && TemperatureScore(54) == 8
    ensures TemperatureScore(55) == 5 && TemperatureScore(59) == 5 && TemperatureScore(60) == 2
    ensures TemperatureScore(0) == 10
    ensures HoursScore(9999) == 10 && HoursScore(10000) == 9 && HoursScore(49999) == 6 && HoursScore(50000) == 5
  {
  }

  /**
   * The scoring part of `analyzeAndShowScore`: scan the table into the
   * attribute map, then score it. A table with any pending or uncorrectable
   * sector, or 10 or more reallocated ones, ranks C, and only such a table.
   */
  method AnalyzeSmartData(data: seq<byte>) returns (report: HealthReport)
    ensures report == Analyze(AttributeMap(Slots(data)))
    ensures report.rank == C <==>
      var m := AttributeMap(Slots(data));
      RawOf(m, PendingSectors) != 0 || RawOf(m, UncorrectableSectors) != 0 || RawOf(m, ReallocatedSectors) >= 10
  {
    var attrMap := BuildAttributeMap(data);
    RankCExactlyOnDamage(attrMap);
    report := Analyze(attrMap);
  }
}
