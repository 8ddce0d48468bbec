/** The detection scores of `compute_metrics`: precision, recall and F1,
    each with a small epsilon added to its denominator. */
module DetectionScores {
  import opened Reals

  /** `epsilon = 1e-9`, as an exact real. */
  const Epsilon: real := 0.000000001

  /** A quotient with a smaller non-negative numerator lies in [0, 1). */
  lemma QuotientBelowOne(a: real, d: real)
    requires 0.0 <= a < d
    ensures 0.0 <= a / d < 1.0
    ensures a / d == 0.0 <==> a == 0.0
  {
    var q := a / d;
    assert q * d == a;
    FactorBelowOne(q, a, d);
  }

  lemma FactorBelowOne(q: real, a: real, d: real)
    requires d > 0.0 && q * d == a && a < d
    ensures q < 1.0
  {
    assert (1.0 - q) * d == d - a;
  }

  /** `hits / (hits + misses + epsilon)`: precision with the false
      positives as misses, recall with the false negatives. It always lies
      in [0, 1) and is 0 exactly when there are no hits. */
  function SmoothedRatio(hits: nat, misses: nat): (q: real)
    ensures 0.0 <= q < 1.0
    ensures q == 0.0 <==> hits == 0
  {
    var d := (hits + misses) as real + Epsilon;
    QuotientBelowOne(hits as real, d);
    (hits as real) / d
  }

  /** For p and r in [0, 1), 2pr lies below p + r + epsilon and is 0
      exactly when p or r is. */
  lemma HarmonicBelow(p: real, r: real)
    requires 0.0 <= p < 1.0 && 0.0 <= r < 1.0
    ensures 0.0 <= 2.0 * (p * r) < p + r + Epsilon
    ensures 2.0 * (p * r) == 0.0 <==> p == 0.0 || r == 0.0
  {
    MulNonNegative(p, r);
    MulNonNegative(p, 1.0 - r);
    MulNonNegative(1.0 - p, r);
    var m := p * r;
    assert m <= p && m <= r;
    if p > 0.0 && r > 0.0 {
      MulPositive(p, r);
    }
  }

  /** `2 * (precision * recall) / (precision + recall + epsilon)`. For
      precision and recall in [0, 1) it lies in [0, 1), and it is 0
      exactly when one of them is. */
  function F1(precision: real, recall: real): (f: real)
    requires 0.0 <= precision < 1.0 && 0.0 <= recall < 1.0
    ensures 0.0 <= f < 1.0
    ensures f == 0.0 <==> precision == 0.0 || recall == 0.0
  {
    HarmonicBelow(precision, recall);
    QuotientBelowOne(2.0 * (precision * recall), precision + recall + Epsilon);
    2.0 * (precision * recall) / (precision + recall + Epsilon)
  }

  lemma NonNegativeQuotient(a: real, d: real)
    requires 0.0 <= a && 0.0 < d
    ensures 0.0 <= a / d
  {
    var q := a / d;
    assert q * d == a;
    if q < 0.0 {
      MulPositive(-q, d);
    }
  }

  /** `100 * (expected - actual) / (expected + epsilon)`; `None` when the
      denominator is 0 (numpy's inf or NaN). Equal totals lose nothing, and
      a shortfall against a positive expectation is a non-negative loss. */
  function LossPercent(expected: real, actual: real): (e: Option<real>)
    ensures e == None <==> expected + Epsilon == 0.0
    ensures actual == expected && e.Some? ==> e.value == 0.0
    ensures expected > 0.0 && actual <= expected ==> e.Some? && e.value >= 0.0
  {
    var denominator := expected + Epsilon;
    if denominator == 0.0 then None
    else
      var shortfall := 100.0 * (expected - actual);
      if expected > 0.0 && actual <= expected then
        NonNegativeQuotient(shortfall, denominator);
        Some(shortfall / denominator)
      else Some(shortfall / denominator)
  }

  /** n copies of a non-negative c, expected and delivered, lose nothing. */
  lemma SteadyLoss(expected: real, actual: real, n: real, c: real)
    requires expected == n * c && actual == n * c
    requires n >= 0.0 && c >= 0.0
    ensures LossPercent(expected, actual) == Some(0.0)
  {
    MulNonNegative(n, c);
  }
}

/** `compute_metrics` over the records of one trial. */
module Analyze {
  import opened Reals
  import opened DetectionScores
  import opened Simulation

  /** `df[df['timestep'] >= attack_start]`: each attack-period row as often
      as it occurs in the log, and no other row. */
  function AttackRows(log: seq<LogRecord>, attackStart: int): (r: seq<LogRecord>)
    ensures |r| <= |log|
    ensures forall x :: x in r <==> x in log && x.timestep >= attackStart
    ensures forall x :: multiset(r)[x] == if x.timestep >= attackStart then multiset(log)[x] else 0
  {
    if log == [] then []
    else
      var prefix := log[..|log| - 1];
      var last := log[|log| - 1];
      var rest := AttackRows(prefix, attackStart);
      assert log == prefix + [last];
      if last.timestep >= attackStart then rest + [last] else rest
  }

  /** `df[df['timestep'] < attack_start]`: each pre-attack row as often as
      it occurs in the log, and no other row. */
  function CalmRows(log: seq<LogRecord>, attackStart: int): (r: seq<LogRecord>)
    ensures |r| <= |log|
    ensures forall x :: x in r <==> x in log && x.timestep < attackStart
    ensures forall x :: multiset(r)[x] == if x.timestep < attackStart then multiset(log)[x] else 0
  {
    if log == [] then []
    else
      var prefix := log[..|log| - 1];
      var last := log[|log| - 1];
      var rest := CalmRows(prefix, attackStart);
      assert log == prefix + [last];
      if last.timestep < attackStart then rest + [last] else rest
  }

  /** Every row is in exactly one of the two periods. */
  lemma {:induction false} PeriodsPartition(log: seq<LogRecord>, attackStart: int)
    ensures |AttackRows(log, attackStart)| + |CalmRows(log, attackStart)| == |log|
  {
    if log != [] {
      PeriodsPartition(log[..|log| - 1], attackStart);
    }
  }

  /** The positions of the detected rows. */
  ghost function DetectedIndices(rows: seq<LogRecord>): set<int>
  {
    set i | 0 <= i < |rows| && rows[i].detection
  }

  /** Peeling the last row off adds its position when it is a detection. */
  lemma DetectedIndicesStep(rows: seq<LogRecord>)
    requires rows != []
    ensures var last := |rows| - 1;
            |DetectedIndices(rows)|
              == |DetectedIndices(rows[..last])| + (if rows[last].detection then 1 else 0)
  {
    var last := |rows| - 1;
    var prefix := rows[..last];
    if rows[last].detection {
      assert DetectedIndices(rows) == DetectedIndices(prefix) + {last};
    } else {
      assert DetectedIndices(rows) == DetectedIndices(prefix);
    }
  }

  /** `rows['detection'].sum()`: the number of detected rows. */
  function CountDetected(rows: seq<LogRecord>): (n: nat)
    ensures n == |DetectedIndices(rows)|
    ensures n <= |rows|
    ensures n == 0 <==> forall i :: 0 <= i < |rows| ==> !rows[i].detection
    ensures n == |rows| <==> forall i :: 0 <= i < |rows| ==> rows[i].detection
  {
    if rows == [] then 0
    else
      var prefix := rows[..|rows| - 1];
      var rest := CountDetected(prefix);
      DetectedIndicesStep(rows);
      assert forall i :: 0 <= i < |prefix| ==> rows[i] == prefix[i];
      rest + (if rows[|rows| - 1].detection then 1 else 0)
  }

  /** The positions of the log's attack-period rows. */
  ghost function AttackIndices(log: seq<LogRecord>, attackStart: int): set<int>
  {
    set i | 0 <= i < |log| && log[i].timestep >= attackStart
  }

  /** The positions of the log's detected attack-period rows. */
  ghost function HitIndices(log: seq<LogRecord>, attackStart: int): set<int>
  {
    set i | 0 <= i < |log| && log[i].timestep >= attackStart && log[i].detection
  }

  /** The positions of the log's detected pre-attack rows. */
  ghost function FalseAlarmIndices(log: seq<LogRecord>, attackStart: int): set<int>
  {
    set i | 0 <= i < |log| && log[i].timestep < attackStart && log[i].detection
  }

  /** Growing the log by one row adds that row's position to the attack
      positions when it is an attack-period row. */
  lemma AttackIndicesStep(log: seq<LogRecord>, attackStart: int)
    requires log != []
    ensures var k := |log| - 1;
            |AttackIndices(log, attackStart)|
              == |AttackIndices(log[..k], attackStart)| + (if log[k].timestep >= attackStart then 1 else 0)
  {
    var k := |log| - 1;
    if log[k].timestep >= attackStart {
      assert AttackIndices(log, attackStart) == AttackIndices(log[..k], attackStart) + {k};
    } else {
      assert AttackIndices(log, attackStart) == AttackIndices(log[..k], attackStart);
    }
  }

  /** ... and to the hit positions when it is a detected attack-period row. */
  lemma HitIndicesStep(log: seq<LogRecord>, attackStart: int)
    requires log != []
    ensures var k := |log| - 1;
            |HitIndices(log, attackStart)|
              == |HitIndices(log[..k], attackStart)|
                 + (if log[k].timestep >= attackStart && log[k].detection then 1 else 0)
  {
    var k := |log| - 1;
    if log[k].timestep >= attackStart && log[k].detection {
      assert HitIndices(log, attackStart) == HitIndices(log[..k], attackStart) + {k};
    } else {
      assert HitIndices(log, attackStart) == HitIndices(log[..k], attackStart);
    }
  }

  /** ... and to the false-alarm positions when it is a detected pre-attack row. */
  lemma FalseAlarmIndicesStep(log: seq<LogRecord>, attackStart: int)
    requires log != []
    ensures var k := |log| - 1;
            |FalseAlarmIndices(log, attackStart)|
              == |FalseAlarmIndices(log[..k], attackStart)|
                 + (if log[k].timestep < attackStart && log[k].detection then 1 else 0)
  {
    var k := |log| - 1;
    if log[k].timestep < attackStart && log[k].detection {
      assert FalseAlarmIndices(log, attackStart) == FalseAlarmIndices(log[..k], attackStart) + {k};
    } else {
      assert FalseAlarmIndices(log, attackStart) == FalseAlarmIndices(log[..k], attackStart);
    }
  }

  /** The period sizes and detection counts are the numbers of log
      positions with the matching timestep and detection flag. */
  lemma {:induction false} PeriodCounts(log: seq<LogRecord>, attackStart: int)
    ensures |AttackRows(log, attackStart)| == |AttackIndices(log, attackStart)|
    ensures CountDetected(AttackRows(log, attackStart)) == |HitIndices(log, attackStart)|
    ensures CountDetected(CalmRows(log, attackStart)) == |FalseAlarmIndices(log, attackStart)|
  {
    if log != [] {
      var k := |log| - 1;
      var prefix := log[..k];
      var x := log[k];
      PeriodCounts(prefix, attackStart);
      AttackIndicesStep(log, attackStart);
      HitIndicesStep(log, attackStart);
      FalseAlarmIndicesStep(log, attackStart);
      var attack := AttackRows(prefix, attackStart);
      var calm := CalmRows(prefix, attackStart);
      if x.timestep >= attackStart {
        assert (attack + [x])[..|attack|] == attack;
        assert CountDetected(attack + [x]) == CountDetected(attack) + (if x.detection then 1 else 0);
      } else {
        assert (calm + [x])[..|calm|] == calm;
        assert CountDetected(calm + [x]) == CountDetected(calm) + (if x.detection then 1 else 0);
      }
    }
  }

  /** Detected attack-period rows. */
  function TruePositives(log: seq<LogRecord>, attackStart: int): (n: nat)
    ensures n == |HitIndices(log, attackStart)|
  {
    PeriodCounts(log, attackStart);
    CountDetected(AttackRows(log, attackStart))
  }

  /** Undetected attack-period rows. */
  function FalseNegatives(log: seq<LogRecord>, attackStart: int): (n: nat)
    ensures TruePositives(log, attackStart) + n == |AttackRows(log, attackStart)|
    ensures n == |AttackIndices(log, attackStart)| - |HitIndices(log, attackStart)|
  {
    PeriodCounts(log, attackStart);
    |AttackRows(log, attackStart)| - TruePositives(log, attackStart)
  }

  /** Detected rows before the attack start. */
  function FalsePositives(log: seq<LogRecord>, attackStart: int): (n: nat)
    ensures n <= |CalmRows(log, attackStart)|
    ensures n == |FalseAlarmIndices(log, attackStart)|
  {
    PeriodCounts(log, attackStart);
    CountDetected(CalmRows(log, attackStart))
  }

  /** The timesteps of the detected rows (`df[df['detection']]['timestep']`). */
  function DetectedSteps(log: seq<LogRecord>): (r: seq<int>)
    ensures forall x :: x in r ==> exists i :: 0 <= i < |log| && log[i].detection && log[i].timestep == x
    ensures forall i :: 0 <= i < |log| && log[i].detection ==> log[i].timestep in r
  {
    if log == [] then []
    else
      var rest := DetectedSteps(log[1..]);
      assert forall i :: 1 <= i < |log| ==> log[i] == log[1..][i - 1];
      assert forall i :: 0 <= i < |log| - 1 ==> log[1..][i] == log[i + 1];
      if log[0].detection then [log[0].timestep] + rest else rest
  }

  function MinStep(s: seq<int>): (m: int)
    requires |s| > 0
    ensures m in s && forall x :: x in s ==> m <= x
  {
    if |s| == 1 then s[0]
    else
      var rest := MinStep(s[1..]);
      assert s == [s[0]] + s[1..];
      if s[0] <= rest then s[0] else rest
  }

  /** `time_to_detect`: the first detected timestep minus the attack start,
      or NaN (`None`) when nothing was detected or the first detection came
      before the attack start. */
  function TimeToDetect(log: seq<LogRecord>, attackStart: int): (r: Option<int>)
    ensures r.Some? <==>
              && (exists i :: 0 <= i < |log| && log[i].detection)
              && (forall i :: 0 <= i < |log| && log[i].detection ==> log[i].timestep >= attackStart)
    ensures r.Some? ==>
              && r.value >= 0
              && (exists i :: 0 <= i < |log| && log[i].detection && log[i].timestep == attackStart + r.value)
              && (forall i :: 0 <= i < |log| && log[i].detection ==> log[i].timestep >= attackStart + r.value)
  {
    var steps := DetectedSteps(log);
    if |steps| == 0 then None
    else
      var first := MinStep(steps);
      if first >= attackStart then Some(first - attackStart) else None
  }

  /** A detection at the attack start with none before it gives a time to
      detect of 0, and that row belongs to the attack period. */
  lemma DetectionAtStart(log: seq<LogRecord>, attackStart: int, k: int)
    requires 0 <= k < |log| && log[k].timestep == attackStart && log[k].detection
    requires forall i :: 0 <= i < |log| && log[i].detection ==> log[i].timestep >= attackStart
    ensures AttackRows(log, attackStart) != []
    ensures TimeToDetect(log, attackStart) == Some(0)
  {
    assert log[k] in AttackRows(log, attackStart) by {
      assert log[k] in log;
    }
    FirstDetectionAtStart(log, attackStart, k);
  }

  lemma FirstDetectionAtStart(log: seq<LogRecord>, attackStart: int, k: int)
    requires 0 <= k < |log| && log[k].timestep == attackStart && log[k].detection
    requires forall i :: 0 <= i < |log| && log[i].detection ==> log[i].timestep >= attackStart
    ensures TimeToDetect(log, attackStart) == Some(0)
  {
    var r := TimeToDetect(log, attackStart);
    assert r.Some?;
    assert log[k].timestep >= attackStart + r.value;
  }

  function Stresses(rows: seq<LogRecord>): (s: seq<real>)
    ensures |s| == |rows| && forall i :: 0 <= i < |rows| ==> s[i] == rows[i].stress
  {
    seq(|rows|, i requires 0 <= i < |rows| => rows[i].stress)
  }

  function Powers(rows: seq<LogRecord>): (s: seq<real>)
    ensures |s| == |rows| && forall i :: 0 <= i < |rows| ==> s[i] == rows[i].power
  {
    seq(|rows|, i requires 0 <= i < |rows| => rows[i].power)
  }

  /** `peak_stress_attack`: the largest stress of an attack-period row, or
      0 when there is none. */
  function PeakStress(log: seq<LogRecord>, attackStart: int): (p: real)
    ensures var rows := AttackRows(log, attackStart);
            && (rows == [] ==> p == 0.0)
            && (rows != [] ==>
                  && (exists i :: 0 <= i < |rows| && rows[i].stress == p)
                  && forall i :: 0 <= i < |rows| ==> rows[i].stress <= p)
  {
    var rows := AttackRows(log, attackStart);
    if rows == [] then 0.0 else Max(Stresses(rows))
  }

  /** `no_attack_period_df['power'].mean()`. */
  function MeanPower(rows: seq<LogRecord>): real
    requires rows != []
  {
    Sum(Powers(rows)) / (|rows| as real)
  }

  /** `expected_energy`: the pre-attack mean power extended over n steps. */
  function ExpectedEnergy(calm: seq<LogRecord>, n: nat): real
    requires calm != []
  {
    MeanPower(calm) * (n as real)
  }

  /** `energy_loss_percent`: the shortfall of the total power against the
      expected energy. With no pre-attack row the mean is NaN and so is the
      loss (`None`). */
  function EnergyLoss(log: seq<LogRecord>, attackStart: int): (e: Option<real>)
    ensures CalmRows(log, attackStart) == [] ==> e == None
  {
    var calm := CalmRows(log, attackStart);
    if calm == [] then None
    else LossPercent(ExpectedEnergy(calm, |log|), Sum(Powers(log)))
  }

  /** The sum of n copies of c. */
  lemma {:induction false} SumOfConstant(s: seq<real>, c: real)
    requires forall i :: 0 <= i < |s| ==> s[i] == c
    ensures Sum(s) == (|s| as real) * c
  {
    if s != [] {
      assert forall i :: 0 <= i < |s| - 1 ==> s[1..][i] == s[i + 1];
      SumOfConstant(s[1..], c);
      ScaleStep(|s| - 1, c);
    }
  }

  /** Rows that all produced power c have a total power of c per row. */
  lemma SteadyTotalPower(rows: seq<LogRecord>, c: real)
    requires forall i :: 0 <= i < |rows| ==> rows[i].power == c
    ensures Sum(Powers(rows)) == (|rows| as real) * c
  {
    var s := Powers(rows);
    SumOfConstant(s, c);
    assert |s| == |rows|;
  }

  /** Rows that all produced power c have mean power c, so the expected
      energy over n steps is n copies of c. */
  lemma SteadyExpectedEnergy(calm: seq<LogRecord>, n: nat, c: real)
    requires calm != []
    requires forall i :: 0 <= i < |calm| ==> calm[i].power == c
    ensures MeanPower(calm) == c
    ensures ExpectedEnergy(calm, n) == (n as real) * c
  {
    SteadyTotalPower(calm, c);
    MeanOfMultiple(Sum(Powers(calm)), |calm|, c);
  }

  /** If there are pre-attack rows and every row produced the same
      non-negative power, nothing is lost. */
  lemma SteadyPowerLosesNothing(log: seq<LogRecord>, attackStart: int, c: real)
    requires CalmRows(log, attackStart) != []
    requires c >= 0.0
    requires forall i :: 0 <= i < |log| ==> log[i].power == c
    ensures EnergyLoss(log, attackStart) == Some(0.0)
  {
    var calm := CalmRows(log, attackStart);
    forall i | 0 <= i < |calm| ensures calm[i].power == c {
      assert calm[i] in log;
    }
    SteadyRowsLoseNothing(calm, log, c);
  }

  /** The arithmetic of the previous lemma, for any non-empty choice of
      steady pre-attack rows. */
  lemma SteadyRowsLoseNothing(calm: seq<LogRecord>, log: seq<LogRecord>, c: real)
    requires calm != [] && c >= 0.0
    requires forall i :: 0 <= i < |calm| ==> calm[i].power == c
    requires forall i :: 0 <= i < |log| ==> log[i].power == c
    ensures LossPercent(ExpectedEnergy(calm, |log|), Sum(Powers(log))) == Some(0.0)
  {
    SteadyExpectedEnergy(calm, |log|, c);
    SteadyTotalPower(log, c);
    SteadyLoss(ExpectedEnergy(calm, |log|), Sum(Powers(log)), |log| as real, c);
  }

  datatype Metrics = Metrics(precision: real, recall: real, f1Score: real,
                             timeToDetect: Option<int>, peakStressAttack: real,
                             energyLossPercent: Option<real>)

  /** `compute_metrics(df, attack_start)`. */
  function ComputeMetrics(log: seq<LogRecord>, attackStart: int): (m: Metrics)
    ensures 0.0 <= m.precision < 1.0 && 0.0 <= m.recall < 1.0 && 0.0 <= m.f1Score < 1.0
    ensures TruePositives(log, attackStart) == 0 <==> m.precision == 0.0
    ensures TruePositives(log, attackStart) == 0 <==> m.recall == 0.0
    ensures TruePositives(log, attackStart) == 0 <==> m.f1Score == 0.0
  {
    var tp := TruePositives(log, attackStart);
    var precision := SmoothedRatio(tp, FalsePositives(log, attackStart));
    var recall := SmoothedRatio(tp, FalseNegatives(log, attackStart));
    Metrics(precision, recall, F1(precision, recall), TimeToDetect(log, attackStart),
            PeakStress(log, attackStart), EnergyLoss(log, attackStart))
  }
}
