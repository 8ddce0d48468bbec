/** What `compute_metrics` reports about a log that `run_simulation`
    produced, under the hypothesis that the optimiser stays inside its
    (-30, 30) bounds: the threshold detector then fires exactly at the
    attack steps, so an attacked trial scores perfect detection and a
    baseline trial scores none. */
module EndToEnd {
  import opened Reals
  import opened CvarMpc
  import opened Simulation
  import opened Analyze

  /** A two-turbine farm whose optimiser returns the zero yaw vector: it
      meets every hypothesis of the lemmas below, for an attacked run. */
  function ZeroFarm(): Farm
  {
    Farm(2, ZeroSearch(), _ => 0.0, _ => "0", _ => "0")
  }

  /** The hypotheses `Setup` and `RespectsBounds` can be met together. */
  lemma ZeroFarmMeetsHypotheses()
    ensures var args := Args(0, Cares, 400, 200, 0.95, 100000.0, 500000.0);
            && Setup(args, ZeroFarm())
            && RespectsBounds(ZeroFarm().minimize)
            && args.scenario != Baseline
            && 0 <= args.attackStart < args.timesteps
  {
    ZeroSearchRespectsBounds();
    assert forall x :: CognitiveAgent.NumericText(ZeroFarm().formatPower(x));
    assert forall x :: CognitiveAgent.NumericText(ZeroFarm().formatStress(x));
  }

  /** Every row of the trial's log is the record of the step it names. */
  lemma LogMembers(args: Args, farm: Farm)
    requires Setup(args, farm)
    ensures var log := SimulationLog(args, farm);
            forall x :: x in log ==>
              0 <= x.timestep < Steps(args) && x == RecordAt(args, farm, x.timestep)
  {
    LogShape(args, farm);
    var log := SimulationLog(args, farm);
    forall x | x in log
      ensures 0 <= x.timestep < Steps(args) && x == RecordAt(args, farm, x.timestep)
    {
      var k :| 0 <= k < |log| && log[k] == x;
    }
  }

  /** With the optimiser inside its bounds, a row is a detection exactly
      when the attack was overriding the yaws at that step, and a row the
      attack did not touch has a stress of at most 30 per turbine. */
  lemma DetectionPattern(args: Args, farm: Farm)
    requires Setup(args, farm) && RespectsBounds(farm.minimize)
    ensures var log := SimulationLog(args, farm);
            forall x :: x in log ==>
              && (x.detection <==> Injecting(args, x.timestep))
              && (!Injecting(args, x.timestep) ==> x.stress <= (farm.turbines as real) * YawUpper)
  {
    LogMembers(args, farm);
    var log := SimulationLog(args, farm);
    forall x | x in log
      ensures x.detection <==> Injecting(args, x.timestep)
      ensures !Injecting(args, x.timestep) ==> x.stress <= (farm.turbines as real) * YawUpper
    {
      var k: nat := x.timestep;
      if Injecting(args, k) {
        PersistentDetection(args, farm, k);
      } else {
        NoFalseAlarm(args, farm, k);
      }
    }
  }

  /** With the optimiser inside its bounds no scenario raises a false
      positive: a pre-attack row is never a detection. */
  lemma NoFalsePositives(args: Args, farm: Farm)
    requires Setup(args, farm) && RespectsBounds(farm.minimize)
    ensures FalsePositives(SimulationLog(args, farm), args.attackStart) == 0
  {
    var log := SimulationLog(args, farm);
    DetectionPattern(args, farm);
    var calm := CalmRows(log, args.attackStart);
    forall i | 0 <= i < |calm| ensures !calm[i].detection {
      assert calm[i] in calm;
    }
  }

  /** Under attack every attack-period row is a detection, wherever the
      optimiser puts the yaws: the override alone exceeds the threshold. */
  lemma NoFalseNegatives(args: Args, farm: Farm)
    requires Setup(args, farm)
    requires args.scenario != Baseline
    ensures var log := SimulationLog(args, farm);
            && TruePositives(log, args.attackStart) == |AttackRows(log, args.attackStart)|
            && FalseNegatives(log, args.attackStart) == 0
  {
    var log := SimulationLog(args, farm);
    LogMembers(args, farm);
    var attack := AttackRows(log, args.attackStart);
    forall i | 0 <= i < |attack| ensures attack[i].detection {
      assert attack[i] in attack;
      var k: nat := attack[i].timestep;
      PersistentDetection(args, farm, k);
    }
  }

  /** Under an attack that starts inside the run, the row of the attack
      step is a detection and no earlier row is. */
  lemma OnsetRow(args: Args, farm: Farm)
    requires Setup(args, farm) && RespectsBounds(farm.minimize)
    requires args.scenario != Baseline
    requires 0 <= args.attackStart < args.timesteps
    ensures var log := SimulationLog(args, farm);
            var a := args.attackStart;
            && |log| == Steps(args)
            && log[a].timestep == a && log[a].detection
            && forall i :: 0 <= i < |log| && log[i].detection ==> log[i].timestep >= a
  {
    var log := SimulationLog(args, farm);
    LogShape(args, farm);
    DetectionPattern(args, farm);
    assert log[args.attackStart] in log;
    forall i | 0 <= i < |log| && log[i].detection ensures log[i].timestep >= args.attackStart {
      assert log[i] in log;
    }
  }

  /** Hence the first detection is at the attack step itself, and the
      attack period is not empty. */
  lemma DetectedAtOnset(args: Args, farm: Farm)
    requires Setup(args, farm) && RespectsBounds(farm.minimize)
    requires args.scenario != Baseline
    requires 0 <= args.attackStart < args.timesteps
    ensures var log := SimulationLog(args, farm);
            && AttackRows(log, args.attackStart) != []
            && TimeToDetect(log, args.attackStart) == Some(0)
  {
    OnsetRow(args, farm);
    DetectionAtStart(SimulationLog(args, farm), args.attackStart, args.attackStart);
  }

  /** An attacked trial (static_ids or cares) whose attack starts inside
      the run: no false positive, no false negative, at least one attack
      row and all of them detected, and detection at the very attack step. */
  lemma AttackedTrialScores(args: Args, farm: Farm)
    requires Setup(args, farm) && RespectsBounds(farm.minimize)
    requires args.scenario != Baseline
    requires 0 <= args.attackStart < args.timesteps
    ensures var log := SimulationLog(args, farm);
            var a := args.attackStart;
            && FalsePositives(log, a) == 0
            && FalseNegatives(log, a) == 0
            && TruePositives(log, a) == |AttackRows(log, a)| > 0
            && TimeToDetect(log, a) == Some(0)
  {
    NoFalsePositives(args, farm);
    NoFalseNegatives(args, farm);
    DetectedAtOnset(args, farm);
  }

  /** Hence the attacked trial's detection scores are all positive. */
  lemma AttackedTrialMetrics(args: Args, farm: Farm)
    requires Setup(args, farm) && RespectsBounds(farm.minimize)
    requires args.scenario != Baseline
    requires 0 <= args.attackStart < args.timesteps
    ensures var m := ComputeMetrics(SimulationLog(args, farm), args.attackStart);
            m.precision > 0.0 && m.recall > 0.0 && m.f1Score > 0.0 && m.timeToDetect == Some(0)
  {
    AttackedTrialScores(args, farm);
  }

  /** A baseline trial: nothing is ever detected, so precision, recall and
      F1 are 0, the time to detect is NaN, and the peak attack-period
      stress is at most 30 per turbine. */
  lemma BaselineTrialMetrics(args: Args, farm: Farm)
    requires Setup(args, farm) && RespectsBounds(farm.minimize)
    requires args.scenario == Baseline
    ensures var log := SimulationLog(args, farm);
            var m := ComputeMetrics(log, args.attackStart);
            && TruePositives(log, args.attackStart) == 0
            && FalsePositives(log, args.attackStart) == 0
            && m.precision == 0.0 && m.recall == 0.0 && m.f1Score == 0.0
            && m.timeToDetect == None
            && m.peakStressAttack <= (farm.turbines as real) * YawUpper
  {
    var log := SimulationLog(args, farm);
    var a := args.attackStart;
    NoFalsePositives(args, farm);
    DetectionPattern(args, farm);
    var attack := AttackRows(log, a);
    forall i | 0 <= i < |attack|
      ensures !attack[i].detection
      ensures attack[i].stress <= (farm.turbines as real) * YawUpper
    {
      assert attack[i] in attack;
    }
    forall i | 0 <= i < |log| ensures !log[i].detection {
      assert log[i] in log;
    }
    MulNonNegative(farm.turbines as real, YawUpper);
  }
}
