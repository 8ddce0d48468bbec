/** `run_simulation`: one trial of the wind farm under one scenario. Each
    step asks the controller for yaws, copies them, lets the attack
    override the copy, runs the threshold detector, picks the next risk
    weight, and appends one log record; the command becomes the next warm
    start. The wake model, the optimiser and the number formatting are
    parameters bundled in `Farm`. */
module Simulation {
  import opened Reals
  import opened CvarMpc
  import Attack
  import CognitiveAgent

  datatype Scenario = Baseline | StaticIds | Cares

  /** The command-line arguments of one trial that the loop reads. */
  datatype Args = Args(trial: int, scenario: Scenario, timesteps: int, attackStart: int,
                       alpha: real, omegaBase: real, omegaAttack: real)

  /** What the loop needs from outside: the number of turbines of the
      layout, the optimiser, the FLORIS farm power of a yaw vector, and the
      two number formatters used in the prompt. */
  datatype Farm = Farm(turbines: nat, minimize: Minimizer, farmPower: seq<real> -> real,
                       formatPower: real -> string, formatStress: real -> string)

  /** The optimiser keeps the length of the warm start, and the formatted
      numbers consist of digits, separators and the letters of nan/inf. */
  ghost predicate ValidFarm(farm: Farm)
  {
    && PreservesLength(farm.minimize)
    && (forall x :: CognitiveAgent.NumericText(farm.formatPower(x)))
    && (forall x :: CognitiveAgent.NumericText(farm.formatStress(x)))
  }

  /** The attack overrides turbines 0 and 1 at some step only if the farm
      has at least two turbines (otherwise the source fails with an index
      error). */
  ghost predicate Setup(args: Args, farm: Farm)
  {
    && ValidFarm(farm)
    && (args.scenario == Baseline || args.timesteps <= 0 || args.timesteps <= args.attackStart
        || farm.turbines >= 2)
  }

  /** One row of `log_data`; `yaws` holds the `yaw_<i>` columns. */
  datatype LogRecord = LogRecord(trial: int, timestep: int, scenario: Scenario, power: real,
                                 stress: real, detection: bool, isAttack: bool, yaws: seq<real>)

  /** The variables carried from one step to the next. */
  datatype State = State(yawAngles: seq<real>, omega: real, power: real, stressProxy: real)

  /** Result of one step: its log record and the state after it. */
  datatype Step = Step(record: LogRecord, next: State)

  const DetectionThreshold: real := 45.0

  /** Number of iterations of `for t in range(args.timesteps)`. */
  function Steps(args: Args): (n: nat)
    ensures args.timesteps > 0 ==> n == args.timesteps
    ensures args.timesteps <= 0 ==> n == 0
  {
    if args.timesteps > 0 then args.timesteps else 0
  }

  function Zeros(n: nat): (z: seq<real>)
    ensures |z| == n && forall i :: 0 <= i < n ==> z[i] == 0.0
  {
    seq(n, _ => 0.0)
  }

  /** The state before the first step. */
  function Initial(args: Args, farm: Farm): State
  {
    State(Zeros(farm.turbines), args.omegaBase, 0.0, 0.0)
  }

  /** `np.any(np.abs(yaw_cmd) > 45.0)`. */
  function Detect(cmd: seq<real>): (d: bool)
    ensures d <==> exists i :: 0 <= i < |cmd| && Abs(cmd[i]) > DetectionThreshold
  {
    if cmd == [] then false
    else
      var rest := Detect(cmd[1..]);
      assert forall i :: 1 <= i < |cmd| ==> cmd[i] == cmd[1..][i - 1];
      Abs(cmd[0]) > DetectionThreshold || rest
  }

  /** The controller's optimum at step t from state s. */
  function Optimal(args: Args, farm: Farm, t: nat, s: State): (y: seq<real>)
    requires ValidFarm(farm)
    ensures |y| == |s.yawAngles|
  {
    Controller(farm.minimize, farm.farmPower, t, s.yawAngles, s.omega, args.alpha).optimalYaws
  }

  predicate Injecting(args: Args, t: int)
  {
    args.scenario != Baseline && t >= args.attackStart
  }

  /** The command sent to the turbines at step t: the optimum, overridden by
      the attack in the non-baseline scenarios once it has started. */
  function Command(args: Args, t: int, optimal: seq<real>): (cmd: seq<real>)
    requires Injecting(args, t) ==> |optimal| >= 2
    ensures |cmd| == |optimal|
    ensures !Injecting(args, t) ==> cmd == optimal
    ensures Injecting(args, t) ==>
              && cmd[0] == Attack.AttackYaw && cmd[1] == Attack.AttackYaw
              && forall i :: 2 <= i < |cmd| ==> cmd[i] == optimal[i]
  {
    if Injecting(args, t) then Attack.Injected(optimal, t, args.attackStart) else optimal
  }

  /** The weight for the next step: the agent's choice in `cares`, the base
      weight otherwise. */
  function NextOmega(args: Args, farm: Farm, detection: bool, s: State): (w: real)
    requires ValidFarm(farm)
    ensures args.scenario == Cares && detection ==> w == args.omegaAttack
    ensures !(args.scenario == Cares && detection) ==> w == args.omegaBase
  {
    if args.scenario == Cares then
      CognitiveAgent.RiskParameter(detection, farm.formatPower(s.power),
                                   farm.formatStress(s.stressProxy), args.omegaBase, args.omegaAttack)
    else
      args.omegaBase
  }

  /** Step t of the trial: its record and the state after it. Step t
      starts from the initial state or from the state step t - 1 left. */
  function StepAt(args: Args, farm: Farm, t: nat): (r: Step)
    requires Setup(args, farm)
    requires t < Steps(args)
    ensures |r.next.yawAngles| == farm.turbines
  {
    var s := if t == 0 then Initial(args, farm) else StepAt(args, farm, t - 1).next;
    var cmd := Command(args, t, Optimal(args, farm, t, s));
    var detection := Detect(cmd);
    var stress := AbsSum(cmd);
    var power := farm.farmPower(cmd);
    var record := LogRecord(args.trial, t, args.scenario, power, stress, detection,
                            t >= args.attackStart, cmd);
    Step(record, State(cmd, NextOmega(args, farm, detection, s), power, stress))
  }

  /** The loop-carried state at the start of step t. */
  function StateAt(args: Args, farm: Farm, t: nat): (s: State)
    requires Setup(args, farm)
    requires t <= Steps(args)
    ensures |s.yawAngles| == farm.turbines
  {
    if t == 0 then Initial(args, farm) else StepAt(args, farm, t - 1).next
  }

  /** The controller's optimum at step t of the trial. */
  function OptimalAt(args: Args, farm: Farm, t: nat): (y: seq<real>)
    requires Setup(args, farm)
    requires t < Steps(args)
    ensures |y| == farm.turbines
  {
    Optimal(args, farm, t, StateAt(args, farm, t))
  }

  /** The record appended at step t. */
  function RecordAt(args: Args, farm: Farm, t: nat): LogRecord
    requires Setup(args, farm)
    requires t < Steps(args)
  {
    StepAt(args, farm, t).record
  }

  /** `log_data` after the first t steps. */
  function LogUpTo(args: Args, farm: Farm, t: nat): seq<LogRecord>
    requires Setup(args, farm)
    requires t <= Steps(args)
  {
    if t == 0 then [] else LogUpTo(args, farm, t - 1) + [RecordAt(args, farm, t - 1)]
  }

  /** The rows of the data frame `run_simulation` returns. */
  function SimulationLog(args: Args, farm: Farm): seq<LogRecord>
    requires Setup(args, farm)
  {
    LogUpTo(args, farm, Steps(args))
  }

  // ---------------------------------------------------------------------
  // Properties of the trial

  lemma {:induction false} LogUpToShape(args: Args, farm: Farm, t: nat)
    requires Setup(args, farm)
    requires t <= Steps(args)
    ensures |LogUpTo(args, farm, t)| == t
    ensures forall k :: 0 <= k < t ==> LogUpTo(args, farm, t)[k] == RecordAt(args, farm, k)
  {
    if t > 0 {
      LogUpToShape(args, farm, t - 1);
      Appended(LogUpTo(args, farm, t - 1), RecordAt(args, farm, t - 1));
    }
  }

  lemma Appended<T>(prefix: seq<T>, last: T)
    ensures |prefix + [last]| == |prefix| + 1 && (prefix + [last])[|prefix|] == last
    ensures forall k :: 0 <= k < |prefix| ==> (prefix + [last])[k] == prefix[k]
  {
  }

  /** What the record of step t holds: the trial, the step and the
      scenario; the attack flag; the command (the optimum, or the optimum
      with turbines 0 and 1 forced to 60 degrees once a non-baseline attack
      has started); detection exactly when some commanded angle exceeds 45
      degrees in magnitude; the stress proxy and the farm power of the
      command. */
  lemma RecordContents(args: Args, farm: Farm, t: nat)
    requires Setup(args, farm)
    requires t < Steps(args)
    ensures var r := RecordAt(args, farm, t);
            && r.trial == args.trial && r.timestep == t && r.scenario == args.scenario
            && (r.isAttack <==> t >= args.attackStart)
            && |r.yaws| == farm.turbines
            && (!Injecting(args, t) ==> r.yaws == OptimalAt(args, farm, t))
            && (Injecting(args, t) ==>
                  && r.yaws[0] == Attack.AttackYaw && r.yaws[1] == Attack.AttackYaw
                  && forall i :: 2 <= i < farm.turbines ==> r.yaws[i] == OptimalAt(args, farm, t)[i])
            && (r.detection <==> exists i :: 0 <= i < |r.yaws| && Abs(r.yaws[i]) > DetectionThreshold)
            && r.stress == AbsSum(r.yaws) && r.stress >= 0.0
            && r.power == farm.farmPower(r.yaws)
  {
  }

  /** One more step moves the state to the one step t leaves and extends
      the log by its record. */
  lemma StepUnfold(args: Args, farm: Farm, t: nat)
    requires Setup(args, farm)
    requires t < Steps(args)
    ensures var step := StepAt(args, farm, t);
            && StateAt(args, farm, t + 1) == step.next
            && LogUpTo(args, farm, t + 1) == LogUpTo(args, farm, t) + [step.record]
  {
  }

  /** One record per step, in step order, all carrying the trial and the
      scenario, flagged as attack records exactly from the attack start on
      (in every scenario, baseline included). */
  lemma LogShape(args: Args, farm: Farm)
    requires Setup(args, farm)
    ensures var log := SimulationLog(args, farm);
            && |log| == Steps(args)
            && forall k :: 0 <= k < |log| ==>
                 && log[k] == RecordAt(args, farm, k)
                 && log[k].timestep == k && log[k].trial == args.trial
                 && log[k].scenario == args.scenario
                 && (log[k].isAttack <==> k >= args.attackStart)
  {
    LogUpToShape(args, farm, Steps(args));
    forall k | 0 <= k < Steps(args)
      ensures RecordAt(args, farm, k).timestep == k
    {
      RecordContents(args, farm, k);
    }
  }

  /** The first warm start is all zeros with the base weight; every later
      warm start is the previous step's command, and the power and stress
      fed to the prompt are those of the previous record. */
  lemma WarmStart(args: Args, farm: Farm, t: nat)
    requires Setup(args, farm)
    requires t < Steps(args)
    ensures StateAt(args, farm, 0) == State(Zeros(farm.turbines), args.omegaBase, 0.0, 0.0)
    ensures var next := StateAt(args, farm, t + 1);
            var r := RecordAt(args, farm, t);
            next.yawAngles == r.yaws && next.power == r.power && next.stressProxy == r.stress
  {
  }

  /** Outside `cares` the weight is the base weight at every step. */
  lemma OmegaConstant(args: Args, farm: Farm, t: nat)
    requires Setup(args, farm)
    requires t <= Steps(args)
    requires args.scenario != Cares
    ensures StateAt(args, farm, t).omega == args.omegaBase
  {
  }

  /** In `cares` the weight used at step t + 1 is the attack weight exactly
      when step t detected an attack: a one-step lag. */
  lemma OmegaLag(args: Args, farm: Farm, t: nat)
    requires Setup(args, farm)
    requires t < Steps(args)
    requires args.scenario == Cares
    ensures StateAt(args, farm, t + 1).omega
            == (if RecordAt(args, farm, t).detection then args.omegaAttack else args.omegaBase)
  {
  }

  /** Under attack (static_ids and cares) the overridden 60-degree yaw is
      always above the threshold, so every attack step is detected. */
  lemma PersistentDetection(args: Args, farm: Farm, t: nat)
    requires Setup(args, farm)
    requires t < Steps(args)
    requires args.scenario != Baseline && t >= args.attackStart
    ensures RecordAt(args, farm, t).detection
  {
    RecordContents(args, farm, t);
    var r := RecordAt(args, farm, t);
    assert Abs(r.yaws[0]) > DetectionThreshold;
  }

  /** Hence in `cares` the attack weight is in force from the step after
      the attack start on. */
  lemma CaresRaisesRisk(args: Args, farm: Farm, t: nat)
    requires Setup(args, farm)
    requires 1 <= t <= Steps(args)
    requires args.scenario == Cares && t - 1 >= args.attackStart
    ensures StateAt(args, farm, t).omega == args.omegaAttack
  {
    PersistentDetection(args, farm, t - 1);
    OmegaLag(args, farm, t - 1);
  }

  /** If the optimiser stays inside its bounds, a step the attack does not
      touch commands at most 30 degrees anywhere: it raises no detection and
      its stress is at most 30 per turbine. */
  lemma NoFalseAlarm(args: Args, farm: Farm, t: nat)
    requires Setup(args, farm) && RespectsBounds(farm.minimize)
    requires t < Steps(args)
    requires !Injecting(args, t)
    ensures !RecordAt(args, farm, t).detection
    ensures RecordAt(args, farm, t).stress <= (farm.turbines as real) * YawUpper
  {
    var s := StateAt(args, farm, t);
    var y := OptimalAt(args, farm, t);
    RecordContents(args, farm, t);
    ControllerWithinBounds(farm.minimize, farm.farmPower, t, s.yawAngles, s.omega, args.alpha);
    BoundedYaws(y);
    forall i | 0 <= i < |y| ensures Abs(y[i]) <= DetectionThreshold {
    }
  }

  // ---------------------------------------------------------------------
  // The loop

  /** The command arrays of one step: `yaw_cmd = optimal_yaws.copy()`, then
      the attack writes into the copy. The optimiser's array is outside the
      frame, so it keeps the optimum. */
  method CommandArray(args: Args, t: int, optimalYaws: array<real>) returns (yawCmd: array<real>)
    requires Injecting(args, t) ==> optimalYaws.Length >= 2
    ensures fresh(yawCmd)
    ensures yawCmd[..] == Command(args, t, optimalYaws[..])
    ensures optimalYaws[..] == old(optimalYaws[..])
  {
    yawCmd := new real[optimalYaws.Length](i reads optimalYaws =>
                                             if 0 <= i < optimalYaws.Length then optimalYaws[i] else 0.0);
    if Injecting(args, t) {
      yawCmd := Attack.InjectAttack(yawCmd, t, args.attackStart);
    }
  }

  /** One pass of the loop body from the carried yaw array and scalars:
      the record it appends and the new carried values, which are those of
      step t of the trial. */
  method RunStep(args: Args, farm: Farm, t: nat, yawAngles: array<real>, omega: real,
                 power: real, stressProxy: real)
    returns (record: LogRecord, yawCmd: array<real>, omega': real, power': real, stressProxy': real)
    requires Setup(args, farm)
    requires t < Steps(args)
    requires State(yawAngles[..], omega, power, stressProxy) == StateAt(args, farm, t)
    ensures fresh(yawCmd)
    ensures Step(record, State(yawCmd[..], omega', power', stressProxy')) == StepAt(args, farm, t)
  {
    ghost var s := State(yawAngles[..], omega, power, stressProxy);
    var ctrl := Controller(farm.minimize, farm.farmPower, t, yawAngles[..], omega, args.alpha);
    var optimalYaws := new real[|ctrl.optimalYaws|](i =>
                                if 0 <= i < |ctrl.optimalYaws| then ctrl.optimalYaws[i] else 0.0);
    assert optimalYaws[..] == Optimal(args, farm, t, s);
    yawCmd := CommandArray(args, t, optimalYaws);
    var isAttackActive := t >= args.attackStart;
    var detection := Detect(yawCmd[..]);
    if args.scenario == Cares {
      omega' := CognitiveAgent.RiskParameter(detection, farm.formatPower(power),
                                             farm.formatStress(stressProxy),
                                             args.omegaBase, args.omegaAttack);
    } else {
      omega' := args.omegaBase;
    }
    var finalStressProxy := AbsSum(yawCmd[..]);
    power' := farm.farmPower(yawCmd[..]);
    record := LogRecord(args.trial, t, args.scenario, power', finalStressProxy, detection,
                        isAttackActive, yawCmd[..]);
    stressProxy' := finalStressProxy;
  }

  /** `run_simulation`: the loop over `range(args.timesteps)`, with the yaw
      vectors as arrays. It returns the log of the model, whose shape and
      contents `LogShape`, `RecordContents` and the lemmas after them
      describe. */
  method RunSimulation(args: Args, farm: Farm) returns (log: seq<LogRecord>)
    requires Setup(args, farm)
    ensures log == SimulationLog(args, farm)
  {
    var yawAngles := new real[farm.turbines](_ => 0.0);
    var omega := args.omegaBase;
    var power := 0.0;
    var stressProxy := 0.0;
    log := [];
    var t := 0;
    while t < args.timesteps
      invariant 0 <= t <= Steps(args)
      invariant StateAt(args, farm, t) == State(yawAngles[..], omega, power, stressProxy)
      invariant log == LogUpTo(args, farm, t)
    {
      var record, yawCmd;
      record, yawCmd, omega, power, stressProxy := RunStep(args, farm, t, yawAngles, omega, power, stressProxy);
      StepUnfold(args, farm, t);
      log := log + [record];
      yawAngles := yawCmd;
      t := t + 1;
    }
    assert t == Steps(args);
  }
}
