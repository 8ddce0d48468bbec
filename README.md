# Wind-farm yaw control under a spoofing attack — a Dafny model

This project models the core of a wind-farm yaw simulation. A risk-averse
model-predictive controller chooses a yaw angle per turbine. It maximises
farm power minus a weighted Conditional Value-at-Risk (CVaR) of a stress
proxy, the sum of absolute yaw angles.

In the `static_ids` and `cares` scenarios an attacker forces the two front
turbines to 60 degrees from the attack start on. A threshold detector flags
any commanded angle whose magnitude exceeds 45 degrees. In `cares` a stub "cognitive agent"
then raises the risk weight for the next step. Each step appends a log
record. `compute_metrics` turns a trial's log into the following scores:

- precision, recall and F1;
- time to detect;
- peak stress during the attack;
- energy loss.

Modules, one per source file, plus three shared helpers:

| module | file | models |
|---|---|---|
| `Reals` | reals.dfy | sums, absolute values, extrema, an ascending copy (`Option` stands for NaN) |
| `Quantiles` | quantile.dfy | numpy's default linear-interpolation quantile |
| `TailRisk` | cvar.dfy | the masked tail mean used as CVaR |
| `CvarMpc` | cvar_mpc.dfy | stress samples, CVaR penalty, objective, bounds and the controller's report |
| `Attack` | attack.dfy | `inject_attack`, as a method on an array |
| `CognitiveAgent` | cognitive_agent.dfy | the prompt, the substring decision rule and `get_risk_parameter` |
| `Simulation` | simulation.dfy | `run_simulation`: the step function, the trial log and the imperative loop |
| `DetectionScores`, `Analyze` | analyze.dfy | `compute_metrics` |
| `EndToEnd` | end_to_end.dfy | what `compute_metrics` reports about a log that `run_simulation` produced |

The external parts of the system are parameters:

- The FLORIS wake model is a function `farmPower` from a yaw vector to the farm power.
- The SLSQP search is a function `minimize`. It takes the step index, the warm start, the bounds, omega and alpha. The step index stands for the random draws of that call.
- The two number formatters of the prompt are functions from a real to a string.

All of these are bundled in `Simulation.Farm`. The hypotheses the proofs
need about them are stated as predicates:

- `PreservesLength`: the search returns a vector as long as its start.
- `RespectsBounds`: the search, given the (−30, 30) box of its own start vector's length, stays inside it. The source does not guarantee this, so it is only a premise of the lemmas that name it. `CvarMpc.ZeroSearch` meets it, and `EndToEnd.ZeroFarmMeetsHypotheses` shows a farm and an attacked run that meet every premise of the end-to-end lemmas together.
- `NumericText`: formatted numbers consist of digits, `,`, `.`, `-` and the letters of `nan`/`inf`.

Floats are modelled as reals. Where numpy would produce NaN or an infinity,
the model has `None`.

The loop (`Simulation.RunSimulation`) and the injector
(`Attack.InjectAttack`) are imperative, over `array<real>`. Each is proved
against a functional specification:

- `StepAt` is one step of the trial.
- `LogUpTo` is the log after t steps.
- `Injected` is the injected vector.

The lemmas then state the source's properties about those functions.

Two behaviours of the code are worth stating separately:

- The time to detect is NaN whenever the earliest detection of the whole log lies before the attack start, even if the attack is detected later (analyze.py:35). It is not "the first detection at or after the attack start".
- In a baseline trial the detector fires only if the optimiser leaves its ±30° box: the bounds in cvar_mpc.py:38 keep every angle below the 45° threshold of main.py:36. The model proves the absence of detections under the hypothesis `RespectsBounds` (`EndToEnd.BaselineTrialMetrics`).

## Model

| member | source | states |
|---|---|---|
| Reals.AbsSum | cvar_mpc.py:53 | the stress proxy Σ\|y_i\| is never negative |
| Quantiles.VirtualIndex | cvar_mpc.py:24 | numpy's virtual index (n−1)·α lies in [0, n−1], so its floor is a valid sample position and the fraction lies in [0, 1) |
| Quantiles.Quantile | cvar_mpc.py:24 | `np.quantile` with linear interpolation at virtual index (n−1)·α of the ascending copy; its range is stated by `Quantiles.QuantileBounds` |
| Quantiles.LerpBetween | cvar_mpc.py:24 | linear interpolation between a ≤ b by a fraction in [0, 1] stays within [a, b] |
| Quantiles.InterpolateBetween | cvar_mpc.py:24 | interpolating into an ascending list stays between its first and last element |
| Quantiles.SortEnds | cvar_mpc.py:24 | the ascending copy is sorted, starts at or above the minimum and ends at or below the maximum |
| Quantiles.QuantileBounds | cvar_mpc.py:24 | for α in [0, 1] the quantile lies between the smallest and the largest sample |
| TailRisk.Above | cvar_mpc.py:25 | `s[s > t]` holds every sample strictly above t as often as it occurs in s, and no other value |
| TailRisk.AboveEmpty | cvar_mpc.py:25 | `np.any(s > t)` fails exactly when every sample is at most t |
| TailRisk.TailMean | cvar_mpc.py:25 | 0 when no sample exceeds t; otherwise the mean of the exceeding samples, strictly above t and at most the maximum sample |
| TailRisk.Cvar | cvar_mpc.py:24-25 | the tail mean above the α-quantile; its range and zero case are stated by `TailRisk.CvarBounds` and `TailRisk.CvarOfEqualSamples` |
| TailRisk.CvarBounds | cvar_mpc.py:24-25 | for non-negative samples the CVaR lies in [0, max]; it is 0 exactly when no sample exceeds the quantile |
| TailRisk.CvarOfEqualSamples | cvar_mpc.py:24-25 | for identical samples the quantile is their common value and the CVaR is 0 |
| CvarMpc.Bounds | cvar_mpc.py:38 | n bounds, each (−30, 30) |
| CvarMpc.BoundedYaws | cvar_mpc.py:38 | a vector inside the bounds has every \|angle\| ≤ 30 and a stress proxy ≤ 30·n |
| CvarMpc.StressAtMost | cvar_mpc.py:53 | angles of magnitude at most 30 give a stress proxy of at most 30 per angle |
| CvarMpc.Perturbed | cvar_mpc.py:20 | a perturbed copy has the length of the yaw vector, and entry i is yaw i plus jitter i |
| CvarMpc.StressSamples | cvar_mpc.py:19-22 | one stress sample per jitter draw, each ≥ 0 |
| CvarMpc.CvarPenalty | cvar_mpc.py:24-25 | the penalty is ≥ 0, and it is 0 exactly when no stress sample lies above the α-quantile |
| CvarMpc.RiskAdjusted | cvar_mpc.py:27 | −power + ω·penalty; its monotonicity is stated by `CvarMpc.RiskAdjustedMonotone` |
| CvarMpc.Objective | cvar_mpc.py:10-27 | the risk-adjusted value of the farm power and the CVaR penalty of the jittered stress samples; its bounds are stated by `CvarMpc.ObjectiveRiskTerm` and `CvarMpc.ObjectiveWithoutTail` |
| CvarMpc.RiskAdjustedMonotone | cvar_mpc.py:27 | with a non-negative penalty, −power + ω·penalty is at least −power and grows with ω |
| CvarMpc.ObjectiveRiskTerm | cvar_mpc.py:27 | the objective is at least −power and never decreases as ω grows |
| CvarMpc.ObjectiveWithoutTail | cvar_mpc.py:25-27 | with no sample above the quantile the objective is −power |
| CvarMpc.Controller | cvar_mpc.py:30-55 | the optimum is the search's result from the current yaws over n (−30, 30) bounds, with one angle per turbine; the predicted power is the farm power of the optimum, and the stress proxy is Σ\|optimum\| ≥ 0 |
| CvarMpc.ControllerWithinBounds | cvar_mpc.py:38-53 | if the search respects its bounds, the optimum is inside (−30, 30) per turbine and its stress proxy is ≤ 30·n |
| CvarMpc.ZeroSearch | cvar_mpc.py:38-48 | a search returning the zero vector; `CvarMpc.ZeroSearchRespectsBounds` states it keeps the length and the bounds |
| CvarMpc.ZeroSearchRespectsBounds | cvar_mpc.py:38-48 | the zero search keeps the length of its start and stays inside (−30, 30), so `RespectsBounds` can be met |
| Attack.Injected | attack.py:21-25 | before the attack start the vector is unchanged; from it on, entries 0 and 1 are 60 and all others unchanged |
| Attack.InjectedIdempotent | attack.py:21-24 | injecting twice at the same step equals injecting once |
| Attack.InjectAttack | attack.py:4-25 | overwrites the caller's array in place, to the injected vector, and returns that same array |
| CognitiveAgent.AgentDecision | cognitive_agent.py:3-7 | "INCREASE RISK" exactly when the prompt contains "Attack detected: True", otherwise "MAINTAIN BASELINE RISK" |
| CognitiveAgent.Prompt | cognitive_agent.py:17-23 | the header, the detection line, the power line and the stress line; which decision it yields is stated by `CognitiveAgent.PromptSignalsDetection` |
| CognitiveAgent.MarkerInPrompt | cognitive_agent.py:20 | with detection set, the prompt contains the marker |
| CognitiveAgent.NoCapitalT | cognitive_agent.py:17-23 | with detection unset and numeric texts, the prompt contains no capital T, so no marker |
| CognitiveAgent.HeaderHasNoT | cognitive_agent.py:18-19 | the fixed header lines contain no capital T |
| CognitiveAgent.PromptSignalsDetection | cognitive_agent.py:17-23 | the prompt contains the marker exactly when detection holds, whatever the numeric power and stress texts |
| CognitiveAgent.RiskParameter | cognitive_agent.py:10-30 | the attack weight when detection holds and the base weight otherwise, independent of power and stress |
| Simulation.Steps | main.py:22 | `range(timesteps)` runs max(timesteps, 0) times |
| Simulation.Zeros | main.py:14 | n zeros |
| Simulation.Initial | main.py:14-18 | zero yaws for every turbine, the base weight, power and stress 0; `Simulation.StateAt` and `Simulation.WarmStart` state its shape and role |
| Simulation.Detect | main.py:35-37 | detection exactly when some commanded \|angle\| exceeds 45 (exactly 45 does not count) |
| Simulation.Optimal | main.py:25-27 | the optimiser's vector is as long as the warm start |
| Simulation.Command | main.py:29-33 | the command is the optimum, except once a non-baseline attack has started: then entries 0 and 1 are 60 and the rest are the optimum |
| Simulation.NextOmega | main.py:39-48 | the attack weight exactly in `cares` after a detection, the base weight otherwise |
| Simulation.StepAt | main.py:22-68 | every step leaves a yaw vector with one angle per turbine |
| Simulation.StateAt | main.py:14-18 | every carried state has one angle per turbine |
| Simulation.OptimalAt | main.py:25-27 | the optimum at every step has one angle per turbine |
| Simulation.LogUpToShape | main.py:56-65 | after t steps the log has t records, record k being step k's |
| Simulation.RecordContents | main.py:29-65 | record t carries the trial, t, the scenario and `is_attack` ⇔ t ≥ attack start. Its yaws are the optimum, or the optimum with 0 and 1 forced to 60 under attack. Its detection is "some \|yaw\| > 45", its stress is Σ\|yaw\| (≥ 0), and its power is the farm power of the command |
| Simulation.StepUnfold | main.py:56-68 | one more step carries the state step t leaves and appends step t's record |
| Simulation.LogShape | main.py:22-65 | the log has `timesteps` records in step order, each with timestep k, constant trial and scenario, and `is_attack` ⇔ k ≥ attack start in every scenario |
| Simulation.LogUpTo | main.py:22-65 | the log after t steps; its shape is stated by `Simulation.LogUpToShape` |
| Simulation.SimulationLog | main.py:10-70 | the log of the whole trial; its shape is stated by `Simulation.LogShape` |
| Simulation.WarmStart | main.py:14-68 | the first warm start is all zeros with the base weight; each later one is the previous command, with that record's power and stress |
| Simulation.OmegaConstant | main.py:16-48 | outside `cares` the weight is the base weight at every step |
| Simulation.OmegaLag | main.py:39-46 | in `cares` the weight at step t+1 is the attack weight exactly when step t detected |
| Simulation.PersistentDetection | main.py:32-37 | in `static_ids` and `cares` every step from the attack start on is a detection |
| Simulation.CaresRaisesRisk | main.py:32-48 | in `cares` the attack weight is in force at every step after the attack start |
| Simulation.NoFalseAlarm | main.py:29-50 | with the search inside its bounds, a step the attack does not touch raises no detection and has stress ≤ 30 per turbine |
| Simulation.CommandArray | main.py:29-33 | a fresh copy of the optimiser's array, overridden by the attack when active; the optimiser's array keeps its contents |
| Simulation.RunStep | main.py:25-68 | one loop pass from the carried arrays and scalars yields exactly step t's record and next state |
| Simulation.RunSimulation | main.py:10-70 | the loop returns the trial log `SimulationLog` |
| Analyze.AttackRows | analyze.py:19 | each row with timestep ≥ attack start, as often as it occurs in the log, and no other row |
| Analyze.CalmRows | analyze.py:20 | each row with timestep < attack start, as often as it occurs in the log, and no other row |
| Analyze.PeriodsPartition | analyze.py:19-20 | the two periods together have as many rows as the log |
| Analyze.PeriodCounts | analyze.py:19-25 | the attack period's size, TP and FP are the numbers of log positions with the matching timestep and detection flag |
| Analyze.CountDetected | analyze.py:23-25 | the count is the number of positions holding a detected row: at most the row count, 0 exactly when no row is a detection, all rows exactly when every row is |
| Analyze.TruePositives | analyze.py:19-23 | TP is the number of log positions whose row is detected and has timestep ≥ attack start |
| Analyze.FalseNegatives | analyze.py:19-24 | TP + FN equals the number of attack-period rows; FN is the number of attack-period positions minus the detected ones |
| Analyze.FalsePositives | analyze.py:20-25 | FP is the number of log positions whose row is detected and has timestep < attack start, at most the number of pre-attack rows |
| Analyze.DetectedSteps | analyze.py:34 | holds the timesteps of the detected rows, and only those |
| Analyze.MinStep | analyze.py:35 | the minimum belongs to the list and is below every element |
| Analyze.TimeToDetect | analyze.py:34-35 | defined exactly when some row is detected and no detection precedes the attack start; then it is ≥ 0 and is the earliest detection minus the attack start |
| Analyze.DetectionAtStart | analyze.py:34-35 | a detection at the attack start with none earlier gives a non-empty attack period and a time to detect of 0 |
| Analyze.FirstDetectionAtStart | analyze.py:34-35 | the same, for the time to detect alone |
| Analyze.Stresses | analyze.py:37 | the stress column, row by row |
| Analyze.Powers | analyze.py:40-42 | the power column, row by row |
| Analyze.PeakStress | analyze.py:37 | 0 with no attack-period row, otherwise the largest attack-period stress |
| Analyze.MeanPower | analyze.py:40 | the mean power of non-empty rows; its steady value is stated by `Analyze.SteadyExpectedEnergy` |
| Analyze.ExpectedEnergy | analyze.py:40-41 | the pre-attack mean power times the log length; its steady value is stated by `Analyze.SteadyExpectedEnergy` |
| Analyze.EnergyLoss | analyze.py:40-43 | NaN when there is no pre-attack row |
| Analyze.SumOfConstant | analyze.py:42 | n copies of c sum to n·c |
| Analyze.SteadyTotalPower | analyze.py:42 | rows of constant power c total n·c |
| Analyze.SteadyExpectedEnergy | analyze.py:40-41 | steady pre-attack rows have mean c, so the expected energy over n steps is n·c |
| Analyze.SteadyRowsLoseNothing | analyze.py:40-43 | with steady non-negative power the loss formula gives 0 |
| Analyze.SteadyPowerLosesNothing | analyze.py:40-43 | given pre-attack rows and the same non-negative power in every row, the energy loss is 0 |
| Analyze.ComputeMetrics | analyze.py:8-52 | precision, recall and F1 lie in [0, 1); each is 0 exactly when TP is 0 |
| DetectionScores.QuotientBelowOne | analyze.py:29-30 | 0 ≤ a < d gives a/d in [0, 1), 0 exactly when a is |
| DetectionScores.SmoothedRatio | analyze.py:28-30 | hits/(hits+misses+ε) lies in [0, 1), 0 exactly when there are no hits |
| DetectionScores.HarmonicBelow | analyze.py:31 | for p, r in [0, 1), 2pr < p + r + ε, and 2pr is 0 exactly when p or r is |
| DetectionScores.F1 | analyze.py:31 | F1 lies in [0, 1); it is 0 exactly when precision or recall is |
| DetectionScores.LossPercent | analyze.py:43 | NaN exactly when the denominator is 0; 0 for equal totals; ≥ 0 for a shortfall against a positive expectation |
| DetectionScores.SteadyLoss | analyze.py:43 | an actual total equal to a non-negative expected total n·c loses exactly 0 |
| EndToEnd.LogMembers | main.py:56-65 | each row of the trial log is the record of the step it names |
| EndToEnd.ZeroFarmMeetsHypotheses | main.py:10-33 | a two-turbine farm with the zero search and an attacked 400-step run starting at step 200 meet `Setup`, `RespectsBounds` and the attack premises together |
| EndToEnd.DetectionPattern | main.py:29-37 | with the search inside its bounds, a row is a detection exactly when the attack overrode that step; untouched rows have stress ≤ 30 per turbine |
| EndToEnd.NoFalsePositives | analyze.py:20-25 | with the search inside its bounds, FP is 0 in every scenario |
| EndToEnd.NoFalseNegatives | analyze.py:19-24 | under attack, whatever the search returns, every attack-period row is detected: TP = number of attack rows, FN = 0 |
| EndToEnd.OnsetRow | main.py:30-37 | under an attack starting inside the run, that step's row is a detection and no earlier row is |
| EndToEnd.DetectedAtOnset | analyze.py:34-35 | the attack period is non-empty and the time to detect is 0 |
| EndToEnd.AttackedTrialScores | analyze.py:19-35 | for an attacked trial, FP = FN = 0, TP = number of attack rows > 0, and the time to detect is 0 |
| EndToEnd.AttackedTrialMetrics | analyze.py:28-35 | for an attacked trial, precision, recall and F1 are all positive and the time to detect is 0 |
| EndToEnd.BaselineTrialMetrics | analyze.py:19-37 | for a baseline trial, TP = FP = 0, precision = recall = F1 = 0, the time to detect is NaN, and the peak attack stress is ≤ 30 per turbine |

## Left out

- The FLORIS wake model (`FlorisInterface`, `reinitialize`, `copy`, `calculate_wake`, `get_turbine_powers`) is foreign code. Its farm power is the parameter `farmPower`, and the re-initialisation before each search has no counterpart.
- `scipy.optimize.minimize` with SLSQP is foreign code. It is the parameter `minimize`, assumed only to keep the length of its start vector. Staying inside the bounds is a separate hypothesis, `RespectsBounds`. The objective the search minimises is modelled (`CvarMpc.Objective`), but nothing ties the search's result to it.
- `np.random.uniform` is modelled by an explicit noise input (`ValidNoise`) for the objective, and by the call index passed to `minimize` for the loop.
- The f-string formatting `{power:,.0f}` and `{stress:.2f}` is modelled by the parameters `formatPower` and `formatStress`. They are characterised only by `NumericText`.
- IEEE floating point: floats are exact reals. Rounding, overflow and ε's binary value are not modelled, and NaN/inf become `None`.
- The print statements, CSV writing and reading, `os.makedirs`, argparse, the scenario × trial orchestration, `analyze.main`, the plots and the grouped summary are I/O or presentation. They are not modelled.
- Scenario names other than `baseline`, `static_ids` and `cares` are not representable. The source treats an unknown name like `static_ids`.
- InjectAttack: an array shorter than 2 while the attack is active makes the source raise `IndexError`. This is a precondition here, and `Simulation.Setup` requires at least two turbines whenever an attack step can occur.
- CvarPenalty: numpy rejects a quantile level outside [0, 1]. This is a precondition here rather than a modelled error.
- AttackRows: the filters are specified by membership and multiplicity, not by the order of the rows they keep. Every use (counts, sum, mean, maximum) is insensitive to order.
- CalmRows: as for `AttackRows`, the order of the kept rows is not stated.
- SteadyPowerLosesNothing: assumes the steady power is non-negative. A negative steady power could make the denominator exactly 0, which gives NaN.
- ComputeMetrics: states the ranges and zero cases of the scores, and the exact definitions of the other fields through their own functions. It does not state numeric values for given counts.
