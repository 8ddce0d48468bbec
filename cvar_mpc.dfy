/** The risk-averse controller: the sampled stress proxy, its
    Conditional Value-at-Risk, the objective handed to the optimiser, the
    yaw bounds and the controller's report at the optimum. The optimiser
    itself (SLSQP) and the wake model are parameters. */
module CvarMpc {
  import opened Reals
  import opened Quantiles
  import opened TailRisk

  /** Number of perturbed copies of the candidate yaw vector per evaluation. */
  const NumSamples: nat := 20
  /** Half-width (degrees) of the uniform jitter of each sample component. */
  const NoiseAmplitude: real := 2.0
  const YawLower: real := -30.0
  const YawUpper: real := 30.0

  /** A (lower, upper) box constraint on one yaw angle. */
  type Bound = (real, real)

  /** The optimiser's bounds: one (-30, 30) pair per turbine. */
  function Bounds(n: nat): (b: seq<Bound>)
    ensures |b| == n
    ensures forall i :: 0 <= i < n ==> b[i] == (YawLower, YawUpper)
  {
    seq(n, _ => (YawLower, YawUpper))
  }

  predicate InBounds(y: seq<real>, b: seq<Bound>)
  {
    |y| == |b| && forall i :: 0 <= i < |y| ==> b[i].0 <= y[i] <= b[i].1
  }

  /** A yaw vector inside the controller's bounds has each angle at most 30
      degrees in magnitude, hence a stress proxy of at most 30 per turbine. */
  lemma BoundedYaws(y: seq<real>)
    requires InBounds(y, Bounds(|y|))
    ensures forall i :: 0 <= i < |y| ==> Abs(y[i]) <= YawUpper
    ensures AbsSum(y) <= (|y| as real) * YawUpper
  {
    forall i | 0 <= i < |y| ensures Abs(y[i]) <= YawUpper {
      assert Bounds(|y|)[i] == (YawLower, YawUpper);
    }
    StressAtMost(y);
  }

  /** Angles of magnitude at most 30 give a stress proxy of at most 30 per
      angle. */
  lemma {:induction false} StressAtMost(y: seq<real>)
    requires forall i :: 0 <= i < |y| ==> Abs(y[i]) <= YawUpper
    ensures AbsSum(y) <= (|y| as real) * YawUpper
  {
    if y != [] {
      assert forall i :: 0 <= i < |y| - 1 ==> y[1..][i] == y[i + 1];
      StressAtMost(y[1..]);
    }
  }

  // ---------------------------------------------------------------------
  // Objective: stress samples, quantile, CVaR

  /** The random jitter of one evaluation: `NumSamples` vectors of the yaw
      vector's length, each component in [-2, 2] (`np.random.uniform(-2, 2, n)`). */
  ghost predicate ValidNoise(noise: seq<seq<real>>, n: nat)
  {
    && |noise| == NumSamples
    && (forall k :: 0 <= k < |noise| ==> |noise[k]| == n)
    && (forall k, i :: 0 <= k < |noise| && 0 <= i < |noise[k]| ==>
          -NoiseAmplitude <= noise[k][i] <= NoiseAmplitude)
  }

  /** One jittered copy: `yaw_angles + noise`, component by component. */
  function Perturbed(y: seq<real>, d: seq<real>): (p: seq<real>)
    requires |d| == |y|
    ensures |p| == |y|
    ensures forall i :: 0 <= i < |y| ==> p[i] == y[i] + d[i]
  {
    seq(|y|, i requires 0 <= i < |y| => y[i] + d[i])
  }

  /** One stress value per perturbed copy: the sum of its absolute angles. */
  function StressSamples(y: seq<real>, noise: seq<seq<real>>): (r: seq<real>)
    requires forall k :: 0 <= k < |noise| ==> |noise[k]| == |y|
    ensures |r| == |noise|
    ensures forall k :: 0 <= k < |r| ==> r[k] >= 0.0
  {
    seq(|noise|, k requires 0 <= k < |noise| => AbsSum(Perturbed(y, noise[k])))
  }

  /** `cvar_penalty` of `objective_function`: the CVaR of the stress
      samples of y under one draw of the jitter. It is non-negative, and
      it is 0 exactly when no sample lies strictly above the quantile. */
  function CvarPenalty(y: seq<real>, alpha: real, noise: seq<seq<real>>): (c: real)
    requires ValidNoise(noise, |y|)
    requires 0.0 <= alpha <= 1.0
    ensures c >= 0.0
    ensures var s := StressSamples(y, noise);
            c == 0.0 <==> forall i :: 0 <= i < |s| ==> s[i] <= Quantile(s, alpha)
  {
    var samples := StressSamples(y, noise);
    CvarBounds(samples, alpha);
    Cvar(samples, alpha)
  }

  /** `objective_function` for one draw of the jitter: minus the farm power
      at y plus omega times the CVaR penalty. */
  function Objective(farmPower: seq<real> -> real, y: seq<real>, omega: real, alpha: real,
                     noise: seq<seq<real>>): real
    requires ValidNoise(noise, |y|)
    requires 0.0 <= alpha <= 1.0
  {
    RiskAdjusted(farmPower(y), omega, CvarPenalty(y, alpha, noise))
  }

  /** Minus the power plus the weighted penalty. */
  function RiskAdjusted(power: real, omega: real, penalty: real): real
  {
    -power + omega * penalty
  }

  /** A non-negative weighted penalty only adds to minus the power, and a
      larger weight never lowers the result. */
  lemma RiskAdjustedMonotone(power: real, omega: real, omega': real, penalty: real)
    requires 0.0 <= omega <= omega' && penalty >= 0.0
    ensures -power <= RiskAdjusted(power, omega, penalty) <= RiskAdjusted(power, omega', penalty)
  {
    MulNonNegative(omega, penalty);
    MulNonNegative(omega' - omega, penalty);
  }

  /** With a non-negative weight the risk term only adds to minus the
      farm power, and a larger weight never lowers the objective. */
  lemma ObjectiveRiskTerm(farmPower: seq<real> -> real, y: seq<real>, omega: real, omega': real,
                          alpha: real, noise: seq<seq<real>>)
    requires ValidNoise(noise, |y|)
    requires 0.0 <= alpha <= 1.0
    requires 0.0 <= omega <= omega'
    ensures -farmPower(y) <= Objective(farmPower, y, omega, alpha, noise)
                          <= Objective(farmPower, y, omega', alpha, noise)
  {
    RiskAdjustedMonotone(farmPower(y), omega, omega', CvarPenalty(y, alpha, noise));
  }

  /** When no stress sample lies strictly above the quantile (for instance
      when all samples are equal), the objective is minus the farm power. */
  lemma ObjectiveWithoutTail(farmPower: seq<real> -> real, y: seq<real>, omega: real,
                             alpha: real, noise: seq<seq<real>>)
    requires ValidNoise(noise, |y|)
    requires 0.0 <= alpha <= 1.0
    requires var s := StressSamples(y, noise);
             forall i :: 0 <= i < |s| ==> s[i] <= Quantile(s, alpha)
    ensures Objective(farmPower, y, omega, alpha, noise) == -farmPower(y)
  {
    assert CvarPenalty(y, alpha, noise) == 0.0;
  }

  // ---------------------------------------------------------------------
  // The controller

  /** The bound-constrained local search (`scipy.optimize.minimize` with
      SLSQP over `objective_function`), seen from outside: from the call
      number (which stands for the random draws of that call), the warm
      start, the bounds, omega and alpha it produces a yaw vector. */
  type Minimizer = (nat, seq<real>, seq<Bound>, real, real) -> seq<real>

  /** `result.x` has the shape of `x0`. */
  ghost predicate PreservesLength(minimize: Minimizer)
  {
    forall call, x0, b, omega, alpha :: |minimize(call, x0, b, omega, alpha)| == |x0|
  }

  /** The hypothesis, not made by the source, that the search called as
      the controller calls it, with one (-30, 30) box per angle of the warm
      start, returns a point inside that box. */
  ghost predicate RespectsBounds(minimize: Minimizer)
  {
    forall call, x0, omega, alpha ::
      InBounds(minimize(call, x0, Bounds(|x0|), omega, alpha), Bounds(|x0|))
  }

  /** A search that always answers with all angles at 0. */
  function ZeroSearch(): Minimizer
  {
    (call: nat, x0: seq<real>, b: seq<Bound>, omega: real, alpha: real) => seq(|x0|, _ => 0.0)
  }

  /** Both hypotheses on the search can be met: the all-zero search keeps
      the length of its start and stays inside the controller's box. */
  lemma ZeroSearchRespectsBounds()
    ensures PreservesLength(ZeroSearch())
    ensures RespectsBounds(ZeroSearch())
  {
    forall call, x0, omega, alpha
      ensures InBounds(ZeroSearch()(call, x0, Bounds(|x0|), omega, alpha), Bounds(|x0|))
    {
      var y := ZeroSearch()(call, x0, Bounds(|x0|), omega, alpha);
      assert forall i :: 0 <= i < |y| ==> y[i] == 0.0;
    }
  }

  datatype ControllerOutput = ControllerOutput(optimalYaws: seq<real>, predictedPower: real, stressProxy: real)

  /** `cvar_mpc_controller`: run the search from the current yaws under the
      (-30, 30) bounds, then report the optimum, the farm power there and
      its stress proxy. */
  function Controller(minimize: Minimizer, farmPower: seq<real> -> real, call: nat,
                      currentYaws: seq<real>, omega: real, alpha: real): (r: ControllerOutput)
    requires PreservesLength(minimize)
    ensures r.optimalYaws == minimize(call, currentYaws, Bounds(|currentYaws|), omega, alpha)
    ensures |r.optimalYaws| == |currentYaws|
    ensures r.predictedPower == farmPower(r.optimalYaws)
    ensures r.stressProxy == AbsSum(r.optimalYaws) && r.stressProxy >= 0.0
  {
    var optimalYaws := minimize(call, currentYaws, Bounds(|currentYaws|), omega, alpha);
    ControllerOutput(optimalYaws, farmPower(optimalYaws), AbsSum(optimalYaws))
  }

  /** If the search respects its bounds, so does the controller's optimum,
      and its stress proxy is at most 30 degrees per turbine. */
  lemma ControllerWithinBounds(minimize: Minimizer, farmPower: seq<real> -> real, call: nat,
                               currentYaws: seq<real>, omega: real, alpha: real)
    requires PreservesLength(minimize) && RespectsBounds(minimize)
    ensures var r := Controller(minimize, farmPower, call, currentYaws, omega, alpha);
            && InBounds(r.optimalYaws, Bounds(|currentYaws|))
            && r.stressProxy <= (|currentYaws| as real) * YawUpper
  {
    var y := minimize(call, currentYaws, Bounds(|currentYaws|), omega, alpha);
    BoundedYaws(y);
  }
}
