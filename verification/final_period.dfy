/**
 * The terminal-period rule of the consumption-retirement model: in the
 * last period the agent consumes all begin-of-period resources, and value
 * and marginal utility are those of consuming everything.  Utility and
 * marginal utility are supplied by the caller and stay uninterpreted.
 */
module FinalPeriod {
  import opened Config
  import opened Grids
  import opened Interpolation
  import opened EgmStep

  /** Consumption, value and marginal utility at one resource level. */
  datatype FinalSolution = FinalSolution(consumption: real, value: real, marginalUtility: real)

  /** The final-period solution at one resource level for one choice.  The
      state, the options and the parameters are accepted and ignored. */
  function SolveFinalPeriodScalar(state: seq<int>, resources: real, choice: int, options: Options, params: Params,
                                  utility: (real, int) -> real, marginalUtility: real -> real): (r: FinalSolution)
    ensures r.consumption == resources
    ensures r.value == utility(r.consumption, choice)
    ensures r.marginalUtility == marginalUtility(r.consumption)
  {
    FinalSolution(resources, utility(resources, choice), marginalUtility(resources))
  }

  /** Nothing is saved in the final period, whatever the state, options
      and parameters: the solution depends on resources, choice and the two
      callbacks only. */
  lemma FinalPeriodIgnoresContext(state: seq<int>, state': seq<int>, resources: real, choice: int,
                                  options: Options, options': Options, params: Params, params': Params,
                                  utility: (real, int) -> real, marginalUtility: real -> real)
    ensures var r := SolveFinalPeriodScalar(state, resources, choice, options, params, utility, marginalUtility);
      && r == SolveFinalPeriodScalar(state', resources, choice, options', params', utility, marginalUtility)
      && resources - r.consumption == 0.0
  {
  }

  /** The final-period policy on a grid of resource levels: the grid row
      and the consumption chosen at each grid point. */
  function FinalPolicyCurve(state: seq<int>, grid: seq<real>, choice: int, options: Options, params: Params,
                            utility: (real, int) -> real, marginalUtility: real -> real): (curve: Matrix)
    ensures IsMatrix(curve, 2, |grid|) && curve[0] == grid
    ensures forall k :: 0 <= k < |grid| ==>
      curve[1][k] == SolveFinalPeriodScalar(state, grid[k], choice, options, params, utility, marginalUtility).consumption
  {
    [grid, seq(|grid|, k requires 0 <= k < |grid| =>
      SolveFinalPeriodScalar(state, grid[k], choice, options, params, utility, marginalUtility).consumption)]
  }

  /** On a strictly increasing grid of at least two points the final policy
      is a curve the interpolator accepts, and it interpolates to the
      identity everywhere, inside and outside the grid: whatever the
      resources, the agent consumes them all. */
  lemma FinalPolicyInterpolatesToIdentity(state: seq<int>, grid: seq<real>, choice: int, options: Options,
                                          params: Params, utility: (real, int) -> real,
                                          marginalUtility: real -> real, x: real)
    requires |grid| >= 2 && StrictlyIncreasing(grid)
    ensures var curve := FinalPolicyCurve(state, grid, choice, options, params, utility, marginalUtility);
      IsNextCurve(curve) && Interp(curve[0], curve[1], x) == x
  {
    var curve := FinalPolicyCurve(state, grid, choice, options, params, utility, marginalUtility);
    forall k | 0 <= k < |grid|
      ensures curve[1][k] == 1.0 * curve[0][k] + 0.0
    {
    }
    InterpReproducesLine(curve[0], curve[1], 1.0, 0.0, x);
  }

  /** When next period is the final one, the next-period consumption row
      of the EGM step equals next-period wealth at every quadrature point
      and grid point: the agent will consume everything it will have. */
  lemma ConsumptionBeforeFinalPeriod(state: seq<int>, grid: seq<real>, choice: int, options: Options,
                                     params: Params, utility: (real, int) -> real,
                                     marginalUtility: real -> real, wealth: Matrix, nq: nat, ng: nat)
    requires |grid| >= 2 && StrictlyIncreasing(grid)
    requires IsMatrix(wealth, nq, ng)
    ensures var curve := FinalPolicyCurve(state, grid, choice, options, params, utility, marginalUtility);
      IsNextCurve(curve) &&
      forall q, s :: 0 <= q < nq && 0 <= s < ng ==>
        InterpolatedRow(curve, wealth, nq, ng)[ColumnMajorAt(q, s, nq, ng)] == wealth[q][s]
  {
    var curve := FinalPolicyCurve(state, grid, choice, options, params, utility, marginalUtility);
    forall q, s | 0 <= q < nq && 0 <= s < ng
      ensures InterpolatedRow(curve, wealth, nq, ng)[ColumnMajorAt(q, s, nq, ng)] == wealth[q][s]
    {
      FinalPolicyInterpolatesToIdentity(state, grid, choice, options, params, utility, marginalUtility, wealth[q][s]);
    }
    FinalPolicyInterpolatesToIdentity(state, grid, choice, options, params, utility, marginalUtility, 0.0);
  }
}
