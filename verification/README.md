# dc-egm core in Dafny

This project models the core of dc-egm, a Python package that solves
discrete–continuous dynamic choice models with the Endogenous Grid Method
(EGM). The model has three parts:

- **One EGM step** for a given period and state (`EgmStep`, in `egm_step.dfy`). It builds:
  - the next-period wealth matrix over (quadrature point, savings grid point), with the optional consumption floor;
  - the constant marginal-wealth matrix;
  - next-period consumption, by interpolating next period's policy and flattening in column-major ("F") order;
  - the quadrature expectations of value and marginal utility;
  - current consumption, by inverting the Euler equation;
  - the endogenous wealth grid.

  It then overwrites one policy slot and one value slot in place.
- **The state space of the toy consumption–retirement model** (`StateSpace`, in `state_space.dfy`). A triple loop enumerates every (period, lagged choice, exogenous process) triple and fills an indexer array. A separate function gives the feasible choice set, in which retirement is absorbing.
- **The terminal-period rule** (`FinalPeriod`, in `final_period.dfy`). In the final period everything is consumed.

Supporting modules:

- `Config` (`config.dfy`): parameters, options, and the two errors the core raises (a missing parameter key, and an index past the end of an empty array). The parameter table is a record with named fields. The consumption floor is the one optional entry.
- `Grids` (`grids.dfy`): dot products, weighted column sums, and the "F"-order flatten/reshape pair.
- `Interpolation` (`interpolation.dfy`): linear interpolation with linear extrapolation on a strictly increasing grid. This is the behaviour of `interp1d(kind="linear", fill_value="extrapolate")`.

Arithmetic is over exact reals. The following are function-typed parameters with no assumed behaviour beyond the lengths of their outputs:

- `exp`;
- inverse marginal utility;
- utility and marginal utility;
- the four value callbacks of the step.

Imperative code in the source stays imperative here:

- the triple enumeration loop;
- the per-choice fill of the consumption buffer;
- the masked clamp of the wealth matrix;
- the slice writes into the policy and value slots.

Each of these methods is proved against a pure function or a stated postcondition.

**Floor guard.** The guard at src/egm_step.py:189-192 is
`key in index or params[key] > 0`. Its `> 0` operand reads as if the floor
were meant to apply only when it is positive, but as written the first
operand decides whenever the key is present. The model follows the code as
written:

- When the key is present, the clamp always applies, even for a floor ≤ 0.
- When the key is absent, the second operand looks it up and fails with a missing-key error.

## Model

| member | source | states |
|---|---|---|
| EgmStep.NextPeriodWealth | src/egm_step.py:174-194 | The step fails with the missing-key error exactly when the floor key is absent; with the key present the result has shape (n_quad, n_grid) and every entry is at least the floor, equals `income[q]*state + savings[s]*(1+r)` (income of period+1 with shock quad_points[q]*sigma) when that is at least the floor, and is the floor otherwise |
| EgmStep.ClampBelow | src/egm_step.py:194 | The masked in-place assignment raises exactly the entries below the floor to the floor and leaves the others unchanged |
| EgmStep.GetNextPeriodWealthMatrix | src/egm_step.py:149-196 | Fills a fresh array and clamps it; fails with the same error as NextPeriodWealth, and on success the array holds exactly that matrix |
| EgmStep.OuterWealth | src/egm_step.py:183-185 | The (n_quad, n_grid) matrix before the floor: entry (q, s) is income[q]*state + savings[s]*(1+r) |
| EgmStep.MarginalWealthMatrix | src/egm_step.py:199-219 | Every entry of the (n_quad, n_grid) matrix is 1 + r |
| EgmStep.StochasticIncome | src/egm_step.py:347-392 | One income per shock: exp of the wage polynomial at age period + min_age plus that shock |
| EgmStep.LaborIncomeIsHorner | src/egm_step.py:382-388 | The dot product of the wage coefficients with the powers of age equals the nested-multiplication form of the same polynomial |
| EgmStep.LaborIncomeQuadratic | src/egm_step.py:386-388 | With three coefficients the wage equation is constant + alpha_1*age + alpha_2*age^2 |
| EgmStep.InterpolatedRow | src/egm_step.py:264-276 | The interpolated value at wealth (q, s) is stored at flat index q + s*n_quad |
| EgmStep.InterpolatedRowReshapes | src/egm_step.py:274-276 | Reshaping an interpolated row in "F" order gives back the interpolated value at every (q, s) |
| EgmStep.NextPeriodConsumption | src/egm_step.py:222-278 | Row k has length n_quad*n_grid and holds, at flat index q + s*n_quad, next period's choice-k policy interpolated at wealth[q][s] |
| EgmStep.GetNextPeriodConsumption | src/egm_step.py:254-278 | The loop over the choice range ([0] with fewer than two choices, else every choice) fills a fresh buffer equal to NextPeriodConsumption |
| EgmStep.SetRow | src/egm_step.py:274 | Row k of the buffer becomes the new row and every other row keeps its contents |
| EgmStep.ExpectedValue | src/egm_step.py:319-344 | Entry s is the weighted sum over q of row 0 of the next-period value at flat index q + s*n_quad |
| EgmStep.ExpectedValueOfConstant | src/egm_step.py:339-342 | With weights summing to one and a constant next-period value, the expected value is that constant at every grid point |
| EgmStep.ExpectedValueUsesChoiceZero | src/egm_step.py:341 | Next-period values that agree on choice row 0 give the same expected value |
| EgmStep.RhsEuler | src/egm_step.py:395-427 | One entry per grid point s: the weighted sum over q of the marginal utility at flat index q + s*n_quad times the marginal wealth at (q, s) |
| EgmStep.RhsEulerClosedForm | src/egm_step.py:395-427 | With the model's marginal-wealth matrix, rhs[s] is (1 + r) times the weighted sum of the marginal utilities at flat indices q + s*n_quad |
| EgmStep.ScaledMarginalUtility | src/egm_step.py:422-425 | The weighted column sum of the reshaped marginal utility times the constant 1 + r is (1 + r) times the weighted sum of block s |
| EgmStep.MarginalProductColumn | src/egm_step.py:418-424 | Entry (q, s) of the product of the reshaped marginal utility and the marginal-wealth matrix is entry q of block s times 1 + r |
| EgmStep.CurrentPeriodConsumption | src/egm_step.py:303-316 | Current consumption at s is the inverse marginal utility of beta times rhs[s] |
| EgmStep.CurrentConsumptionClosedForm | src/egm_step.py:303-314 | Current consumption at s is invMU(beta * (1 + r) * sum_q w[q] * mu[q + s*n_quad]) |
| EgmStep.EndogenousGrid | src/egm_step.py:133 | The endogenous grid minus the savings grid is current consumption, point by point |
| EgmStep.EgmStep | src/egm_step.py:93-133 | The step fails exactly when the floor key is absent; on success all outputs have length n_grid, the expected and current values are the callbacks' outputs on the wealth matrix and next-period values, the endogenous grid exceeds savings by consumption, and consumption is the closed-form Euler inversion of the next-period marginal utility |
| EgmStep.ComputeEgmStep | src/egm_step.py:93-133 | The imperative computation (fresh wealth array, fresh consumption buffer) returns exactly EgmStep of the container contents |
| EgmStep.WriteSlots | src/egm_step.py:139-144 | Columns 1.. of the value slot receive the endogenous grid and current value, its [1, 0] becomes expected_value[0] and its [0, 0] keeps its value; when the policy slot is a different array, its columns 1.. receive the endogenous grid and consumption and its column 0 keeps its values; when both are the same array the value writes, which come last, are what remains |
| EgmStep.DoEgmStep | src/egm_step.py:93-146 | Fails with the missing-key error exactly when the step does, and with an index error on expected_value[0] when the savings grid is empty, writing nothing in either case; otherwise only the slots [period][SlotIndex] of policy and value change, in exactly the entries WriteSlots states (aliased slots included), and the expected value is returned |
| EgmStep.SlotIndex | src/egm_step.py:137 | The slot is 0 with fewer than two choices and `state` otherwise, and it is an in-range slot whenever the state is a valid choice or there are fewer than two choices |
| StateSpace.CreateStateSpace | src/toy_models/consumption_retirement_model/state_space_objects.py:8-54 | The indexer has shape (n_periods, n_choices, n_exog) and maps every triple to (p*n_choices + c)*n_exog + e, so no -9999 sentinel remains; there are n_periods*n_choices*n_exog rows; row map[p,c,e] is [p,c,e]; each row is an in-range triple whose indexer entry is its own position; rows are in strictly increasing lexicographic order |
| StateSpace.RecordedStaysRecorded | src/toy_models/consumption_retirement_model/state_space_objects.py:45 | Writing index i for the triple whose position is i extends the recorded prefix of the indexer from i to i + 1 triples |
| StateSpace.EnumerationComplete | src/toy_models/consumption_retirement_model/state_space_objects.py:42-50 | Once all n_periods*n_choices*n_exog triples are recorded, the indexer and the rows are mutually inverse |
| StateSpace.RowsLexOrdered | src/toy_models/consumption_retirement_model/state_space_objects.py:42-48 | Rows that sit at their own enumeration index are in strictly increasing lexicographic order |
| StateSpace.FlatIndexBounds | src/toy_models/consumption_retirement_model/state_space_objects.py:41-50 | The counter value of every in-range triple lies in 0 .. n_periods*n_choices*n_exog - 1 |
| StateSpace.FlatIndexOrder | src/toy_models/consumption_retirement_model/state_space_objects.py:42-50 | One triple gets a smaller counter value than another exactly when it is lexicographically smaller |
| StateSpace.FlatIndexInjective | src/toy_models/consumption_retirement_model/state_space_objects.py:42-50 | Distinct in-range triples get distinct counter values |
| StateSpace.FeasibleChoiceSet | src/toy_models/consumption_retirement_model/state_space_objects.py:57-99 | The choices are exactly {1} when state[1] == 1 and exactly 0 .. n-1 otherwise, with n the second extent of the indexer, listed in strictly ascending order |
| StateSpace.RetirementAbsorbing | src/toy_models/consumption_retirement_model/state_space_objects.py:94-95 | A state with lagged choice 1 has exactly [1] as its feasible choices |
| StateSpace.WorkingChoicesAll | src/toy_models/consumption_retirement_model/state_space_objects.py:90-97 | Otherwise the feasible choices are 0 .. n-1, with n the second extent of the indexer: exactly those values, n of them, ascending |
| StateSpace.FeasibleChoiceSetIgnoresMap | src/toy_models/consumption_retirement_model/state_space_objects.py:59 | The map_state_to_index argument does not affect the result |
| FinalPeriod.SolveFinalPeriodScalar | src/toy_models/consumption_retirement_model/final_period_solution.py:39-43 | Consumption equals the begin-of-period resources; value and marginal utility are the callbacks evaluated at that consumption (and the choice, for utility) |
| FinalPeriod.FinalPeriodIgnoresContext | src/toy_models/consumption_retirement_model/final_period_solution.py:10-17 | The result is the same for any state, options and parameters, and nothing is saved |
| FinalPeriod.FinalPolicyCurve | src/toy_models/consumption_retirement_model/final_period_solution.py:39 | On a resource grid the final policy pairs each grid point with the consumption chosen there |
| FinalPeriod.FinalPolicyInterpolatesToIdentity | src/toy_models/consumption_retirement_model/final_period_solution.py:39 | On a strictly increasing grid the final policy is a valid curve that interpolates to the identity at every resource level, inside and outside the grid |
| FinalPeriod.ConsumptionBeforeFinalPeriod | src/egm_step.py:264-276 | When next period is the final one, next-period consumption at flat index q + s*n_quad equals next-period wealth[q][s] |
| Interpolation.Interp | src/egm_step.py:267-276 | The value lies on the straight line through the nodes of a segment j that contains the query, where the first segment also covers everything below the grid and the last everything above it |
| Interpolation.InterpOnSegment | src/egm_step.py:267-273 | Anywhere in [xs[j], xs[j+1]] the interpolant is the line of segment j, including at xs[j] itself |
| Interpolation.UpperIndex | src/egm_step.py:267-273 | The chosen segment end lies in 1 .. n-1, every grid point before it is below the query, and the query does not exceed it unless it is the last |
| Interpolation.InterpAtNode | src/egm_step.py:267-273 | At a grid node the interpolant returns the node's value |
| Interpolation.InterpBetweenNodes | src/egm_step.py:267-273 | Between two adjacent nodes the interpolant is the convex combination of their values with weight t in [0, 1] |
| Interpolation.InterpBelowGrid | src/egm_step.py:270-271 | Below the grid the first segment is extended, without error |
| Interpolation.InterpAboveGrid | src/egm_step.py:270-271 | Above the grid the last segment is extended, without error |
| Interpolation.InterpReproducesLine | src/egm_step.py:267-276 | Values sampled from any straight line are reproduced exactly, inside and outside the grid |
| Grids.ReshapeFlatten | src/egm_step.py:274-276 | Reshaping in "F" order undoes flattening in "F" order |
| Grids.FlattenReshape | src/egm_step.py:418-420 | Flattening in "F" order undoes reshaping in "F" order |
| Grids.ReshapeColumnsAreBlocks | src/egm_step.py:339-342 | Column s of an "F"-order reshape is the contiguous block of n_quad entries starting at s*n_quad |
| Grids.WeightedColumnSums | src/egm_step.py:339-342 | `np.dot(w.T, m)` has one entry per column, the weighted sum of that column |
| Grids.DotConstant | src/egm_step.py:339-342 | Weighting a constant vector gives the constant times the total weight |
| Grids.DotScale | src/egm_step.py:422-425 | The weighted sum is linear in the weighted vector |

## Left out

- Floating point: all arithmetic is over exact reals, and no IEEE rounding or overflow is modelled.
- `np.exp` in the stochastic income is an uninterpreted function parameter. Only the wage polynomial under it is modelled.
- `src/toy_models/consumption_retirement_model/utility_functions.py` is not part of this model. Utility, marginal utility and inverse marginal utility are uninterpreted callbacks, so no property that depends on their form (such as an inverse round trip) is stated.
- The four value callbacks of the step (next-period value, next-period marginal utility, expected value, current value) are uninterpreted. Only the lengths of their outputs are assumed. The source also passes them `params`, `options` and the utility function; the model treats those as captured in the callback.
- EgmStep.CurrentPeriodConsumption: the source hands the whole vector `beta * rhs` to the inverse-marginal-utility function. The model applies a scalar function entry by entry, so a callback that mixes entries is not captured.
- Interpolation.Interp: `interp1d` sorts an unsorted grid. The model instead requires every next-period curve it reads to have a strictly increasing grid of at least two points. The caller must supply such curves: the EGM step does not produce one, since the endogenous grid it writes is savings plus the output of the uninterpreted inverse marginal utility, and non-monotone endogenous grids are the case the package is built for.
- EgmStep.NextPeriodConsumption: it requires at least one discrete choice and a valid curve in every slot it reads. With zero choices the source writes row 0 of an empty buffer and fails with an index error; that failure is not modelled.
- EgmStep.EgmStep: it does not itself fail on an empty savings grid. The index error the source raises there, at the read of expected_value[0], belongs to the write phase and is stated by DoEgmStep.
- Shape errors in numpy (mismatched lengths, a slot that is not 2 x (1 + n_grid), and the broadcasting of length-1 outputs) become preconditions rather than modelled failures.
- The pandas parameter table and the options dictionary are records. Lookups of keys other than the consumption floor always succeed.
- StateSpace.CreateStateSpace: the rows are returned as a sequence of integer triples rather than an `np.int64` array, so the shape an empty enumeration gets from numpy is not modelled.
- StateSpace.FeasibleChoiceSet: the state's first component and the contents of both array arguments are not read by the source. Only the second extent of the indexer matters, and the model follows that.
