/**
 * One step of the Endogenous Grid Method for a given (period, state):
 * next-period wealth under the income shock, next-period consumption by
 * interpolating next period's policy, the quadrature expectations of value
 * and marginal utility, the inversion of the Euler equation to current
 * consumption, and the in-place update of the policy and value containers.
 *
 * A container holds one 2 x L array per (period, choice) slot: row 0 is the
 * endogenous wealth grid, row 1 the consumption (policy) or value.
 */
module EgmStep {
  import opened Config
  import opened Grids
  import opened Interpolation

  type Container = seq<seq<array2<real>>>

  /** The contents of a 2-D array as a matrix of rows. */
  function Rows(a: array2<real>): (m: Matrix)
    reads a
    ensures IsMatrix(m, a.Length0, a.Length1)
    ensures forall i, j :: 0 <= i < a.Length0 && 0 <= j < a.Length1 ==> m[i][j] == a[i, j]
  {
    seq(a.Length0, i requires 0 <= i < a.Length0 reads a =>
      seq(a.Length1, j requires 0 <= j < a.Length1 reads a => a[i, j]))
  }

  /** Every slot array of a container. */
  function Slots(c: Container): set<array2<real>> {
    set p, k | 0 <= p < |c| && 0 <= k < |c[p]| :: c[p][k]
  }

  /** The contents of every slot of a container. */
  function View(c: Container): (v: seq<seq<Matrix>>)
    reads Slots(c)
    ensures |v| == |c|
    ensures forall p :: 0 <= p < |c| ==> |v[p]| == |c[p]|
    ensures forall p, k :: 0 <= p < |c| && 0 <= k < |c[p]| ==> v[p][k] == Rows(c[p][k])
  {
    seq(|c|, p requires 0 <= p < |c| reads Slots(c) =>
      seq(|c[p]|, k requires 0 <= k < |c[p]| reads Slots(c) => Rows(c[p][k])))
  }

  /** A container whose slot arrays a call left untouched shows the same
      contents as before the call. */
  twostate lemma ViewUnchanged(c: Container)
    requires forall p, k :: 0 <= p < |c| && 0 <= k < |c[p]| ==> unchanged(c[p][k])
    ensures View(c) == old(View(c))
  {
    var now, before := View(c), old(View(c));
    forall p | 0 <= p < |c|
      ensures now[p] == before[p]
    {
      forall k | 0 <= k < |c[p]|
        ensures now[p][k] == before[p][k]
      {
        assert Rows(c[p][k]) == old(Rows(c[p][k]));
      }
    }
  }

  /** A slot the interpolator can read: a grid row and a value row forming
      a valid curve. */
  predicate IsNextCurve(m: Matrix) {
    |m| == 2 && IsCurve(m[0], m[1])
  }

  // ---------------------------------------------------------------------
  // Stochastic income: deterministic wage polynomial in age
  // ---------------------------------------------------------------------

  function Pow(x: real, k: nat): real {
    if k == 0 then 1.0 else x * Pow(x, k - 1)
  }

  /** The vector age ** (0, 1, ..., n-1). */
  function AgePowers(age: int, n: nat): (p: seq<real>)
    ensures |p| == n
    ensures forall k :: 0 <= k < n ==> p[k] == Pow(age as real, k)
  {
    seq(n, k requires 0 <= k < n => Pow(age as real, k))
  }

  /** Deterministic log-income: coefficients (constant first) dotted with
      the powers of age. */
  function LaborIncome(coeffs: seq<real>, age: int): real {
    Dot(coeffs, AgePowers(age, |coeffs|))
  }

  /** Nested-multiplication form of a polynomial, an independent reference
      for LaborIncome. */
  function Horner(coeffs: seq<real>, x: real): real {
    if |coeffs| == 0 then 0.0 else coeffs[0] + x * Horner(coeffs[1..], x)
  }

  lemma {:induction false} LaborIncomeIsHorner(coeffs: seq<real>, age: int)
    ensures LaborIncome(coeffs, age) == Horner(coeffs, age as real)
  {
    if |coeffs| > 0 {
      var x := age as real;
      var tail := coeffs[1..];
      var powers := AgePowers(age, |coeffs|);
      LaborIncomeIsHorner(tail, age);
      DotScale(tail, powers[1..], AgePowers(age, |tail|), x);
      assert Dot(coeffs, powers) == coeffs[0] * 1.0 + Dot(tail, powers[1..]);
    }
  }

  /** With three coefficients the wage equation is
      constant + alpha_1 * age + alpha_2 * age^2. */
  lemma LaborIncomeQuadratic(c0: real, c1: real, c2: real, age: int)
    ensures LaborIncome([c0, c1, c2], age) == c0 + c1 * age as real + c2 * (age as real * age as real)
  {
    var x := age as real;
    LaborIncomeIsHorner([c0, c1, c2], age);
    assert [c0, c1, c2][1..] == [c1, c2];
    assert [c1, c2][1..] == [c2];
    assert [c2][1..] == [];
    assert Horner([c2], x) == c2;
    assert Horner([c1, c2], x) == c1 + x * c2;
    assert Horner([c0, c1, c2], x) == c0 + x * (c1 + x * c2);
  }

  /** Income in `period` under one shock: exp of the wage polynomial at age
      period + min_age plus the shock; `exp` is left uninterpreted. */
  function IncomeAt(period: int, shock: real, params: Params, options: Options, exp: real -> real): real {
    exp(LaborIncome(params.wage, period + options.minAge) + shock)
  }

  /** Income for `period` under each shock. */
  function StochasticIncome(period: int, shocks: seq<real>, params: Params, options: Options,
                            exp: real -> real): (income: seq<real>)
    ensures |income| == |shocks|
    ensures forall q :: 0 <= q < |shocks| ==> income[q] == IncomeAt(period, shocks[q], params, options, exp)
  {
    seq(|shocks|, q requires 0 <= q < |shocks| => IncomeAt(period, shocks[q], params, options, exp))
  }

  // ---------------------------------------------------------------------
  // Next-period wealth and marginal wealth
  // ---------------------------------------------------------------------

  /** Wealth from one income realisation and one savings level. */
  function Wealth(income: real, state: int, saving: real, r: real): real {
    income * state as real + saving * (1.0 + r)
  }

  /** Wealth next period before the floor, for every (income, savings) pair. */
  function OuterWealth(income: seq<real>, state: int, savings: seq<real>, r: real): (m: Matrix)
    ensures IsMatrix(m, |income|, |savings|)
    ensures forall q, s :: 0 <= q < |income| && 0 <= s < |savings| ==>
      m[q][s] == Wealth(income[q], state, savings[s], r)
  {
    seq(|income|, q requires 0 <= q < |income| =>
      seq(|savings|, s requires 0 <= s < |savings| => Wealth(income[q], state, savings[s], r)))
  }

  /** Raise every entry below `floor` to `floor` (the masked assignment
      m[m < floor] = floor). */
  function Clamp(m: Matrix, rows: nat, cols: nat, floor: real): (c: Matrix)
    requires IsMatrix(m, rows, cols)
    ensures IsMatrix(c, rows, cols)
    ensures forall q, s :: 0 <= q < rows && 0 <= s < cols ==>
      c[q][s] >= floor && (m[q][s] >= floor ==> c[q][s] == m[q][s]) && (m[q][s] < floor ==> c[q][s] == floor)
  {
    seq(rows, q requires 0 <= q < rows =>
      seq(cols, s requires 0 <= s < cols => if m[q][s] < floor then floor else m[q][s]))
  }

  /** shocks = quad_points * sigma. */
  function Shocks(quadPoints: seq<real>, params: Params): (shocks: seq<real>)
    ensures |shocks| == |quadPoints|
    ensures forall q :: 0 <= q < |quadPoints| ==> shocks[q] == quadPoints[q] * params.sigma
  {
    seq(|quadPoints|, q requires 0 <= q < |quadPoints| => quadPoints[q] * params.sigma)
  }

  /** Income realisation q of next period: the shock is quad_point * sigma. */
  function NextIncome(period: int, quadPoint: real, params: Params, options: Options, exp: real -> real): real {
    IncomeAt(period + 1, quadPoint * params.sigma, params, options, exp)
  }

  /** The next-period wealth matrix, or the lookup failure of the floor
      guard.  The guard `key in index or params[key] > 0` clamps whenever
      the floor key is present, whatever its sign, and looks the key up
      (and fails) when it is absent. */
  function NextPeriodWealth(period: int, state: int, savings: seq<real>, quadPoints: seq<real>,
                            params: Params, options: Options, exp: real -> real): (r: Result<Matrix>)
    requires |savings| == options.gridPointsWealth && |quadPoints| == options.quadraturePointsStochastic
    ensures r.Failure? <==> params.consumptionFloor.None?
    ensures r.Failure? ==> r.error == MissingKey("assets", "consumption_floor")
    ensures r.Success? ==> IsMatrix(r.value, |quadPoints|, |savings|)
    ensures r.Success? ==> forall q, s :: 0 <= q < |quadPoints| && 0 <= s < |savings| ==>
      var floor := params.consumptionFloor.value;
      var raw := NextIncome(period, quadPoints[q], params, options, exp) * state as real
                 + savings[s] * (1.0 + params.interestRate);
      r.value[q][s] >= floor && (raw >= floor ==> r.value[q][s] == raw) && (raw < floor ==> r.value[q][s] == floor)
  {
    var income := StochasticIncome(period + 1, Shocks(quadPoints, params), params, options, exp);
    var wealth := OuterWealth(income, state, savings, params.interestRate);
    match params.consumptionFloor
    case None => Failure(MissingKey("assets", "consumption_floor"))
    case Some(floor) => Success(Clamp(wealth, |quadPoints|, |savings|, floor))
  }

  /** In-place masked clamp of a wealth matrix. */
  method ClampBelow(m: array2<real>, floor: real)
    modifies m
    ensures Rows(m) == Clamp(old(Rows(m)), m.Length0, m.Length1, floor)
  {
    ghost var before := Rows(m);
    forall q, s | 0 <= q < m.Length0 && 0 <= s < m.Length1 && m[q, s] < floor {
      m[q, s] := floor;
    }
    MatrixExtensionality(Rows(m), Clamp(before, m.Length0, m.Length1, floor), m.Length0, m.Length1);
  }

  /** Builds the next-period wealth matrix as a fresh (n_quad, n_grid)
      array and clamps it in place. */
  method GetNextPeriodWealthMatrix(period: int, state: int, savings: seq<real>, quadPoints: seq<real>,
                                   params: Params, options: Options, exp: real -> real)
    returns (r: Result<array2<real>>)
    requires |savings| == options.gridPointsWealth && |quadPoints| == options.quadraturePointsStochastic
    ensures r.Success? ==> fresh(r.value)
    ensures var spec := NextPeriodWealth(period, state, savings, quadPoints, params, options, exp);
      r.Failure? == spec.Failure? &&
      (r.Failure? ==> r.error == spec.error) &&
      (r.Success? ==> Rows(r.value) == spec.value)
  {
    var nq, ng := options.quadraturePointsStochastic, options.gridPointsWealth;
    var income := StochasticIncome(period + 1, Shocks(quadPoints, params), params, options, exp);
    var m := new real[nq, ng];
    forall q, s | 0 <= q < nq && 0 <= s < ng {
      m[q, s] := Wealth(income[q], state, savings[s], params.interestRate);
    }
    ghost var outer := OuterWealth(income, state, savings, params.interestRate);
    ghost var built := Rows(m);
    forall q, s | 0 <= q < nq && 0 <= s < ng
      ensures built[q][s] == outer[q][s]
    {
      assert built[q][s] == m[q, s];
    }
    MatrixExtensionality(built, outer, nq, ng);
    match params.consumptionFloor {
      case None =>
        return Failure(MissingKey("assets", "consumption_floor"));
      case Some(floor) =>
        ClampBelow(m, floor);
        assert Rows(m) == Clamp(outer, nq, ng, floor);
        return Success(m);
    }
  }

  /** Derivative of next-period wealth with respect to savings: the
      constant 1 + r at every (quadrature point, grid point). */
  function MarginalWealthMatrix(params: Params, options: Options): (m: Matrix)
    ensures IsMatrix(m, options.quadraturePointsStochastic, options.gridPointsWealth)
    ensures forall q, s :: 0 <= q < options.quadraturePointsStochastic && 0 <= s < options.gridPointsWealth ==>
      m[q][s] == 1.0 + params.interestRate
  {
    seq(options.quadraturePointsStochastic, q =>
      seq(options.gridPointsWealth, s => 1.0 + params.interestRate))
  }

  // ---------------------------------------------------------------------
  // Next-period consumption by interpolation
  // ---------------------------------------------------------------------

  /** Next period's policy `curve` evaluated at every entry of the wealth
      matrix, flattened in "F" order. */
  function InterpolatedRow(curve: Matrix, wealth: Matrix, nq: nat, ng: nat): (row: seq<real>)
    requires IsNextCurve(curve) && IsMatrix(wealth, nq, ng)
    ensures |row| == nq * ng
    ensures forall q, s :: 0 <= q < nq && 0 <= s < ng ==>
      row[ColumnMajorAt(q, s, nq, ng)] == Interp(curve[0], curve[1], wealth[q][s])
  {
    FlattenF(InterpolatedMatrix(curve, wealth, nq, ng), nq, ng)
  }

  function InterpolatedMatrix(curve: Matrix, wealth: Matrix, nq: nat, ng: nat): (m: Matrix)
    requires IsNextCurve(curve) && IsMatrix(wealth, nq, ng)
    ensures IsMatrix(m, nq, ng)
  {
    seq(nq, q requires 0 <= q < nq =>
      seq(ng, s requires 0 <= s < ng => Interp(curve[0], curve[1], wealth[q][s])))
  }

  /** Reshaping a consumption row in "F" order gives back the matrix of
      interpolated values, entry for entry. */
  lemma InterpolatedRowReshapes(curve: Matrix, wealth: Matrix, nq: nat, ng: nat)
    requires IsNextCurve(curve) && IsMatrix(wealth, nq, ng)
    ensures var m := ReshapeF(InterpolatedRow(curve, wealth, nq, ng), nq, ng);
      forall q, s :: 0 <= q < nq && 0 <= s < ng ==> m[q][s] == Interp(curve[0], curve[1], wealth[q][s])
  {
    ReshapeFlatten(InterpolatedMatrix(curve, wealth, nq, ng), nq, ng);
  }

  /** What get_next_period_consumption needs from next period's policy:
      a policy slot with a valid curve for every choice it reads. */
  predicate NextPolicyOk(period: int, policy: seq<seq<Matrix>>, options: Options) {
    && 0 <= period && period + 1 < |policy|
    && options.nDiscreteChoices >= 1
    && |policy[period + 1]| >= options.nDiscreteChoices
    && AllCurves(policy[period + 1], options.nDiscreteChoices)
  }

  predicate AllCurves(slots: seq<Matrix>, n: nat)
    requires n <= |slots|
  {
    forall k :: 0 <= k < n ==> IsNextCurve(slots[k])
  }

  /** Row k: next period's choice-k policy at every wealth realisation. */
  function NextPeriodConsumption(period: int, policy: seq<seq<Matrix>>, wealth: Matrix, options: Options): (c: Matrix)
    requires NextPolicyOk(period, policy, options)
    requires IsMatrix(wealth, options.quadraturePointsStochastic, options.gridPointsWealth)
    ensures IsMatrix(c, options.nDiscreteChoices, options.quadraturePointsStochastic * options.gridPointsWealth)
    ensures var nq, ng := options.quadraturePointsStochastic, options.gridPointsWealth;
      forall k, q, s :: 0 <= k < options.nDiscreteChoices && 0 <= q < nq && 0 <= s < ng ==>
        c[k][ColumnMajorAt(q, s, nq, ng)] == Interp(policy[period + 1][k][0], policy[period + 1][k][1], wealth[q][s])
  {
    seq(options.nDiscreteChoices, k requires 0 <= k < options.nDiscreteChoices =>
      InterpolatedRow(policy[period + 1][k], wealth, options.quadraturePointsStochastic, options.gridPointsWealth))
  }

  /** Overwrites row k of `buf` with `row`; every other row keeps its
      entries. */
  method SetRow(buf: array2<real>, k: nat, row: seq<real>)
    requires k < buf.Length0 && |row| == buf.Length1
    modifies buf
    ensures Rows(buf) == old(Rows(buf))[k := row]
  {
    ghost var before := Rows(buf);
    forall j | 0 <= j < buf.Length1 {
      buf[k, j] := row[j];
    }
    MatrixExtensionality(Rows(buf), before[k := row], buf.Length0, buf.Length1);
  }

  /** Fills a fresh (n_choices, n_quad * n_grid) buffer row by row. */
  method GetNextPeriodConsumption(period: int, policy: Container, wealth: Matrix, options: Options)
    returns (buf: array2<real>)
    requires NextPolicyOk(period, View(policy), options)
    requires IsMatrix(wealth, options.quadraturePointsStochastic, options.gridPointsWealth)
    ensures fresh(buf)
    ensures Rows(buf) == NextPeriodConsumption(period, old(View(policy)), wealth, options)
  {
    var nC, nq, ng := options.nDiscreteChoices, options.quadraturePointsStochastic, options.gridPointsWealth;
    ghost var spec := NextPeriodConsumption(period, View(policy), wealth, options);
    ghost var curves := View(policy)[period + 1];
    buf := new real[nC, nq * ng];
    // The choice range is [0] with fewer than two choices and 0 .. nC-1
    // otherwise; since nC >= 1 it covers every row of the buffer.
    var nFilled := if nC < 2 then 1 else nC;
    var k := 0;
    while k < nFilled
      invariant 0 <= k <= nFilled == nC
      invariant forall k' :: 0 <= k' < k ==> Rows(buf)[k'] == spec[k']
    {
      var curve := Rows(policy[period + 1][k]);
      SetRow(buf, k, InterpolatedRow(curve, wealth, nq, ng));
      k := k + 1;
    }
  }

  // ---------------------------------------------------------------------
  // Quadrature: expected value and the Euler equation
  // ---------------------------------------------------------------------

  /** Expected next-period value at every savings grid point, from choice
      row 0 of `nextValue` reshaped in "F" order to the shape of `wealth`
      (which is used for its shape only). */
  function ExpectedValue(nextValue: Matrix, wealth: Matrix, ng: nat, weights: seq<real>): (ev: seq<real>)
    requires IsMatrix(wealth, |weights|, ng)
    requires |nextValue| >= 1 && |nextValue[0]| == |weights| * ng
    ensures |ev| == ng
    ensures forall s :: 0 <= s < ng ==> ev[s] == Dot(weights, QuadBlock(nextValue[0], |weights|, ng, s))
  {
    ReshapeColumnsAreBlocks(nextValue[0], |weights|, ng);
    WeightedColumnSums(weights, ReshapeF(nextValue[0], |weights|, ng), ng)
  }

  /** With weights summing to one and a constant next-period value the
      expected value is that constant at every grid point. */
  lemma ExpectedValueOfConstant(nextValue: Matrix, wealth: Matrix, ng: nat, weights: seq<real>, v: real)
    requires IsMatrix(wealth, |weights|, ng)
    requires |nextValue| >= 1 && |nextValue[0]| == |weights| * ng
    requires Sum(weights) == 1.0
    requires forall k :: 0 <= k < |nextValue[0]| ==> nextValue[0][k] == v
    ensures forall s :: 0 <= s < ng ==> ExpectedValue(nextValue, wealth, ng, weights)[s] == v
  {
    forall s | 0 <= s < ng
      ensures ExpectedValue(nextValue, wealth, ng, weights)[s] == v
    {
      var block := QuadBlock(nextValue[0], |weights|, ng, s);
      DotConstant(weights, block, v);
    }
  }

  /** Only choice row 0 of the next-period value enters the expectation:
      values that agree on row 0 give the same expected value. */
  lemma ExpectedValueUsesChoiceZero(nextValue: Matrix, nextValue': Matrix, wealth: Matrix, ng: nat, weights: seq<real>)
    requires IsMatrix(wealth, |weights|, ng)
    requires |nextValue| >= 1 && |nextValue'| >= 1 && nextValue[0] == nextValue'[0]
    requires |nextValue[0]| == |weights| * ng
    ensures ExpectedValue(nextValue, wealth, ng, weights) == ExpectedValue(nextValue', wealth, ng, weights)
  {
  }

  /** Marginal utility of grid point s (flat indices q + s * n_quad) times
      the marginal wealth of that grid point, one entry per quadrature point. */
  function ScaledBlock(marginalUtility: seq<real>, margWealth: Matrix, nq: nat, ng: nat, s: nat): (b: seq<real>)
    requires IsMatrix(margWealth, nq, ng) && |marginalUtility| == nq * ng && s < ng
    ensures |b| == nq
  {
    seq(nq, q requires 0 <= q < nq => marginalUtility[ColumnMajorAt(q, s, nq, ng)] * margWealth[q][s])
  }

  /** Column s of the reshaped marginal utility times marginal wealth is
      the scaled block of grid point s. */
  lemma ScaledBlockIsColumn(marginalUtility: seq<real>, margWealth: Matrix, nq: nat, ng: nat, s: nat)
    requires IsMatrix(margWealth, nq, ng) && |marginalUtility| == nq * ng && s < ng
    ensures Column(Hadamard(ReshapeF(marginalUtility, nq, ng), margWealth, nq, ng), ng, s)
         == ScaledBlock(marginalUtility, margWealth, nq, ng, s)
  {
    var col := Column(Hadamard(ReshapeF(marginalUtility, nq, ng), margWealth, nq, ng), ng, s);
    var block := ScaledBlock(marginalUtility, margWealth, nq, ng, s);
    forall q | 0 <= q < nq
      ensures col[q] == block[q]
    {
    }
  }

  /** Right-hand side of the Euler equation: marginal utility reshaped in
      "F" order, times marginal wealth, summed over the quadrature axis. */
  function RhsEuler(marginalUtility: seq<real>, wealth: Matrix, ng: nat, margWealth: Matrix,
                    weights: seq<real>): (rhs: seq<real>)
    requires IsMatrix(wealth, |weights|, ng) && IsMatrix(margWealth, |weights|, ng)
    requires |marginalUtility| == |weights| * ng
    ensures |rhs| == ng
    ensures forall s :: 0 <= s < ng ==>
      rhs[s] == Dot(weights, ScaledBlock(marginalUtility, margWealth, |weights|, ng, s))
  {
    var nq := |weights|;
    forall s | 0 <= s < ng {
      ScaledBlockIsColumn(marginalUtility, margWealth, nq, ng, s);
    }
    WeightedColumnSums(weights, Hadamard(ReshapeF(marginalUtility, nq, ng), margWealth, nq, ng), ng)
  }

  /** Entry (q, s) of mu (reshaped in "F" order) times the marginal wealth
      matrix is entry q of block s of mu times (1 + r). */
  lemma MarginalProductColumn(marginalUtility: seq<real>, nq: nat, params: Params, options: Options, s: nat)
    requires options.quadraturePointsStochastic == nq
    requires |marginalUtility| == nq * options.gridPointsWealth
    requires s < options.gridPointsWealth
    ensures var ng := options.gridPointsWealth;
      var product := Hadamard(ReshapeF(marginalUtility, nq, ng), MarginalWealthMatrix(params, options), nq, ng);
      var block := QuadBlock(marginalUtility, nq, ng, s);
      forall q :: 0 <= q < nq ==> product[q][s] == block[q] * (1.0 + params.interestRate)
  {
    var ng := options.gridPointsWealth;
    var reshaped := ReshapeF(marginalUtility, nq, ng);
    var block := QuadBlock(marginalUtility, nq, ng, s);
    forall q | 0 <= q < nq
      ensures reshaped[q][s] == block[q]
    {
    }
  }

  /** Column s of mu (reshaped) times the constant marginal wealth, summed
      with the quadrature weights, is (1 + r) times the weighted block s.
      Not inductive; automatic induction is switched off because the
      induction hypothesis it would add swamps the solver. */
  lemma {:induction false} ScaledMarginalUtility(marginalUtility: seq<real>, weights: seq<real>,
                                                 params: Params, options: Options, s: nat)
    requires options.quadraturePointsStochastic == |weights|
    requires |marginalUtility| == |weights| * options.gridPointsWealth
    requires s < options.gridPointsWealth
    ensures var nq, ng := |weights|, options.gridPointsWealth;
      var product := Hadamard(ReshapeF(marginalUtility, nq, ng), MarginalWealthMatrix(params, options), nq, ng);
      WeightedColumnSums(weights, product, ng)[s]
        == (1.0 + params.interestRate) * Dot(weights, QuadBlock(marginalUtility, nq, ng, s))
  {
    var nq, ng := |weights|, options.gridPointsWealth;
    var product := Hadamard(ReshapeF(marginalUtility, nq, ng), MarginalWealthMatrix(params, options), nq, ng);
    MarginalProductColumn(marginalUtility, nq, params, options, s);
    WeightedColumnScaled(weights, product, ng, s, 1.0 + params.interestRate, QuadBlock(marginalUtility, nq, ng, s));
  }

  /** Closed form of the Euler right-hand side at grid point s: (1 + r)
      times the weighted sum of block s of the marginal utilities. */
  function ClosedFormRhs(marginalUtility: seq<real>, weights: seq<real>, ng: nat, params: Params, s: nat): real
    requires |marginalUtility| == |weights| * ng && s < ng
  {
    (1.0 + params.interestRate) * Dot(weights, QuadBlock(marginalUtility, |weights|, ng, s))
  }

  /** With the marginal wealth matrix of the model the Euler right-hand
      side at grid point s is (1 + r) times the weighted sum of the
      marginal utilities of grid point s. */
  lemma RhsEulerClosedForm(marginalUtility: seq<real>, wealth: Matrix, weights: seq<real>,
                                              params: Params, options: Options, s: nat)
    requires options.quadraturePointsStochastic == |weights|
    requires IsMatrix(wealth, |weights|, options.gridPointsWealth)
    requires |marginalUtility| == |weights| * options.gridPointsWealth
    requires s < options.gridPointsWealth
    ensures RhsEuler(marginalUtility, wealth, options.gridPointsWealth, MarginalWealthMatrix(params, options), weights)[s]
         == ClosedFormRhs(marginalUtility, weights, options.gridPointsWealth, params, s)
  {
    ScaledMarginalUtility(marginalUtility, weights, params, options, s);
  }

  /** Discounting by beta. */
  function Discount(params: Params, x: real): real {
    params.beta * x
  }

  /** Current consumption by inverting the Euler equation pointwise:
      invMU(beta * rhs[s]). */
  function CurrentPeriodConsumption(marginalUtility: seq<real>, wealth: Matrix, ng: nat, margWealth: Matrix,
                                    weights: seq<real>, params: Params, invMU: real -> real): (c: seq<real>)
    requires IsMatrix(wealth, |weights|, ng) && IsMatrix(margWealth, |weights|, ng)
    requires |marginalUtility| == |weights| * ng
    ensures |c| == ng
    ensures forall s :: 0 <= s < ng ==>
      c[s] == invMU(Discount(params, RhsEuler(marginalUtility, wealth, ng, margWealth, weights)[s]))
  {
    var rhs := RhsEuler(marginalUtility, wealth, ng, margWealth, weights);
    seq(ng, s requires 0 <= s < ng => invMU(Discount(params, rhs[s])))
  }

  /** Current consumption in closed form:
      invMU(beta * (1 + r) * sum_q w[q] * mu[q + s * n_quad]). */
  lemma CurrentConsumptionClosedForm(marginalUtility: seq<real>, wealth: Matrix, weights: seq<real>,
                                     params: Params, options: Options, invMU: real -> real)
    requires options.quadraturePointsStochastic == |weights|
    requires IsMatrix(wealth, |weights|, options.gridPointsWealth)
    requires |marginalUtility| == |weights| * options.gridPointsWealth
    ensures var ng := options.gridPointsWealth;
      var c := CurrentPeriodConsumption(marginalUtility, wealth, ng, MarginalWealthMatrix(params, options),
                                        weights, params, invMU);
      forall s :: 0 <= s < ng ==>
        c[s] == invMU(Discount(params, ClosedFormRhs(marginalUtility, weights, ng, params, s)))
  {
    forall s | 0 <= s < options.gridPointsWealth {
      RhsEulerClosedForm(marginalUtility, wealth, weights, params, options, s);
    }
  }

  // ---------------------------------------------------------------------
  // Endogenous grid and the step itself
  // ---------------------------------------------------------------------

  /** The wealth that induces each savings level: savings + consumption. */
  function EndogenousGrid(savings: seq<real>, consumption: seq<real>): (grid: seq<real>)
    requires |savings| == |consumption|
    ensures |grid| == |savings|
    ensures forall s :: 0 <= s < |savings| ==> grid[s] - savings[s] == consumption[s]
  {
    seq(|savings|, s requires 0 <= s < |savings| => savings[s] + consumption[s])
  }

  /** Slot written by the step: 0 without a discrete choice, else `state`. */
  function SlotIndex(state: int, nChoices: nat): (i: int)
    ensures nChoices < 2 ==> i == 0
    ensures nChoices >= 2 ==> i == state
    ensures 0 <= state < nChoices || nChoices < 2 ==> 0 <= i < if nChoices < 2 then 1 else nChoices
  {
    if nChoices < 2 then 0 else state
  }

  /** The caller-supplied functions of the step; the utility function is
      captured by the value callbacks. */
  datatype Callbacks = Callbacks(
    nextPeriodValue: (int, seq<seq<Matrix>>, Matrix) -> Matrix,
    nextPeriodMarginalUtility: (int, Matrix, Matrix) -> seq<real>,
    expectedValue: (int, Matrix, Matrix, seq<real>) -> seq<real>,
    currentPeriodValue: (int, seq<real>, seq<real>) -> seq<real>,
    invMarginalUtility: real -> real)

  /** The only assumption on the callbacks: the lengths of their outputs. */
  ghost predicate WellShaped(cb: Callbacks, nq: nat, ng: nat) {
    && (forall st, c, v :: |cb.nextPeriodMarginalUtility(st, c, v)| == nq * ng)
    && (forall st, v, w, wt :: |cb.expectedValue(st, v, w, wt)| == ng)
    && (forall st, c, ev :: |cb.currentPeriodValue(st, c, ev)| == ng)
  }

  ghost predicate StepInputsOk(period: int, policy: seq<seq<Matrix>>, savings: seq<real>, quadPoints: seq<real>,
                         weights: seq<real>, options: Options, cb: Callbacks) {
    && |savings| == options.gridPointsWealth
    && |quadPoints| == |weights| == options.quadraturePointsStochastic
    && NextPolicyOk(period, policy, options)
    && WellShaped(cb, options.quadraturePointsStochastic, options.gridPointsWealth)
  }

  datatype StepOutput = StepOutput(
    endogGrid: seq<real>,
    consumption: seq<real>,
    currentValue: seq<real>,
    expectedValue: seq<real>)

  /** Everything one EGM step computes before it writes, from the contents
      of the containers. */
  function EgmStep(period: int, state: int, policy: seq<seq<Matrix>>, value: seq<seq<Matrix>>,
                   savings: seq<real>, quadPoints: seq<real>, weights: seq<real>,
                   params: Params, options: Options, cb: Callbacks, exp: real -> real): (r: Result<StepOutput>)
    requires StepInputsOk(period, policy, savings, quadPoints, weights, options, cb)
    ensures r.Failure? <==> params.consumptionFloor.None?
    ensures r.Success? ==>
      var out := r.value;
      var ng := |savings|;
      var wealth := NextPeriodWealth(period, state, savings, quadPoints, params, options, exp).value;
      var nextV := cb.nextPeriodValue(period, value, wealth);
      var nextMU := cb.nextPeriodMarginalUtility(state, NextPeriodConsumption(period, policy, wealth, options), nextV);
      && |out.endogGrid| == |out.consumption| == |out.currentValue| == |out.expectedValue| == ng
      && out.expectedValue == cb.expectedValue(state, nextV, wealth, weights)
      && out.currentValue == cb.currentPeriodValue(state, out.consumption, out.expectedValue)
      && (forall s :: 0 <= s < ng ==> out.endogGrid[s] - savings[s] == out.consumption[s])
      && (forall s :: 0 <= s < ng ==>
            out.consumption[s] == cb.invMarginalUtility(Discount(params, ClosedFormRhs(nextMU, weights, ng, params, s))))
  {
    match NextPeriodWealth(period, state, savings, quadPoints, params, options, exp)
    case Failure(e) => Failure(e)
    case Success(wealth) =>
      var ng := options.gridPointsWealth;
      var marg := MarginalWealthMatrix(params, options);
      var nextC := NextPeriodConsumption(period, policy, wealth, options);
      var nextV := cb.nextPeriodValue(period, value, wealth);
      var nextMU := cb.nextPeriodMarginalUtility(state, nextC, nextV);
      var c := CurrentPeriodConsumption(nextMU, wealth, ng, marg, weights, params, cb.invMarginalUtility);
      CurrentConsumptionClosedForm(nextMU, wealth, weights, params, options, cb.invMarginalUtility);
      var ev := cb.expectedValue(state, nextV, wealth, weights);
      var cv := cb.currentPeriodValue(state, c, ev);
      Success(StepOutput(EndogenousGrid(savings, c), c, cv, ev))
  }

  /** The slot arrays the step writes: 2 x (1 + n_grid) arrays, possibly
      the same array. */
  predicate SlotWritable(policy: Container, value: Container, period: int, index: int, ng: nat) {
    && 0 <= period < |policy| && period < |value|
    && 0 <= index < |policy[period]| && index < |value[period]|
    && policy[period][index].Length0 == 2 && policy[period][index].Length1 == ng + 1
    && value[period][index].Length0 == 2 && value[period][index].Length1 == ng + 1
  }

  /** The values of one EGM step computed from the containers, which it
      only reads: the wealth matrix is built in a fresh array and next
      period's consumption in a fresh buffer. */
  method ComputeEgmStep(period: int, state: int, policy: Container, value: Container,
                        savings: seq<real>, quadPoints: seq<real>, weights: seq<real>,
                        params: Params, options: Options, cb: Callbacks, exp: real -> real)
    returns (r: Result<StepOutput>)
    requires StepInputsOk(period, View(policy), savings, quadPoints, weights, options, cb)
    ensures r == EgmStep(period, state, View(policy), View(value), savings, quadPoints, weights,
                         params, options, cb, exp)
  {
    var ng := options.gridPointsWealth;

    // 1) Policy: current period consumption
    var wealthOrError := GetNextPeriodWealthMatrix(period, state, savings, quadPoints, params, options, exp);
    if wealthOrError.Failure? {
      return Failure(wealthOrError.error);
    }
    var wealth := Rows(wealthOrError.value);
    var marg := MarginalWealthMatrix(params, options);
    ViewUnchanged(policy);
    var nextCBuffer := GetNextPeriodConsumption(period, policy, wealth, options);
    ViewUnchanged(policy);
    ViewUnchanged(value);
    var nextC := Rows(nextCBuffer);
    var nextV := cb.nextPeriodValue(period, View(value), wealth);
    var nextMU := cb.nextPeriodMarginalUtility(state, nextC, nextV);
    var c := CurrentPeriodConsumption(nextMU, wealth, ng, marg, weights, params, cb.invMarginalUtility);

    // 2) Value function: current period value
    var ev := cb.expectedValue(state, nextV, wealth, weights);
    var cv := cb.currentPeriodValue(state, c, ev);

    // 3) Endogenous wealth grid
    r := Success(StepOutput(EndogenousGrid(savings, c), c, cv, ev));
  }

  /** Writes one step's output into a policy slot P and a value slot V:
      columns 1.. of both rows, and the expected value at V[1, 0].  The
      value writes come last, so when P and V are the same array they win. */
  method WriteSlots(P: array2<real>, V: array2<real>, out: StepOutput)
    requires P.Length0 == 2 && V.Length0 == 2
    requires P.Length1 == V.Length1 == |out.endogGrid| + 1
    requires |out.consumption| == |out.currentValue| == |out.endogGrid| == |out.expectedValue| >= 1
    modifies P, V
    ensures forall j :: 1 <= j < V.Length1 ==> V[0, j] == out.endogGrid[j - 1] && V[1, j] == out.currentValue[j - 1]
    ensures V[0, 0] == old(V[0, 0]) && V[1, 0] == out.expectedValue[0]
    ensures P != V ==>
      && (forall j :: 1 <= j < P.Length1 ==> P[0, j] == out.endogGrid[j - 1] && P[1, j] == out.consumption[j - 1])
      && P[0, 0] == old(P[0, 0]) && P[1, 0] == old(P[1, 0])
  {
    forall j | 1 <= j < P.Length1 {
      P[0, j] := out.endogGrid[j - 1];
    }
    forall j | 1 <= j < P.Length1 {
      P[1, j] := out.consumption[j - 1];
    }
    forall j | 1 <= j < V.Length1 {
      V[0, j] := out.endogGrid[j - 1];
    }
    forall j | 1 <= j < V.Length1 {
      V[1, j] := out.currentValue[j - 1];
    }
    V[1, 0] := out.expectedValue[0];
  }

  /** One EGM step for (period, state).  Reads next period's containers,
      then overwrites columns 1.. of both rows of the policy and value
      slots [period][SlotIndex(state)] and the value at column 0 of the
      value row; column 0 of both grid rows and of the policy row keeps
      its old entry.  Returns the expected value.  With an empty savings
      grid the slice writes change nothing and reading expected_value[0]
      fails. */
  method DoEgmStep(period: int, state: int, policy: Container, value: Container,
                   savings: seq<real>, quadPoints: seq<real>, weights: seq<real>,
                   params: Params, options: Options, cb: Callbacks, exp: real -> real)
    returns (r: Result<seq<real>>)
    requires StepInputsOk(period, View(policy), savings, quadPoints, weights, options, cb)
    requires SlotWritable(policy, value, period, SlotIndex(state, options.nDiscreteChoices), |savings|)
    modifies policy[period][SlotIndex(state, options.nDiscreteChoices)]
    modifies value[period][SlotIndex(state, options.nDiscreteChoices)]
    ensures var spec := old(EgmStep(period, state, View(policy), View(value), savings, quadPoints, weights,
                                    params, options, cb, exp));
      var P := policy[period][SlotIndex(state, options.nDiscreteChoices)];
      var V := value[period][SlotIndex(state, options.nDiscreteChoices)];
      && (r.Failure? <==> spec.Failure? || |savings| == 0)
      && (r.Failure? ==> unchanged(P) && unchanged(V))
      && (spec.Failure? ==> r.Failure? && r.error == spec.error)
      && (spec.Success? && |savings| == 0 ==> r.Failure? && r.error == IndexOutOfBounds("expected_value", 0))
      && (r.Success? ==>
            var out := spec.value;
            && r.value == out.expectedValue
            && (forall j :: 1 <= j < V.Length1 ==> V[0, j] == out.endogGrid[j - 1] && V[1, j] == out.currentValue[j - 1])
            && V[0, 0] == old(V[0, 0]) && V[1, 0] == out.expectedValue[0]
            && (P != V ==>
                  && (forall j :: 1 <= j < P.Length1 ==> P[0, j] == out.endogGrid[j - 1] && P[1, j] == out.consumption[j - 1])
                  && P[0, 0] == old(P[0, 0]) && P[1, 0] == old(P[1, 0])))
  {
    var step := ComputeEgmStep(period, state, policy, value, savings, quadPoints, weights, params, options, cb, exp);
    ViewUnchanged(policy);
    ViewUnchanged(value);
    if step.Failure? {
      return Failure(step.error);
    }
    if |step.value.expectedValue| == 0 {
      return Failure(IndexOutOfBounds("expected_value", 0));
    }
    var index := SlotIndex(state, options.nDiscreteChoices);
    WriteSlots(policy[period][index], value[period][index], step.value);
    r := Success(step.value.expectedValue);
  }
}
