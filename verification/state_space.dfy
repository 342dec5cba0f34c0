/**
 * The state space of the consumption-retirement model: every
 * (period, lagged choice, exogenous process) triple, enumerated in
 * lexicographic order, together with an indexer that maps each triple back
 * to its row; and the feasible choice set of a state, where retirement
 * (lagged choice 1) is absorbing.
 */
module StateSpace {
  import opened Config
  import opened Grids

  /** Position of (p, c, e) when triples are enumerated with the period
      varying slowest and the exogenous process fastest. */
  function FlatIndex(p: int, c: int, e: int, nChoices: int, nExog: int): int {
    (p * nChoices + c) * nExog + e
  }

  predicate InBounds(p: int, c: int, e: int, nPeriods: int, nChoices: int, nExog: int) {
    0 <= p < nPeriods && 0 <= c < nChoices && 0 <= e < nExog
  }

  /** Strict lexicographic order on (period, choice, exog) triples. */
  predicate LexLess(p: int, c: int, e: int, p': int, c': int, e': int) {
    p < p' || (p == p' && (c < c' || (c == c' && e < e')))
  }

  /** Strict lexicographic order on rows of three state variables. */
  predicate RowLess(a: seq<int>, b: seq<int>) {
    |a| == 3 && |b| == 3 && LexLess(a[0], a[1], a[2], b[0], b[1], b[2])
  }

  /** A row of the state space: a triple of in-range state variables. */
  predicate IsStateRow(row: seq<int>, nPeriods: int, nChoices: int, nExog: int) {
    |row| == 3 && InBounds(row[0], row[1], row[2], nPeriods, nChoices, nExog)
  }

  /** Every in-range triple has an index in 0 .. n_periods*n_choices*n_exog - 1. */
  lemma FlatIndexBounds(p: int, c: int, e: int, nPeriods: int, nChoices: int, nExog: int)
    requires InBounds(p, c, e, nPeriods, nChoices, nExog)
    ensures 0 <= FlatIndex(p, c, e, nChoices, nExog) < nPeriods * nChoices * nExog
  {
    var u := p * nChoices + c;
    MulLeftMonotone(0, p, nChoices);
    MulLeftMonotone(p + 1, nPeriods, nChoices);
    assert 0 <= u < nPeriods * nChoices;
    MulLeftMonotone(0, u, nExog);
    MulLeftMonotone(u + 1, nPeriods * nChoices, nExog);
  }

  /** Indices grow by one per step of the fastest variable and by one block
      per step of the slower ones: if a row unit u is below u', every index
      of u is below every index of u'. */
  lemma BlockBefore(u: int, e: int, u': int, e': int, n: int)
    requires u < u' && 0 <= e < n && 0 <= e' < n
    ensures u * n + e < u' * n + e'
  {
    MulLeftMonotone(u + 1, u', n);
  }

  /** The enumeration order is the lexicographic order, in both directions. */
  lemma FlatIndexOrder(p: int, c: int, e: int, p': int, c': int, e': int, nPeriods: int, nChoices: int, nExog: int)
    requires InBounds(p, c, e, nPeriods, nChoices, nExog) && InBounds(p', c', e', nPeriods, nChoices, nExog)
    ensures FlatIndex(p, c, e, nChoices, nExog) < FlatIndex(p', c', e', nChoices, nExog)
        <==> LexLess(p, c, e, p', c', e')
  {
    if LexLess(p, c, e, p', c', e') {
      LexIndexLess(p, c, e, p', c', e', nChoices, nExog);
    } else if LexLess(p', c', e', p, c, e) {
      LexIndexLess(p', c', e', p, c, e, nChoices, nExog);
    }
  }

  lemma LexIndexLess(p: int, c: int, e: int, p': int, c': int, e': int, nChoices: int, nExog: int)
    requires 0 <= c < nChoices && 0 <= c' < nChoices && 0 <= e < nExog && 0 <= e' < nExog
    requires LexLess(p, c, e, p', c', e')
    ensures FlatIndex(p, c, e, nChoices, nExog) < FlatIndex(p', c', e', nChoices, nExog)
  {
    if p < p' {
      BlockBefore(p, c, p', c', nChoices);
      BlockBefore(p * nChoices + c, e, p' * nChoices + c', e', nExog);
    } else if c < c' {
      BlockBefore(p * nChoices + c, e, p' * nChoices + c', e', nExog);
    }
  }

  /** Distinct in-range triples have distinct indices. */
  lemma FlatIndexInjective(p: int, c: int, e: int, p': int, c': int, e': int, nPeriods: int, nChoices: int, nExog: int)
    requires InBounds(p, c, e, nPeriods, nChoices, nExog) && InBounds(p', c', e', nPeriods, nChoices, nExog)
    requires FlatIndex(p, c, e, nChoices, nExog) == FlatIndex(p', c', e', nChoices, nExog)
    ensures p == p' && c == c' && e == e'
  {
    FlatIndexOrder(p, c, e, p', c', e', nPeriods, nChoices, nExog);
    FlatIndexOrder(p', c', e', p, c, e, nPeriods, nChoices, nExog);
  }

  /** Builds the state space rows and the (n_periods, n_choices, n_exog)
      indexer, which starts out filled with the sentinel -9999. */
  method CreateStateSpace(options: Options) returns (stateSpace: seq<seq<int>>, mapStateToIndex: array3<int>)
    ensures fresh(mapStateToIndex)
    ensures mapStateToIndex.Length0 == options.nPeriods
    ensures mapStateToIndex.Length1 == options.nDiscreteChoices
    ensures mapStateToIndex.Length2 == options.nExogProcesses
    ensures |stateSpace| == options.nPeriods * options.nDiscreteChoices * options.nExogProcesses
    ensures forall p, c, e :: InBounds(p, c, e, options.nPeriods, options.nDiscreteChoices, options.nExogProcesses) ==>
      var i := FlatIndex(p, c, e, options.nDiscreteChoices, options.nExogProcesses);
      mapStateToIndex[p, c, e] == i && 0 <= i < |stateSpace| && stateSpace[i] == [p, c, e]
    ensures forall i :: 0 <= i < |stateSpace| ==>
      IsStateRow(stateSpace[i], options.nPeriods, options.nDiscreteChoices, options.nExogProcesses) &&
      mapStateToIndex[stateSpace[i][0], stateSpace[i][1], stateSpace[i][2]] == i
    ensures forall i, j :: 0 <= i < j < |stateSpace| ==> RowLess(stateSpace[i], stateSpace[j])
  {
    var nP, nC, nE := options.nPeriods, options.nDiscreteChoices, options.nExogProcesses;
    mapStateToIndex := new int[nP, nC, nE]((p, c, e) => -9999);
    var rows: seq<seq<int>> := [];
    var i := 0;
    var p := 0;
    while p < nP
      invariant 0 <= p <= nP
      invariant i == FlatIndex(p, 0, 0, nC, nE) && i == |rows|
      invariant Enumerated(rows, mapStateToIndex, i, nP, nC, nE)
    {
      var c := 0;
      while c < nC
        invariant 0 <= c <= nC
        invariant i == FlatIndex(p, c, 0, nC, nE) && i == |rows|
        invariant Enumerated(rows, mapStateToIndex, i, nP, nC, nE)
      {
        var e := 0;
        while e < nE
          invariant 0 <= e <= nE
          invariant i == FlatIndex(p, c, e, nC, nE) && i == |rows|
          invariant Enumerated(rows, mapStateToIndex, i, nP, nC, nE)
        {
          mapStateToIndex[p, c, e] := i;
          RecordedStaysRecorded(mapStateToIndex, i, p, c, e, nP, nC, nE);
          RowAppended(rows, p, c, e, nP, nC, nE);
          rows := rows + [[p, c, e]];
          i := i + 1;
          e := e + 1;
        }
        FlatIndexCarry(p, c, nC, nE);
        c := c + 1;
      }
      PeriodCarry(p, nC, nE);
      p := p + 1;
    }
    stateSpace := rows;
    EnumerationComplete(rows, mapStateToIndex, nP, nC, nE);
    RowsLexOrdered(rows, nP, nC, nE);
  }

  /** The first i triples in enumeration order have been recorded: the
      indexer holds their index and row i' is the triple with index i'. */
  ghost predicate Enumerated(rows: seq<seq<int>>, m: array3<int>, i: int, nP: int, nC: int, nE: int)
    reads m
  {
    && m.Length0 == nP && m.Length1 == nC && m.Length2 == nE
    && |rows| == i
    && (forall p, c, e :: InBounds(p, c, e, nP, nC, nE) && FlatIndex(p, c, e, nC, nE) < i ==>
          m[p, c, e] == FlatIndex(p, c, e, nC, nE))
    && (forall j :: 0 <= j < i ==>
          IsStateRow(rows[j], nP, nC, nE) && FlatIndex(rows[j][0], rows[j][1], rows[j][2], nC, nE) == j)
  }

  /** Passing the last exogenous value of (p, c) carries into (p, c + 1). */
  lemma FlatIndexCarry(p: int, c: int, nC: int, nE: int)
    ensures FlatIndex(p, c, nE, nC, nE) == FlatIndex(p, c + 1, 0, nC, nE)
  {
    var u := p * nC + c;
    assert u * nE + nE == (u + 1) * nE;
  }

  /** Passing the last choice of period p carries into period p + 1. */
  lemma PeriodCarry(p: int, nC: int, nE: int)
    ensures FlatIndex(p, nC, 0, nC, nE) == FlatIndex(p + 1, 0, 0, nC, nE)
  {
    assert p * nC + nC == (p + 1) * nC;
  }

  /** Appending the triple whose index is |rows| keeps every row at the
      position of its index. */
  lemma RowAppended(rows: seq<seq<int>>, p: int, c: int, e: int, nP: int, nC: int, nE: int)
    requires forall j :: 0 <= j < |rows| ==>
      IsStateRow(rows[j], nP, nC, nE) && FlatIndex(rows[j][0], rows[j][1], rows[j][2], nC, nE) == j
    requires InBounds(p, c, e, nP, nC, nE) && FlatIndex(p, c, e, nC, nE) == |rows|
    ensures var rows' := rows + [[p, c, e]];
      forall j :: 0 <= j < |rows'| ==>
        IsStateRow(rows'[j], nP, nC, nE) && FlatIndex(rows'[j][0], rows'[j][1], rows'[j][2], nC, nE) == j
  {
  }

  /** Once triple (p, c, e), whose index is i, is recorded on top of the
      first i triples, the first i + 1 triples are recorded. */
  lemma RecordedStaysRecorded(m: array3<int>, i: int, p: int, c: int, e: int, nP: int, nC: int, nE: int)
    requires m.Length0 == nP && m.Length1 == nC && m.Length2 == nE
    requires InBounds(p, c, e, nP, nC, nE) && i == FlatIndex(p, c, e, nC, nE) && m[p, c, e] == i
    requires forall p', c', e' :: InBounds(p', c', e', nP, nC, nE) && FlatIndex(p', c', e', nC, nE) < i ==>
      m[p', c', e'] == FlatIndex(p', c', e', nC, nE)
    ensures forall p', c', e' :: InBounds(p', c', e', nP, nC, nE) && FlatIndex(p', c', e', nC, nE) < i + 1 ==>
      m[p', c', e'] == FlatIndex(p', c', e', nC, nE)
  {
    forall p', c', e' | InBounds(p', c', e', nP, nC, nE) && FlatIndex(p', c', e', nC, nE) == i
      ensures m[p', c', e'] == i
    {
      FlatIndexInjective(p', c', e', p, c, e, nP, nC, nE);
    }
  }

  /** After the last triple every in-range triple is recorded. */
  lemma EnumerationComplete(rows: seq<seq<int>>, m: array3<int>, nP: int, nC: int, nE: int)
    requires 0 <= nP && 0 <= nC && 0 <= nE
    requires Enumerated(rows, m, nP * nC * nE, nP, nC, nE)
    ensures forall p, c, e :: InBounds(p, c, e, nP, nC, nE) ==>
      var i := FlatIndex(p, c, e, nC, nE);
      m[p, c, e] == i && 0 <= i < |rows| && rows[i] == [p, c, e]
    ensures forall i :: 0 <= i < |rows| ==>
      IsStateRow(rows[i], nP, nC, nE) && m[rows[i][0], rows[i][1], rows[i][2]] == i
  {
    forall p, c, e | InBounds(p, c, e, nP, nC, nE)
      ensures var i := FlatIndex(p, c, e, nC, nE);
        m[p, c, e] == i && 0 <= i < |rows| && rows[i] == [p, c, e]
    {
      var i := FlatIndex(p, c, e, nC, nE);
      FlatIndexBounds(p, c, e, nP, nC, nE);
      var row := rows[i];
      FlatIndexInjective(row[0], row[1], row[2], p, c, e, nP, nC, nE);
    }
  }

  /** Rows whose index under FlatIndex is their position are in strictly
      increasing lexicographic order. */
  lemma RowsLexOrdered(rows: seq<seq<int>>, nP: int, nC: int, nE: int)
    requires forall i :: 0 <= i < |rows| ==>
      IsStateRow(rows[i], nP, nC, nE) && FlatIndex(rows[i][0], rows[i][1], rows[i][2], nC, nE) == i
    ensures forall i, j :: 0 <= i < j < |rows| ==> RowLess(rows[i], rows[j])
  {
    forall i, j | 0 <= i < j < |rows|
      ensures RowLess(rows[i], rows[j])
    {
      FlatIndexOrder(rows[i][0], rows[i][1], rows[i][2], rows[j][0], rows[j][1], rows[j][2], nP, nC, nE);
    }
  }

  /** The feasible choices in `state`: only retirement (1) once retired,
      otherwise every choice 0 .. n-1 where n is the second extent of
      `indexer`.  The indexer `mapStateToIndex` is not consulted. */
  function FeasibleChoiceSet(state: seq<int>, mapStateToIndex: array3<int>, indexer: array3<int>): (choices: seq<int>)
    requires |state| >= 2
    ensures state[1] == 1 ==> forall k :: k in choices <==> k == 1
    ensures state[1] != 1 ==> forall k :: k in choices <==> 0 <= k < indexer.Length1
    ensures forall i, j :: 0 <= i < j < |choices| ==> choices[i] < choices[j]
  {
    if state[1] == 1 then [1]
    else
      var all := seq(indexer.Length1, k => k);
      assert forall k :: 0 <= k < indexer.Length1 ==> all[k] == k && k in all;
      assert forall k :: k in all ==> 0 <= k < indexer.Length1;
      all
  }

  /** Retirement is absorbing: a retired agent can only choose retirement. */
  lemma RetirementAbsorbing(state: seq<int>, mapStateToIndex: array3<int>, indexer: array3<int>)
    requires |state| >= 2 && state[1] == 1
    ensures FeasibleChoiceSet(state, mapStateToIndex, indexer) == [1]
  {
  }

  /** A working agent may choose any choice: the set is exactly
      0 .. n-1, each once, in ascending order. */
  lemma WorkingChoicesAll(state: seq<int>, mapStateToIndex: array3<int>, indexer: array3<int>)
    requires |state| >= 2 && state[1] != 1
    ensures var choices := FeasibleChoiceSet(state, mapStateToIndex, indexer);
      && |choices| == indexer.Length1
      && (forall k :: k in choices <==> 0 <= k < indexer.Length1)
      && (forall i, j :: 0 <= i < j < |choices| ==> choices[i] < choices[j])
  {
    var choices := FeasibleChoiceSet(state, mapStateToIndex, indexer);
    forall k | 0 <= k < indexer.Length1
      ensures k in choices
    {
      assert choices[k] == k;
    }
  }

  /** The result does not depend on the `mapStateToIndex` argument. */
  lemma FeasibleChoiceSetIgnoresMap(state: seq<int>, m1: array3<int>, m2: array3<int>, indexer: array3<int>)
    requires |state| >= 2
    ensures FeasibleChoiceSet(state, m1, indexer) == FeasibleChoiceSet(state, m2, indexer)
  {
  }
}
