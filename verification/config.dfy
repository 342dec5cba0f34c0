/**
 * Parameters, options and errors shared by the EGM step and the toy
 * consumption-retirement model.  The (category, name) multi-index of the
 * parameter table becomes a record of named fields; the only key the core
 * looks up optionally, ("assets", "consumption_floor"), stays optional.
 */
module Config {

  datatype Option<T> = None | Some(value: T)

  /** The failures the modelled core can raise on well-shaped input: a
      missing parameter key, and an index past the end of an empty array. */
  datatype Error =
    | MissingKey(category: string, name: string)
    | IndexOutOfBounds(array: string, index: int)

  datatype Result<T> = Success(value: T) | Failure(error: Error)

  /** Model parameters: interest rate, income-shock standard deviation,
      discount factor, wage-equation coefficients (constant first) and the
      optional consumption floor. */
  datatype Params = Params(
    interestRate: real,
    sigma: real,
    beta: real,
    wage: seq<real>,
    consumptionFloor: Option<real>)

  /** Integer options of a solve. */
  datatype Options = Options(
    gridPointsWealth: nat,
    quadraturePointsStochastic: nat,
    nDiscreteChoices: nat,
    minAge: int,
    nPeriods: nat,
    nExogProcesses: nat)
}
