/**
  What the three variants of the facade share: the argument errors, the
  values a call returns, the calls it makes (to pino or to the held
  logger), and the vocabulary for running a sequence of operations.
 */
module Facade {
  import opened Results
  import opened JsValues
  import opened Options
  import opened Destinations
  import opened Pino

  /** The `ArgError` the validation library throws. */
  datatype ArgError = ArgError(message: string)

  const InvalidName: string := "Invalid name (arg #1)"
  const InvalidGroup: string := "Invalid group (arg #1)"

  /** What a successful call returns: the manager (or module) itself, for
      chaining; `undefined`; or a logger handle. */
  datatype Returned = Receiver | Nothing | Handle(logger: Logger)

  /** Calls a facade operation makes: `pino(...)`, `pino.destination(...)`,
      and `child(...)` on the held logger, which before any `configure` is
      the mock's own `child` rather than pino's. */
  datatype Effects = Effects(constructions: nat, destinationCalls: nat, childCalls: nat)

  const NoEffects: Effects := Effects(0, 0, 0)

  function Plus(a: Effects, b: Effects): Effects {
    Effects(a.constructions + b.constructions, a.destinationCalls + b.destinationCalls, a.childCalls + b.childCalls)
  }

  /** One call: the state after it, what it returned or threw, and what it
      called (`Effects`). */
  datatype Call<S> = Call(state: S, result: Result<Returned, ArgError>, effects: Effects)

  /** A thrown argument error: the state is untouched and nothing is called. */
  function Reject<S>(s: S, message: string): Call<S> {
    Call(s, Failure(ArgError(message)), NoEffects)
  }

  /** The operations a caller can perform on the facade. */
  datatype Op =
    | ConfigureOp(name: JsValue, options: JsValue)
    | GetLoggerOp(group: JsValue, props: map<string, JsValue>)
    | EnableMockOp
    | DisableMockOp

  /** A run of several operations: the final state, the result of every
      call in order, and the calls of `Effects` summed over the run. */
  datatype History<S> = History(final: S, results: seq<Result<Returned, ArgError>>, effects: Effects)

  /** Prefix `rest`, the run that started in `c.state`, with call `c`. */
  function Then<S>(c: Call<S>, rest: History<S>): History<S> {
    History(rest.final, [c.result] + rest.results, Plus(c.effects, rest.effects))
  }

  /** Every `configure` call in the run, if any, is rejected for its name. */
  predicate NoValidConfigure(ops: seq<Op>) {
    forall i :: 0 <= i < |ops| ==> !ValidConfigure(ops[i])
  }

  /** A `configure` call that passes name validation. */
  predicate ValidConfigure(op: Op) {
    op.ConfigureOp? && NonEmptyString(op.name)
  }

  /** The number of `configure` calls in the run that pass name validation. */
  function CountValidConfigures(ops: seq<Op>): nat
    decreases |ops|
  {
    if ops == [] then 0
    else (if ValidConfigure(ops[0]) then 1 else 0) + CountValidConfigures(ops[1..])
  }

  /** Every handle the run returned is the mock. */
  predicate OnlyMockHandles(results: seq<Result<Returned, ArgError>>) {
    forall i :: 0 <= i < |results| && results[i].Success? && results[i].value.Handle? ==>
      results[i].value.logger.Mock?
  }

  /** The destination the normalised options resolve to. */
  function DestinationOf(av: ArgValidator, o: LoggerOptions): Destination {
    Resolve(av, o.destination, o.extreme)
  }

  /** The `pino.destination` calls that resolving `o`'s destination makes. */
  function DestinationCalls(av: ArgValidator, o: LoggerOptions): nat {
    if CallsPinoDestination(DestinationOf(av, o)) then 1 else 0
  }

  /** The real logger the class-based variants build from a name and
      normalised options: `pino({name, level, serializers, redact}, destination)`. */
  function RootFor(av: ArgValidator, name: string, o: LoggerOptions): Logger {
    Root(PinoArgs(name, o.level, o.serializers, o.redact), DestinationOf(av, o))
  }

  /** The state of the class-based manager: the current logger (initially
      the mock) and the mock flag. */
  datatype Manager = Manager(logger: Logger, mockEnabled: bool)

  /** The mock flag after one call, in the class-based variants: a valid
      `configure` and `disableMock` clear it, `enableMock` sets it. */
  function MockFlagStep(op: Op, flag: bool): bool {
    if ValidConfigure(op) || op.DisableMockOp? then false
    else if op.EnableMockOp? then true
    else flag
  }

  /** The mock flag after a run, in the class-based variants. */
  function MockFlagAfter(ops: seq<Op>, flag: bool): bool
    decreases |ops|
  {
    if ops == [] then flag else MockFlagAfter(ops[1..], MockFlagStep(ops[0], flag))
  }
}
