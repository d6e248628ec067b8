/**
  The earlier class-based facade, `LogManager` in src/logger.ts: the
  class-based manager in its `Earlier` form. It shares the normalisation,
  the destination table, the constructor, `getLogger`, `enableMock` and
  `disableMock` with the current form, but every valid `configure` builds a
  new logger and overwrites the previous one, and `configure` returns
  nothing.
 */
module ClassLogger {
  import opened Results
  import opened JsValues
  import opened Levels
  import opened Options
  import opened Destinations
  import opened Pino
  import opened Facade
  import ClassManager

  /** The levels the mock implements: every level but `silent`. */
  const MockLevels: set<Level> := {Trace, Debug, Info, Warn, Error, Fatal}

  /** `configure(name, options)` of this form. A bad name throws before
      anything changes; otherwise the call returns nothing, clears the mock
      flag and a new real logger replaces the current one, whatever it was. */
  function Configure(av: ArgValidator, s: Manager, name: JsValue, options: JsValue): (c: Call<Manager>)
    ensures !NonEmptyString(name) ==> c == Reject(s, InvalidName)
    ensures NonEmptyString(name) ==>
      && c.result == Success(Nothing)
      && !c.state.mockEnabled
      && c.state.logger == RootFor(av, name.s, Normalize(av, options, ClassManager.ExtremeDefault))
      && c.effects == Effects(1, DestinationCalls(av, Normalize(av, options, ClassManager.ExtremeDefault)), 0)
  {
    ClassManager.Configure(av, ClassManager.Earlier, s, name, options)
  }

  /** Reference definition of last-call-wins: the logger the last valid
      `configure` of `ops` builds, or `current` if there is none. */
  function LastConfigured(av: ArgValidator, ops: seq<Op>, current: Logger): Logger
    decreases |ops|
  {
    if ops == [] then current
    else
      var next :=
        if ValidConfigure(ops[0])
        then RootFor(av, ops[0].name.s, Normalize(av, ops[0].options, ClassManager.ExtremeDefault))
        else current;
      LastConfigured(av, ops[1..], next)
  }

  /** Every valid `configure` constructs a logger: a run constructs exactly
      as many as it has valid `configure` calls. */
  lemma {:induction false} RunConstructsPerConfigure(av: ArgValidator, s: Manager, ops: seq<Op>)
    ensures ClassManager.Run(av, ClassManager.Earlier, s, ops).effects.constructions == CountValidConfigures(ops)
    decreases |ops|
  {
    if ops != [] {
      var c := ClassManager.Apply(av, ClassManager.Earlier, s, ops[0]);
      assert c.effects.constructions == if ValidConfigure(ops[0]) then 1 else 0;
      RunConstructsPerConfigure(av, c.state, ops[1..]);
      assert ClassManager.Run(av, ClassManager.Earlier, s, ops) == Then(c, ClassManager.Run(av, ClassManager.Earlier, c.state, ops[1..]));
    }
  }

  /** The logger after a run is the one the last valid `configure` built. */
  lemma {:induction false} RunLastConfigureWins(av: ArgValidator, s: Manager, ops: seq<Op>)
    ensures ClassManager.Run(av, ClassManager.Earlier, s, ops).final.logger == LastConfigured(av, ops, s.logger)
    decreases |ops|
  {
    if ops != [] {
      var c := ClassManager.Apply(av, ClassManager.Earlier, s, ops[0]);
      assert ClassManager.Run(av, ClassManager.Earlier, s, ops) == Then(c, ClassManager.Run(av, ClassManager.Earlier, c.state, ops[1..]));
      RunLastConfigureWins(av, c.state, ops[1..]);
    }
  }
}
