/**
  The current facade, `LogManager` in src/log-manager.ts: the class-based
  manager in its `Current` form. The real logger is built by the first
  valid `configure` and never replaced; the mock flag starts set.
 */
module LogManager {
  import opened Results
  import opened JsValues
  import opened Levels
  import opened Options
  import opened Destinations
  import opened Pino
  import opened Facade
  import ClassManager

  /** The levels the mock implements: all seven. */
  const MockLevels: set<Level> := {Silent, Trace, Debug, Info, Warn, Error, Fatal}

  /** `configure(name, options)` of this form. A bad name throws before
      anything changes. Otherwise the call returns the manager and clears
      the mock flag; the options are normalised and the destination is
      resolved on every call, but the real logger is built only while the
      current logger is still the mock. */
  function Configure(av: ArgValidator, s: Manager, name: JsValue, options: JsValue): (c: Call<Manager>)
    ensures !NonEmptyString(name) ==> c == Reject(s, InvalidName)
    ensures NonEmptyString(name) ==>
      && c.result == Success(Receiver)
      && !c.state.mockEnabled
      && c.effects.destinationCalls == DestinationCalls(av, Normalize(av, options, ClassManager.ExtremeDefault))
      && c.effects.childCalls == 0
    ensures NonEmptyString(name) && s.logger.Mock? ==>
      && c.state.logger == RootFor(av, name.s, Normalize(av, options, ClassManager.ExtremeDefault))
      && c.effects.constructions == 1
    ensures NonEmptyString(name) && !s.logger.Mock? ==>
      && c.state.logger == s.logger
      && c.effects.constructions == 0
  {
    ClassManager.Configure(av, ClassManager.Current, s, name, options)
  }

  /** Reference definition of first-call-wins: the logger that the first
      valid `configure` of `ops` builds, if `current` is still the mock. */
  function FirstConfigured(av: ArgValidator, ops: seq<Op>, current: Logger): Logger
    decreases |ops|
  {
    if !current.Mock? || ops == [] then current
    else if ValidConfigure(ops[0]) then
      RootFor(av, ops[0].name.s, Normalize(av, ops[0].options, ClassManager.ExtremeDefault))
    else FirstConfigured(av, ops[1..], current)
  }

  /** One call constructs a logger exactly when it replaces the mock, and
      never touches a real logger. */
  lemma ApplyConstructs(av: ArgValidator, s: Manager, op: Op)
    ensures ClassManager.Apply(av, ClassManager.Current, s, op).effects.constructions
         == if s.logger.Mock? && !ClassManager.Apply(av, ClassManager.Current, s, op).state.logger.Mock? then 1 else 0
    ensures !s.logger.Mock? ==> ClassManager.Apply(av, ClassManager.Current, s, op).state.logger == s.logger
  {
  }

  /** Once the logger is real, no run replaces it or builds another. */
  lemma {:induction false} RunKeepsRealLogger(av: ArgValidator, s: Manager, ops: seq<Op>)
    requires !s.logger.Mock?
    ensures ClassManager.Run(av, ClassManager.Current, s, ops).final.logger == s.logger
    ensures ClassManager.Run(av, ClassManager.Current, s, ops).effects.constructions == 0
    decreases |ops|
  {
    if ops != [] {
      var c := ClassManager.Apply(av, ClassManager.Current, s, ops[0]);
      assert ClassManager.Run(av, ClassManager.Current, s, ops) == Then(c, ClassManager.Run(av, ClassManager.Current, c.state, ops[1..]));
      ApplyConstructs(av, s, ops[0]);
      RunKeepsRealLogger(av, c.state, ops[1..]);
    }
  }

  /** The real logger is constructed at most once: exactly once when the run
      takes the manager from the mock to a real logger, never otherwise. */
  lemma {:induction false} RunConstructsAtMostOnce(av: ArgValidator, s: Manager, ops: seq<Op>)
    ensures ClassManager.Run(av, ClassManager.Current, s, ops).effects.constructions
         == if s.logger.Mock? && !ClassManager.Run(av, ClassManager.Current, s, ops).final.logger.Mock? then 1 else 0
    decreases |ops|
  {
    if ops != [] {
      var c := ClassManager.Apply(av, ClassManager.Current, s, ops[0]);
      var rest := ClassManager.Run(av, ClassManager.Current, c.state, ops[1..]);
      assert ClassManager.Run(av, ClassManager.Current, s, ops) == Then(c, rest);
      ApplyConstructs(av, s, ops[0]);
      if c.state.logger.Mock? {
        RunConstructsAtMostOnce(av, c.state, ops[1..]);
      } else {
        RunKeepsRealLogger(av, c.state, ops[1..]);
      }
    }
  }

  /** The logger after any run is the one the first valid `configure` built. */
  lemma {:induction false} RunFirstConfigureWins(av: ArgValidator, s: Manager, ops: seq<Op>)
    ensures ClassManager.Run(av, ClassManager.Current, s, ops).final.logger == FirstConfigured(av, ops, s.logger)
    decreases |ops|
  {
    if ops != [] {
      var c := ClassManager.Apply(av, ClassManager.Current, s, ops[0]);
      if !s.logger.Mock? {
        RunKeepsRealLogger(av, s, ops);
      } else if ValidConfigure(ops[0]) {
        RunKeepsRealLogger(av, c.state, ops[1..]);
      } else {
        RunFirstConfigureWins(av, c.state, ops[1..]);
      }
    }
  }

  /** Configuring with a file destination and asking for a group logger
      with extra properties. */
  lemma ServiceExample(av: ArgValidator)
    requires av.defaultMinLength <= 1
    ensures
      var options := Obj(map[
        "level" := Str("debug"),
        "extreme" := Bool(false),
        "destination" := Str("/tmp/out.log"),
        "redact" := Arr([Str("pwd")])]);
      var c := Configure(av, ClassManager.New(), Str("svc"), options);
      var g := ClassManager.GetLogger(c.state, Str("db"), map["instanceId" := Number(7)]);
      && c.effects == Effects(1, 1, 0)
      && c.state.logger == Root(PinoArgs("svc", Debug, EmptyObject, [Str("pwd")]), File("/tmp/out.log", true))
      && g.result == Success(Handle(Child(c.state.logger, map["instanceId" := Number(7), "group" := Str("db")])))
  {
    var options := Obj(map[
        "level" := Str("debug"),
        "extreme" := Bool(false),
        "destination" := Str("/tmp/out.log"),
        "redact" := Arr([Str("pwd")])]);
    assert Field(options, "serializers") == Undefined;
    assert Field(options, "level") == Str("debug");
    assert CheckDefaultString(av, Str("/tmp/out.log")) by {
      assert |"/tmp/out.log"| == 12;
    }
  }
}
