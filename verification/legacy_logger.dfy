/**
  The legacy module-level facade, src/logger.js: module state made of an
  initialised flag, a mock flag (initially clear) and the logger. The first
  valid `configure` builds the logger; later ones build nothing and return
  `undefined`. `configure` never touches the mock flag, and an
  uninitialised module only hands out the mock.
 */
module LegacyLogger {
  import opened Results
  import opened JsValues
  import opened Levels
  import opened Options
  import opened Destinations
  import opened Pino
  import opened Facade

  /** The `extreme` default of this variant. */
  const ExtremeDefault: bool := true

  /** The levels the mock implements: all seven. */
  const MockLevels: set<Level> := {Silent, Trace, Debug, Info, Warn, Error, Fatal}

  /** `_isInitialized`, `_isMockEnabled` and `_logger` (`None` for `null`). */
  datatype ModuleVars = ModuleVars(initialized: bool, mockEnabled: bool, logger: Option<Logger>)

  /** The logger is present exactly when the module is initialised: both are
      set together by the first valid `configure`. */
  type ModuleState = v: ModuleVars | (v.initialized <==> v.logger.Some?)
    witness ModuleVars(false, false, None)

  /** The state when the module is loaded. */
  function Initial(): (s: ModuleState)
    ensures !s.initialized && !s.mockEnabled
  {
    ModuleVars(false, false, None)
  }

  /** The logger the first `configure` builds:
      `pino({name, level, extreme, streams: [process.stdout]})`. */
  function LegacyRootFor(name: string, o: LoggerOptions): Logger {
    LegacyRoot(name, o.level, o.extreme, [Stdout])
  }

  /** `configure(name, options)`. A bad name throws. The options are
      normalised on every call, but once initialised the call does nothing
      more and returns `undefined`; the first valid call builds the logger,
      marks the module initialised and returns the module. */
  function Configure(av: ArgValidator, s: ModuleState, name: JsValue, options: JsValue): (c: Call<ModuleState>)
    ensures !NonEmptyString(name) ==> c == Reject(s, InvalidName)
    ensures NonEmptyString(name) && s.initialized ==> c == Call(s, Success(Nothing), NoEffects)
    ensures NonEmptyString(name) && !s.initialized ==>
      && c.result == Success(Receiver)
      && c.state.initialized
      && c.state.logger == Some(LegacyRootFor(name.s, Normalize(av, options, ExtremeDefault)))
      && c.effects == Effects(1, 0, 0)
    // the mock flag is left alone
    ensures c.state.mockEnabled == s.mockEnabled
  {
    if !NonEmptyString(name) then
      Reject(s, InvalidName)
    else
      var o := Normalize(av, options, ExtremeDefault);
      if s.initialized then
        Call(s, Success(Nothing), NoEffects)
      else
        var next: ModuleState := ModuleVars(true, s.mockEnabled, Some(LegacyRootFor(name.s, o)));
        Call(next, Success(Receiver), Effects(1, 0, 0))
  }

  /** `getLogger(group, props)`: the mock while uninitialised or while the
      mock flag is set; otherwise a child of the logger with `group`
      overlaid on the properties. */
  function GetLogger(s: ModuleState, group: JsValue, props: map<string, JsValue>): (c: Call<ModuleState>)
    ensures !NonEmptyString(group) ==> c == Reject(s, InvalidGroup)
    ensures NonEmptyString(group) ==> c.state == s && c.result.Success? && c.result.value.Handle?
    ensures NonEmptyString(group) && (!s.initialized || s.mockEnabled) ==>
      c.result.value.logger == Mock && c.effects == NoEffects
    ensures NonEmptyString(group) && s.initialized && !s.mockEnabled ==>
      && c.result.value.logger == ChildOf(s.logger.value, Bindings(props, group.s))
      && c.effects == Effects(0, 0, 1)
    ensures c.result.Success? && !c.result.value.logger.Mock? ==>
      && c.result.value.logger.Child?
      && c.result.value.logger.bindings[GroupKey] == group
  {
    if !NonEmptyString(group) then
      Reject(s, InvalidGroup)
    else if !s.initialized || s.mockEnabled then
      Call(s, Success(Handle(Mock)), NoEffects)
    else
      Call(s, Success(Handle(ChildOf(s.logger.value, Bindings(props, group.s)))), Effects(0, 0, 1))
  }

  /** `enableMock()`: sets the flag and nothing else. */
  function EnableMock(s: ModuleState): (c: Call<ModuleState>)
    ensures c.state.mockEnabled
    ensures c.state.initialized == s.initialized && c.state.logger == s.logger
    ensures c.result == Success(Nothing) && c.effects == NoEffects
  {
    var next: ModuleState := s.(mockEnabled := true);
    Call(next, Success(Nothing), NoEffects)
  }

  /** `disableMock()`: clears the flag and nothing else. */
  function DisableMock(s: ModuleState): (c: Call<ModuleState>)
    ensures !c.state.mockEnabled
    ensures c.state.initialized == s.initialized && c.state.logger == s.logger
    ensures c.result == Success(Nothing) && c.effects == NoEffects
  {
    var next: ModuleState := s.(mockEnabled := false);
    Call(next, Success(Nothing), NoEffects)
  }

  function Apply(av: ArgValidator, s: ModuleState, op: Op): Call<ModuleState> {
    match op
    case ConfigureOp(name, options) => Configure(av, s, name, options)
    case GetLoggerOp(group, props) => GetLogger(s, group, props)
    case EnableMockOp => EnableMock(s)
    case DisableMockOp => DisableMock(s)
  }

  /** Perform `ops` in order, starting from `s`. */
  function Run(av: ArgValidator, s: ModuleState, ops: seq<Op>): (t: History<ModuleState>)
    ensures |t.results| == |ops|
    decreases |ops|
  {
    if ops == [] then History(s, [], NoEffects)
    else Then(Apply(av, s, ops[0]), Run(av, Apply(av, s, ops[0]).state, ops[1..]))
  }

  /** The mock flag after one call: only `enableMock` and `disableMock`
      move it. */
  function LegacyMockFlagStep(op: Op, flag: bool): bool {
    if op.EnableMockOp? then true else if op.DisableMockOp? then false else flag
  }

  /** The mock flag after a run. */
  function LegacyMockFlagAfter(ops: seq<Op>, flag: bool): bool
    decreases |ops|
  {
    if ops == [] then flag else LegacyMockFlagAfter(ops[1..], LegacyMockFlagStep(ops[0], flag))
  }

  /** One call moves the mock flag as `LegacyMockFlagStep` says. */
  lemma ApplyMockFlag(av: ArgValidator, s: ModuleState, op: Op)
    ensures Apply(av, s, op).state.mockEnabled == LegacyMockFlagStep(op, s.mockEnabled)
  {
  }

  /** One call constructs a logger exactly when it initialises the module,
      and never touches the logger of an initialised module. */
  lemma ApplyConstructs(av: ArgValidator, s: ModuleState, op: Op)
    ensures Apply(av, s, op).effects.constructions
         == if !s.initialized && Apply(av, s, op).state.initialized then 1 else 0
    ensures s.initialized ==> Apply(av, s, op).state.initialized && Apply(av, s, op).state.logger == s.logger
  {
  }

  /** Once initialised, no run replaces the logger or builds another. */
  lemma {:induction false} RunKeepsLogger(av: ArgValidator, s: ModuleState, ops: seq<Op>)
    requires s.initialized
    ensures Run(av, s, ops).final.initialized
    ensures Run(av, s, ops).final.logger == s.logger
    ensures Run(av, s, ops).effects.constructions == 0
    decreases |ops|
  {
    if ops != [] {
      var c := Apply(av, s, ops[0]);
      assert Run(av, s, ops) == Then(c, Run(av, c.state, ops[1..]));
      ApplyConstructs(av, s, ops[0]);
      RunKeepsLogger(av, c.state, ops[1..]);
    }
  }

  /** The logger is constructed at most once: exactly once when the run
      initialises the module, never otherwise. */
  lemma {:induction false} RunConstructsAtMostOnce(av: ArgValidator, s: ModuleState, ops: seq<Op>)
    ensures Run(av, s, ops).effects.constructions
         == if !s.initialized && Run(av, s, ops).final.initialized then 1 else 0
    decreases |ops|
  {
    if ops != [] {
      var c := Apply(av, s, ops[0]);
      assert Run(av, s, ops) == Then(c, Run(av, c.state, ops[1..]));
      ApplyConstructs(av, s, ops[0]);
      if c.state.initialized {
        RunKeepsLogger(av, c.state, ops[1..]);
      } else {
        RunConstructsAtMostOnce(av, c.state, ops[1..]);
      }
    }
  }

  /** The mock flag after a run follows the last `enableMock` or
      `disableMock`; `configure` never moves it. */
  lemma {:induction false} RunMockFlag(av: ArgValidator, s: ModuleState, ops: seq<Op>)
    ensures Run(av, s, ops).final.mockEnabled == LegacyMockFlagAfter(ops, s.mockEnabled)
    decreases |ops|
  {
    if ops != [] {
      var c := Apply(av, s, ops[0]);
      assert Run(av, s, ops) == Then(c, Run(av, c.state, ops[1..]));
      ApplyMockFlag(av, s, ops[0]);
      RunMockFlag(av, c.state, ops[1..]);
    }
  }

  /** Without a valid `configure`, the module stays uninitialised and hands
      out only the mock, whatever the mock flag says: a rejected `configure`
      throws before any change. */
  lemma {:induction false} RunWithoutConfigureYieldsMock(av: ArgValidator, s: ModuleState, ops: seq<Op>)
    requires !s.initialized
    requires NoValidConfigure(ops)
    ensures !Run(av, s, ops).final.initialized
    ensures OnlyMockHandles(Run(av, s, ops).results)
    decreases |ops|
  {
    if ops != [] {
      var c := Apply(av, s, ops[0]);
      assert !ValidConfigure(ops[0]);
      assert NoValidConfigure(ops[1..]) by {
        forall i | 0 <= i < |ops[1..]| ensures !ValidConfigure(ops[1..][i]) {
          assert ops[1..][i] == ops[i + 1];
        }
      }
      RunWithoutConfigureYieldsMock(av, c.state, ops[1..]);
      var t := Run(av, s, ops);
      var rest := Run(av, c.state, ops[1..]);
      assert t.results == [c.result] + rest.results;
      forall i | 0 <= i < |t.results| && t.results[i].Success? && t.results[i].value.Handle?
        ensures t.results[i].value.logger.Mock?
      {
        if i > 0 {
          assert t.results[i] == rest.results[i - 1];
        }
      }
    }
  }
}
