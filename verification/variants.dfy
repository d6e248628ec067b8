/**
  How the three forms of the facade relate: where they agree and the three
  policies on which they differ (construction policy, `extreme` default,
  initial mock flag and whether `configure` clears it).
 */
module Variants {
  import opened Results
  import opened JsValues
  import opened Levels
  import opened Options
  import opened Destinations
  import opened Pino
  import opened Facade
  import ClassManager
  import LogManager
  import ClassLogger
  import LegacyLogger

  /** On a fresh manager the two class-based forms build the same logger,
      make the same calls and leave the same state; only the return
      value differs (the manager versus `undefined`). */
  lemma FirstConfigureAgrees(av: ArgValidator, name: JsValue, options: JsValue)
    ensures
      var current := LogManager.Configure(av, ClassManager.New(), name, options);
      var earlier := ClassLogger.Configure(av, ClassManager.New(), name, options);
      && current.state == earlier.state
      && current.effects == earlier.effects
      && (NonEmptyString(name) ==> current.result == Success(Receiver) && earlier.result == Success(Nothing))
      && (!NonEmptyString(name) ==> current.result == earlier.result)
  {
  }

  /** A second `configure` under a different name: the current form keeps
      the first logger, the earlier form replaces it with the second. */
  lemma ReconfigureDiverges(av: ArgValidator, first: string, second: string, options: JsValue)
    requires first != [] && second != []
    ensures
      var ops := [ConfigureOp(Str(first), options), ConfigureOp(Str(second), options)];
      var o := Normalize(av, options, false);
      && ClassManager.Run(av, ClassManager.Current, ClassManager.New(), ops).final.logger == RootFor(av, first, o)
      && ClassManager.Run(av, ClassManager.Earlier, ClassManager.New(), ops).final.logger == RootFor(av, second, o)
      && ClassManager.Run(av, ClassManager.Current, ClassManager.New(), ops).effects.constructions == 1
      && ClassManager.Run(av, ClassManager.Earlier, ClassManager.New(), ops).effects.constructions == 2
  {
    var ops := [ConfigureOp(Str(first), options), ConfigureOp(Str(second), options)];
    var o := Normalize(av, options, false);
    assert ops[1..] == [ConfigureOp(Str(second), options)];
    assert ops[1..][1..] == [];
    assert LogManager.FirstConfigured(av, ops, Mock) == RootFor(av, first, o);
    LogManager.RunFirstConfigureWins(av, ClassManager.New(), ops);
    LogManager.RunConstructsAtMostOnce(av, ClassManager.New(), ops);
    assert ClassLogger.LastConfigured(av, ops[1..], RootFor(av, first, o)) == RootFor(av, second, o);
    ClassLogger.RunLastConfigureWins(av, ClassManager.New(), ops);
    assert CountValidConfigures(ops[1..]) == 1;
    ClassLogger.RunConstructsPerConfigure(av, ClassManager.New(), ops);
  }

  /** With no options, the class-based forms write to standard output
      synchronously (extreme off by default), while the legacy form asks
      the engine for extreme mode. */
  lemma DefaultExtremeDiffers(av: ArgValidator, name: string)
    requires name != []
    ensures LogManager.Configure(av, ClassManager.New(), Str(name), Undefined).state.logger
         == Root(PinoArgs(name, Info, EmptyObject, []), Fd(Stdout, true))
    ensures ClassLogger.Configure(av, ClassManager.New(), Str(name), Undefined).state.logger
         == Root(PinoArgs(name, Info, EmptyObject, []), Fd(Stdout, true))
    ensures LegacyLogger.Configure(av, LegacyLogger.Initial(), Str(name), Undefined).state.logger
         == Some(LegacyRoot(name, Info, true, [Stdout]))
  {
    NormalizeNonObject(av, Undefined, false);
    NormalizeNonObject(av, Undefined, true);
  }

  /** `enableMock`, then `configure`, then `getLogger` in the current form:
      `configure` clears the flag, so the handle is a child of the
      configured logger. */
  lemma MuteThenConfigureCurrent(av: ArgValidator, name: string, group: string)
    requires name != [] && group != []
    ensures
      var muted := ClassManager.EnableMock(ClassManager.New()).state;
      var configured := LogManager.Configure(av, muted, Str(name), Undefined).state;
      ClassManager.GetLogger(configured, Str(group), map[]).result
        == Success(Handle(Child(RootFor(av, name, Defaults(false)), map[GroupKey := Str(group)])))
  {
    NormalizeNonObject(av, Undefined, false);
  }

  /** The same calls in the legacy form: `configure` leaves the flag set, so
      the handle is the mock. */
  lemma MuteThenConfigureLegacy(av: ArgValidator, name: string, group: string)
    requires name != [] && group != []
    ensures
      var muted := LegacyLogger.EnableMock(LegacyLogger.Initial()).state;
      var configured := LegacyLogger.Configure(av, muted, Str(name), Undefined).state;
      && configured.initialized
      && LegacyLogger.GetLogger(configured, Str(group), map[]).result == Success(Handle(Mock))
  {
  }

  /** Before any `configure`, with the mock flag cleared, every form hands
      out only the mock: the initial flags differ (set in the class-based
      forms, clear in the legacy one) without it being observable. */
  lemma UnconfiguredAlwaysMock(av: ArgValidator, group: JsValue, props: map<string, JsValue>)
    requires NonEmptyString(group)
    ensures ClassManager.New().mockEnabled && !LegacyLogger.Initial().mockEnabled
    ensures ClassManager.GetLogger(ClassManager.DisableMock(ClassManager.New()).state, group, props).result == Success(Handle(Mock))
    ensures LegacyLogger.GetLogger(LegacyLogger.Initial(), group, props).result == Success(Handle(Mock))
  {
  }

  /** The mocks differ in one method: the earlier class-based form's mock
      has no `silent`, so calling it there is not a function call at all,
      while the other two forms' mocks answer every level with a no-op. */
  lemma MockSilentDiffers(level: Level)
    ensures CallLevel(Mock, level, LogManager.MockLevels) == NoOp
    ensures CallLevel(Mock, level, LegacyLogger.MockLevels) == NoOp
    ensures CallLevel(Mock, level, ClassLogger.MockLevels) == if level == Silent then NotAFunction else NoOp
  {
  }
}
