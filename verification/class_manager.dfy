/**
  The class-based facade, `LogManager`, in its two forms: the current one
  (src/log-manager.ts) and the earlier one (src/logger.ts). The two share
  the constructor, `getLogger`, `enableMock` and `disableMock` line for
  line; they differ only in `configure`, which the current form runs as
  "first call wins, return the manager" and the earlier form as "every
  call replaces, return nothing".
 */
module ClassManager {
  import opened Results
  import opened JsValues
  import opened Options
  import opened Destinations
  import opened Pino
  import opened Facade

  /** Which of the two class-based forms a manager follows. */
  datatype Form = Current | Earlier

  /** The `extreme` default of both class-based forms. */
  const ExtremeDefault: bool := false

  /** `new LogManager()`: mock enabled, the shared mock as logger. */
  function New(): (m: Manager)
    ensures m.mockEnabled && m.logger.Mock?
  {
    Manager(Mock, true)
  }

  /** `configure(name, options)`. A bad name throws before anything changes.
      Otherwise the mock flag is cleared and the options are normalised and
      the destination resolved on every call. The current form builds the
      real logger only while the logger is still the mock and returns the
      manager; the earlier form always builds and replaces, and returns
      nothing. */
  function Configure(av: ArgValidator, form: Form, s: Manager, name: JsValue, options: JsValue): (c: Call<Manager>)
    ensures !NonEmptyString(name) ==> c == Reject(s, InvalidName)
    ensures NonEmptyString(name) ==>
      && c.result == Success(if form.Current? then Receiver else Nothing)
      && !c.state.mockEnabled
      && c.effects.destinationCalls == DestinationCalls(av, Normalize(av, options, ExtremeDefault))
      && c.effects.childCalls == 0
    ensures NonEmptyString(name) && (form.Earlier? || s.logger.Mock?) ==>
      && c.state.logger == RootFor(av, name.s, Normalize(av, options, ExtremeDefault))
      && c.effects.constructions == 1
    ensures NonEmptyString(name) && form.Current? && !s.logger.Mock? ==>
      && c.state.logger == s.logger
      && c.effects.constructions == 0
  {
    if !NonEmptyString(name) then
      Reject(s, InvalidName)
    else
      var o := Normalize(av, options, ExtremeDefault);
      var build := form.Earlier? || s.logger.Mock?;
      Call(
        Manager(if build then RootFor(av, name.s, o) else s.logger, false),
        Success(if form.Current? then Receiver else Nothing),
        Effects(if build then 1 else 0, DestinationCalls(av, o), 0))
  }

  /** `getLogger(group, props)`. A bad group throws. With the mock flag set
      the shared mock is returned; otherwise the current logger's `child` is
      called once with the properties overlaid by `{group}`. */
  function GetLogger(s: Manager, group: JsValue, props: map<string, JsValue>): (c: Call<Manager>)
    ensures !NonEmptyString(group) ==> c == Reject(s, InvalidGroup)
    ensures NonEmptyString(group) ==> c.state == s && c.result.Success? && c.result.value.Handle?
    ensures NonEmptyString(group) && s.mockEnabled ==>
      c.result.value.logger == Mock && c.effects == NoEffects
    ensures NonEmptyString(group) && !s.mockEnabled ==>
      && c.result.value.logger == ChildOf(s.logger, Bindings(props, group.s))
      && c.effects == Effects(0, 0, 1)
    // an unconfigured manager only ever yields the mock
    ensures s.logger.Mock? && c.result.Success? ==> c.result.value.logger.Mock?
    // the group always wins over a caller-supplied `group` property
    ensures c.result.Success? && !c.result.value.logger.Mock? ==>
      && c.result.value.logger.Child?
      && c.result.value.logger.parent == s.logger
      && c.result.value.logger.bindings[GroupKey] == group
  {
    if !NonEmptyString(group) then
      Reject(s, InvalidGroup)
    else if s.mockEnabled then
      Call(s, Success(Handle(Mock)), NoEffects)
    else
      Call(s, Success(Handle(ChildOf(s.logger, Bindings(props, group.s)))), Effects(0, 0, 1))
  }

  /** `enableMock()`: sets the flag and nothing else. */
  function EnableMock(s: Manager): (c: Call<Manager>)
    ensures c.state.mockEnabled && c.state.logger == s.logger
    ensures c.result == Success(Nothing) && c.effects == NoEffects
  {
    Call(s.(mockEnabled := true), Success(Nothing), NoEffects)
  }

  /** `disableMock()`: clears the flag and nothing else. */
  function DisableMock(s: Manager): (c: Call<Manager>)
    ensures !c.state.mockEnabled && c.state.logger == s.logger
    ensures c.result == Success(Nothing) && c.effects == NoEffects
  {
    Call(s.(mockEnabled := false), Success(Nothing), NoEffects)
  }

  function Apply(av: ArgValidator, form: Form, s: Manager, op: Op): Call<Manager> {
    match op
    case ConfigureOp(name, options) => Configure(av, form, s, name, options)
    case GetLoggerOp(group, props) => GetLogger(s, group, props)
    case EnableMockOp => EnableMock(s)
    case DisableMockOp => DisableMock(s)
  }

  /** Perform `ops` in order, starting from `s`. */
  function Run(av: ArgValidator, form: Form, s: Manager, ops: seq<Op>): (t: History<Manager>)
    ensures |t.results| == |ops|
    decreases |ops|
  {
    if ops == [] then History(s, [], NoEffects)
    else Then(Apply(av, form, s, ops[0]), Run(av, form, Apply(av, form, s, ops[0]).state, ops[1..]))
  }

  /** One call moves the mock flag as `MockFlagStep` says. */
  lemma ApplyMockFlag(av: ArgValidator, form: Form, s: Manager, op: Op)
    ensures Apply(av, form, s, op).state.mockEnabled == MockFlagStep(op, s.mockEnabled)
  {
  }

  /** In either form, the mock flag after a run follows the last call that
      touched it. */
  lemma {:induction false} RunMockFlag(av: ArgValidator, form: Form, s: Manager, ops: seq<Op>)
    ensures Run(av, form, s, ops).final.mockEnabled == MockFlagAfter(ops, s.mockEnabled)
    decreases |ops|
  {
    if ops != [] {
      var c := Apply(av, form, s, ops[0]);
      assert Run(av, form, s, ops) == Then(c, Run(av, form, c.state, ops[1..]));
      ApplyMockFlag(av, form, s, ops[0]);
      RunMockFlag(av, form, c.state, ops[1..]);
    }
  }

  /** In either form, without a valid `configure` the manager keeps the
      mock and every handle it hands out is the mock, even after
      `disableMock`: a rejected `configure` throws before any change. */
  lemma {:induction false} RunWithoutConfigureYieldsMock(av: ArgValidator, form: Form, s: Manager, ops: seq<Op>)
    requires s.logger.Mock?
    requires NoValidConfigure(ops)
    ensures Run(av, form, s, ops).final.logger.Mock?
    ensures OnlyMockHandles(Run(av, form, s, ops).results)
    decreases |ops|
  {
    if ops != [] {
      var c := Apply(av, form, s, ops[0]);
      assert !ValidConfigure(ops[0]);
      assert NoValidConfigure(ops[1..]) by {
        forall i | 0 <= i < |ops[1..]| ensures !ValidConfigure(ops[1..][i]) {
          assert ops[1..][i] == ops[i + 1];
        }
      }
      RunWithoutConfigureYieldsMock(av, form, c.state, ops[1..]);
      var t := Run(av, form, s, ops);
      var rest := Run(av, form, c.state, ops[1..]);
      assert t.results == [c.result] + rest.results;
      forall i | 0 <= i < |t.results| && t.results[i].Success? && t.results[i].value.Handle?
        ensures t.results[i].value.logger.Mock?
      {
        if i > 0 {
          assert t.results[i] == rest.results[i - 1];
        }
      }
    }
  }

  /** In either form: `configure`, then `enableMock`: the mock comes back;
      `disableMock`: the configured logger's child comes back again. */
  lemma MockToggleScenario(av: ArgValidator, form: Form, name: string, group: string)
    requires name != [] && group != []
    ensures
      var configured := Configure(av, form, New(), Str(name), Undefined).state;
      var muted := EnableMock(configured).state;
      && GetLogger(muted, Str(group), map[]).result == Success(Handle(Mock))
      && GetLogger(DisableMock(muted).state, Str(group), map[]).result
         == Success(Handle(Child(RootFor(av, name, Defaults(ExtremeDefault)), map[GroupKey := Str(group)])))
  {
    NormalizeNonObject(av, Undefined, ExtremeDefault);
  }
}
