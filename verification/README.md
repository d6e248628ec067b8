# A Dafny model of the vamship logger facade

The repository is a thin facade over the `pino` logging engine. A caller
configures it once with an application name and options, asks it for
group-tagged logger handles, and can switch it into a mock mode that hands
out a shared no-op logger. This project models the decision layer under the
I/O calls and proves properties of it:

- **Option normalisation** (`Options`): the loosely typed `options` argument
  becomes a fully populated record. An invalid `level` becomes `'info'`. A
  non-boolean `extreme` becomes the variant's default. Non-object
  `serializers` become `{}`. A non-array `redact` becomes `[]`.
- **Destination resolution** (`Destinations`): the ordered five-way table
  for the `destination` option. An object passes through untouched. The
  strings `process.stdout` and `process.stderr` select a standard stream. Any
  other string the validator accepts is a file path. Anything else means
  standard output. Every wrapped case writes synchronously exactly when
  extreme mode is off.
- **The manager state machine**, in the three forms the repository holds:
  - `ClassManager` holds what the two class-based forms share line for
    line: the constructor (the mock flag starts set), `getLogger`,
    `enableMock` and `disableMock`. Its `configure` takes the form
    (`Current` or `Earlier`) as a parameter, since that is the only method
    in which the two differ.
  - `LogManager` is `src/log-manager.ts`, the form `src/index.ts` exports.
    The first valid `configure` builds the logger and later calls never
    replace it.
  - `ClassLogger` is `src/logger.ts`. Every valid `configure` builds a new
    logger and overwrites the old one.
  - `LegacyLogger` is `src/logger.js`. This is module-level state with an
    initialised flag. The first `configure` wins. `configure` never touches
    the mock flag, which starts clear.

The engine's primitives are opaque values that record their arguments
(`Pino`). `pino(args, destination)` is `Root`, `pino.destination(...)` is a
`Destination`, `logger.child(bindings)` is `Child`, and the shared mock is
`Mock`. Its `child` returns the mock itself. Each operation is a pure
function from a state to a `Call`. A `Call` holds the new state, the
returned value or thrown `ArgError`, and the number of calls it made:
`pino(...)` constructions, `pino.destination` calls, and `child` calls on
the held logger. Before any `configure` the held logger is the mock, so such
a `child` call goes to the mock's own `child` and not to pino. `Run`
performs a sequence of operations. The lemmas about runs state the policies:

- the logger is constructed at most once (first call wins), or once per
  valid `configure` (last call wins);
- the mock flag follows the last call that touched it;
- an unconfigured manager only ever hands out the mock.

`Variants` compares the three forms.

The argument-validation library (`@vamship/arg-utils`) is external. The
facade relies on some of its behaviour, and the model fixes these parts:

- plain objects pass `checkObject`, while `undefined`, `null` and
  primitives fail it;
- `checkString(v, 1)` accepts exactly the non-empty strings;
- `checkBoolean` accepts exactly the booleans;
- `checkArray` accepts exactly the arrays;
- `checkEnum(v, values)` accepts exactly the strings listed in `values`.

The library's behaviour is not known on two points:

- whether arrays or functions pass `checkObject`;
- which minimum length `checkString` applies when none is given.

These two points are fields of an `ArgValidator` value that every operation
takes. Every property here holds for every choice of them, with one
exception. The worked example `LogManager.ServiceExample` assumes a default
minimum length of at most 1, so that its file path is accepted.

## Behaviour worth noting

- The fourth destination case accepts whatever `checkString` accepts with
  its default minimum length, which may include the empty string.
- `getLogger`'s error message is `Invalid group (arg #1)`.
- The `extreme` default is `false` in both TypeScript forms, although one
  test title says the default is `true`. The test's own expectation
  (`sync: true`) agrees with the code.
- In `src/logger.js`, `configure` does not clear the mock flag. A second
  call there returns `undefined` rather than the module.
- In `src/logger.js`, pino is built with `streams: [process.stdout]`. The
  legacy test file's expectations about `pino.destination` do not describe
  this code, and the model does not use them.

Two behaviours of the code that callers may not expect are stated as
lemmas. An object-form `redact` (pino's `redactOptions`) is not an array, so
it is replaced by `[]` (`Options.RedactObjectFormDropped`). In the current
form, every valid `configure` resolves the destination, even when nothing
is built. It also calls `pino.destination` then, unless the destination is
an object (`LogManager.Configure`).

## Model

| member | source | states |
|---|---|---|
| Levels.LevelName | src/log-manager.ts:10-18 | every level is named by one of the seven `LOG_LEVELS` strings |
| Levels.ParseLevel | src/log-manager.ts:101-103 | a level value is recognised exactly when it passes `checkEnum(v, LOG_LEVELS)`, and then it is that level's name |
| Options.Normalize | src/log-manager.ts:98-119 | each field keeps the caller's value when it is valid. Otherwise it takes its default: `'info'`, the variant's `extreme` default, `{}` or `[]`. The destination is passed on unchanged |
| Options.NormalizeToJs | src/logger.ts:186-207 | normalising the object literal of a normalised record gives that record back, whatever the `extreme` default |
| Options.NormalizeIdempotent | src/log-manager.ts:98-119 | normalising an already normalised record changes nothing |
| Options.NormalizeNonObject | src/logger.js:84-92 | a missing or non-object `options` is treated as `{}`, so every field takes its default |
| Options.RedactObjectFormDropped | src/log-manager.ts:117-119 | an object-form `redact` fails `checkArray` and becomes `[]` |
| Destinations.Resolve | src/log-manager.ts:51-80 | the ordered five-way table: objects pass through without a sync flag; the two sentinels select stdout or stderr; other accepted strings are file paths; anything else is stdout; every wrapped case has `sync = !extreme` |
| Destinations.ResolveDescribe | src/logger.ts:139-168 | every destination the table can produce is obtained by writing its option value (sentinel, path or object) and resolving it |
| Destinations.ResolveStable | src/log-manager.ts:51-80 | resolution only produces resolvable destinations, and resolving the description of a result gives the same result |
| Destinations.ResolveMissing | src/log-manager.ts:76-79 | an omitted destination means standard output with `sync = !extreme` |
| Pino.ChildOf | src/log-manager.ts:28 | the mock's `child` returns the mock; a real handle derives a child that records its parent and bindings |
| Pino.DeriveMock | src/logger.ts:116 | any chain of `child` calls from the mock yields the mock, and from a real handle never yields it |
| Pino.Bindings | src/log-manager.ts:178-181 | the child's bindings are the caller's properties plus `group`; `group` always wins and every other property is kept |
| Pino.CallLevel | src/logger.ts:98-118 | a mock's level method is a no-op exactly for the levels it implements and never reaches the engine; a real handle delegates to the engine |
| Pino.MockDerivativesNeverLog | src/log-manager.ts:9-30 | nothing derived from the mock ever reaches the engine; its implemented level methods are no-ops |
| ClassManager.New | src/log-manager.ts:46-49 | a new manager has the mock flag set and the shared mock as its logger, in both class-based forms (the earlier form at src/logger.ts:134-137 is the same code) |
| ClassManager.Configure | src/log-manager.ts:93-136 | for both class-based forms: an invalid name throws before any change; a valid one clears the flag and resolves the destination. The current form builds only while the logger is the mock and returns the manager; the earlier form (src/logger.ts:181-220) always builds and returns nothing |
| LogManager.Configure | src/log-manager.ts:93-136 | an invalid name throws `Invalid name (arg #1)` before any change. Otherwise the call returns the manager, clears the flag and calls `pino.destination` unless the destination is an object. It builds the logger only while the current one is the mock |
| ClassManager.GetLogger | src/log-manager.ts:172-183 | an invalid group throws `Invalid group (arg #1)`. A set flag yields the mock. Otherwise one `child` call is made with `group` overlaid. An unconfigured manager only yields the mock |
| ClassManager.EnableMock | src/log-manager.ts:157-159 | sets the flag and leaves the logger alone |
| ClassManager.DisableMock | src/log-manager.ts:146-148 | clears the flag and leaves the logger alone |
| LogManager.RunKeepsRealLogger | src/log-manager.ts:123-133 | once the logger is real, no sequence of calls replaces it or constructs another |
| LogManager.RunConstructsAtMostOnce | src/log-manager.ts:121-133 | a run constructs exactly one logger if it takes the manager from the mock to a real logger, and none otherwise |
| LogManager.RunFirstConfigureWins | src/log-manager.ts:123-133 | the logger after any run is the one the first valid `configure` built |
| ClassManager.RunMockFlag | src/log-manager.ts:93-159 | in either class-based form, the flag after a run is decided by the last valid `configure`, `enableMock` or `disableMock` |
| ClassManager.RunWithoutConfigureYieldsMock | src/log-manager.ts:172-183 | in either class-based form, without a valid `configure` (rejected ones throw before any change), the manager keeps the mock and every handle it returns is the mock, even after `disableMock` |
| ClassManager.MockToggleScenario | src/log-manager.ts:146-183 | in either class-based form, after `configure`, `enableMock` brings back the mock and `disableMock` brings back the configured logger's child |
| LogManager.ServiceExample | src/log-manager.ts:93-136 | a configure with level, extreme, file destination and redact makes one construction and one `pino.destination` call. A later `getLogger` asks for a child with the extra property and `group` |
| ClassLogger.Configure | src/logger.ts:181-220 | an invalid name throws before any change. Otherwise the call returns nothing, clears the flag and always builds a new logger from the normalised options and the resolved destination |
| ClassLogger.RunConstructsPerConfigure | src/logger.ts:209-219 | a run constructs exactly one logger per valid `configure` |
| ClassLogger.RunLastConfigureWins | src/logger.ts:211-219 | the logger after any run is the one the last valid `configure` built |
| LegacyLogger.Initial | src/logger.js:23-25 | the module starts uninitialised, without a logger and with the mock flag clear |
| LegacyLogger.Configure | src/logger.js:81-109 | an invalid name throws. The first valid call builds `pino({name, level, extreme, streams: [stdout]})` and returns the module. Later calls build nothing and return `undefined`. The mock flag is never touched |
| LegacyLogger.GetLogger | src/logger.js:125-135 | an invalid group throws. The mock is returned while the module is uninitialised or the flag is set. Otherwise a child with `group` overlaid is returned |
| LegacyLogger.EnableMock | src/logger.js:56-58 | sets the flag and nothing else |
| LegacyLogger.DisableMock | src/logger.js:45-47 | clears the flag and nothing else |
| LegacyLogger.RunKeepsLogger | src/logger.js:94-97 | once initialised, no run replaces the logger or constructs another |
| LegacyLogger.RunConstructsAtMostOnce | src/logger.js:94-106 | a run constructs exactly one logger if it initialises the module, and none otherwise |
| LegacyLogger.RunMockFlag | src/logger.js:45-58 | the flag after a run is decided by the last `enableMock` or `disableMock` alone |
| LegacyLogger.RunWithoutConfigureYieldsMock | src/logger.js:127-130 | without a valid `configure` (rejected ones throw before any change), the module stays uninitialised and hands out only the mock, whatever the flag |
| Variants.FirstConfigureAgrees | src/logger.ts:181-220 | on a fresh manager the two class-based forms reach the same state with the same calls. Only the return value differs |
| Variants.ReconfigureDiverges | src/log-manager.ts:123-133 | after two valid `configure` calls, the current form keeps the first logger (one construction). The earlier form holds the second (two constructions) |
| Variants.DefaultExtremeDiffers | src/logger.js:90-92 | with no options, the class-based forms write to stdout synchronously. The legacy form asks pino for extreme mode |
| Variants.MuteThenConfigureCurrent | src/log-manager.ts:96 | `enableMock` then `configure` then `getLogger` yields a real child, because `configure` clears the flag |
| Variants.MuteThenConfigureLegacy | src/logger.js:81-109 | the same calls in the legacy form yield the mock, because `configure` leaves the flag set |
| Variants.MockSilentDiffers | src/logger.ts:109-118 | the current and legacy mocks answer every level with a no-op. The earlier class-based mock has no `silent`, so only that call is not a function there |
| Variants.UnconfiguredAlwaysMock | src/logger.js:23-25 | the initial flags differ between forms. Before `configure`, with the flag cleared, every form still hands out only the mock |

## Left out

- pino itself is not modelled: logger construction, stream and file I/O, buffering in extreme mode, level filtering, serializers and redaction. Its primitives are opaque values that record their arguments. Errors pino throws are not modelled either.
- The real file-descriptor numbers of `process.stdout` and `process.stderr` are replaced by the tags `Stdout` and `Stderr`.
- The arg-utils edge cases (arrays or functions passing `checkObject`, the default minimum length of `checkString`) are parameters, not decisions. `null` is assumed never to pass `checkObject`.
- Options.Normalize: the shallow copy `{...serializers}` is modelled as the supplied value itself. Spreading an array yields an index-keyed object and spreading a function yields `{}`. This matters only if arrays or functions pass `checkObject`.
- Pino.CallLevel: a real handle's level methods are only marked as handed to the engine; what the engine writes is not modelled.
- Pino.Bindings: key order in the bindings object is not modelled; pino's output order is the engine's concern.
- The `props` argument of `getLogger` is modelled as an object (`Record<string, unknown>` in the TypeScript signature). A non-object `props` from an untyped caller is not modelled.
- `src/logger.js` writes the defaulted `level` and `extreme` back into the caller's own `options` object. The model is pure and does not represent that aliasing.
- JavaScript numbers are abstracted to integers, since the facade never inspects them.
- Object identity is reduced to the mock/real distinction (`this._logger === MOCK_LOGGER` is `Mock?`).
- Type declarations and re-exports (`src/index.ts`, `src/index.d.ts`, `src/types/index.ts`) carry no behaviour. The exported default instance is `ClassManager.New()`.
