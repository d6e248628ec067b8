/**
  The logging engine's primitives, as opaque values that record the
  arguments they were built from, and the shared mock logger
  (src/log-manager.ts:20-30, src/logger.ts:109-118, src/logger.js:16-21).
 */
module Pino {
  import opened JsValues
  import opened Levels
  import opened Destinations

  /** The first argument of `pino(...)` in the class-based variants:
      `{name, level, serializers, redact}`. */
  datatype PinoArgs = PinoArgs(name: string, level: Level, serializers: JsValue, redact: seq<JsValue>)

  /** A logger handle:
      - `Mock`: the shared `MOCK_LOGGER` (its `__isMock` marker is `Mock?`);
      - `Root(args, destination)`: `pino(args, destination)`;
      - `LegacyRoot(...)`: `pino({name, level, extreme, streams})`;
      - `Child(parent, bindings)`: `parent.child(bindings)`. */
  datatype Logger =
    | Mock
    | Root(args: PinoArgs, destination: Destination)
    | LegacyRoot(name: string, level: Level, extreme: bool, streams: seq<StdStream>)
    | Child(parent: Logger, bindings: map<string, JsValue>)

  /** `logger.child(bindings)`: the mock's `child` returns the mock itself;
      a real logger derives a new handle. */
  function ChildOf(l: Logger, bindings: map<string, JsValue>): (r: Logger)
    ensures r.Mock? <==> l.Mock?
    ensures !l.Mock? ==> r.Child? && r.parent == l && r.bindings == bindings
  {
    if l.Mock? then Mock else Child(l, bindings)
  }

  /** Derive a handle through a chain of `child` calls. */
  function Derive(l: Logger, chain: seq<map<string, JsValue>>): Logger
    decreases |chain|
  {
    if chain == [] then l else Derive(ChildOf(l, chain[0]), chain[1..])
  }

  /** The mock is a fixed point of `child`: however many times a handle
      derived from it is asked for a child, the result is the mock. A real
      handle never derives the mock. */
  lemma {:induction false} DeriveMock(l: Logger, chain: seq<map<string, JsValue>>)
    ensures Derive(l, chain).Mock? <==> l.Mock?
    ensures l.Mock? ==> Derive(l, chain) == Mock
    decreases |chain|
  {
    if chain != [] {
      DeriveMock(ChildOf(l, chain[0]), chain[1..]);
    }
  }

  /** The property key the facade reserves for the logger group. */
  const GroupKey: string := "group"

  /** The bindings handed to `child`: the caller's properties overlaid with
      `{group}` (`{...props, group}`, or `Object.assign({}, props, {group})`). */
  function Bindings(props: map<string, JsValue>, group: string): (b: map<string, JsValue>)
    ensures b.Keys == props.Keys + {GroupKey}
    ensures b[GroupKey] == Str(group)
    ensures forall k :: k in props && k != GroupKey ==> b[k] == props[k]
  {
    props[GroupKey := Str(group)]
  }

  /** The effect of calling a level method (`info`, `warn`, ...) on a handle. */
  datatype LogCall =
    | NoOp                                   // returns undefined, writes nothing
    | Delegated(logger: Logger, level: Level) // handed to the engine
    | NotAFunction                           // the handle has no such method

  /** Call the method for `level` on `l`, given the levels the mock
      implements in this variant. */
  function CallLevel(l: Logger, level: Level, mockLevels: set<Level>): (r: LogCall)
    ensures l.Mock? ==> (r == NoOp <==> level in mockLevels)
    ensures l.Mock? ==> !r.Delegated?
    ensures !l.Mock? ==> r == Delegated(l, level)
  {
    if !l.Mock? then Delegated(l, level)
    else if level in mockLevels then NoOp
    else NotAFunction
  }

  /** Nothing derived from the mock ever reaches the engine. */
  lemma {:induction false} MockDerivativesNeverLog(chain: seq<map<string, JsValue>>, level: Level, mockLevels: set<Level>)
    ensures !CallLevel(Derive(Mock, chain), level, mockLevels).Delegated?
    ensures level in mockLevels ==> CallLevel(Derive(Mock, chain), level, mockLevels) == NoOp
  {
    DeriveMock(Mock, chain);
  }
}
