/**
  Destination resolution: the ordered five-way classification of the
  `destination` option (src/log-manager.ts:51-80, src/logger.ts:139-168).
  Every case except the first goes through `pino.destination`, recorded
  here by the arguments it receives.
 */
module Destinations {
  import opened JsValues

  /** The process's standard streams, by role rather than descriptor number. */
  datatype StdStream = Stdout | Stderr

  /** A resolved destination:
      - `Passthrough(handle)`: the caller's object, handed to pino unchanged;
      - `Fd(stream, sync)`: `pino.destination({fd, sync})`;
      - `File(path, sync)`: `pino.destination({dest: path, sync})`. */
  datatype Destination =
    | Passthrough(handle: JsValue)
    | Fd(stream: StdStream, sync: bool)
    | File(path: string, sync: bool)

  const StdoutSentinel: string := "process.stdout"
  const StderrSentinel: string := "process.stderr"

  /** Whether resolving to `d` invoked `pino.destination`. */
  predicate CallsPinoDestination(d: Destination) {
    !d.Passthrough?
  }

  /** Resolve the `destination` option. The table, in order: an object
      passes through untouched; the two sentinel strings select a standard
      stream; any other string `checkString` accepts is a file path; anything
      else means standard output. Every wrapped case writes synchronously
      exactly when extreme mode is off. */
  function Resolve(av: ArgValidator, destination: JsValue, extreme: bool): (d: Destination)
    ensures d.Passthrough? <==> CheckObject(av, destination)
    ensures d.Passthrough? ==> d.handle == destination
    ensures CallsPinoDestination(d) ==> d.sync == !extreme
    ensures d == Fd(Stderr, !extreme) <==> destination == Str(StderrSentinel)
    ensures d.File? <==>
      && CheckDefaultString(av, destination)
      && destination != Str(StdoutSentinel)
      && destination != Str(StderrSentinel)
    ensures d.File? ==> destination == Str(d.path)
    ensures d == Fd(Stdout, !extreme) <==>
      || destination == Str(StdoutSentinel)
      || (!CheckObject(av, destination) && !CheckDefaultString(av, destination)
          && destination != Str(StderrSentinel))
  {
    if CheckObject(av, destination) then
      Passthrough(destination)
    else if destination == Str(StdoutSentinel) then
      Fd(Stdout, !extreme)
    else if destination == Str(StderrSentinel) then
      Fd(Stderr, !extreme)
    else if CheckDefaultString(av, destination) then
      File(destination.s, !extreme)
    else
      Fd(Stdout, !extreme)
  }

  /** The destinations `Resolve` can produce under a given extreme flag. */
  predicate Resolvable(av: ArgValidator, d: Destination, extreme: bool) {
    match d
    case Passthrough(h) => CheckObject(av, h)
    case Fd(_, sync) => sync == !extreme
    case File(p, sync) =>
      && sync == !extreme
      && CheckDefaultString(av, Str(p))
      && p != StdoutSentinel
      && p != StderrSentinel
  }

  /** The option value a caller writes to ask for `d`. */
  function Describe(d: Destination): JsValue {
    match d
    case Passthrough(h) => h
    case Fd(Stdout, _) => Str(StdoutSentinel)
    case Fd(Stderr, _) => Str(StderrSentinel)
    case File(p, _) => Str(p)
  }

  /** Every resolvable destination is obtained from its description. */
  lemma {:induction false} ResolveDescribe(av: ArgValidator, d: Destination, extreme: bool)
    requires Resolvable(av, d, extreme)
    ensures Resolve(av, Describe(d), extreme) == d
  {
    match d
    case Passthrough(h) =>
    case Fd(s, _) =>
      assert !CheckObject(av, Describe(d));
    case File(p, _) =>
      assert !CheckObject(av, Str(p));
  }

  /** Resolution only produces resolvable destinations, so describing the
      result and resolving again changes nothing. */
  lemma {:induction false} ResolveStable(av: ArgValidator, destination: JsValue, extreme: bool)
    ensures Resolvable(av, Resolve(av, destination, extreme), extreme)
    ensures Resolve(av, Describe(Resolve(av, destination, extreme)), extreme)
         == Resolve(av, destination, extreme)
  {
    ResolveDescribe(av, Resolve(av, destination, extreme), extreme);
  }

  /** Omitting the destination means standard output. */
  lemma ResolveMissing(av: ArgValidator, extreme: bool)
    ensures Resolve(av, Undefined, extreme) == Fd(Stdout, !extreme)
  {
  }
}
