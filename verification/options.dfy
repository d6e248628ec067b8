/**
  Option normalisation: the loosely typed `options` argument of `configure`
  becomes a fully populated record in which every field either is the
  caller's valid value or the documented default
  (src/log-manager.ts:98-119, src/logger.ts:186-207, src/logger.js:84-92).
 */
module Options {
  import opened Results
  import opened JsValues
  import opened Levels

  /** The normalised options. `serializers` is kept as the value the caller
      supplied (or `{}`); `redact` holds the elements of the caller's array. */
  datatype LoggerOptions = LoggerOptions(
    level: Level,
    extreme: bool,
    destination: JsValue,
    serializers: JsValue,
    redact: seq<JsValue>)

  /** The options `configure` uses when the caller gives none that are valid. */
  function Defaults(extremeDefault: bool): LoggerOptions {
    LoggerOptions(DefaultLevel, extremeDefault, Undefined, EmptyObject, [])
  }

  /** What every normalised record satisfies: its serializers pass
      `checkObject`. */
  predicate Normalized(av: ArgValidator, o: LoggerOptions) {
    CheckObject(av, o.serializers)
  }

  /** Normalise `options`. The variants differ only in `extremeDefault`. */
  function Normalize(av: ArgValidator, options: JsValue, extremeDefault: bool): (o: LoggerOptions)
    ensures Normalized(av, o)
    // level: kept when it is one of the seven names, otherwise 'info'
    ensures CheckEnum(Field(options, "level"), LogLevels) ==> Field(options, "level") == Str(LevelName(o.level))
    ensures !CheckEnum(Field(options, "level"), LogLevels) ==> o.level == Info
    // extreme: kept when it is a boolean, otherwise the variant's default
    ensures CheckBoolean(Field(options, "extreme")) ==> Field(options, "extreme") == Bool(o.extreme)
    ensures !CheckBoolean(Field(options, "extreme")) ==> o.extreme == extremeDefault
    // serializers: kept when it is an object, otherwise {}
    ensures CheckObject(av, Field(options, "serializers")) ==> o.serializers == Field(options, "serializers")
    ensures !CheckObject(av, Field(options, "serializers")) ==> o.serializers == EmptyObject
    // redact: kept when it is an array, otherwise []
    ensures CheckArray(Field(options, "redact")) ==> Field(options, "redact") == Arr(o.redact)
    ensures !CheckArray(Field(options, "redact")) ==> o.redact == []
    // destination: left for destination resolution
    ensures o.destination == Field(options, "destination")
  {
    var level := Field(options, "level");
    var extreme := Field(options, "extreme");
    var serializers := Field(options, "serializers");
    var redact := Field(options, "redact");
    var parsed := ParseLevel(level);
    LoggerOptions(
      if parsed.Some? then parsed.value else DefaultLevel,
      if CheckBoolean(extreme) then extreme.b else extremeDefault,
      Field(options, "destination"),
      if CheckObject(av, serializers) then serializers else EmptyObject,
      if CheckArray(redact) then redact.items else [])
  }

  /** The options record written back as the object literal a caller would
      pass to obtain it. */
  function ToJs(o: LoggerOptions): (v: JsValue)
    ensures v.Obj?
    ensures Field(v, "level") == Str(LevelName(o.level))
    ensures Field(v, "extreme") == Bool(o.extreme)
  {
    Obj(map[
      "level" := Str(LevelName(o.level)),
      "extreme" := Bool(o.extreme),
      "destination" := o.destination,
      "serializers" := o.serializers,
      "redact" := Arr(o.redact)])
  }

  /** Normalising the literal form of a normalised record gives the record
      back, whichever default for `extreme` is in force. */
  lemma {:induction false} NormalizeToJs(av: ArgValidator, o: LoggerOptions, extremeDefault: bool)
    requires Normalized(av, o)
    ensures Normalize(av, ToJs(o), extremeDefault) == o
  {
    var v := ToJs(o);
    var r := Normalize(av, v, extremeDefault);
    ParseLevelName(o.level);
    assert Field(v, "destination") == o.destination;
    assert Field(v, "serializers") == o.serializers;
    assert Field(v, "redact") == Arr(o.redact);
    assert r.level == o.level;
  }

  /** Normalisation is idempotent: normalised options are already valid. */
  lemma {:induction false} NormalizeIdempotent(av: ArgValidator, options: JsValue, extremeDefault: bool, otherDefault: bool)
    ensures Normalize(av, ToJs(Normalize(av, options, extremeDefault)), otherDefault)
         == Normalize(av, options, extremeDefault)
  {
    NormalizeToJs(av, Normalize(av, options, extremeDefault), otherDefault);
  }

  /** A missing or non-object `options` argument is treated as `{}`: every
      field takes its default. */
  lemma NormalizeNonObject(av: ArgValidator, options: JsValue, extremeDefault: bool)
    requires !options.Obj?
    ensures Normalize(av, options, extremeDefault) == Defaults(extremeDefault)
    ensures Normalize(av, options, extremeDefault) == Normalize(av, EmptyObject, extremeDefault)
  {
  }

  /** The object form of pino's redaction options is not an array, so it is
      replaced by `[]`. */
  lemma RedactObjectFormDropped(av: ArgValidator, options: JsValue, extremeDefault: bool)
    requires Field(options, "redact").Obj?
    ensures Normalize(av, options, extremeDefault).redact == []
  {
  }
}
