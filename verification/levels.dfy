/** The seven severity levels the facade accepts, and how a level option
    given as a JavaScript value is recognised (src/log-manager.ts:10-18). */
module Levels {
  import opened Results
  import opened JsValues

  datatype Level = Silent | Trace | Debug | Info | Warn | Error | Fatal

  /** `LOG_LEVELS`, in the source's order. */
  const LogLevels: seq<string> := ["silent", "trace", "debug", "info", "warn", "error", "fatal"]

  /** The level the facade falls back to. */
  const DefaultLevel: Level := Info

  /** The name pino knows the level by. */
  function LevelName(l: Level): (r: string)
    ensures r in LogLevels
  {
    match l
    case Silent => "silent"
    case Trace => "trace"
    case Debug => "debug"
    case Info => "info"
    case Warn => "warn"
    case Error => "error"
    case Fatal => "fatal"
  }

  /** The level a value names, if it passes `checkEnum(v, LOG_LEVELS)`. */
  function ParseLevel(v: JsValue): (r: Option<Level>)
    ensures r.Some? <==> CheckEnum(v, LogLevels)
    ensures r.Some? ==> v == Str(LevelName(r.value))
  {
    if !v.Str? then None
    else if v.s == "silent" then Some(Silent)
    else if v.s == "trace" then Some(Trace)
    else if v.s == "debug" then Some(Debug)
    else if v.s == "info" then Some(Info)
    else if v.s == "warn" then Some(Warn)
    else if v.s == "error" then Some(Error)
    else if v.s == "fatal" then Some(Fatal)
    else None
  }

  /** Naming a level and recognising the name gives the level back. */
  lemma ParseLevelName(l: Level)
    ensures ParseLevel(Str(LevelName(l))) == Some(l)
  {
  }

  /** Distinct levels have distinct names. */
  lemma LevelNameInjective(l: Level, m: Level)
    requires LevelName(l) == LevelName(m)
    ensures l == m
  {
  }
}
