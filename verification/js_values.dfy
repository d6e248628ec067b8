/**
  The loosely typed JavaScript values that the logger facade receives as
  arguments, and the checks the argument-validation library performs on them.

  The validation library is external; only the parts of its behaviour the
  facade relies on are fixed here. The points where its behaviour is not
  pinned down (whether arrays or functions count as objects, and which
  minimum length `checkString` applies when none is given) are parameters
  of the model, collected in an `ArgValidator`, so that every property
  proved below holds whatever the library decides on them.
 */
module JsValues {

  /** A JavaScript value. Numbers are abstracted to integers and functions
      to opaque identities: the facade never inspects either. */
  datatype JsValue =
    | Undefined
    | Null
    | Bool(b: bool)
    | Number(n: int)
    | Str(s: string)
    | Arr(items: seq<JsValue>)
    | Obj(props: map<string, JsValue>)
    | Func(id: nat)

  /** The coarse type of a value, as a run-time type test sees it. */
  datatype Kind =
    | UndefinedKind
    | NullKind
    | BooleanKind
    | NumberKind
    | StringKind
    | ArrayKind
    | ObjectKind
    | FunctionKind

  function KindOf(v: JsValue): Kind {
    match v
    case Undefined => UndefinedKind
    case Null => NullKind
    case Bool(_) => BooleanKind
    case Number(_) => NumberKind
    case Str(_) => StringKind
    case Arr(_) => ArrayKind
    case Obj(_) => ObjectKind
    case Func(_) => FunctionKind
  }

  /** The undecided parts of the validation library's behaviour:
      `objectKinds` are the kinds `checkObject` accepts, and
      `defaultMinLength` is the minimum length `checkString` enforces when
      the caller passes none. */
  datatype ArgChecks = ArgChecks(objectKinds: set<Kind>, defaultMinLength: nat)

  /** Whatever else it decides, `checkObject` accepts plain objects and
      rejects `undefined`, `null` and every primitive. */
  predicate SaneChecks(c: ArgChecks) {
    && ObjectKind in c.objectKinds
    && c.objectKinds <= {ObjectKind, ArrayKind, FunctionKind}
  }

  type ArgValidator = c: ArgChecks | SaneChecks(c) witness ArgChecks({ObjectKind}, 0)

  /** `checkObject(v)`. */
  predicate CheckObject(av: ArgValidator, v: JsValue) {
    KindOf(v) in av.objectKinds
  }

  /** `checkString(v, minLength)`. */
  predicate CheckString(v: JsValue, minLength: nat) {
    v.Str? && |v.s| >= minLength
  }

  /** `checkString(v)` with the library's default minimum length. */
  predicate CheckDefaultString(av: ArgValidator, v: JsValue) {
    CheckString(v, av.defaultMinLength)
  }

  /** `checkString(v, 1)`: the test the facade applies to names and groups. */
  predicate NonEmptyString(v: JsValue) {
    CheckString(v, 1)
  }

  /** `checkBoolean(v)`. */
  predicate CheckBoolean(v: JsValue) {
    v.Bool?
  }

  /** `checkArray(v)`. */
  predicate CheckArray(v: JsValue) {
    v.Arr?
  }

  /** `checkEnum(v, values)`. */
  predicate CheckEnum(v: JsValue, values: seq<string>) {
    v.Str? && v.s in values
  }

  /** Reading property `key` of `v`, after `v` has been copied into a fresh
      object (`{...v}`) or replaced by `{}` when it is not an object: only
      own properties of a plain object are ever seen, and a missing
      property reads as `undefined`. */
  function Field(v: JsValue, key: string): (r: JsValue)
    ensures !v.Obj? ==> r == Undefined
    ensures v.Obj? && key in v.props ==> r == v.props[key]
    ensures v.Obj? && key !in v.props ==> r == Undefined
  {
    if v.Obj? && key in v.props then v.props[key] else Undefined
  }

  /** The object literal `{}`. */
  const EmptyObject: JsValue := Obj(map[])
}
