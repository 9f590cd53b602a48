/** The Python runtime values that the serverless validation layer inspects,
    and the two pieces of Python semantics it depends on: `isinstance` and
    truthiness. */
module PyValues {
  import opened Outcomes

  /** A Python value as a property or keyword argument can hold it. */
  datatype Value =
    | NoneValue
    | Str(s: string)
    | Int(i: int)
      /** A float; NaN and the infinities are not modelled. */
    | Float(r: real)
    | Bool(b: bool)
    | List(items: seq<Value>)
    | Dict(entries: map<string, Value>)
      /** An instance of an AWSObject / AWSProperty class, with its properties. */
    | Obj(cls: string, properties: map<string, Value>)
      /** An instance of an AWSHelperFn class: Ref, GetAtt, or one of the
          *Globals classes, with the keyword arguments it was built from. */
    | HelperFn(cls: string, args: seq<Arg>)

  /** One keyword argument `name=value`. */
  datatype Arg = Arg(name: string, value: Value)

  /** The `properties` dict of an AWSObject / AWSProperty. */
  type Properties = map<string, Value>

  /** The Python classes that a props table names as accepted types. */
  datatype PyType =
    | StrType
    | IntType
    | BoolType
    | ListType
    | DictType
    | HelperFnType
    | ClassType(name: string)

  /** The direct base class of the in-file classes that subclass another
      in-file class; every other class has no base class that a props table
      could name. */
  function BaseClass(cls: string): Option<string>
  {
    if cls == "OnFailure" || cls == "OnSuccess" then Some("EventInvokeDestination")
    else if cls == "FunctionForPackaging" then Some("Function")
    else if cls == "HttpApiDefinition" then Some("ApiDefinition")
    else if cls == "HttpApiDomainConfiguration" then Some("Domain")
    else if cls in ["FunctionGlobals", "ApiGlobals", "HttpApiGlobals", "SimpleTableGlobals", "Globals"] then
      Some("GlobalsHelperFn")
    else None
  }

  predicate IsSubclass(cls: string, of: string)
  {
    cls == of || BaseClass(cls) == Some(of)
  }

  /** The class and its in-file base class, most derived first. */
  function ClassChain(cls: string): seq<PyType>
  {
    match BaseClass(cls)
    case Some(b) => [ClassType(cls), ClassType(b)]
    case None => [ClassType(cls)]
  }

  /** `type(v).__mro__`, restricted to the classes a props table can name:
      `bool` derives from `int`, and every helper function from `AWSHelperFn`.
      `NoneType` and `float` are named by no table. */
  function Mro(v: Value): seq<PyType>
  {
    match v
    case NoneValue => []
    case Str(_) => [StrType]
    case Int(_) => [IntType]
    case Float(_) => []
    case Bool(_) => [BoolType, IntType]
    case List(_) => [ListType]
    case Dict(_) => [DictType]
    case Obj(cls, _) => ClassChain(cls)
    case HelperFn(cls, _) => ClassChain(cls) + [HelperFnType]
  }

  /** Python's `isinstance(v, t)` for a single class `t`: `t` is on the
      method resolution order of `v`'s class. */
  function IsInstance(v: Value, t: PyType): (b: bool)
    ensures b <==> t in Mro(v)
  {
    match t
    case StrType => v.Str?
    case IntType => v.Int? || v.Bool?   // bool is a subclass of int
    case BoolType => v.Bool?
    case ListType => v.List?
    case DictType => v.Dict?
    case HelperFnType => v.HelperFn?
    case ClassType(name) => (v.Obj? || v.HelperFn?) && IsSubclass(v.cls, name)
  }

  /** Python's `isinstance(v, (t1, ..., tn))`: any of the tuple's classes. */
  predicate IsInstanceOfAny(v: Value, ts: seq<PyType>)
  {
    exists t :: t in ts && IsInstance(v, t)
  }

  /** Python truthiness. Objects and helper functions define neither
      `__bool__` nor `__len__` in the visible code, so they are truthy: the
      falsy values are exactly None, the empty string, zero, False and the
      empty list and dict. */
  function Truthy(v: Value): (b: bool)
    ensures !b <==> v in {NoneValue, Str(""), Int(0), Float(0.0), Bool(false), List([]), Dict(map[])}
  {
    match v
    case NoneValue => false
    case Str(s) => s != ""
    case Int(i) => i != 0
    case Float(r) => r != 0.0
    case Bool(b) => b
    case List(xs) => xs != []
    case Dict(m) => m != map[]
    case Obj(_, _) => true
    case HelperFn(_, _) => true
  }

  /** `properties.get(key)`: the stored value, or None when absent. */
  function Get(p: Properties, key: string): Value
  {
    if key in p then p[key] else NoneValue
  }

  /** Python's `x in [s1, ..., sn]` for a list of string literals: only a
      string equal to one of them is a member. */
  predicate IsOneOf(v: Value, allowed: seq<string>)
  {
    v.Str? && v.s in allowed
  }
}
