/** The few pieces of the PHP runtime that the error-routing rules look at:
    the error-level constants, nullable values, truthiness and `instanceof`. */
module Php {

  /** A value that PHP may leave as `null`. */
  datatype Option<+T> = None | Some(value: T)

  // Error levels, as PHP defines them (bit flags).
  const E_ERROR: int := 1
  const E_WARNING: int := 2
  const E_PARSE: int := 4
  const E_NOTICE: int := 8
  const E_CORE_ERROR: int := 16
  const E_COMPILE_ERROR: int := 64
  const E_USER_ERROR: int := 256
  const E_USER_WARNING: int := 512
  const E_USER_NOTICE: int := 1024
  const E_RECOVERABLE_ERROR: int := 4096
  const E_DEPRECATED: int := 8192
  const E_USER_DEPRECATED: int := 16384
  const E_ALL: int := 32767

  /** A PHP value as far as truthiness and `serialize` care about it. */
  datatype Value =
    | Null
    | Bool(b: bool)
    | Int(i: int)
    | Str(s: string)
    | Arr(items: seq<Value>)
    | Obj(cls: ClassName)

  /** PHP's conversion to boolean: null, false, 0, "", "0" and the empty array are falsy;
      every object is truthy. */
  predicate Truthy(v: Value) {
    match v
    case Null => false
    case Bool(b) => b
    case Int(i) => i != 0
    case Str(s) => s != "" && s != "0"
    case Arr(items) => items != []
    case Obj(_) => true
  }

  type ClassName = string

  /** The class hierarchy of the running program, which this model cannot see:
      a pair (sub, super) says that class `sub` extends or implements `super`,
      directly or indirectly. */
  type Hierarchy = set<(ClassName, ClassName)>

  /** `$x instanceof $super` for an object of class `cls`. */
  predicate InstanceOf(h: Hierarchy, cls: ClassName, super: ClassName) {
    cls == super || (cls, super) in h
  }
}
