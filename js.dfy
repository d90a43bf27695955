/** JavaScript values, as far as the modelled code inspects them: their
    truthiness, `typeof`, and strict equality. Numbers are integers here. */
module Js {

  datatype Value =
    | Undefined
    | Null
    | Bool(b: bool)
    | Number(n: int)
    | Str(s: string)
    | Object
    | Function

  /** The values an `if (v)` or a `v || d` treats as true. */
  predicate Truthy(v: Value)
  {
    match v
    case Undefined => false
    case Null => false
    case Bool(b) => b
    case Number(n) => n != 0
    case Str(s) => s != ""
    case Object => true
    case Function => true
  }

  /** `a || b` */
  function Or(a: Value, b: Value): (r: Value)
    ensures Truthy(a) ==> r == a
    ensures !Truthy(a) ==> r == b
  {
    if Truthy(a) then a else b
  }

  /** A value that may be absent (`undefined`). */
  datatype Option<T> = None | Some(value: T)

  /** The built-in error classes the code tells apart. */
  datatype ErrorName = SyntaxError | TypeError | PlainError

  /** An exception object: its class and its `message`. */
  datatype Error = Error(name: ErrorName, message: string)

  function LowerChar(c: char): char
  {
    if 'A' <= c <= 'Z' then (c as int + 32) as char else c
  }

  /** `s.toLowerCase()` on ASCII text. */
  function ToLower(s: string): (r: string)
    ensures |r| == |s|
    ensures forall i :: 0 <= i < |s| ==> r[i] == LowerChar(s[i])
  {
    if s == [] then [] else [LowerChar(s[0])] + ToLower(s[1..])
  }
}
