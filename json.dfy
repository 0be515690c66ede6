/**
 * The study-material payloads the browser receives from
 * `POST /api/documents/{id}/study-tools`, as JavaScript sees them once parsed.
 * The views never trust their shape: they test truthiness, `Array.isArray`,
 * `typeof` and read properties, and this module gives those operations.
 */
module Json {

  /**
   * A parsed JSON value. Numbers are integers (the payload fields the views
   * compare, `correct_index`, are array indices). JavaScript's `undefined`
   * (a missing property, an index past the end) is represented by `Null`:
   * the views only test it for truthiness, compare it with `===` against a
   * number, or read a property of it, and `null` and `undefined` behave
   * alike in all three.
   */
  datatype Value =
    | Null
    | Bool(b: bool)
    | Num(n: int)
    | Str(s: string)
    | Arr(items: seq<Value>)
    | Obj(fields: map<string, Value>)

  /** JavaScript truthiness: `null`, `false`, `0` and `""` are falsy. */
  predicate Truthy(v: Value) {
    match v
    case Null => false
    case Bool(b) => b
    case Num(n) => n != 0
    case Str(s) => s != ""
    case Arr(_) => true
    case Obj(_) => true
  }

  /** `typeof v === 'object'` (arrays and `null` included). */
  predicate IsObjectLike(v: Value) {
    v.Null? || v.Arr? || v.Obj?
  }

  /**
   * `v.key` on a value that is not `null`/`undefined`: the field of an
   * object, `undefined` for a missing field or a value of another kind.
   * Reading a property of `null`/`undefined` throws a TypeError; callers
   * that can reach that case test `v.Null?` first.
   */
  function Get(v: Value, key: string): Value {
    if v.Obj? && key in v.fields then v.fields[key] else Null
  }

  /** `a[i]` on an array: the element, or `undefined` past the end. */
  function At(items: seq<Value>, i: nat): Value {
    if i < |items| then items[i] else Null
  }

  /**
   * Whether React can render `{v}` as a child: `null`, booleans, numbers and
   * strings render (the first two as nothing), an array renders its
   * elements, and a plain object throws "Objects are not valid as a React
   * child".
   */
  predicate Renderable(v: Value) {
    match v
    case Obj(_) => false
    case Arr(items) => forall x :: x in items ==> Renderable(x)
    case _ => true
  }
}
