/**
 The JavaScript value conventions the client relies on: possibly-undefined
 strings, truthiness, the `options.k || options` idiom, `String.prototype.slice`,
 and the shape of a parsed JSON response body as the client reads it.
 */
module JsValues {

  /** `None` stands for JavaScript `undefined` (or `null`). */
  datatype Option<+T> = None | Some(value: T)

  /** A synchronous call: it returns a value, or it throws out to its caller. */
  datatype Sync<+T> = Returned(value: T) | Thrown

  /** The fields of a JSON object as the client reads them; a key that is
      absent reads as `undefined`. */
  type Fields = map<string, string>

  function Get(f: Fields, k: string): Option<string>
  {
    if k in f then Some(f[k]) else None
  }

  /** An options argument that the source accepts either as a bare string
      or as a plain object. */
  datatype Arg = Str(s: string) | Obj(fields: Fields)

  /** `arg.k`: a string has none of the properties the client asks for. */
  function Prop(a: Arg, k: string): Option<string>
  {
    match a
    case Str(_) => None
    case Obj(f) => Get(f, k)
  }

  /** JavaScript truthiness of a possibly undefined string. */
  predicate Truthy(v: Option<string>)
  {
    v.Some? && v.value != ""
  }

  /** `v || fallback` for a possibly undefined string. */
  function OrElse(v: Option<string>, fallback: string): string
  {
    if Truthy(v) then v.value else fallback
  }

  /** `String(arg)`, as string concatenation renders an argument. */
  function Text(a: Arg): string
  {
    match a
    case Str(s) => s
    case Obj(_) => "[object Object]"
  }

  /** `String(v)` for a possibly undefined string. */
  function TextOf(v: Option<string>): string
  {
    if v.Some? then v.value else "undefined"
  }

  /** The idiom `options.k || options`, followed by string concatenation.
      (For a bare string `options && options.k` is either the falsy empty
      string or `undefined`, so `(options && options.k) || options` renders
      the same way.) */
  function PropOrSelf(a: Arg, k: string): (r: string)
    ensures Truthy(Prop(a, k)) ==> r == Prop(a, k).value
    ensures !Truthy(Prop(a, k)) ==> r == Text(a)
    ensures a.Str? ==> r == a.s
  {
    var v := Prop(a, k);
    if Truthy(v) then v.value else Text(a)
  }

  /** `s.slice(start, end)`: a negative bound counts from the end, and every
      bound is clamped to `[0, |s|]`. */
  function Slice(s: string, start: int, end: int): (r: string)
    ensures 0 <= start <= end <= |s| ==> r == s[start..end]
    ensures 0 <= start && end < 0 && |s| + end <= start ==> r == []
  {
    var from := Clamp(if start < 0 then |s| + start else start, |s|);
    var to := Clamp(if end < 0 then |s| + end else end, |s|);
    if from < to then s[from..to] else []
  }

  function Clamp(i: int, n: nat): (r: nat)
    ensures r <= n
  {
    if i < 0 then 0 else if i > n then n else i
  }

  /** What `JSON.parse(body)` yields, as far as the client looks at it. */
  datatype Json =
    | Malformed   // `JSON.parse` throws a SyntaxError
    | Null        // the text `null`: reading any property throws a TypeError
    | NonObject   // a number, string, boolean or array: every property the client reads is `undefined`
    | Object(id: Option<string>, message: Option<string>, items: Option<seq<Fields>>)

  /** The response fields the client tests against `null`. */
  datatype Key = IdField | MessageField | ItemsField

  /** `JSON.parse(body).key == null`; `None` when evaluating it throws. */
  function NullAt(j: Json, k: Key): (r: Option<bool>)
    ensures r.None? <==> j.Malformed? || j.Null?
    ensures j.NonObject? ==> r == Some(true)
  {
    match j
    case Malformed => None
    case Null => None
    case NonObject => Some(true)
    case Object(id, message, items) =>
      Some(match k
           case IdField => id.None?
           case MessageField => message.None?
           case ItemsField => items.None?)
  }
}
