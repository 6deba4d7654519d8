/**
 * The two value worlds the binding moves between.
 *
 * `Value` is what the marshaler hands to the host: JavaScript objects keyed by
 * string, ordered arrays, numbers, strings and byte buffers. `JsValue` is what
 * the host passes in as call arguments. Numbers that the binding copies
 * without using (every integer and floating-point field of LibRaw's
 * structures) are values of the abstract type `Num`: nothing in this layer
 * inspects them, and each becomes a JavaScript number (a double) in the
 * tree. A C character array is its text up to the first NUL.
 */
module Values {

  /** A machine number copied verbatim from a LibRaw field; never inspected here. */
  type Num(!new)

  newtype byte = b: int | 0 <= b < 256

  /** A C pointer to a memory block: null, or the bytes it points at. */
  datatype Ptr = Null | Block(mem: seq<byte>)

  /** A JavaScript value produced by the binding. */
  datatype Value =
    | Undefined
    | Scalar(num: Num)             // a number copied from a LibRaw field
    | Int(i: int)                  // a number the binding also uses as a length
    | Str(str: string)             // a NUL-terminated C character array
    | Buf(bytes: seq<byte>)        // a Node.js Buffer
    | Arr(elems: seq<Value>)
    | Obj(fields: map<string, Value>)

  /** The empty object `{}` returned where no buffer is available. */
  const EmptyObject: Value := Obj(map[])

  /** A JavaScript value received as a call argument. */
  datatype JsValue =
    | JsUndefined
    | JsNull
    | JsBool(b: bool)
    | JsNumber                     // its numeric value is never read by the binding
    | JsString(s: string)
    | JsBuffer(data: seq<byte>)
    | JsObject(props: map<string, JsValue>)

  /** `info[i]` of an N-API call: arguments past the end read as undefined. */
  function Arg(info: seq<JsValue>, i: nat): JsValue
  {
    if i < |info| then info[i] else JsUndefined
  }

  /** An exception thrown into JavaScript. */
  datatype JsError = TypeError(message: string) | Error(message: string)

  /** The N-API environment, reduced to its pending JavaScript exception. */
  class Env {
    var pending: Option<JsError>

    constructor ()
      ensures pending == None
    {
      pending := None;
    }

    /** `Napi::...::New(env, msg).ThrowAsJavaScriptException()`. */
    method Throw(e: JsError)
      modifies this
      ensures pending == Some(e)
    {
      pending := Some(e);
    }
  }

  datatype Option<+T> = None | Some(value: T)

  /** `m` is a C matrix `T m[rows][cols]`. */
  predicate IsGrid<T>(m: seq<seq<T>>, rows: nat, cols: nat) {
    |m| == rows && forall j :: 0 <= j < rows ==> |m[j]| == cols
  }

  /** `v` is a JavaScript array holding the first `n` numbers of `ar`, in order. */
  ghost predicate RowOf(v: Value, ar: seq<Num>, n: nat) {
    && v.Arr?
    && |v.elems| == n
    && n <= |ar|
    && forall i :: 0 <= i < n ==> v.elems[i] == Scalar(ar[i])
  }

  /** `v` is a `rows` x `cols` JavaScript array of arrays holding `m[j][k]` at `[j][k]`. */
  ghost predicate GridOf(v: Value, m: seq<seq<Num>>, rows: nat, cols: nat) {
    && v.Arr?
    && |v.elems| == rows
    && rows <= |m|
    && forall j :: 0 <= j < rows ==> RowOf(v.elems[j], m[j], cols)
  }
}
