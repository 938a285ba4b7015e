/**
 * The Python 2 values and exceptions the client handles: call arguments, the
 * values the request builder rewrites, and the decoded JSON responses.
 */
module PyObjects {
  import opened Wrappers
  import opened Text

  /**
   * A Python object. `PyStr` is a byte string (one character per byte), `PyUnicode`
   * a unicode object. Dictionary keys are strings.
   */
  datatype PyObject =
    | PyNone
    | PyBool(b: bool)
    | PyInt(i: int)
    | PyStr(bytes: string)
    | PyUnicode(text: string)
    | PyList(elems: seq<PyObject>)
    | PyTuple(items: seq<PyObject>)
    | PyDict(entries: map<string, PyObject>)

  /** The exceptions the modelled code can raise, by Python class. */
  datatype PyError =
    | MissingArgument(param: string)    // TypeError: a required parameter of a generated operation got no value
    | ArgumentMismatch                  // TypeError: too many positional arguments, an unknown keyword, or a parameter given twice
    | AttributeError(name: string)      // the namespace has no operation of that name
    | KeyError(key: string)
    | TypeError                         // subscripting, iterating or url-encoding an object that does not support it
    | UnicodeEncodeError                // str() of unicode text that is not ASCII
    | InvalidFormat                     // RuntimeError('Invalid format specified.')
    | ApiError(code: PyObject, msg: PyObject, args: PyObject)   // EventBriteError
    | TransportError(reason: string)    // raised by the network layer
    | DecodeError(body: string)         // raised by the JSON decoder

  /** Python truth value testing. */
  predicate Truthy(v: PyObject) {
    match v
    case PyNone => false
    case PyBool(b) => b
    case PyInt(i) => i != 0
    case PyStr(s) => |s| > 0
    case PyUnicode(u) => |u| > 0
    case PyList(es) => |es| > 0
    case PyTuple(es) => |es| > 0
    case PyDict(m) => |m| > 0
  }

  /** `v == lit` for an ASCII literal `lit`: Python 2 compares str and unicode by content. */
  predicate EqualsText(v: PyObject, lit: string) {
    v == PyStr(lit) || v == PyUnicode(lit)
  }

  /** `v[key]` with a string key. */
  function Subscript(v: PyObject, key: string): (r: Result<PyObject, PyError>)
    ensures r.Ok? <==> v.PyDict? && key in v.entries
    ensures r.Ok? ==> r.value == v.entries[key]
    ensures r.Err? ==> r.error == (if v.PyDict? then KeyError(key) else TypeError)
  {
    match v
    case PyDict(m) => if key in m then Ok(m[key]) else Err(KeyError(key))
    case _ => Err(TypeError)   // lists, tuples and strings want integer indices; the rest are not subscriptable
  }

  /**
   * `str(v)`. Containers print as their `repr`, which is supplied by the caller
   * (`repr`), since dictionary order and escaping belong to the interpreter.
   */
  function ToStr(v: PyObject, repr: PyObject -> string): (r: Result<string, PyError>)
    ensures r.Err? <==> v.PyUnicode? && !IsAscii(v.text)
    ensures r.Err? ==> r.error == UnicodeEncodeError
    ensures v.PyInt? ==> r == Ok(IntToString(v.i))
    ensures v.PyStr? ==> r == Ok(v.bytes)
    ensures v.PyUnicode? && IsAscii(v.text) ==> r == Ok(v.text)
    ensures v.PyNone? ==> r == Ok("None")
    ensures v.PyBool? ==> r == Ok(if v.b then "True" else "False")
    ensures v.PyList? || v.PyTuple? || v.PyDict? ==> r == Ok(repr(v))
  {
    match v
    case PyNone => Ok("None")
    case PyBool(b) => Ok(if b then "True" else "False")
    case PyInt(i) => Ok(IntToString(i))
    case PyStr(s) => Ok(s)
    case PyUnicode(u) =>
      (match AsciiEncode(u)
       case Some(s) => Ok(s)
       case None => Err(UnicodeEncodeError))
    case _ => Ok(repr(v))
  }
}
