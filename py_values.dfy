/** Python values as they travel between the two programs: the dictionaries that
    `commit_to_dict` builds and `json.loads` gives back, together with the few
    Python operations the loader applies to them (`d[key]`, `len(v)`, `v[i]`)
    and the exceptions those operations raise. */
module PyValues {

  datatype Option<+T> = None | Some(value: T)

  /** A JSON-shaped Python value. `VNull` is Python's `None`. */
  datatype Value =
    | VNull
    | VBool(b: bool)
    | VInt(i: int)
    | VStr(s: string)
    | VList(items: seq<Value>)
    | VDict(entries: map<string, Value>)

  /** The Python exceptions the modelled code can raise. `ConversionError` stands for
      whatever the date-time conversion raises. */
  datatype Error =
    | KeyError(key: Value)
    | TypeError
    | IndexError
    | ConversionError

  /** Either the value an expression evaluates to or the exception it raises;
      `:-` propagates the first exception, as Python does. */
  datatype Result<+T> = Ok(value: T) | Err(error: Error) {
    predicate IsFailure() { Err? }

    function PropagateFailure<U>(): Result<U>
      requires Err?
    {
      Err(error)
    }

    function Extract(): T
      requires Ok?
    {
      value
    }
  }

  /** `d[key]` with a string key: only a dict can be subscripted by a string;
      a dict without the key raises `KeyError`. */
  function GetItem(d: Value, key: string): (r: Result<Value>)
    ensures r.Ok? <==> d.VDict? && key in d.entries
    ensures r.Ok? ==> r.value == d.entries[key]
    ensures !d.VDict? ==> r == Err(TypeError)
    ensures d.VDict? && key !in d.entries ==> r == Err(KeyError(VStr(key)))
  {
    match d
    case VDict(m) => if key in m then Ok(m[key]) else Err(KeyError(VStr(key)))
    case _ => Err(TypeError)
  }

  /** `len(v)`: defined on strings, lists and dicts. */
  function Len(v: Value): (r: Result<nat>)
    ensures r.Ok? <==> v.VStr? || v.VList? || v.VDict?
  {
    match v
    case VStr(s) => Ok(|s|)
    case VList(xs) => Ok(|xs|)
    case VDict(m) => Ok(|m|)
    case _ => Err(TypeError)
  }

  /** `v[i]` with an integer index: a one-character string for a string, the element
      for a list; the keys of a JSON dict are strings, so an integer key is missing. */
  function At(v: Value, i: nat): (r: Result<Value>)
    ensures r.Ok? <==> (v.VStr? && i < |v.s|) || (v.VList? && i < |v.items|)
    ensures r.Ok? && v.VList? ==> r.value == v.items[i]
  {
    match v
    case VStr(s) => if i < |s| then Ok(VStr([s[i]])) else Err(IndexError)
    case VList(xs) => if i < |xs| then Ok(xs[i]) else Err(IndexError)
    case VDict(_) => Err(KeyError(VInt(i)))
    case _ => Err(TypeError)
  }

  /** The optional string that some fields hold: `None` becomes `VNull`. */
  function OptStr(o: Option<string>): Value {
    match o
    case None => VNull
    case Some(s) => VStr(s)
  }
}
