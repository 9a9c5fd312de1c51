/** Python semantics of the JSON values the LifeLens front end handles: the
    parsed bodies of backend responses, the parsed arguments of tool calls and
    the values tools return. Each helper follows what the corresponding Python
    expression does on every shape of value, including the exception it
    raises. */
module Values {

  datatype Option<+T> = None | Some(value: T)

  /** The Python exceptions the modelled code can raise. The kind is indicative;
      what the model is precise about is WHICH inputs raise. */
  datatype Error =
    | TypeError
    | KeyError(key: string)
    | IndexError
    | ValueError
    | AttributeError

  /** A Python computation that either returns a value or raises. */
  datatype Result<+T> = Ok(value: T) | Err(error: Error) {
    predicate IsFailure() { Err? }
    function PropagateFailure<U>(): Result<U> requires Err? { Err(error) }
    function Extract(): T requires Ok? { value }
  }

  /** A JSON value as `json.loads` returns it. Numbers are integers here. */
  datatype Value =
    | Null
    | Bool(b: bool)
    | Num(n: int)
    | Str(s: string)
    | Arr(items: seq<Value>)
    | Obj(fields: map<string, Value>)

  /** A JSON object: a Python dict with string keys. */
  type Record = map<string, Value>

  /** `bool(v)`: None, False, 0 and empty strings, lists and dicts are false. */
  predicate Truthy(v: Value) {
    match v
    case Null => false
    case Bool(b) => b
    case Num(n) => n != 0
    case Str(s) => s != ""
    case Arr(xs) => xs != []
    case Obj(m) => m != map[]
  }

  /** `needle` occurs in `s` starting at index `i`. */
  predicate OccursAt(needle: string, s: string, i: int) {
    0 <= i <= |s| - |needle| && s[i..i + |needle|] == needle
  }

  /** `needle in s` for two strings. */
  predicate IsSubstring(needle: string, s: string) {
    exists i :: 0 <= i <= |s| - |needle| && OccursAt(needle, s, i)
  }

  /** `key in v`: a dict tests its keys, a list its elements, a string its
      substrings; anything else raises. */
  function Contains(v: Value, key: string): Result<bool> {
    match v
    case Obj(m) => Ok(key in m)
    case Arr(xs) => Ok(Str(key) in xs)
    case Str(s) => Ok(IsSubstring(key, s))
    case _ => Err(TypeError)
  }

  /** `v[key]` with a string key: only a dict can be indexed so. */
  function Get(v: Value, key: string): Result<Value> {
    match v
    case Obj(m) => if key in m then Ok(m[key]) else Err(KeyError(key))
    case _ => Err(TypeError)
  }

  /** `v[0]`. A dict raises KeyError, as JSON keys are never the integer 0. */
  function First(v: Value): Result<Value> {
    match v
    case Arr(xs) => if |xs| > 0 then Ok(xs[0]) else Err(IndexError)
    case Str(s) => if |s| > 0 then Ok(Str([s[0]])) else Err(IndexError)
    case Obj(_) => Err(KeyError("0"))
    case _ => Err(TypeError)
  }

  /** `len(v)`. */
  function Len(v: Value): Result<nat> {
    match v
    case Arr(xs) => Ok(|xs|)
    case Str(s) => Ok(|s|)
    case Obj(m) => Ok(|m|)
    case _ => Err(TypeError)
  }

  /** Python's slice rule: `xs[:n]`, of a sequence of length `len`, keeps
      the element at index `i` exactly when `i < n` for a non-negative `n`,
      and when `i < len + n` for a negative one (which counts from the end). */
  predicate SliceKeeps(len: nat, n: int, i: nat) {
    (0 <= n && i < n) || (n < 0 && i < len + n)
  }

  /** The length of `xs[:n]` for a sequence of length `len`: the indices it
      keeps are exactly those below it. */
  function Cut(len: nat, n: int): (k: nat)
    ensures k <= len
    ensures forall i: nat :: i < len ==> (i < k <==> SliceKeeps(len, n, i))
  {
    if n >= 0 then (if n < len then n else len)
    else if len + n > 0 then len + n else 0
  }

  /** `v[:n]`. Slicing a dict raises. */
  function Prefix(v: Value, n: int): Result<Value> {
    match v
    case Arr(xs) => Ok(Arr(xs[..Cut(|xs|, n)]))
    case Str(s) => Ok(Str(s[..Cut(|s|, n)]))
    case _ => Err(TypeError)
  }

  /** The elements of `for x in v` in a loop whose body needs each `x` to be a
      dict (it indexes `x` or calls `x.items()`). Iterating a string or a dict
      yields strings, on which such a body raises, so of those only the empty
      ones get through; numbers, booleans and None are not iterable. */
  function Iter(v: Value): Result<seq<Value>> {
    match v
    case Arr(xs) => Ok(xs)
    case Str(s) => if s == "" then Ok([]) else Err(TypeError)
    case Obj(m) => if m == map[] then Ok([]) else Err(TypeError)
    case _ => Err(TypeError)
  }

  /** A list of records as a JSON list of objects. */
  function Objects(rs: seq<Record>): (v: Value)
    ensures v.Arr? && |v.items| == |rs|
    ensures forall i :: 0 <= i < |rs| ==> v.items[i] == Obj(rs[i])
  {
    Arr(seq(|rs|, i requires 0 <= i < |rs| => Obj(rs[i])))
  }
}
