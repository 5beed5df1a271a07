/**
 * The slice of Python's runtime that the adapters rely on: the values that
 * flow through configurations and keyword arguments, the exceptions they
 * raise, truthiness, hashing of dictionary keys, `str()` of simple values,
 * `len` and the prefix slice `x[:n]`.
 */
module PyValues {
  import opened Wrappers

  /** A Python value. A dict keeps its insertion order, as Python's does. */
  datatype Value =
    | NoneValue
    | Bool(b: bool)
    | Int(i: int)
    | Str(s: string)
    | List(items: seq<Value>)
    | Dict(entries: seq<(string, Value)>)

  /**
   * The exceptions the adapters raise or let the interpreter raise.
   * `ConfigurationError` is the package's own; the others are built in.
   */
  datatype PyException =
    | ConfigurationError(message: string)
    | KeyError(key: string)
    | TypeError(message: string)
    | OverflowError(message: string)

  /** `str(e)`: the text a caught exception contributes to a failed response. */
  function ExceptionText(e: PyException): string
  {
    match e
    case ConfigurationError(m) => m
    case KeyError(k) => "'" + k + "'"
    case TypeError(m) => m
    case OverflowError(m) => m
  }

  /** `type(v).__name__` */
  function TypeName(v: Value): string
  {
    match v
    case NoneValue => "NoneType"
    case Bool(_) => "bool"
    case Int(_) => "int"
    case Str(_) => "str"
    case List(_) => "list"
    case Dict(_) => "dict"
  }

  /** `isinstance(v, int)`: a bool is an int in Python. */
  predicate IsInt(v: Value)
  {
    v.Int? || v.Bool?
  }

  /** The integer a value stands for when `IsInt` holds. */
  function AsInt(v: Value): int
    requires IsInt(v)
  {
    if v.Int? then v.i else if v.b then 1 else 0
  }

  /** `bool(v)` */
  predicate Truthy(v: Value)
  {
    match v
    case NoneValue => false
    case Bool(b) => b
    case Int(i) => i != 0
    case Str(s) => |s| > 0
    case List(items) => |items| > 0
    case Dict(entries) => |entries| > 0
  }

  /** Whether `v` can be a dictionary key; lists and dicts cannot. */
  predicate Hashable(v: Value)
  {
    !v.List? && !v.Dict?
  }

  /** The exception Python raises when `v` is used as a dictionary key. */
  function UnhashableError(v: Value): PyException
  {
    TypeError("unhashable type: '" + TypeName(v) + "'")
  }

  /**
   * The identity of a hashable value as a dictionary key: `True` and `1`
   * (and `False` and `0`) are equal and hash alike, so they are one key.
   */
  function HashKey(v: Value): (k: Value)
    requires Hashable(v)
    ensures Hashable(k) && !k.Bool?
    ensures IsInt(v) ==> k == Int(AsInt(v))
    ensures !IsInt(v) ==> k == v
  {
    if v.Bool? then Int(if v.b then 1 else 0) else v
  }

  /** `d.get(key)` on a dict given by its entries. */
  function Lookup(entries: seq<(string, Value)>, key: string): Option<Value>
  {
    if |entries| == 0 then None
    else if entries[0].0 == key then Some(entries[0].1)
    else Lookup(entries[1..], key)
  }

  /** `kwargs.get(key, default)` */
  function Arg(kwargs: map<string, Value>, key: string, default: Value): (v: Value)
  {
    if key in kwargs then kwargs[key] else default
  }

  function DigitChar(d: nat): char
    requires d < 10
  {
    "0123456789"[d]
  }

  /** Decimal digits of a natural number, most significant first. */
  function Digits(n: nat): (s: string)
    ensures |s| > 0
    decreases n
  {
    if n < 10 then [DigitChar(n)] else Digits(n / 10) + [DigitChar(n % 10)]
  }

  /** `str(i)` for an integer. */
  function Decimal(i: int): string
  {
    if i < 0 then "-" + Digits(-i) else Digits(i)
  }

  /** Values whose `str()` the model renders: hashable ones and empty containers. */
  predicate Printable(v: Value)
  {
    Hashable(v) || v == List([]) || v == Dict([])
  }

  /** `str(v)`, as an f-string inserts it. */
  function Show(v: Value): string
    requires Printable(v)
  {
    match v
    case NoneValue => "None"
    case Bool(b) => if b then "True" else "False"
    case Int(i) => Decimal(i)
    case Str(s) => s
    case List(_) => "[]"
    case Dict(_) => "{}"
  }

  function Min(a: int, b: int): int { if a <= b then a else b }
  function Max(a: int, b: int): int { if a >= b then a else b }

  /**
   * The length of `s[:n]` for a sequence of length `len`: a non-negative `n`
   * keeps at most `n` elements, a negative one drops `-n` from the end.
   */
  function SliceLength(len: nat, n: int): nat
  {
    if n >= 0 then Min(len, n) else Max(0, len + n)
  }

  /** `s[:n]` with Python's slice semantics. */
  function Prefix<T>(s: seq<T>, n: int): (r: seq<T>)
    ensures r <= s
    ensures |r| == SliceLength(|s|, n)
  {
    if n >= 0 then (if n <= |s| then s[..n] else s)
    else if |s| + n >= 0 then s[..|s| + n]
    else []
  }

  /** Strings and lists: the values `x[:n]` and `len(x)` work on, and the sequences `+` and `*` concatenate and repeat. */
  predicate Sliceable(v: Value)
  {
    v.Str? || v.List?
  }

  /** `len(v)` */
  function Len(v: Value): nat
    requires Sliceable(v)
  {
    if v.Str? then |v.s| else |v.items|
  }

  /** `cut` is a prefix of `orig` of the same kind. */
  predicate PrefixOf(cut: Value, orig: Value)
  {
    || (orig.Str? && cut.Str? && cut.s <= orig.s)
    || (orig.List? && cut.List? && cut.items <= orig.items)
  }

  /** The exception `v[:n]` raises when `v` is neither a string nor a list. */
  function SliceError(v: Value): PyException
  {
    if v.Dict? then TypeError("unhashable type: 'slice'")
    else TypeError("'" + TypeName(v) + "' object is not subscriptable")
  }

  /** `v[:n]` */
  function Slice(v: Value, n: int): (r: Result<Value, PyException>)
    ensures r.Success? <==> Sliceable(v)
    ensures r.Success? ==> PrefixOf(r.value, v) && Len(r.value) == SliceLength(Len(v), n)
    ensures r.Failure? ==> r.error == SliceError(v)
  {
    match v
    case Str(s) => Success(Str(Prefix(s, n)))
    case List(items) => Success(List(Prefix(items, n)))
    case _ => Failure(SliceError(v))
  }

  /**
   * Slicing is determined by its prefix and length properties: any prefix
   * of the same kind with the slice's length is the slice.
   */
  lemma SliceUnique(v: Value, n: int, cut: Value)
    requires PrefixOf(cut, v) && Sliceable(cut)
    requires Len(cut) == SliceLength(Len(v), n)
    ensures Slice(v, n) == Success(cut)
  {
    var r := Slice(v, n);
    if v.Str? {
      assert cut.s == v.s[..|cut.s|] == r.value.s;
    } else {
      assert cut.items == v.items[..|cut.items|] == r.value.items;
    }
  }

  /** A non-negative slice is idempotent: `s[:n][:n] == s[:n]`. */
  lemma SliceIdempotent(v: Value, n: int)
    requires Sliceable(v) && n >= 0
    ensures Slice(Slice(v, n).value, n) == Slice(v, n)
  {
    var once := Slice(v, n).value;
    SliceUnique(once, n, once);
  }
}
