/** Python values as the build configuration holds them: the tree that the
    validator walks, and the small helpers (lookup in a mapping, rendering of
    a value inside an error message) that the rest of the model shares. */
module PyValues {

  datatype Option<+T> = None | Some(value: T)

  datatype Result<+T, +E> = Ok(value: T) | Failure(error: E)

  /** One node of a configuration tree.  A mapping keeps its items in
      insertion order, as a Python dict does.  `PyFunc` stands for any
      callable, `PyObject` for every other object (a float, a set, ...). */
  datatype Value =
    | PyNone
    | PyBool(b: bool)
    | PyInt(i: int)
    | PyStr(s: string)
    | PyList(items: seq<Value>)
    | PyTuple(items: seq<Value>)
    | PyMap(entries: seq<(Value, Value)>)
    | PyFunc(id: nat)
    | PyObject(id: nat)
  {
    /** `isinstance(v, (list, tuple))` */
    predicate IsSequence() {
      PyList? || PyTuple?
    }
  }

  /** Index of the first item of a mapping whose key is `k`. */
  function FindKey(entries: seq<(Value, Value)>, k: Value): (r: Option<nat>)
    ensures r.Some? ==> r.value < |entries| && entries[r.value].0 == k
    ensures r.Some? ==> forall j :: 0 <= j < r.value ==> entries[j].0 != k
    ensures r.None? ==> forall j :: 0 <= j < |entries| ==> entries[j].0 != k
  {
    if |entries| == 0 then None
    else if entries[0].0 == k then Some(0)
    else match FindKey(entries[1..], k)
      case None => None
      case Some(i) => Some(i + 1)
  }

  /** `mapping.get(k, None)`: an absent key reads as `None`. */
  function Get(entries: seq<(Value, Value)>, k: Value): (r: Value)
    ensures (exists j :: 0 <= j < |entries| && entries[j].0 == k) || r == PyNone
  {
    match FindKey(entries, k)
    case None => PyNone
    case Some(i) => entries[i].1
  }

  /** The keys of a mapping, in iteration order. */
  function Keys(entries: seq<(Value, Value)>): (r: seq<Value>)
    ensures |r| == |entries|
    ensures forall j :: 0 <= j < |entries| ==> r[j] == entries[j].0
  {
    if |entries| == 0 then [] else [entries[0].0] + Keys(entries[1..])
  }

  function DigitChar(d: nat): char
    requires d < 10
  {
    "0123456789"[d]
  }

  /** Decimal rendering of a natural number. */
  function NatToString(n: nat): (r: string)
    ensures |r| > 0
    ensures forall j :: 0 <= j < |r| ==> '0' <= r[j] <= '9'
    decreases n
  {
    if n < 10 then [DigitChar(n)] else NatToString(n / 10) + [DigitChar(n % 10)]
  }

  function IntToString(i: int): string {
    if i < 0 then "-" + NatToString(-i) else NatToString(i)
  }

  /** A short rendering of a value for error messages (the source uses
      Python's `repr`; only its general shape is kept). */
  function Show(v: Value): string {
    match v
    case PyNone => "None"
    case PyBool(b) => if b then "True" else "False"
    case PyInt(i) => IntToString(i)
    case PyStr(s) => "'" + s + "'"
    case PyList(_) => "[...]"
    case PyTuple(_) => "(...)"
    case PyMap(_) => "{...}"
    case PyFunc(_) => "<function>"
    case PyObject(_) => "<object>"
  }

  /** The rendering `%r` gives a string. */
  function Quote(s: string): string {
    "'" + s + "'"
  }

  /** `sep.join(parts)` */
  function Join(parts: seq<string>, sep: string): (r: string)
    ensures |parts| == 1 ==> r == parts[0]
  {
    if |parts| == 0 then ""
    else if |parts| == 1 then parts[0]
    else parts[0] + sep + Join(parts[1..], sep)
  }
}
