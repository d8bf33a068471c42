/** The small part of Python's value model that the agents rely on: the values
    `json.loads` produces (and keyword arguments carry), the exceptions the
    modelled code raises or catches, and the dynamic operations the agents apply
    to decoded plans (`d[key]`, `d.get(key, default)`, `for x in v`, `str(v)`). */
module PyValues {

  /** A Python value built from JSON or passed as a keyword argument.
      A dict keeps its keys in insertion order; JSON numbers are integers here. */
  datatype PyVal =
    | PyNone
    | PyBool(b: bool)
    | PyInt(i: int)
    | PyStr(s: string)
    | PyList(items: seq<PyVal>)
    | PyDict(entries: seq<(string, PyVal)>)

  /** The exceptions of the modelled code. `JSONDecodeError` is `json.JSONDecodeError`,
      which the agents' handlers catch apart from every other exception, whoever
      raises it (`json.loads`, a tool function, a model backend); `Raised` is any
      other exception coming out of a collaborator. Each carries its `str()`. */
  datatype PyError =
    | KeyError(key: string)
    | TypeError(msg: string)
    | AttributeError(msg: string)
    | ValueError(msg: string)
    | IndexError(msg: string)
    | UnboundLocalError(msg: string)
    | JSONDecodeError(msg: string)
    | Raised(msg: string)

  /** A computation that returns a value or raises. */
  datatype Result<+T> = Ok(value: T) | Err(error: PyError) {
    predicate IsFailure() {
      Err?
    }

    function PropagateFailure<U>(): Result<U>
      requires Err?
    {
      Err(error)
    }

    function Extract(): T
      requires Ok?
    {
      value
    }
  }

  datatype Option<+T> = None | Some(value: T)

  /** `str(e)` of an exception: a KeyError shows the repr of its key. */
  function Message(e: PyError): string
  {
    match e
    case KeyError(k) => Quote(k)
    case TypeError(m) => m
    case AttributeError(m) => m
    case ValueError(m) => m
    case IndexError(m) => m
    case UnboundLocalError(m) => m
    case JSONDecodeError(m) => m
    case Raised(m) => m
  }

  /** The repr of a string (quotes inside the string are not escaped in this model). */
  function Quote(s: string): (r: string)
    ensures |r| == |s| + 2 && r[0] == '\'' && r[|r| - 1] == '\'' && r[1..|r| - 1] == s
  {
    "'" + s + "'"
  }

  /** `type(v).__name__` */
  function TypeName(v: PyVal): string
  {
    match v
    case PyNone => "NoneType"
    case PyBool(_) => "bool"
    case PyInt(_) => "int"
    case PyStr(_) => "str"
    case PyList(_) => "list"
    case PyDict(_) => "dict"
  }

  function DigitChar(d: nat): (c: char)
    requires d < 10
    ensures '0' <= c <= '9' && (c - '0') as int == d
  {
    ('0' as int + d) as char
  }

  /** The decimal digits of a natural number, most significant first. */
  function Digits(n: nat): (r: string)
    ensures |r| >= 1 && forall i :: 0 <= i < |r| ==> '0' <= r[i] <= '9'
    decreases n
  {
    if n < 10 then [DigitChar(n)] else Digits(n / 10) + [DigitChar(n % 10)]
  }

  /** The value of a string of decimal digits. */
  function DigitsValue(s: string): int
    requires forall i :: 0 <= i < |s| ==> '0' <= s[i] <= '9'
  {
    if s == [] then 0 else DigitsValue(s[..|s| - 1]) * 10 + (s[|s| - 1] - '0') as int
  }

  /** Reading back the digits of `n` gives `n`: `str(int)` loses nothing. */
  lemma {:induction false} DigitsRoundTrip(n: nat)
    ensures DigitsValue(Digits(n)) == n
  {
    if n >= 10 {
      var s := Digits(n);
      assert s == Digits(n / 10) + [DigitChar(n % 10)];
      assert s[..|s| - 1] == Digits(n / 10);
      assert DigitsValue(s) == DigitsValue(Digits(n / 10)) * 10 + n % 10;
      DigitsRoundTrip(n / 10);
    }
  }

  /** `str(i)` for an int. */
  function IntText(i: int): (r: string)
    ensures |r| >= 1
  {
    if i < 0 then "-" + Digits(-i) else Digits(i)
  }

  /** `repr(v)`. Lists and dicts show their elements separated by ", ". */
  function Repr(v: PyVal): string
    decreases v, 1
  {
    match v
    case PyNone => "None"
    case PyBool(b) => if b then "True" else "False"
    case PyInt(i) => IntText(i)
    case PyStr(s) => Quote(s)
    case PyList(items) => "[" + ReprItems(v, items) + "]"
    case PyDict(entries) => "{" + ReprEntries(v, entries) + "}"
  }

  function ReprItems(ghost whole: PyVal, items: seq<PyVal>): string
    requires forall x :: x in items ==> x < whole
    decreases whole, 0, |items|
  {
    if items == [] then ""
    else
      assert items[0] in items;
      if |items| == 1 then Repr(items[0])
      else
        assert forall x :: x in items[1..] ==> x in items;
        Repr(items[0]) + ", " + ReprItems(whole, items[1..])
  }

  function ReprEntries(ghost whole: PyVal, entries: seq<(string, PyVal)>): string
    requires forall e :: e in entries ==> e.1 < whole
    decreases whole, 0, |entries|
  {
    if entries == [] then ""
    else
      assert entries[0] in entries;
      assert forall e :: e in entries[1..] ==> e in entries;
      var head := Quote(entries[0].0) + ": " + Repr(entries[0].1);
      if |entries| == 1 then head else head + ", " + ReprEntries(whole, entries[1..])
  }

  /** `str(v)`: a string shows itself, everything else its repr. */
  function Str(v: PyVal): string
  {
    if v.PyStr? then v.s else Repr(v)
  }

  /** The value stored under `key` in a dict's entries (keys are unique in a dict). */
  function Lookup(entries: seq<(string, PyVal)>, key: string): (r: Option<PyVal>)
    ensures r.Some? <==> exists i :: 0 <= i < |entries| && entries[i].0 == key
    ensures r.Some? ==> exists i :: 0 <= i < |entries| && entries[i] == (key, r.value)
  {
    if entries == [] then None
    else if entries[0].0 == key then Some(entries[0].1)
    else
      var r := Lookup(entries[1..], key);
      assert forall i :: 0 < i < |entries| ==> entries[i] == entries[1..][i - 1];
      r
  }

  /** `v[key]` with a string key. */
  function Subscript(v: PyVal, key: string): (r: Result<PyVal>)
    ensures r.Ok? <==> v.PyDict? && Lookup(v.entries, key).Some?
    ensures v.PyDict? && r.Err? ==> r.error == KeyError(key)
  {
    match v
    case PyDict(entries) =>
      (match Lookup(entries, key)
       case Some(x) => Ok(x)
       case None => Err(KeyError(key)))
    case PyStr(_) => Err(TypeError("string indices must be integers, not 'str'"))
    case PyList(_) => Err(TypeError("list indices must be integers or slices, not str"))
    case _ => Err(TypeError("'" + TypeName(v) + "' object is not subscriptable"))
  }

  /** `v.get(key, default)`: only a dict has `get`. */
  function GetOr(v: PyVal, key: string, default: PyVal): (r: Result<PyVal>)
    ensures r.Ok? <==> v.PyDict?
    ensures v.PyDict? && Lookup(v.entries, key).None? ==> r == Ok(default)
  {
    match v
    case PyDict(entries) =>
      (match Lookup(entries, key)
       case Some(x) => Ok(x)
       case None => Ok(default))
    case _ => Err(AttributeError("'" + TypeName(v) + "' object has no attribute 'get'"))
  }

  /** What `for x in v` visits: list items, the characters of a string, the keys of a dict. */
  function Iterate(v: PyVal): (r: Result<seq<PyVal>>)
    ensures r.Ok? <==> v.PyList? || v.PyStr? || v.PyDict?
    ensures v.PyList? ==> r == Ok(v.items)
    ensures v.PyStr? ==> r.Ok? && |r.value| == |v.s|
    ensures v.PyDict? ==> r.Ok? && |r.value| == |v.entries|
  {
    match v
    case PyList(items) => Ok(items)
    case PyStr(s) => Ok(seq(|s|, i requires 0 <= i < |s| => PyStr([s[i]])))
    case PyDict(entries) => Ok(seq(|entries|, i requires 0 <= i < |entries| => PyStr(entries[i].0)))
    case _ => Err(TypeError("'" + TypeName(v) + "' object is not iterable"))
  }

  /** `v.get(key, [])`, iterated: the list of calls in a decoded plan. */
  function ListUnder(v: PyVal, key: string): Result<seq<PyVal>>
  {
    var listed :- GetOr(v, key, PyList([]));
    Iterate(listed)
  }

  /** Iterating a non-empty string or dict yields strings, and subscripting a string
      with a key fails: a plan whose call list is such a value cannot name a target. */
  lemma {:induction false} IteratedTextHasNoFields(v: PyVal, key: string, x: PyVal)
    requires v.PyStr? || v.PyDict?
    requires Iterate(v).Ok? && x in Iterate(v).value
    ensures Subscript(x, key) == Err(TypeError("string indices must be integers, not 'str'"))
  {
    var xs := Iterate(v).value;
    var i :| 0 <= i < |xs| && xs[i] == x;
    assert x.PyStr?;
  }
}
