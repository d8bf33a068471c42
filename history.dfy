/** The message history both model wrappers keep: a Python list of
    `{"role": ..., "parts": [...]}` dicts, appended to and popped in place, and read
    and written through integer and slice indices. */
module History {
  import opened PyValues

  /** `{"role": role, "parts": [content]}` */
  function ChatMessage(role: string, content: string): (m: PyVal)
    ensures Subscript(m, "role") == Ok(PyStr(role))
    ensures Subscript(m, "parts") == Ok(PyList([PyStr(content)]))
  {
    var parts := ("parts", PyList([PyStr(content)]));
    var entries := [("role", PyStr(role)), parts];
    assert "parts"[0] != "role"[0];
    assert entries[1..] == [parts];
    assert Lookup(entries[1..], "parts") == Some(parts.1);
    PyDict(entries)
  }

  /** `if system_prompt:` — `None` and the empty string are false. */
  predicate Truthy(text: Option<string>)
  {
    text.Some? && text.value != ""
  }

  /** A Python list of messages, shared by every wrapper that holds it. */
  class MessageList {
    var items: seq<PyVal>

    constructor(items: seq<PyVal>)
      ensures this.items == items
    {
      this.items := items;
    }

    /** `list.append(v)` */
    method Append(v: PyVal)
      modifies this
      ensures items == old(items) + [v]
    {
      items := items + [v];
    }

    /** `list.pop()`: removes and returns the last item; an empty list raises. */
    method Pop() returns (r: Result<PyVal>)
      modifies this
      ensures old(items) == [] ==> r == Err(IndexError("pop from empty list")) && items == old(items)
      ensures old(items) != [] ==> r == Ok(old(items)[|old(items)| - 1]) && items == old(items)[..|old(items)| - 1]
    {
      if items == [] {
        return Err(IndexError("pop from empty list"));
      }
      r := Ok(items[|items| - 1]);
      items := items[..|items| - 1];
    }
  }

  /** What the wrappers accept between the brackets: a single key, or a slice
      `start:stop` (without a step). */
  datatype Index = Item(key: PyVal) | Slice(start: PyVal, stop: PyVal)

  /** `isinstance(key, int)`: booleans are integers. */
  function IntOf(key: PyVal): (r: Option<int>)
    ensures r.Some? <==> key.PyInt? || key.PyBool?
  {
    match key
    case PyInt(i) => Some(i)
    case PyBool(b) => Some(if b then 1 else 0)
    case _ => None
  }

  /** A slice bound clamped into `0..n`; a negative bound counts from the end. */
  function Bound(b: PyVal, n: nat, default: nat): (r: Result<nat>)
    requires default <= n
    ensures r.Ok? <==> b.PyNone? || IntOf(b).Some?
    ensures r.Ok? ==> r.value <= n
    ensures b.PyNone? ==> r == Ok(default)
    ensures IntOf(b).Some? && 0 <= IntOf(b).value <= n ==> r.Ok? && r.value == IntOf(b).value
    ensures IntOf(b).Some? && IntOf(b).value > n ==> r == Ok(n)
    ensures IntOf(b).Some? && IntOf(b).value < 0 ==>
      r.Ok? && r.value == if IntOf(b).value + n < 0 then 0 else IntOf(b).value + n
  {
    if b.PyNone? then Ok(default)
    else
      match IntOf(b)
      case None => Err(TypeError("slice indices must be integers or None or have an __index__ method"))
      case Some(i) =>
        var clamped: nat := if i < 0 then (if i + n < 0 then 0 else i + n) else if i > n then n else i;
        Ok(clamped)
  }

  /** The stretch `lo..hi` a slice covers; a stop before the start covers nothing. */
  function SliceBounds(start: PyVal, stop: PyVal, n: nat): (r: Result<(nat, nat)>)
    ensures r.Ok? ==> r.value.0 <= r.value.1 <= n
    ensures r.Ok? <==> Bound(start, n, 0).Ok? && Bound(stop, n, n).Ok?
    ensures Bound(start, n, 0).Err? ==> r == Err(Bound(start, n, 0).error)
    ensures Bound(start, n, 0).Ok? && Bound(stop, n, n).Err? ==> r == Err(Bound(stop, n, n).error)
    ensures r.Ok? ==>
      var lo, hi := Bound(start, n, 0).value, Bound(stop, n, n).value;
      && r.value.0 == lo
      && (lo <= hi ==> r.value.1 == hi)
      && (hi < lo ==> r.value.1 == lo)
  {
    var lo :- Bound(start, n, 0);
    var hi :- Bound(stop, n, n);
    Ok((lo, if hi < lo then lo else hi))
  }

  /** The position an integer key names, counting a negative key from the end. */
  function Position(i: int, n: nat): int
  {
    if i < 0 then i + n else i
  }

  /** `messages[index]` in `__getitem__`: an integer key reads one message, a slice
      reads a new list, and anything else raises "Invalid argument type". */
  function ListItem(items: seq<PyVal>, index: Index): (r: Result<PyVal>)
    ensures index.Item? && IntOf(index.key).None? ==> r == Err(TypeError("Invalid argument type"))
    ensures index.Item? && IntOf(index.key).Some? ==>
      var j := Position(IntOf(index.key).value, |items|);
      if 0 <= j < |items| then r == Ok(items[j]) else r == Err(IndexError("list index out of range"))
    ensures index.Slice? ==>
      var b := SliceBounds(index.start, index.stop, |items|);
      && (b.Ok? ==> r == Ok(PyList(items[b.value.0..b.value.1])))
      && (b.Err? ==> r == Err(b.error))
  {
    match index
    case Item(key) =>
      (match IntOf(key)
       case None => Err(TypeError("Invalid argument type"))
       case Some(i) =>
         var j := Position(i, |items|);
         if 0 <= j < |items| then Ok(items[j]) else Err(IndexError("list index out of range")))
    case Slice(start, stop) =>
      var b :- SliceBounds(start, stop, |items|);
      Ok(PyList(items[b.0..b.1]))
  }

  /** The list after `messages[index] = value` in `__setitem__`: an integer key
      replaces one message in place, a slice is replaced by the items of an iterable
      value (the list grows or shrinks), and anything else raises. */
  function ListAssign(items: seq<PyVal>, index: Index, value: PyVal): (r: Result<seq<PyVal>>)
    ensures index.Item? && IntOf(index.key).None? ==> r == Err(TypeError("Invalid argument type"))
    ensures index.Item? && IntOf(index.key).Some? ==>
      var j := Position(IntOf(index.key).value, |items|);
      if 0 <= j < |items| then r == Ok(items[j := value]) else r == Err(IndexError("list assignment index out of range"))
    ensures index.Slice? && SliceBounds(index.start, index.stop, |items|).Ok? ==>
      var b := SliceBounds(index.start, index.stop, |items|).value;
      && (r.Ok? <==> Iterate(value).Ok?)
      && (r.Ok? ==> r.value == items[..b.0] + Iterate(value).value + items[b.1..])
      && (r.Err? ==> r.error == TypeError("can only assign an iterable"))
    ensures index.Slice? && SliceBounds(index.start, index.stop, |items|).Err? ==>
      r == Err(SliceBounds(index.start, index.stop, |items|).error)
  {
    match index
    case Item(key) =>
      (match IntOf(key)
       case None => Err(TypeError("Invalid argument type"))
       case Some(i) =>
         var j := Position(i, |items|);
         if 0 <= j < |items| then Ok(items[j := value]) else Err(IndexError("list assignment index out of range")))
    case Slice(start, stop) =>
      var b :- SliceBounds(start, stop, |items|);
      match Iterate(value)
      case Err(_) => Err(TypeError("can only assign an iterable"))
      case Ok(xs) => Ok(items[..b.0] + xs + items[b.1..])
  }

  /** Reading and writing accept the same keys: an integer key that can be read can
      be written, and the written message is what is read back. */
  lemma AssignThenReadItem(items: seq<PyVal>, key: PyVal, value: PyVal)
    ensures ListItem(items, Item(key)).Ok? <==> ListAssign(items, Item(key), value).Ok?
    ensures ListAssign(items, Item(key), value).Ok? ==>
      && |ListAssign(items, Item(key), value).value| == |items|
      && ListItem(ListAssign(items, Item(key), value).value, Item(key)) == Ok(value)
  {
  }

  /** `messages[-k]` is the k-th message from the end. */
  lemma NegativeKeyCountsFromEnd(items: seq<PyVal>, k: nat)
    requires 1 <= k <= |items|
    ensures ListItem(items, Item(PyInt(-(k as int)))) == Ok(items[|items| - k])
  {
  }

  /** `messages[:]` is a copy of the whole history. */
  lemma WholeSliceIsHistory(items: seq<PyVal>)
    ensures ListItem(items, Slice(PyNone, PyNone)) == Ok(PyList(items))
  {
    assert items[0..|items|] == items;
  }

  /** `messages[lo:hi] = xs` puts `xs` where `lo..hi` was: the messages before `lo`
      and from `hi` on are kept, and `messages[lo:lo + len(xs)]` reads `xs` back. */
  lemma AssignThenReadSlice(items: seq<PyVal>, lo: nat, hi: nat, xs: seq<PyVal>)
    requires lo <= hi <= |items|
    ensures var r := ListAssign(items, Slice(PyInt(lo), PyInt(hi)), PyList(xs));
      && r.Ok? && |r.value| == |items| - (hi - lo) + |xs|
      && r.value[..lo] == items[..lo] && r.value[lo + |xs|..] == items[hi..]
      && ListItem(r.value, Slice(PyInt(lo), PyInt(lo + |xs|))) == Ok(PyList(xs))
  {
    var r := items[..lo] + xs + items[hi..];
    assert ListAssign(items, Slice(PyInt(lo), PyInt(hi)), PyList(xs)) == Ok(r);
    assert r[..lo] == items[..lo];
    assert r[lo + |xs|..] == items[hi..];
    assert r[lo..lo + |xs|] == xs;
    assert SliceBounds(PyInt(lo), PyInt(lo + |xs|), |r|) == Ok((lo, lo + |xs|));
  }
}
