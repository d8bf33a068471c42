/** The `results` dictionary the agents fill: Python dict semantics for hashable
    keys, kept in insertion order. */
module Dicts {
  import opened PyValues

  /** A hashable dict key. Python treats `True` and `1` (and `False` and `0`) as the
      same key, so booleans become integers. */
  datatype Key = KNone | KInt(i: int) | KStr(s: string)

  /** Using `v` as a dict key: lists and dicts are unhashable. */
  function AsKey(v: PyVal): (r: Result<Key>)
    ensures r.Ok? <==> !(v.PyList? || v.PyDict?)
    ensures v.PyStr? ==> r == Ok(KStr(v.s))
  {
    match v
    case PyNone => Ok(KNone)
    case PyBool(b) => Ok(KInt(if b then 1 else 0))
    case PyInt(i) => Ok(KInt(i))
    case PyStr(s) => Ok(KStr(s))
    case PyList(_) => Err(TypeError("unhashable type: 'list'"))
    case PyDict(_) => Err(TypeError("unhashable type: 'dict'"))
  }

  /** A dict from keys to text, in insertion order. */
  type StrDict = seq<(Key, string)>

  function KeySet(d: StrDict): set<Key>
  {
    set i | 0 <= i < |d| :: d[i].0
  }

  lemma KeySetCons(d: StrDict)
    requires d != []
    ensures KeySet(d) == {d[0].0} + KeySet(d[1..])
  {
    forall k | k in KeySet(d) ensures k in {d[0].0} + KeySet(d[1..]) {
      var i :| 0 <= i < |d| && d[i].0 == k;
      if i > 0 {
        assert d[1..][i - 1] == d[i];
      }
    }
    forall k | k in KeySet(d[1..]) ensures k in KeySet(d) {
      var i :| 0 <= i < |d[1..]| && d[1..][i].0 == k;
      assert d[i + 1] == d[1..][i];
    }
  }

  ghost predicate UniqueKeys(d: StrDict)
  {
    forall i, j :: 0 <= i < j < |d| ==> d[i].0 != d[j].0
  }

  /** `d.get(k)` */
  function Get(d: StrDict, k: Key): (r: Option<string>)
    ensures r.Some? <==> k in KeySet(d)
  {
    if d == [] then None
    else if d[0].0 == k then Some(d[0].1)
    else
      KeySetCons(d);
      Get(d[1..], k)
  }

  /** `d[k] = v`: an existing key keeps its position and takes the new value, a new
      key goes to the end. */
  function Store(d: StrDict, k: Key, v: string): (r: StrDict)
    ensures Get(r, k) == Some(v)
    ensures forall k' :: k' != k ==> Get(r, k') == Get(d, k')
    ensures KeySet(r) == KeySet(d) + {k}
    ensures |r| == if k in KeySet(d) then |d| else |d| + 1
    ensures k !in KeySet(d) ==> r == d + [(k, v)]
    decreases |d|
  {
    if d == [] then
      [(k, v)]
    else if d[0].0 == k then
      KeySetCons(d);
      var r := [(k, v)] + d[1..];
      assert r[1..] == d[1..];
      KeySetCons(r);
      r
    else
      KeySetCons(d);
      var tail := Store(d[1..], k, v);
      var r := [d[0]] + tail;
      assert r[1..] == tail;
      KeySetCons(r);
      r
  }

  /** Storing never makes a key appear twice: a dict built by `Store` is a dict. */
  lemma {:induction false} StoreKeepsKeysUnique(d: StrDict, k: Key, v: string)
    requires UniqueKeys(d)
    ensures UniqueKeys(Store(d, k, v))
    decreases |d|
  {
    var r := Store(d, k, v);
    if d != [] {
      KeySetCons(d);
      KeySetCons(r);
      if d[0].0 == k {
        assert r == [(k, v)] + d[1..];
        forall i, j | 0 <= i < j < |r| ensures r[i].0 != r[j].0 {
          if i == 0 {
            assert d[j].0 != d[0].0;
          }
        }
      } else {
        var tail := Store(d[1..], k, v);
        assert r == [d[0]] + tail;
        StoreKeepsKeysUnique(d[1..], k, v);
        assert d[0].0 !in KeySet(d[1..]) by {
          forall i | 0 <= i < |d[1..]|
            ensures d[1..][i].0 != d[0].0
          {
            assert d[1..][i] == d[i + 1];
          }
        }
        forall i, j | 0 <= i < j < |r| ensures r[i].0 != r[j].0 {
          if i == 0 {
            assert r[j].0 == tail[j - 1].0 && tail[j - 1].0 in KeySet(tail);
          } else {
            assert r[i] == tail[i - 1] && r[j] == tail[j - 1];
          }
        }
      }
    }
  }

  /** Two dicts hold the same key/value pairs (whatever their order). */
  ghost predicate SameContents(d1: StrDict, d2: StrDict)
  {
    forall k :: Get(d1, k) == Get(d2, k)
  }

  function KeyRepr(k: Key): string
  {
    match k
    case KNone => "None"
    case KInt(i) => IntText(i)
    case KStr(s) => Quote(s)
  }

  /** `str(d)`, e.g. `{'weather_tool': 'Sunny'}`: each entry's `key: value` in
      insertion order, separated by ", ", between braces. */
  function DictRepr(d: StrDict): (r: string)
    ensures |r| >= 2 && r[0] == '{' && r[|r| - 1] == '}'
    ensures d == [] ==> r == "{}"
    ensures |d| == 1 ==> r == "{" + EntryRepr(d[0]) + "}"
  {
    "{" + ItemsRepr(d) + "}"
  }

  /** One entry as `str(d)` shows it: `key: value`. */
  function EntryRepr(e: (Key, string)): string
  {
    KeyRepr(e.0) + ": " + Quote(e.1)
  }

  function ItemsRepr(d: StrDict): string
  {
    if d == [] then ""
    else if |d| == 1 then EntryRepr(d[0])
    else EntryRepr(d[0]) + ", " + ItemsRepr(d[1..])
  }

  lemma {:induction false} ItemsReprAppend(d: StrDict, e: (Key, string))
    requires d != []
    ensures ItemsRepr(d + [e]) == ItemsRepr(d) + ", " + EntryRepr(e)
    decreases |d|
  {
    var d' := d + [e];
    assert d'[0] == d[0] && d'[1..] == d[1..] + [e];
    if |d| > 1 {
      ItemsReprAppend(d[1..], e);
    }
  }

  /** Storing a new key adds its entry at the end of `str(d)`: the text grows by
      ", key: value" (or becomes "{key: value}" for an empty dict) before the
      closing brace, and the entries already shown are unchanged. */
  lemma DictReprAppend(d: StrDict, k: Key, v: string)
    requires k !in KeySet(d)
    ensures var s := DictRepr(d);
      DictRepr(Store(d, k, v)) == if d == [] then "{" + EntryRepr((k, v)) + "}"
                                  else s[..|s| - 1] + ", " + EntryRepr((k, v)) + "}"
  {
    var d' := Store(d, k, v);
    assert d' == d + [(k, v)];
    if d != [] {
      var items := ItemsRepr(d);
      var added := EntryRepr((k, v));
      ItemsReprAppend(d, (k, v));
      assert DictRepr(d') == "{" + (items + ", " + added) + "}";
      ClosingBrace(items, added);
    }
  }

  /** Reopening "{items}" before its brace to add one more entry. */
  lemma ClosingBrace(items: string, added: string)
    ensures var s := "{" + items + "}";
      "{" + (items + ", " + added) + "}" == s[..|s| - 1] + ", " + added + "}"
  {
    var s := "{" + items + "}";
    assert s[..|s| - 1] == "{" + items;
  }
}
