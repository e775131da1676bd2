/**
 * The Python values that travel in events and in the application state:
 * JSON-like values, dictionaries that keep insertion order (as Python's
 * `dict` does), `str()` and `repr()` of a value, and the event records.
 */
module PyValues {
  import opened Text

  datatype Value =
    /** Python's `None`. */
    | Null
    | Bool(b: bool)
    | Int(i: int)
    | Str(s: string)
    /** A float computed as `num / den`; its decimal rendering is not modelled. */
    | Ratio(num: int, den: int)
    | List(items: seq<Value>)
    | Dict(entries: seq<(string, Value)>)

  /** A Python `dict` with string keys, in insertion order. */
  type PyDict = seq<(string, Value)>

  predicate UniqueKeys(d: PyDict) {
    forall i, j :: 0 <= i < j < |d| ==> d[i].0 != d[j].0
  }

  predicate HasKey(d: PyDict, k: string) {
    exists i :: 0 <= i < |d| && d[i].0 == k
  }

  /** `d.get(k)`: the value under `k`, if any. */
  function Get(d: PyDict, k: string): (r: Option<Value>)
    ensures r.Some? <==> HasKey(d, k)
    ensures r.Some? ==> exists i :: 0 <= i < |d| && d[i] == (k, r.value)
  {
    if d == [] then None
    else if d[0].0 == k then Some(d[0].1)
    else
      var r := Get(d[1..], k);
      assert forall i :: 0 <= i < |d[1..]| ==> d[1..][i] == d[i + 1];
      assert HasKey(d, k) ==> d[0].0 == k || HasKey(d[1..], k) by {
        if HasKey(d, k) && d[0].0 != k {
          var i :| 0 <= i < |d| && d[i].0 == k;
          assert d[1..][i - 1].0 == k;
        }
      }
      r
  }

  /** `d[k] = v`: an existing key keeps its place, a new key goes last. */
  function Set(d: PyDict, k: string, v: Value): (r: PyDict)
    ensures |r| == if HasKey(d, k) then |d| else |d| + 1
    ensures forall i :: 0 <= i < |d| ==> r[i].0 == d[i].0
    ensures !HasKey(d, k) ==> r == d + [(k, v)]
  {
    if d == [] then [(k, v)]
    else if d[0].0 == k then [(k, v)] + d[1..]
    else
      assert HasKey(d, k) <==> HasKey(d[1..], k) by {
        if HasKey(d, k) {
          var i :| 0 <= i < |d| && d[i].0 == k;
          assert d[1..][i - 1].0 == k;
        }
        if HasKey(d[1..], k) {
          var i :| 0 <= i < |d[1..]| && d[1..][i].0 == k;
          assert d[i + 1].0 == k;
        }
      }
      [d[0]] + Set(d[1..], k, v)
  }

  /** After `d[k] = v`, `d[k]` is `v` and every other key reads as before. */
  lemma {:induction false} GetSet(d: PyDict, k: string, v: Value, k': string)
    ensures Get(Set(d, k, v), k') == if k' == k then Some(v) else Get(d, k')
  {
    if d != [] && d[0].0 != k {
      GetSet(d[1..], k, v, k');
    }
  }

  /** `d[k] = v` keeps the keys distinct and adds exactly `k` to them. */
  lemma {:induction false} SetKeys(d: PyDict, k: string, v: Value)
    requires UniqueKeys(d)
    ensures UniqueKeys(Set(d, k, v))
    ensures forall k' :: HasKey(Set(d, k, v), k') <==> HasKey(d, k') || k' == k
  {
    var r := Set(d, k, v);
    forall k' ensures HasKey(r, k') <==> HasKey(d, k') || k' == k {
      GetSet(d, k, v, k');
    }
    if d != [] && d[0].0 != k {
      SetKeys(d[1..], k, v);
      var rest := Set(d[1..], k, v);
      assert r == [d[0]] + rest;
      forall j | 0 < j < |r| ensures r[j].0 != d[0].0 {
        assert r[j] == rest[j - 1];
      }
    }
  }

  // ---------------------------------------------------------------------------
  // str() and repr()
  // ---------------------------------------------------------------------------

  /** `repr(v)`; a string is shown between single quotes (escaping is not modelled). */
  function Repr(v: Value): string
    decreases v, 1
  {
    match v
    case Null => "None"
    case Bool(b) => if b then "True" else "False"
    case Int(i) => IntToString(i)
    case Str(s) => "'" + s + "'"
    case Ratio(n, d) => IntToString(n) + "/" + IntToString(d)
    case List(items) => "[" + ReprItems(v, items) + "]"
    case Dict(entries) => "{" + ReprEntries(v, entries) + "}"
  }

  function ReprItems(ghost parent: Value, items: seq<Value>): string
    requires forall x :: x in items ==> x < parent
    decreases parent, 0, |items|
  {
    if items == [] then ""
    else
      assert items[0] in items;
      if |items| == 1 then Repr(items[0])
      else
        assert forall x :: x in items[1..] ==> x in items;
        Repr(items[0]) + ", " + ReprItems(parent, items[1..])
  }

  function ReprEntries(ghost parent: Value, entries: PyDict): string
    requires forall i :: 0 <= i < |entries| ==> entries[i].1 < parent
    decreases parent, 0, |entries|
  {
    if entries == [] then ""
    else
      var e := "'" + entries[0].0 + "': " + Repr(entries[0].1);
      if |entries| == 1 then e else e + ", " + ReprEntries(parent, entries[1..])
  }

  /** `str(v)`, as `format` inserts a value into a template. */
  function ToStr(v: Value): (r: string)
    ensures v.Str? ==> r == v.s
    ensures v.Int? ==> ParseInt(r) == Some(v.i)
    ensures !v.Str? ==> r == Repr(v)
  {
    match v
    case Str(s) => s
    case Int(i) => ParseIntToString(i); Repr(v)
    case _ => Repr(v)
  }

  // ---------------------------------------------------------------------------
  // Events
  // ---------------------------------------------------------------------------

  /** An event as producers push it: `{'type': kind, 'value': value}`. */
  datatype Event = Event(kind: string, value: Value)

  /** An event as consumers receive it, with the rendered `text` added. */
  datatype Delivered = Delivered(kind: string, value: Value, text: string)

  /** What a consumer queue holds: an event, or the end-of-stream `None`. */
  type Item = Option<Delivered>

  /** `repr(event)` of an event dict `{'type': ..., 'value': ...}`. */
  function ReprEvent(e: Event): string {
    "{'type': " + Repr(Str(e.kind)) + ", 'value': " + Repr(e.value) + "}"
  }
}
