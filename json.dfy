/** The values the library receives from and sends to Discord: decoded JSON,
    with Python's view of them — dictionaries that keep insertion order,
    truthiness, `str()`, `d[k]`, `d.get(k, default)` and iteration. */
module Json {
  import opened Py

  datatype Json =
    | JNull
    | JBool(b: bool)
    | JInt(i: int)
    | JStr(s: string)
    | JArr(items: seq<Json>)
    | JObj(fields: Dict<Json>)

  /** A Python dict: key/value pairs in insertion order. */
  type Dict<V> = seq<(string, V)>

  function Keys<V>(d: Dict<V>): (ks: seq<string>)
    ensures |ks| == |d|
  {
    if d == [] then [] else [d[0].0] + Keys(d[1..])
  }

  lemma {:induction false} KeysAt<V>(d: Dict<V>, i: nat)
    requires i < |d|
    ensures Keys(d)[i] == d[i].0
  {
    if i > 0 { KeysAt(d[1..], i - 1); }
  }

  predicate HasKey<V>(d: Dict<V>, k: string) {
    d != [] && (d[0].0 == k || HasKey(d[1..], k))
  }

  /** No key occurs twice, as in every Python dict. */
  predicate UniqueKeys<V>(d: Dict<V>) {
    forall i, j :: 0 <= i < j < |d| ==> d[i].0 != d[j].0
  }

  /** `d[k]` / `d.get(k)` on a Python dict: the value of the first entry with key `k`. */
  function Lookup<V>(d: Dict<V>, k: string): (r: Option<V>)
    ensures r.None? <==> !HasKey(d, k)
  {
    if d == [] then None
    else if d[0].0 == k then Some(d[0].1)
    else Lookup(d[1..], k)
  }

  /** `d[k] = v`: overwrite the value in place, or append a new entry. */
  function Put<V>(d: Dict<V>, k: string, v: V): (r: Dict<V>)
    ensures Lookup(r, k) == Some(v)
    ensures forall k' :: k' != k ==> Lookup(r, k') == Lookup(d, k')
  {
    if d == [] then [(k, v)]
    else if d[0].0 == k then [(k, v)] + d[1..]
    else
      var rest := Put(d[1..], k, v);
      assert ([d[0]] + rest)[1..] == rest;
      [d[0]] + rest
  }

  /** Assigning to a key that is present replaces its first entry in place. */
  lemma {:induction false} PutAt<V>(d: Dict<V>, i: nat, k: string, v: V)
    requires i < |d| && d[i].0 == k
    requires forall j :: 0 <= j < i ==> d[j].0 != k
    ensures Put(d, k, v) == d[i := (k, v)]
  {
    if i > 0 {
      forall j | 0 <= j < i - 1 ensures d[1..][j].0 != k {
        assert d[1..][j] == d[j + 1];
      }
      PutAt(d[1..], i - 1, k, v);
      assert Put(d, k, v) == [d[0]] + d[1..][i - 1 := (k, v)];
      ConsUpdate(d, i, (k, v));
    }
  }

  lemma ConsUpdate<T>(s: seq<T>, i: nat, x: T)
    requires 0 < i < |s|
    ensures [s[0]] + s[1..][i - 1 := x] == s[i := x]
  {
  }

  /** Overwriting keeps the key order; a new key goes last. */
  lemma {:induction false} PutKeys<V>(d: Dict<V>, k: string, v: V)
    ensures Keys(Put(d, k, v)) == if HasKey(d, k) then Keys(d) else Keys(d) + [k]
  {
    if d != [] {
      if d[0].0 == k {
        assert ([(k, v)] + d[1..])[1..] == d[1..];
      } else {
        PutKeys(d[1..], k, v);
        var rest := Put(d[1..], k, v);
        assert ([d[0]] + rest)[1..] == rest;
        if !HasKey(d, k) {
          assert [d[0].0] + (Keys(d[1..]) + [k]) == ([d[0].0] + Keys(d[1..])) + [k];
        }
      }
    }
  }

  lemma {:induction false} HasKeyAt<V>(d: Dict<V>, k: string) returns (i: nat)
    requires HasKey(d, k)
    ensures i < |d| && d[i].0 == k
  {
    if d[0].0 == k {
      i := 0;
    } else {
      var j := HasKeyAt(d[1..], k);
      i := j + 1;
    }
  }

  lemma {:induction false} PutKeepsUniqueKeys<V>(d: Dict<V>, k: string, v: V)
    requires UniqueKeys(d)
    ensures UniqueKeys(Put(d, k, v))
  {
    if d != [] && d[0].0 != k {
      PutKeepsUniqueKeys(d[1..], k, v);
      var rest := Put(d[1..], k, v);
      var r := [d[0]] + rest;
      forall j | 0 < j < |r| ensures r[0].0 != r[j].0 {
        PutKeys(d[1..], k, v);
        KeysAt(rest, j - 1);
        if j - 1 < |d[1..]| {
          KeysAt(d[1..], j - 1);
        }
      }
      assert r[1..] == rest;
    }
  }

  /** The value under `k` is the one of its first occurrence: the way to read
      a dict display. */
  lemma {:induction false} LookupFirst<V>(d: Dict<V>, i: nat, k: string)
    requires i < |d| && d[i].0 == k
    requires forall j :: 0 <= j < i ==> d[j].0 != k
    ensures Lookup(d, k) == Some(d[i].1)
  {
    if i > 0 {
      assert forall j :: 0 <= j < i - 1 ==> d[1..][j] == d[j + 1];
      LookupFirst(d[1..], i - 1, k);
    }
  }

  /** A list of keys with no repeats. */
  predicate DistinctKeys(ks: seq<string>) {
    forall i, j :: 0 <= i < j < |ks| ==> ks[i] != ks[j]
  }

  /** Reading entry `i` of a dict whose key list is known and has no repeats. */
  lemma LookupDistinct<V>(d: Dict<V>, ks: seq<string>, i: nat)
    requires Keys(d) == ks && DistinctKeys(ks) && i < |ks|
    ensures Lookup(d, ks[i]) == Some(d[i].1)
  {
    forall j | 0 <= j < i ensures d[j].0 != ks[i] {
      KeysAt(d, j);
    }
    KeysAt(d, i);
    LookupFirst(d, i, ks[i]);
  }

  /** Overwriting entry `i` of a dict whose key list is known and has no repeats. */
  lemma PutAtDistinct<V>(d: Dict<V>, ks: seq<string>, i: nat, v: V)
    requires Keys(d) == ks && DistinctKeys(ks) && i < |ks|
    ensures Put(d, ks[i], v) == d[i := (ks[i], v)]
  {
    forall j | 0 <= j < i ensures d[j].0 != ks[i] {
      KeysAt(d, j);
    }
    KeysAt(d, i);
    PutAt(d, i, ks[i], v);
  }

  /** A dict whose key list has no repeats has unique keys. */
  lemma UniqueFromKeys<V>(d: Dict<V>, ks: seq<string>)
    requires Keys(d) == ks && DistinctKeys(ks)
    ensures UniqueKeys(d)
  {
    forall i, j | 0 <= i < j < |d| ensures d[i].0 != d[j].0 {
      KeysAt(d, i);
      KeysAt(d, j);
    }
  }

  /** The keys of a dict display, read off entry by entry. */
  lemma {:induction false} KeysDisplay<V>(d: Dict<V>, ks: seq<string>)
    requires |d| == |ks| && forall i :: 0 <= i < |d| ==> d[i].0 == ks[i]
    ensures Keys(d) == ks
  {
    if d != [] {
      KeysDisplay(d[1..], ks[1..]);
    }
  }

  /** The keys of two dicts laid end to end. */
  lemma {:induction false} KeysAppend<V>(d: Dict<V>, e: Dict<V>)
    ensures Keys(d + e) == Keys(d) + Keys(e)
  {
    if d != [] {
      assert (d + e)[1..] == d[1..] + e;
      KeysAppend(d[1..], e);
    } else {
      assert d + e == e;
    }
  }

  lemma {:induction false} HasKeyInKeys<V>(d: Dict<V>, k: string)
    ensures HasKey(d, k) <==> k in Keys(d)
  {
    if d != [] {
      HasKeyInKeys(d[1..], k);
    }
  }

  /** `dict(items)`: later pairs overwrite earlier ones with the same key,
      each key keeping the position of its first occurrence. */
  function FromItems<V>(items: seq<(string, V)>): (d: Dict<V>)
    ensures UniqueKeys(d)
  {
    FromItemsInto([], items)
  }

  function FromItemsInto<V>(acc: Dict<V>, items: seq<(string, V)>): (d: Dict<V>)
    requires UniqueKeys(acc)
    ensures UniqueKeys(d)
    decreases |items|
  {
    if items == [] then acc
    else
      PutKeepsUniqueKeys(acc, items[0].0, items[0].1);
      FromItemsInto(Put(acc, items[0].0, items[0].1), items[1..])
  }

  /** Putting a key that is not there yet appends it. */
  lemma {:induction false} PutNew<V>(d: Dict<V>, k: string, v: V)
    requires !HasKey(d, k)
    ensures Put(d, k, v) == d + [(k, v)]
  {
    if d != [] {
      PutNew(d[1..], k, v);
      assert [d[0]] + (d[1..] + [(k, v)]) == d + [(k, v)];
    }
  }

  lemma {:induction false} NoSuchKey<V>(d: Dict<V>, k: string)
    requires forall i :: 0 <= i < |d| ==> d[i].0 != k
    ensures !HasKey(d, k)
  {
    if d != [] {
      assert forall i :: 0 <= i < |d| - 1 ==> d[1..][i] == d[i + 1];
      NoSuchKey(d[1..], k);
    }
  }

  /** `dict(items)` of pairs with distinct keys keeps them all, in order. */
  lemma FromItemsDistinct<V>(items: seq<(string, V)>)
    requires UniqueKeys(items)
    ensures FromItems(items) == items
  {
    FromItemsIntoDistinct([], items);
    assert [] + items == items;
  }

  lemma {:induction false} FromItemsIntoDistinct<V>(acc: Dict<V>, items: seq<(string, V)>)
    requires UniqueKeys(acc) && UniqueKeys(acc + items)
    ensures FromItemsInto(acc, items) == acc + items
    decreases |items|
  {
    if items != [] {
      var all := acc + items;
      var (k, v) := items[0];
      assert all[|acc|] == (k, v);
      forall i | 0 <= i < |acc| ensures acc[i].0 != k {
        assert all[i] == acc[i];
      }
      NoSuchKey(acc, k);
      PutNew(acc, k, v);
      var next := acc + [(k, v)];
      assert next == all[..|acc| + 1];
      assert forall i, j :: 0 <= i < j < |next| ==> next[i] == all[i] && next[j] == all[j];
      assert next + items[1..] == all;
      FromItemsIntoDistinct(next, items[1..]);
    }
  }

  // ---------------------------------------------------------------------
  // Python's view of a value

  /** `bool(j)` */
  predicate Truthy(j: Json) {
    match j
    case JNull => false
    case JBool(b) => b
    case JInt(i) => i != 0
    case JStr(s) => s != ""
    case JArr(xs) => xs != []
    case JObj(fs) => fs != []
  }

  /** The integer a value compares equal to, as Python's `==` and enum lookup
      see it: an int, or a bool as 0 or 1. */
  function IntValue(j: Json): Option<int> {
    match j
    case JInt(i) => Some(i)
    case JBool(b) => Some(if b then 1 else 0)
    case _ => None
  }

  /** `str(j)`, as an f-string renders it. */
  function Str(j: Json): string
    decreases j, 1
  {
    match j
    case JNull => "None"
    case JBool(b) => if b then "True" else "False"
    case JInt(i) => IntToDecimal(i)
    case JStr(s) => s
    case JArr(xs) => "[" + ReprItems(xs) + "]"
    case JObj(fs) => "{" + ReprFields(fs) + "}"
  }

  /** `repr(j)`; a text is put between single quotes. */
  function Repr(j: Json): string
    decreases j, 2
  {
    if j.JStr? then "'" + j.s + "'" else Str(j)
  }

  function ReprItems(xs: seq<Json>): string
    decreases xs, 0
  {
    if xs == [] then ""
    else if |xs| == 1 then Repr(xs[0])
    else Repr(xs[0]) + ", " + ReprItems(xs[1..])
  }

  function ReprFields(fs: Dict<Json>): string
    decreases fs, 0
  {
    if fs == [] then ""
    else
      assert fs[0].1 < fs[0];
      var entry := "'" + fs[0].0 + "': " + Repr(fs[0].1);
      if |fs| == 1 then entry else entry + ", " + ReprFields(fs[1..])
  }

  /** `j[key]` with a text key. */
  function Subscript(j: Json, key: string): (r: Result<Json>)
    ensures r.Ok? <==> j.JObj? && HasKey(j.fields, key)
    ensures r.Err? && j.JObj? ==> r.error == KeyError(key)
  {
    match j
    case JObj(fs) =>
      (match Lookup(fs, key)
       case Some(v) => Ok(v)
       case None => Err(KeyError(key)))
    case _ => Err(TypeError("object is not subscriptable"))
  }

  /** `j.get(key, default)` */
  function Get(j: Json, key: string, default: Json): (r: Result<Json>)
    ensures r.Ok? <==> j.JObj?
    ensures j.JObj? && !HasKey(j.fields, key) ==> r == Ok(default)
  {
    match j
    case JObj(fs) => Ok(Lookup(fs, key).GetOr(default))
    case _ => Err(AttributeError("object has no attribute 'get'"))
  }

  /** `j.get(key)` */
  function GetOpt(j: Json, key: string): Result<Json> {
    Get(j, key, JNull)
  }

  /** The value a dict holds under `key`, or None; the dict-only form of `get`. */
  function FieldOr(fs: Dict<Json>, key: string, default: Json): Json {
    Lookup(fs, key).GetOr(default)
  }

  function CharStrings(s: string): (r: seq<Json>)
    ensures |r| == |s|
    ensures forall i :: 0 <= i < |s| ==> r[i] == JStr([s[i]])
  {
    if s == [] then [] else [JStr([s[0]])] + CharStrings(s[1..])
  }

  function KeyStrings(fs: Dict<Json>): (r: seq<Json>)
    ensures |r| == |fs|
    ensures forall i :: 0 <= i < |fs| ==> r[i] == JStr(fs[i].0)
  {
    if fs == [] then [] else [JStr(fs[0].0)] + KeyStrings(fs[1..])
  }

  /** The elements `for x in j` visits: a list's items, a dict's keys, a
      text's characters; None, bools and ints are not iterable. */
  function Iterate(j: Json): (r: Result<seq<Json>>)
    ensures r.Ok? <==> (j.JArr? || j.JObj? || j.JStr?)
    ensures j.JArr? ==> r == Ok(j.items)
  {
    match j
    case JArr(xs) => Ok(xs)
    case JObj(fs) => Ok(KeyStrings(fs))
    case JStr(s) => Ok(CharStrings(s))
    case _ => Err(TypeError("object is not iterable"))
  }

  /** `[f(x) for x in xs]`; the first element whose conversion raises
      makes the whole comprehension raise. */
  function MapAll<T>(xs: seq<Json>, f: Json -> Result<T>): (r: Result<seq<T>>)
    ensures r.Ok? <==> forall i :: 0 <= i < |xs| ==> f(xs[i]).Ok?
    ensures r.Ok? ==> |r.value| == |xs| && forall i :: 0 <= i < |xs| ==> r.value[i] == f(xs[i]).value
  {
    if xs == [] then Ok([])
    else
      var head :- f(xs[0]);
      var tail :- MapAll(xs[1..], f);
      assert forall i :: 1 <= i < |xs| ==> xs[i] == xs[1..][i - 1];
      Ok([head] + tail)
  }

  /** `[f(x) for x in j]` over whatever `j` iterates. */
  function MapIter<T>(j: Json, f: Json -> Result<T>): Result<seq<T>> {
    var xs :- Iterate(j);
    MapAll(xs, f)
  }

  /** `make_optional(f, x)`, the helper guild.py and channel.py import from
      pycordia.utils (it is not part of this model): `f(x)` for a truthy
      `x`, otherwise None. */
  function MakeOptional<T>(f: Json -> Result<T>, x: Json): (r: Result<Option<T>>)
    ensures !Truthy(x) ==> r == Ok(None)
    ensures Truthy(x) ==> (r.Ok? <==> f(x).Ok?)
  {
    if Truthy(x) then
      var v :- f(x);
      Ok(Some(v))
    else Ok(None)
  }

  /** `int(j)`: an int as it is, a bool as 0 or 1, a text through `ParseInt`;
      anything else raises TypeError. */
  function IntOf(j: Json): (r: Result<int>)
    ensures j.JInt? ==> r == Ok(j.i)
    ensures j.JStr? ==> (r.Ok? <==> ParseInt(j.s).Some?)
    ensures j.JStr? && r.Ok? ==> r.value == ParseInt(j.s).value
    ensures j.JNull? || j.JArr? || j.JObj? ==> r.Err? && r.error.TypeError?
  {
    match j
    case JInt(i) => Ok(i)
    case JBool(b) => Ok(if b then 1 else 0)
    case JStr(s) =>
      (match ParseInt(s)
       case Some(n) => Ok(n)
       case None => Err(ValueError("invalid literal for int() with base 10")))
    case _ => Err(TypeError("int() argument must be a string or a number"))
  }

  // ---------------------------------------------------------------------
  // Ordering comparisons `a < b`

  /** Python's ordering of texts: code point by code point, a proper prefix first. */
  predicate TextLess(x: string, y: string) {
    if x == [] then y != []
    else if y == [] then false
    else if x[0] != y[0] then x[0] < y[0]
    else TextLess(x[1..], y[1..])
  }

  lemma {:induction false} TextLessIrreflexive(x: string)
    ensures !TextLess(x, x)
  {
    if x != [] { TextLessIrreflexive(x[1..]); }
  }

  lemma {:induction false} TextLessAsymmetric(x: string, y: string)
    requires TextLess(x, y)
    ensures !TextLess(y, x)
  {
    if x != [] && y != [] && x[0] == y[0] { TextLessAsymmetric(x[1..], y[1..]); }
  }

  lemma {:induction false} TextLessTotal(x: string, y: string)
    requires x != y
    ensures TextLess(x, y) || TextLess(y, x)
  {
    if x != [] && y != [] && x[0] == y[0] {
      assert x == [x[0]] + x[1..] && y == [y[0]] + y[1..];
      TextLessTotal(x[1..], y[1..]);
    }
  }

  /** `a < b` for JSON values: texts by `TextLess`, numbers (bools as 0/1)
      numerically; None or mixed kinds raise TypeError. */
  function Less(a: Json, b: Json): (r: Result<bool>)
    ensures a.JNull? || b.JNull? ==> r.Err?
  {
    if a.JStr? && b.JStr? then Ok(TextLess(a.s, b.s))
    else if IntValue(a).Some? && IntValue(b).Some? then Ok(IntValue(a).value < IntValue(b).value)
    else Err(TypeError("'<' not supported between these instances"))
  }

  /** A dict literal whose keys are all different. */
  lemma LiteralLookup(fs: Dict<Json>, i: nat)
    requires UniqueKeys(fs) && i < |fs|
    ensures Lookup(fs, fs[i].0) == Some(fs[i].1)
  {
    if i > 0 {
      assert fs[1..][i - 1] == fs[i];
      LiteralLookup(fs[1..], i - 1);
    }
  }
}
