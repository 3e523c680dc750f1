/** PHP values as the client sees them once a JSON reply has been decoded:
    null, booleans, integers, byte strings and (ordered) arrays, together with
    the language's `empty()`, `isset()` and `$a['key']` operations. */
module Php {

  datatype Option<+T> = None | Some(value: T)

  /** PHP strings are byte strings. */
  newtype byte = x: int | 0 <= x < 256
  type Bytes = seq<byte>

  /** The bytes of a string literal written in ASCII. */
  function Lit(s: string): (r: Bytes)
    ensures |r| == |s|
  {
    seq(|s|, i requires 0 <= i < |s| => (s[i] as int % 256) as byte)
  }

  /** Array keys: integers or strings. Keys are only ever compared. */
  datatype Key = IntKey(n: int) | StrKey(name: string)

  datatype Entry = Entry(key: Key, val: Value)

  /** A PHP array keeps its entries in insertion order. Its keys are
      distinct in PHP; the type does not insist on it, and a lookup reads the
      first entry carrying a key. */
  datatype Value =
    | Null
    | Bool(b: bool)
    | Int(n: int)
    | Str(s: Bytes)
    | Arr(entries: seq<Entry>)

  /** PHP `empty()`: null, false, 0, "", "0" and the empty array. */
  predicate Empty(v: Value)
  {
    match v
    case Null => true
    case Bool(b) => !b
    case Int(n) => n == 0
    case Str(s) => s == [] || s == Lit("0")
    case Arr(es) => es == []
  }

  /** PHP truthiness, as used by `if ($x)` and `$x ? a : b`. */
  predicate Truthy(v: Value)
  {
    !Empty(v)
  }

  function KeysOf(es: seq<Entry>): (ks: seq<Key>)
    ensures |ks| == |es|
    ensures forall i :: 0 <= i < |es| ==> ks[i] == es[i].key
  {
    seq(|es|, i requires 0 <= i < |es| => es[i].key)
  }

  /** Position of the first occurrence of `k` in `ks`. */
  function FindKey(ks: seq<Key>, k: Key): (r: Option<nat>)
    ensures r.Some? ==> r.value < |ks| && ks[r.value] == k
    ensures r.Some? ==> forall j :: 0 <= j < r.value ==> ks[j] != k
    ensures r.None? <==> k !in ks
  {
    if ks == [] then None
    else if ks[0] == k then Some(0)
    else match FindKey(ks[1..], k)
      case None => None
      case Some(i) => Some(i + 1)
  }

  /** `$v[k]`: the value stored under `k`, or null when `v` is not an array
      or has no such key. */
  function Index(v: Value, k: Key): (r: Value)
    ensures !v.Arr? ==> r == Null
    ensures v.Arr? && k !in KeysOf(v.entries) ==> r == Null
    ensures v.Arr? && k in KeysOf(v.entries) ==> Entry(k, r) in v.entries
  {
    if v.Arr? then
      match FindKey(KeysOf(v.entries), k)
      case Some(i) => v.entries[i].val
      case None => Null
    else Null
  }

  /** PHP `isset($v[k])`: the key is present and its value is not null. */
  predicate IsSet(v: Value, k: Key)
  {
    Index(v, k) != Null
  }

  /** The value reached by following `path` key by key from `v`. */
  function At(v: Value, path: seq<Key>): Option<Value>
    decreases |path|
  {
    if path == [] then Some(v)
    else if v.Arr? then
      match FindKey(KeysOf(v.entries), path[0])
      case None => None
      case Some(i) => At(v.entries[i].val, path[1..])
    else None
  }

  /** In an array whose entry `i` carries the first occurrence of its key,
      looking that key up finds entry `i`. */
  lemma IndexFirst(es: seq<Entry>, i: nat)
    requires i < |es|
    requires forall j :: 0 <= j < i ==> es[j].key != es[i].key
    ensures Index(Arr(es), es[i].key) == es[i].val
  {
    assert KeysOf(es)[i] == es[i].key;
  }

  /** `empty()` holds of exactly six values: null, false, 0, "", "0" and the
      empty array. */
  lemma EmptyValues(v: Value)
    ensures Empty(v) <==>
      v == Null || v == Bool(false) || v == Int(0) || v == Str([]) || v == Str(Lit("0")) || v == Arr([])
  {
  }

  /** Entry `i` is the first one carrying key `k`. */
  predicate FirstWith(es: seq<Entry>, k: Key, i: int)
  {
    0 <= i < |es| && es[i].key == k && forall j :: 0 <= j < i ==> es[j].key != k
  }

  /** `isset($v[k])` holds exactly when `v` is an array whose first entry
      with key `k` holds a non-null value. */
  lemma IsSetFirst(v: Value, k: Key)
    ensures IsSet(v, k) <==> v.Arr? && (exists i :: FirstWith(v.entries, k, i) && v.entries[i].val != Null)
  {
    if v.Arr? {
      var ks := KeysOf(v.entries);
      match FindKey(ks, k)
      case None =>
      case Some(i) =>
        assert FirstWith(v.entries, k, i);
        forall i' | FirstWith(v.entries, k, i')
          ensures i' == i
        {
          assert ks[i'] == k;
        }
    }
  }
}
