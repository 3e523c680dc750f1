/** The client's `utf8($struct)` walk: every string value found anywhere
    inside an array, at any depth, is passed through `utf8_encode`; keys,
    order, nesting and every other value are left as they are. */
module Recode {
  import opened Php
  import opened Encoding

  /** The treatment of one array element: sub-arrays are walked, strings
      re-encoded, anything else kept. */
  function RecodeElement(v: Value): (r: Value)
    decreases v, 1
  {
    match v
    case Arr(_) => Utf8(v)
    case Str(s) => Str(Utf8Encode(s))
    case _ => v
  }

  /** `utf8($struct)`. The loop only runs over an array: any other value comes
      back untouched, a top-level string included. */
  function Utf8(v: Value): (r: Value)
    decreases v, 0
    ensures r.Arr? <==> v.Arr?
    ensures v.Arr? ==> KeysOf(r.entries) == KeysOf(v.entries)
    ensures !v.Arr? ==> r == v
  {
    match v
    case Arr(es) =>
      Arr(seq(|es|, i requires 0 <= i < |es| => Entry(es[i].key, RecodeElement(es[i].val))))
    case _ => v
  }

  /** What `utf8` does, told along every path of keys into the value: the
      same paths lead somewhere; below the top, a string `s` has become
      `utf8_encode(s)`; null, booleans and integers are unchanged; an array
      keeps its keys in their order. */
  lemma {:induction false} Utf8AlongPath(v: Value, path: seq<Key>)
    decreases |path|
    ensures At(Utf8(v), path).Some? <==> At(v, path).Some?
    ensures forall s :: path != [] && At(v, path) == Some(Str(s)) ==>
      At(Utf8(v), path) == Some(Str(Utf8Encode(s)))
    ensures At(v, path).Some? && (At(v, path).value.Null? || At(v, path).value.Bool? || At(v, path).value.Int?) ==>
      At(Utf8(v), path) == At(v, path)
    ensures At(v, path).Some? && At(v, path).value.Arr? ==>
      At(Utf8(v), path).value.Arr? &&
      KeysOf(At(Utf8(v), path).value.entries) == KeysOf(At(v, path).value.entries)
  {
    if path != [] && v.Arr? {
      var r := Utf8(v);
      match FindKey(KeysOf(v.entries), path[0])
      case None =>
      case Some(i) =>
        var w := v.entries[i].val;
        assert r.entries[i].val == RecodeElement(w);
        assert At(v, path) == At(w, path[1..]);
        assert At(r, path) == At(RecodeElement(w), path[1..]);
        if w.Arr? {
          Utf8AlongPath(w, path[1..]);
        }
    }
  }

  /** Looking a key up after `utf8` finds the re-encoded value found before. */
  lemma Utf8Index(v: Value, k: Key)
    ensures Index(Utf8(v), k) == RecodeElement(Index(v, k))
  {
    if v.Arr? {
      var r := Utf8(v);
      match FindKey(KeysOf(v.entries), k)
      case None =>
      case Some(i) =>
        assert r.entries[i].val == RecodeElement(v.entries[i].val);
    }
  }
}
