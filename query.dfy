/** `http_build_query` for a list of string pairs, and the reader of a query
    string it is checked against: split at the first '?', then at every '&',
    then each piece at its first '=', decoding the value with `urldecode`. */
module QueryString {
  import opened Php
  import opened Encoding

  /** `http_build_query` of string pairs: `name=value` pairs joined by '&',
      the value passed through `urlencode`. PHP encodes the names too; the
      names the client uses (`response_type`, `client_id`) are made of
      letters and '_', which `urlencode` keeps, so they are written as they
      are. */
  function BuildQuery(pairs: seq<(Bytes, Bytes)>): Bytes
  {
    if pairs == [] then []
    else if |pairs| == 1 then pairs[0].0 + [EqualsSign] + UrlEncode(pairs[0].1)
    else pairs[0].0 + [EqualsSign] + UrlEncode(pairs[0].1) + [Ampersand] + BuildQuery(pairs[1..])
  }

  /** `s` cut at every occurrence of `sep`. */
  function SplitOn(s: Bytes, sep: byte): (parts: seq<Bytes>)
    ensures |parts| >= 1
  {
    if s == [] then [[]]
    else if s[0] == sep then [[]] + SplitOn(s[1..], sep)
    else
      var rest := SplitOn(s[1..], sep);
      [[s[0]] + rest[0]] + rest[1..]
  }

  /** Position of the first `b` in `s`, or `|s|` when there is none. */
  function FirstIndex(s: Bytes, b: byte): (i: nat)
    ensures i <= |s|
    ensures i < |s| ==> s[i] == b
    ensures forall j :: 0 <= j < i ==> s[j] != b
  {
    if s == [] || s[0] == b then 0 else 1 + FirstIndex(s[1..], b)
  }

  /** Everything after the first '?', or nothing when there is no '?'. */
  function QueryOf(url: Bytes): Bytes
  {
    var i := FirstIndex(url, QuestionMark);
    if i < |url| then url[i + 1..] else []
  }

  function ParsePair(piece: Bytes): (Bytes, Bytes)
  {
    var i := FirstIndex(piece, EqualsSign);
    if i < |piece| then (piece[..i], UrlDecode(piece[i + 1..])) else (piece, [])
  }

  /** The (name, decoded value) pairs of the query string of `url`. */
  function Params(url: Bytes): seq<(Bytes, Bytes)>
  {
    var pieces := SplitOn(QueryOf(url), Ampersand);
    seq(|pieces|, i requires 0 <= i < |pieces| => ParsePair(pieces[i]))
  }

  predicate Lacks(s: Bytes, b: byte)
  {
    forall i :: 0 <= i < |s| ==> s[i] != b
  }

  /** A literal written in ASCII without the character `c` lacks its byte. */
  lemma AsciiLitLacks(s: string, c: char)
    requires forall ch :: ch in s ==> ch as int < 128
    requires c as int < 128 && c !in s
    ensures Lacks(Lit(s), c as int as byte)
  {
    forall i | 0 <= i < |s|
      ensures Lit(s)[i] != c as int as byte
    {
      assert s[i] in s;
    }
  }

  lemma {:induction false} FirstIndexAfter(a: Bytes, b: byte, rest: Bytes)
    requires Lacks(a, b)
    ensures FirstIndex(a + [b] + rest, b) == |a|
  {
    if a != [] {
      assert (a + [b] + rest)[1..] == a[1..] + [b] + rest;
      FirstIndexAfter(a[1..], b, rest);
    }
  }

  lemma {:induction false} SplitOnWhole(a: Bytes, sep: byte)
    requires Lacks(a, sep)
    ensures SplitOn(a, sep) == [a]
  {
    if a != [] {
      SplitOnWhole(a[1..], sep);
      assert a == [a[0]] + a[1..];
    }
  }

  lemma {:induction false} SplitOnFirst(a: Bytes, sep: byte, rest: Bytes)
    requires Lacks(a, sep)
    ensures SplitOn(a + [sep] + rest, sep) == [a] + SplitOn(rest, sep)
  {
    SplitOnJoin(a, sep, rest);
    SplitOnWhole(a, sep);
  }

  /** Cutting at a separator placed between two strings cuts each of them. */
  lemma {:induction false} SplitOnJoin(a: Bytes, sep: byte, rest: Bytes)
    ensures SplitOn(a + [sep] + rest, sep) == SplitOn(a, sep) + SplitOn(rest, sep)
  {
    if a == [] {
      assert a + [sep] + rest == [sep] + rest;
      assert ([sep] + rest)[1..] == rest;
    } else {
      var s := a + [sep] + rest;
      assert s[1..] == a[1..] + [sep] + rest;
      SplitOnJoin(a[1..], sep, rest);
    }
  }

  lemma SplitOnFirstLast(a: Bytes, sep: byte, last: Bytes)
    requires Lacks(last, sep)
    ensures SplitOn(a + [sep] + last, sep) == SplitOn(a, sep) + [last]
  {
    SplitOnJoin(a, sep, last);
    SplitOnWhole(last, sep);
  }

  lemma ParseOnePair(name: Bytes, value: Bytes)
    requires Lacks(name, EqualsSign)
    ensures ParsePair(name + [EqualsSign] + value) == (name, UrlDecode(value))
  {
    var p := name + [EqualsSign] + value;
    FirstIndexAfter(name, EqualsSign, value);
    assert p[..|name|] == name;
    assert p[|name| + 1..] == value;
  }

  /** A query built from pairs whose names hold neither '=' nor '&' reads
      back as the same pairs. */
  lemma {:induction false} BuildQueryReadsBack(pairs: seq<(Bytes, Bytes)>)
    requires pairs != []
    requires forall i :: 0 <= i < |pairs| ==> Lacks(pairs[i].0, EqualsSign) && Lacks(pairs[i].0, Ampersand)
    ensures var pieces := SplitOn(BuildQuery(pairs), Ampersand);
      |pieces| == |pairs| &&
      forall i :: 0 <= i < |pairs| ==> ParsePair(pieces[i]) == pairs[i]
  {
    var first := pairs[0].0 + [EqualsSign] + UrlEncode(pairs[0].1);
    assert Lacks(first, Ampersand);
    ParseOnePair(pairs[0].0, UrlEncode(pairs[0].1));
    UrlRoundTrip(pairs[0].1);
    if |pairs| == 1 {
      SplitOnWhole(first, Ampersand);
    } else {
      var tail := pairs[1..];
      assert BuildQuery(pairs) == first + [Ampersand] + BuildQuery(tail);
      SplitOnFirst(first, Ampersand, BuildQuery(tail));
      BuildQueryReadsBack(tail);
    }
  }

  lemma QueryOfAfter(base: Bytes, q: Bytes)
    requires Lacks(base, QuestionMark)
    ensures QueryOf(base + [QuestionMark] + q) == q
  {
    FirstIndexAfter(base, QuestionMark, q);
    assert (base + [QuestionMark] + q)[|base| + 1..] == q;
  }

  /** Appending `&piece` to a URL whose base holds no '?' appends one parsed
      pair, as long as the piece holds no '&'. */
  lemma ParamsAppend(base: Bytes, q: Bytes, piece: Bytes)
    requires Lacks(base, QuestionMark) && Lacks(piece, Ampersand)
    ensures Params(base + [QuestionMark] + q + [Ampersand] + piece) ==
      Params(base + [QuestionMark] + q) + [ParsePair(piece)]
  {
    var tail := q + [Ampersand] + piece;
    assert base + [QuestionMark] + q + [Ampersand] + piece == base + [QuestionMark] + tail;
    QueryOfAfter(base, tail);
    QueryOfAfter(base, q);
    SplitOnFirstLast(q, Ampersand, piece);
  }
}
