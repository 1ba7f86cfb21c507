/** The application/x-www-form-urlencoded serializer and parser of the WHATWG
    URL Standard (section 5.2 "application/x-www-form-urlencoded serializing"
    and section 5.1 "application/x-www-form-urlencoded parsing"), which
    `URLSearchParams.prototype.toString` uses, together with the list of
    name-value pairs a `URLSearchParams` object holds.

    Percent-encoding follows the form-urlencoded percent-encode set for ASCII
    characters; characters outside ASCII are passed through unchanged instead
    of being UTF-8 encoded. */
module FormUrlEncoded {

  /** One (name, value) pair of a form payload or of a query. */
  datatype Entry = Entry(name: string, value: string)

  /** A string in which `d` does not occur. */
  predicate Free(s: string, d: char)
  {
    forall i :: 0 <= i < |s| ==> s[i] != d
  }

  /** Index of the first `d` in `s`, or `|s|` when there is none. */
  function IndexOf(s: string, d: char): (i: nat)
    ensures i <= |s|
    ensures i < |s| ==> s[i] == d
    ensures Free(s[..i], d)
  {
    if s == [] then 0
    else if s[0] == d then 0
    else 1 + IndexOf(s[1..], d)
  }

  // ---------------------------------------------------------------------
  // Percent-encoding of one name or value
  // ---------------------------------------------------------------------

  /** The ASCII characters the form-urlencoded percent-encode set leaves as
      they are: alphanumerics and `*`, `-`, `.`, `_`. */
  predicate Unreserved(c: char)
  {
    || 'a' <= c <= 'z' || 'A' <= c <= 'Z' || '0' <= c <= '9'
    || c == '*' || c == '-' || c == '.' || c == '_'
  }

  predicate IsHex(c: char)
  {
    '0' <= c <= '9' || 'A' <= c <= 'F' || 'a' <= c <= 'f'
  }

  /** Upper-case hexadecimal digit, as percent-encoding writes it. */
  function HexDigit(n: nat): (c: char)
    requires n < 16
    ensures IsHex(c)
  {
    if n < 10 then ('0' as int + n) as char else ('A' as int + n - 10) as char
  }

  function HexValue(c: char): (v: nat)
    requires IsHex(c)
    ensures v < 16
  {
    if '0' <= c <= '9' then c as int - '0' as int
    else if 'A' <= c <= 'F' then c as int - 'A' as int + 10
    else c as int - 'a' as int + 10
  }

  /** One character as the serializer writes it: unreserved characters
      unchanged, a space as `+`, any other ASCII character as `%XX`. */
  function EncodeChar(c: char): (r: string)
    ensures Free(r, '&') && Free(r, '=') && r != []
  {
    if Unreserved(c) || c as int >= 128 then [c]
    else if c == ' ' then "+"
    else ['%', HexDigit(c as int / 16), HexDigit(c as int % 16)]
  }

  function Encode(s: string): (r: string)
  {
    if s == [] then [] else EncodeChar(s[0]) + Encode(s[1..])
  }

  /** Percent-decoding after `+` is read as a space, as the parser does:
      `%` followed by two hexadecimal digits stands for that character, any
      other `%` is kept. */
  function Decode(s: string): string
  {
    if s == [] then []
    else if s[0] == '+' then " " + Decode(s[1..])
    else if s[0] == '%' && |s| >= 3 && IsHex(s[1]) && IsHex(s[2]) then
      [(HexValue(s[1]) * 16 + HexValue(s[2])) as char] + Decode(s[3..])
    else [s[0]] + Decode(s[1..])
  }

  /** Encoded names and values never contain the two delimiters of a query. */
  lemma {:induction false} EncodeFree(s: string)
    ensures Free(Encode(s), '&') && Free(Encode(s), '=')
  {
    if s != [] {
      EncodeFree(s[1..]);
    }
  }

  /** A string of unreserved characters is written as it is. */
  lemma {:induction false} EncodeUnreserved(s: string)
    requires forall i :: 0 <= i < |s| ==> Unreserved(s[i])
    ensures Encode(s) == s
  {
    if s != [] {
      EncodeUnreserved(s[1..]);
    }
  }

  lemma DecodeEncodeChar(c: char, rest: string)
    ensures Decode(EncodeChar(c) + rest) == [c] + Decode(rest)
  {
  }

  /** Decoding undoes encoding: the serializer loses no character. */
  lemma {:induction false} DecodeEncode(s: string)
    ensures Decode(Encode(s)) == s
  {
    if s != [] {
      DecodeEncodeChar(s[0], Encode(s[1..]));
      DecodeEncode(s[1..]);
    }
  }

  // ---------------------------------------------------------------------
  // Serializing and parsing a list of pairs
  // ---------------------------------------------------------------------

  function SerializePair(e: Entry): string
  {
    Encode(e.name) + "=" + Encode(e.value)
  }

  /** The serializer: each pair as `name=value`, pairs joined by `&`, in order. */
  function Serialize(es: seq<Entry>): (r: string)
    ensures r == [] <==> es == []
  {
    if es == [] then ""
    else if |es| == 1 then SerializePair(es[0])
    else SerializePair(es[0]) + "&" + Serialize(es[1..])
  }

  /** One `&`-free piece of a query: name up to the first `=`, value after it. */
  function ParsePair(p: string): Entry
  {
    var j := IndexOf(p, '=');
    if j < |p| then Entry(Decode(p[..j]), Decode(p[j + 1..]))
    else Entry(Decode(p), "")
  }

  /** The parser: split on `&`, skip empty pieces, parse each piece. */
  function Parse(q: string): seq<Entry>
    decreases |q|
  {
    if q == [] then []
    else
      var i := IndexOf(q, '&');
      var rest := if i < |q| then Parse(q[i + 1..]) else [];
      if i == 0 then rest else [ParsePair(q[..i])] + rest
  }

  lemma ParseSerializePair(e: Entry)
    ensures Free(SerializePair(e), '&') && SerializePair(e) != []
    ensures ParsePair(SerializePair(e)) == e
  {
    var n, v := Encode(e.name), Encode(e.value);
    var p := SerializePair(e);
    EncodeFree(e.name);
    EncodeFree(e.value);
    assert p[|n|] == '=';
    assert p[..|n|] == n;
    assert IndexOf(p, '=') == |n|;
    assert p[|n| + 1..] == v;
    DecodeEncode(e.name);
    DecodeEncode(e.value);
  }

  /** A non-empty `&`-free piece alone is one pair. */
  lemma ParseOne(p: string)
    requires p != [] && Free(p, '&')
    ensures Parse(p) == [ParsePair(p)]
  {
    assert IndexOf(p, '&') == |p|;
    assert p[..|p|] == p;
  }

  /** A non-empty `&`-free piece followed by `&` contributes one pair. */
  lemma ParseCons(p: string, t: string)
    requires p != [] && Free(p, '&')
    ensures Parse(p + "&" + t) == [ParsePair(p)] + Parse(t)
  {
    var q := p + "&" + t;
    assert q[..|p|] == p;
    assert q[|p|] == '&';
    var i := IndexOf(q, '&');
    assert i == |p|;
    assert q[|p| + 1..] == t;
  }

  /** Parsing a serialized list gives back the same pairs in the same order. */
  lemma {:induction false} ParseSerialize(es: seq<Entry>)
    ensures Parse(Serialize(es)) == es
  {
    if es == [] {
    } else if |es| == 1 {
      ParseSerializePair(es[0]);
      ParseOne(SerializePair(es[0]));
    } else {
      ParseSerializePair(es[0]);
      ParseCons(SerializePair(es[0]), Serialize(es[1..]));
      ParseSerialize(es[1..]);
    }
  }

  // ---------------------------------------------------------------------
  // URLSearchParams
  // ---------------------------------------------------------------------

  /** A `URLSearchParams` object: an ordered list of pairs that `append`
      extends in place. */
  class SearchParams {
    var list: seq<Entry>

    constructor ()
      ensures list == []
    {
      list := [];
    }

    /** `params.append(name, value)`. */
    method Append(name: string, value: string)
      modifies this
      ensures list == old(list) + [Entry(name, value)]
    {
      list := list + [Entry(name, value)];
    }

    /** `params.toString()`: empty exactly when there are no pairs, and the
        pairs can be read back from it in order. */
    function ToString(): (r: string)
      reads this
      ensures r == [] <==> list == []
      ensures Parse(r) == list
    {
      ParseSerialize(list);
      Serialize(list)
    }
  }
}
