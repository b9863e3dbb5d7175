/**
 * `URLSearchParams` as the services use it: a list of name/value pairs built
 * by successive `append` calls and rendered by `toString()` in the
 * application/x-www-form-urlencoded format of the WHATWG URL Standard
 * (section 5.2, "application/x-www-form-urlencoded serializing"): each
 * name and value is UTF-8 encoded, every byte other than an ASCII
 * alphanumeric or one of `*-._` is percent-encoded with upper-case hex
 * digits, except the space, which becomes `+`; pairs are rendered
 * `name=value` and joined with `&`.
 *
 * `ParseQuery` reads such a string back. It is the inverse used to show that
 * the rendering loses nothing (`ParseQuerySerialize`); it accepts only
 * well-formed input.
 */
module FormUrlEncoded {
  import opened Wrappers

  type Byte = b: int | 0 <= b < 256

  type Param = (string, string)

  /** The Unicode scalar values a `char` can hold. */
  predicate IsScalar(cp: int) {
    (0 <= cp < 0xD800) || (0xE000 <= cp < 0x11_0000)
  }

  // ---------------------------------------------------------------- UTF-8

  /** The UTF-8 encoding of one scalar value. */
  function Utf8(c: char): (bs: seq<Byte>)
    ensures 1 <= |bs| <= 4
  {
    var cp := c as int;
    if cp < 0x80 then [cp]
    else if cp < 0x800 then [0xC0 + cp / 64, 0x80 + cp % 64]
    else if cp < 0x1_0000 then [0xE0 + cp / 4096, 0x80 + (cp / 64) % 64, 0x80 + cp % 64]
    else [0xF0 + cp / 262144, 0x80 + (cp / 4096) % 64, 0x80 + (cp / 64) % 64, 0x80 + cp % 64]
  }

  function Utf8Encode(s: string): seq<Byte> {
    if s == [] then [] else Utf8(s[0]) + Utf8Encode(s[1..])
  }

  predicate IsContinuation(b: Byte) {
    0x80 <= b < 0xC0
  }

  function PrependChar(c: char, rest: Option<string>): Option<string> {
    match rest
    case None => None
    case Some(s) => Some([c] + s)
  }

  /** UTF-8 decoding of well-formed input; `None` on anything malformed. */
  function Utf8Decode(bs: seq<Byte>): Option<string>
    decreases |bs|
  {
    if bs == [] then Some([])
    else if bs[0] < 0x80 then PrependChar(bs[0] as char, Utf8Decode(bs[1..]))
    else if 0xC0 <= bs[0] < 0xE0 && |bs| >= 2 && IsContinuation(bs[1]) then
      var cp := (bs[0] as int - 0xC0) * 64 + (bs[1] as int - 0x80);
      PrependChar(cp as char, Utf8Decode(bs[2..]))
    else if 0xE0 <= bs[0] < 0xF0 && |bs| >= 3 && IsContinuation(bs[1]) && IsContinuation(bs[2]) then
      var cp := (bs[0] as int - 0xE0) * 4096 + (bs[1] as int - 0x80) * 64 + (bs[2] as int - 0x80);
      if IsScalar(cp) then PrependChar(cp as char, Utf8Decode(bs[3..])) else None
    else if 0xF0 <= bs[0] < 0xF8 && |bs| >= 4 && IsContinuation(bs[1]) && IsContinuation(bs[2])
            && IsContinuation(bs[3]) then
      var cp := (bs[0] as int - 0xF0) * 262144 + (bs[1] as int - 0x80) * 4096
                + (bs[2] as int - 0x80) * 64 + (bs[3] as int - 0x80);
      if IsScalar(cp) then PrependChar(cp as char, Utf8Decode(bs[4..])) else None
    else None
  }

  lemma Split64(n: nat)
    ensures n == (n / 64) * 64 + n % 64 && 0 <= n % 64 < 64
  {
  }

  lemma Split4096(n: nat)
    ensures n / 4096 == (n / 64) / 64
    ensures n == (n / 4096) * 4096 + ((n / 64) % 64) * 64 + n % 64
  {
    Split64(n);
    Split64(n / 64);
  }

  lemma Split262144(n: nat)
    ensures n / 262144 == (n / 4096) / 64
    ensures n == (n / 262144) * 262144 + ((n / 4096) % 64) * 4096 + ((n / 64) % 64) * 64 + n % 64
  {
    Split4096(n);
    Split64(n / 4096);
  }

  /** Decoding the encoding of one character yields that character, then decodes the rest. */
  lemma Utf8DecodeChar(c: char, rest: seq<Byte>)
    ensures Utf8Decode(Utf8(c) + rest) == PrependChar(c, Utf8Decode(rest))
  {
    var cp := c as int;
    var bs := Utf8(c) + rest;
    if cp < 0x80 {
      assert bs[1..] == rest;
    } else if cp < 0x800 {
      Split64(cp);
      assert bs[2..] == rest;
    } else if cp < 0x1_0000 {
      Split4096(cp);
      assert bs[3..] == rest;
    } else {
      Split262144(cp);
      assert bs[4..] == rest;
    }
  }

  lemma {:induction false} Utf8RoundTrip(s: string)
    ensures Utf8Decode(Utf8Encode(s)) == Some(s)
  {
    if s != [] {
      Utf8RoundTrip(s[1..]);
      Utf8DecodeChar(s[0], Utf8Encode(s[1..]));
      assert [s[0]] + s[1..] == s;
    }
  }

  // ------------------------------------------------------- percent-encoding

  /** The bytes left as they are: ASCII alphanumerics and `*`, `-`, `.`, `_`. */
  predicate IsUnreservedByte(b: int) {
    ('0' as int <= b <= '9' as int) || ('A' as int <= b <= 'Z' as int) ||
    ('a' as int <= b <= 'z' as int) || b == '*' as int || b == '-' as int ||
    b == '.' as int || b == '_' as int
  }

  function HexDigit(d: nat): (c: char)
    requires d < 16
  {
    if d < 10 then ('0' as int + d) as char else ('A' as int + d - 10) as char
  }

  predicate IsHexDigit(c: char) {
    ('0' <= c <= '9') || ('A' <= c <= 'F') || ('a' <= c <= 'f')
  }

  function HexValue(c: char): (d: nat)
    requires IsHexDigit(c)
    ensures d < 16
  {
    if '0' <= c <= '9' then c as int - '0' as int
    else if 'A' <= c <= 'F' then c as int - 'A' as int + 10
    else c as int - 'a' as int + 10
  }

  /** The characters an encoded component can contain. */
  predicate IsEncodedChar(c: char) {
    IsUnreservedByte(c as int) || c == '+' || c == '%' || IsHexDigit(c)
  }

  function EncodeByte(b: Byte): (t: string)
    ensures 1 <= |t| <= 3
    ensures forall i :: 0 <= i < |t| ==> IsEncodedChar(t[i])
  {
    if b == 0x20 then "+"
    else if IsUnreservedByte(b) then [b as char]
    else "%" + [HexDigit(b / 16), HexDigit(b % 16)]
  }

  function EncodeBytes(bs: seq<Byte>): (t: string)
    ensures forall i :: 0 <= i < |t| ==> IsEncodedChar(t[i])
  {
    if bs == [] then "" else EncodeByte(bs[0]) + EncodeBytes(bs[1..])
  }

  /** The form-urlencoded rendering of one name or value. */
  function EncodeComponent(s: string): (t: string)
    ensures '&' !in t && '=' !in t
  {
    EncodeBytes(Utf8Encode(s))
  }

  function PrependByte(b: Byte, rest: Option<seq<Byte>>): Option<seq<Byte>> {
    match rest
    case None => None
    case Some(bs) => Some([b] + bs)
  }

  /** Undoes `EncodeBytes`; `None` on a character an encoder never writes. */
  function PercentDecode(t: string): Option<seq<Byte>>
    decreases |t|
  {
    if t == [] then Some([])
    else if t[0] == '%' then
      if |t| >= 3 && IsHexDigit(t[1]) && IsHexDigit(t[2]) then
        PrependByte(HexValue(t[1]) * 16 + HexValue(t[2]), PercentDecode(t[3..]))
      else None
    else if t[0] == '+' then PrependByte(0x20, PercentDecode(t[1..]))
    else if IsUnreservedByte(t[0] as int) then PrependByte(t[0] as int, PercentDecode(t[1..]))
    else None
  }

  lemma HexDigitValue(d: nat)
    requires d < 16
    ensures IsHexDigit(HexDigit(d)) && HexValue(HexDigit(d)) == d
  {
  }

  lemma PercentDecodeByte(b: Byte, rest: string)
    ensures PercentDecode(EncodeByte(b) + rest) == PrependByte(b, PercentDecode(rest))
  {
    var t := EncodeByte(b) + rest;
    if b == 0x20 {
      assert t[1..] == rest;
    } else if IsUnreservedByte(b) {
      assert t[1..] == rest;
    } else {
      HexDigitValue(b / 16);
      HexDigitValue(b % 16);
      assert t[3..] == rest;
    }
  }

  lemma {:induction false} PercentRoundTrip(bs: seq<Byte>)
    ensures PercentDecode(EncodeBytes(bs)) == Some(bs)
  {
    if bs != [] {
      PercentRoundTrip(bs[1..]);
      PercentDecodeByte(bs[0], EncodeBytes(bs[1..]));
      assert [bs[0]] + bs[1..] == bs;
    }
  }

  function DecodeComponent(t: string): Option<string> {
    match PercentDecode(t)
    case None => None
    case Some(bs) => Utf8Decode(bs)
  }

  /** Any name or value survives encoding. */
  lemma ComponentRoundTrip(s: string)
    ensures DecodeComponent(EncodeComponent(s)) == Some(s)
  {
    PercentRoundTrip(Utf8Encode(s));
    Utf8RoundTrip(s);
  }

  // ------------------------------------------------------------ the query

  function EncodePair(p: Param): (t: string)
    ensures |t| > 0 && '&' !in t
  {
    EncodeComponent(p.0) + "=" + EncodeComponent(p.1)
  }

  /** A pair made of unreserved characters only is written as it is. */
  lemma PairWrittenAsIs(name: string, value: string)
    requires forall i :: 0 <= i < |name| ==> IsUnreservedByte(name[i] as int)
    requires forall i :: 0 <= i < |value| ==> IsUnreservedByte(value[i] as int)
    ensures EncodePair((name, value)) == name + "=" + value
  {
    EncodeUnreserved(name);
    EncodeUnreserved(value);
  }

  /** `params.toString()`: the encoded pairs joined by `&`. */
  function Serialize(ps: seq<Param>): (q: string)
    ensures q == [] <==> ps == []
  {
    if ps == [] then ""
    else if |ps| == 1 then EncodePair(ps[0])
    else EncodePair(ps[0]) + "&" + Serialize(ps[1..])
  }

  /** The first index of `c` in `s`. */
  function CharIndex(s: string, c: char): (r: Option<nat>)
    ensures r.Some? ==> r.value < |s| && s[r.value] == c && c !in s[..r.value]
    ensures r.None? ==> c !in s
  {
    if s == [] then None
    else if s[0] == c then Some(0)
    else match CharIndex(s[1..], c)
      case None => None
      case Some(i) => assert s[..i + 1] == [s[0]] + s[1..][..i]; Some(i + 1)
  }

  /** The pieces of `s` between occurrences of `sep`. */
  function Split(s: string, sep: char): (r: seq<string>)
    ensures |r| > 0
    decreases |s|
  {
    match CharIndex(s, sep)
    case None => [s]
    case Some(i) => [s[..i]] + Split(s[i + 1..], sep)
  }

  function ParsePair(segment: string): Option<Param> {
    match CharIndex(segment, '=')
    case Some(i) =>
      (match (DecodeComponent(segment[..i]), DecodeComponent(segment[i + 1..]))
       case (Some(n), Some(v)) => Some((n, v))
       case _ => None)
    case None =>
      (match DecodeComponent(segment)
       case Some(n) => Some((n, ""))
       case None => None)
  }

  function ParseSegments(segments: seq<string>): Option<seq<Param>> {
    if segments == [] then Some([])
    else if segments[0] == "" then ParseSegments(segments[1..])
    else match (ParsePair(segments[0]), ParseSegments(segments[1..]))
      case (Some(p), Some(rest)) => Some([p] + rest)
      case _ => None
  }

  /** Reads a serialised query back into its pairs; empty pieces are skipped. */
  function ParseQuery(q: string): Option<seq<Param>> {
    ParseSegments(Split(q, '&'))
  }

  lemma {:induction false} CharIndexAt(a: string, c: char, b: string)
    requires c !in a
    ensures CharIndex(a + [c] + b, c) == Some(|a|)
    decreases |a|
  {
    var s := a + [c] + b;
    if a == [] {
      assert s[0] == c;
    } else {
      assert s[0] == a[0] && s[1..] == a[1..] + [c] + b;
      CharIndexAt(a[1..], c, b);
    }
  }

  lemma ParsePairEncoded(p: Param)
    ensures ParsePair(EncodePair(p)) == Some(p)
  {
    var n, v := EncodeComponent(p.0), EncodeComponent(p.1);
    var t := EncodePair(p);
    assert t == n + ['='] + v;
    CharIndexAt(n, '=', v);
    assert t[..|n|] == n && t[|n| + 1..] == v;
    ComponentRoundTrip(p.0);
    ComponentRoundTrip(p.1);
  }

  function EncodePairs(ps: seq<Param>): (r: seq<string>)
    ensures |r| == |ps|
  {
    if ps == [] then [] else [EncodePair(ps[0])] + EncodePairs(ps[1..])
  }

  lemma {:induction false} SplitSerialize(ps: seq<Param>)
    requires ps != []
    ensures Split(Serialize(ps), '&') == EncodePairs(ps)
    decreases |ps|
  {
    var first := EncodePair(ps[0]);
    if |ps| == 1 {
      assert CharIndex(first, '&').None?;
      assert EncodePairs(ps) == [first];
    } else {
      var q := Serialize(ps);
      assert q == first + ['&'] + Serialize(ps[1..]);
      CharIndexAt(first, '&', Serialize(ps[1..]));
      assert q[..|first|] == first && q[|first| + 1..] == Serialize(ps[1..]);
      SplitSerialize(ps[1..]);
    }
  }

  lemma {:induction false} ParseEncodedPairs(ps: seq<Param>)
    ensures ParseSegments(EncodePairs(ps)) == Some(ps)
    decreases |ps|
  {
    if ps != [] {
      var segments := EncodePairs(ps);
      assert segments[0] == EncodePair(ps[0]) && segments[1..] == EncodePairs(ps[1..]);
      ParsePairEncoded(ps[0]);
      ParseEncodedPairs(ps[1..]);
      assert [ps[0]] + ps[1..] == ps;
    }
  }

  /** The rendered query determines the pairs, their order and their multiplicity. */
  lemma ParseQuerySerialize(ps: seq<Param>)
    ensures ParseQuery(Serialize(ps)) == Some(ps)
  {
    if ps == [] {
      assert Split("", '&') == [""];
    } else {
      SplitSerialize(ps);
      ParseEncodedPairs(ps);
    }
  }

  /** Distinct pair lists render to distinct strings. */
  lemma SerializeInjective(ps: seq<Param>, qs: seq<Param>)
    requires Serialize(ps) == Serialize(qs)
    ensures ps == qs
  {
    ParseQuerySerialize(ps);
    ParseQuerySerialize(qs);
  }

  /** A name or value made only of unreserved ASCII characters is written as it is. */
  lemma {:induction false} EncodeUnreserved(s: string)
    requires forall i :: 0 <= i < |s| ==> IsUnreservedByte(s[i] as int)
    ensures EncodeComponent(s) == s
    decreases |s|
  {
    if s != [] {
      var bs := Utf8Encode(s);
      assert bs == [s[0] as int] + Utf8Encode(s[1..]);
      assert bs[1..] == Utf8Encode(s[1..]);
      EncodeUnreserved(s[1..]);
      assert [s[0]] + s[1..] == s;
    }
  }

  lemma SplitAfterPiece(first: string, rest: string)
    requires '&' !in first
    ensures Split(first + "&" + rest, '&') == [first] + Split(rest, '&')
  {
    var q := first + "&" + rest;
    assert q == first + ['&'] + rest;
    CharIndexAt(first, '&', rest);
    assert q[..|first|] == first && q[|first| + 1..] == rest;
  }

  lemma ParseSegmentsCons(segment: string, segments: seq<string>)
    requires segment != ""
    ensures ParseSegments([segment] + segments)
            == match (ParsePair(segment), ParseSegments(segments))
               case (Some(p), Some(rest)) => Some([p] + rest)
               case _ => None
  {
    assert ([segment] + segments)[1..] == segments;
  }

  /**
   * A pair written ahead of a serialised query and an `&` is read back ahead
   * of that query's pairs; with no pairs after it the trailing `&` leaves an
   * empty piece, which is skipped.
   */
  lemma ParseQueryAfterPair(p: Param, ps: seq<Param>)
    ensures ParseQuery(EncodePair(p) + "&" + Serialize(ps)) == Some([p] + ps)
  {
    var first := EncodePair(p);
    SplitAfterPiece(first, Serialize(ps));
    ParsePairEncoded(p);
    ParseSegmentsCons(first, Split(Serialize(ps), '&'));
    if ps == [] {
      assert Split("", '&') == [""];
      assert ParseSegments([""]) == Some([]);
    } else {
      SplitSerialize(ps);
      ParseEncodedPairs(ps);
    }
  }

  // ------------------------------------------ describing a list of pairs

  /** `name` appears once, with `value`, when `value` is given, and not at all otherwise. */
  predicate Carries(ps: seq<Param>, name: string, value: Option<string>) {
    (value.None? ==> forall i :: 0 <= i < |ps| ==> ps[i].0 != name) &&
    (value.Some? ==> (name, value.value) in ps) &&
    (forall i, j :: 0 <= i < |ps| && 0 <= j < |ps| && ps[i].0 == name && ps[j].0 == name ==> i == j)
  }

  /** Every pair named `a` comes before every pair named `b`. */
  predicate Before(ps: seq<Param>, a: string, b: string) {
    forall i, j :: 0 <= i < |ps| && 0 <= j < |ps| && ps[i].0 == a && ps[j].0 == b ==> i < j
  }

  /** No pair has a name outside `names`. */
  predicate OnlyNames(ps: seq<Param>, names: set<string>) {
    forall i :: 0 <= i < |ps| ==> ps[i].0 in names
  }

  /** The pair `(name, value)` when `value` is given, nothing otherwise. */
  function Optional(name: string, value: Option<string>): (ps: seq<Param>)
    ensures Carries(ps, name, value) && OnlyNames(ps, {name})
  {
    if value.Some? then [(name, value.value)] else []
  }

  /** Pairs appended by `if (value) params.append(name, value)` for two distinct names. */
  function Appended2(n1: string, v1: Option<string>, n2: string, v2: Option<string>): (ps: seq<Param>)
    requires n1 != n2
    ensures OnlyNames(ps, {n1, n2})
    ensures Carries(ps, n1, v1) && Carries(ps, n2, v2)
    ensures Before(ps, n1, n2)
  {
    Optional(n1, v1) + Optional(n2, v2)
  }

  /** Pairs appended by `if (value) params.append(name, value)` for three distinct names. */
  function Appended3(n1: string, v1: Option<string>, n2: string, v2: Option<string>,
                     n3: string, v3: Option<string>): (ps: seq<Param>)
    requires n1 != n2 && n1 != n3 && n2 != n3
    ensures OnlyNames(ps, {n1, n2, n3})
    ensures Carries(ps, n1, v1) && Carries(ps, n2, v2) && Carries(ps, n3, v3)
    ensures Before(ps, n1, n2) && Before(ps, n2, n3) && Before(ps, n1, n3)
  {
    var front := Appended2(n1, v1, n2, v2);
    AppendOptional(front, n3, v3);
    front + Optional(n3, v3)
  }

  lemma AppendOptional(front: seq<Param>, n: string, v: Option<string>)
    ensures var ps := front + Optional(n, v);
            (forall i :: 0 <= i < |front| ==> ps[i] == front[i])
            && (v.None? ==> ps == front)
            && (v.Some? ==> |ps| == |front| + 1 && ps[|front|] == (n, v.value))
  {
  }

  /** A `URLSearchParams` object: the pairs appended so far. */
  class SearchParams {
    var list: seq<Param>

    constructor ()
      ensures list == []
    {
      list := [];
    }

    /** `params.append(name, value)`. */
    method Append(name: string, value: string)
      modifies this
      ensures list == old(list) + [(name, value)]
    {
      list := list + [(name, value)];
    }

    /** `params.toString()`. */
    function ToString(): (q: string)
      reads this
      ensures ParseQuery(q) == Some(list)
    {
      ParseQuerySerialize(list);
      Serialize(list)
    }
  }
}
