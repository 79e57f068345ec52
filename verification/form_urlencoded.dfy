/**
 * The application/x-www-form-urlencoded serializer of section 5.2 of the WHATWG
 * URL Standard, which `URLSearchParams.toString()` uses: each name and value is
 * encoded as UTF-8, bytes outside the unreserved set (ASCII letters, digits,
 * `*`, `-`, `.`, `_`) become `%XX` with upper-case hex, a space becomes `+`, and
 * the pairs are written `name=value` joined by `&`.
 *
 * Beside it sits a strict decoder, the partner used to state that the
 * serializer loses nothing: decoding an encoded string gives it back, and
 * parsing a serialized query gives back the exact list of pairs.
 */
module FormUrlEncoded {
  import opened Wrappers

  type Byte = b: int | 0 <= b < 256

  /** Characters the serializer leaves as they are. */
  predicate IsUnreserved(c: char) {
    || 'a' <= c <= 'z' || 'A' <= c <= 'Z' || '0' <= c <= '9'
    || c == '*' || c == '-' || c == '.' || c == '_'
  }

  /** Characters that can appear in the serializer's output. */
  predicate IsOutputChar(c: char) {
    IsUnreserved(c) || c == '+' || c == '%'
  }

  /** UTF-8 encoding of one Unicode scalar value. */
  function Utf8(c: char): (bs: seq<Byte>)
    ensures 1 <= |bs| <= 4
  {
    var n := c as int;
    if n < 0x80 then [n]
    else if n < 0x800 then [0xC0 + n / 64, 0x80 + n % 64]
    else if n < 0x1_0000 then [0xE0 + n / 4096, 0x80 + (n / 64) % 64, 0x80 + n % 64]
    else [0xF0 + n / 262144, 0x80 + (n / 4096) % 64, 0x80 + (n / 64) % 64, 0x80 + n % 64]
  }

  function HexDigit(d: int): (c: char)
    requires 0 <= d < 16
    ensures IsUnreserved(c)
  {
    if d < 10 then ('0' as int + d) as char else ('A' as int + d - 10) as char
  }

  function HexValue(c: char): (r: Option<int>)
    ensures r.Some? ==> 0 <= r.value < 16
  {
    if '0' <= c <= '9' then Some(c as int - '0' as int)
    else if 'A' <= c <= 'F' then Some(c as int - 'A' as int + 10)
    else if 'a' <= c <= 'f' then Some(c as int - 'a' as int + 10)
    else None
  }

  function PercentEncodeBytes(bs: seq<Byte>): (s: string)
    ensures |s| == 3 * |bs|
    ensures forall i :: 0 <= i < |s| ==> IsOutputChar(s[i])
  {
    if bs == [] then [] else ['%', HexDigit(bs[0] / 16), HexDigit(bs[0] % 16)] + PercentEncodeBytes(bs[1..])
  }

  function EncodeChar(c: char): (s: string)
    ensures |s| >= 1
    ensures forall i :: 0 <= i < |s| ==> IsOutputChar(s[i])
  {
    if IsUnreserved(c) then [c] else if c == ' ' then "+" else PercentEncodeBytes(Utf8(c))
  }

  /** The form-urlencoded encoding of one name or value. Its output never holds `&`, `=` or `?`. */
  function Encode(s: string): (r: string)
    ensures forall i :: 0 <= i < |r| ==> IsOutputChar(r[i])
  {
    if s == [] then [] else EncodeChar(s[0]) + Encode(s[1..])
  }

  // ---------------------------------------------------------------------------
  // The decoder

  /** The byte written as `%XX` at position `i` of `s`, if there is one. */
  function ByteAt(s: string, i: nat): Option<Byte> {
    if i + 3 <= |s| && s[i] == '%' && HexValue(s[i + 1]).Some? && HexValue(s[i + 2]).Some?
    then Some(HexValue(s[i + 1]).value * 16 + HexValue(s[i + 2]).value)
    else None
  }

  /** The low six bits of a UTF-8 continuation byte written at position `i`. */
  function ContinuationAt(s: string, i: nat): (r: Option<int>)
    ensures r.Some? ==> 0 <= r.value < 64
  {
    match ByteAt(s, i)
    case Some(b) => if 0x80 <= b < 0xC0 then Some(b - 0x80) else None
    case None => None
  }

  function ScalarChar(n: int, width: nat): Option<(char, nat)> {
    if 0 <= n < 0xD800 || 0xE000 <= n < 0x11_0000 then Some((n as char, width)) else None
  }

  /** Decodes one UTF-8 sequence of `%XX` escapes at the start of `s`. */
  function DecodePercent(s: string): (r: Option<(char, nat)>)
    ensures r.Some? ==> 1 <= r.value.1 <= |s|
  {
    match ByteAt(s, 0)
    case None => None
    case Some(b0) =>
      if b0 < 0x80 then ScalarChar(b0, 3)
      else if 0xC0 <= b0 < 0xE0 then
        match ContinuationAt(s, 3)
        case None => None
        case Some(c1) => if |s| < 6 then None else ScalarChar((b0 - 0xC0) * 64 + c1, 6)
      else if 0xE0 <= b0 < 0xF0 then
        match (ContinuationAt(s, 3), ContinuationAt(s, 6))
        case (Some(c1), Some(c2)) =>
          if |s| < 9 then None else ScalarChar((b0 - 0xE0) * 4096 + c1 * 64 + c2, 9)
        case _ => None
      else if 0xF0 <= b0 < 0xF8 then
        match (ContinuationAt(s, 3), ContinuationAt(s, 6), ContinuationAt(s, 9))
        case (Some(c1), Some(c2), Some(c3)) =>
          if |s| < 12 then None else ScalarChar((b0 - 0xF0) * 262144 + c1 * 4096 + c2 * 64 + c3, 12)
        case _ => None
      else None
  }

  /** Decodes the first encoded character of `s` and says how much of `s` it took. */
  function DecodeChar(s: string): (r: Option<(char, nat)>)
    ensures r.Some? ==> 1 <= r.value.1 <= |s|
  {
    if s == [] then None
    else if s[0] == '+' then Some((' ', 1))
    else if s[0] == '%' then DecodePercent(s)
    else if IsUnreserved(s[0]) then Some((s[0], 1))
    else None
  }

  function Decode(s: string): Option<string>
    decreases |s|
  {
    if s == [] then Some([])
    else
      match DecodeChar(s)
      case None => None
      case Some((c, k)) =>
        match Decode(s[k..])
        case None => None
        case Some(t) => Some([c] + t)
  }

  // ---------------------------------------------------------------------------
  // Encoding then decoding gives the input back

  lemma HexRoundTrip(d: int)
    requires 0 <= d < 16
    ensures HexValue(HexDigit(d)) == Some(d)
  {
  }

  lemma {:induction false} ByteAtEncoded(bs: seq<Byte>, rest: string, i: nat)
    requires i < |bs|
    ensures ByteAt(PercentEncodeBytes(bs) + rest, 3 * i) == Some(bs[i])
    decreases i
  {
    var s := PercentEncodeBytes(bs) + rest;
    if i == 0 {
      HexRoundTrip(bs[0] / 16);
      HexRoundTrip(bs[0] % 16);
    } else {
      var head := ['%', HexDigit(bs[0] / 16), HexDigit(bs[0] % 16)];
      assert s == head + (PercentEncodeBytes(bs[1..]) + rest);
      ByteAtEncoded(bs[1..], rest, i - 1);
      var t := PercentEncodeBytes(bs[1..]) + rest;
      assert |s| == 3 + |t|;
      assert s[3 * i] == t[3 * (i - 1)];
      assert s[3 * i + 1] == t[3 * (i - 1) + 1];
      assert s[3 * i + 2] == t[3 * (i - 1) + 2];
    }
  }

  lemma Split2(n: int)
    requires 0x80 <= n < 0x800
    ensures 0xC0 <= 0xC0 + n / 64 < 0xE0
    ensures n / 64 * 64 + n % 64 == n
  {
  }

  lemma Split3(n: int)
    requires 0x800 <= n < 0x1_0000
    ensures 0xE0 <= 0xE0 + n / 4096 < 0xF0
    ensures n / 4096 * 4096 + (n / 64) % 64 * 64 + n % 64 == n
  {
    var q := n / 64;
    assert q / 64 == n / 4096;
  }

  lemma Split4(n: int)
    requires 0x1_0000 <= n < 0x11_0000
    ensures 0xF0 <= 0xF0 + n / 262144 < 0xF8
    ensures n / 262144 * 262144 + (n / 4096) % 64 * 4096 + (n / 64) % 64 * 64 + n % 64 == n
  {
    var q := n / 64;
    assert q / 64 == n / 4096;
    assert n / 4096 / 64 == n / 262144;
  }

  lemma DecodeOneByte(c: char, rest: string)
    requires c as int < 0x80
    ensures DecodePercent(PercentEncodeBytes(Utf8(c)) + rest) == Some((c, 3))
  {
    ByteAtEncoded(Utf8(c), rest, 0);
  }

  lemma DecodeTwoBytes(c: char, rest: string)
    requires 0x80 <= c as int < 0x800
    ensures DecodePercent(PercentEncodeBytes(Utf8(c)) + rest) == Some((c, 6))
  {
    var n := c as int;
    var bs := Utf8(c);
    var s := PercentEncodeBytes(bs) + rest;
    Split2(n);
    ByteAtEncoded(bs, rest, 0);
    ByteAtEncoded(bs, rest, 1);
    assert ByteAt(s, 0) == Some(0xC0 + n / 64);
    assert ContinuationAt(s, 3) == Some(n % 64);
  }

  /** Three escapes holding a lead byte and two continuation bytes decode to their scalar value. */
  lemma DecodeThreeEscapes(s: string, b0: int, c1: int, c2: int)
    requires |s| >= 9 && 0xE0 <= b0 < 0xF0 && 0 <= c1 < 64 && 0 <= c2 < 64
    requires ByteAt(s, 0) == Some(b0) && ByteAt(s, 3) == Some(0x80 + c1) && ByteAt(s, 6) == Some(0x80 + c2)
    ensures DecodePercent(s) == ScalarChar((b0 - 0xE0) * 4096 + c1 * 64 + c2, 9)
  {
    assert ContinuationAt(s, 3) == Some(c1);
    assert ContinuationAt(s, 6) == Some(c2);
  }

  /** Four escapes holding a lead byte and three continuation bytes decode to their scalar value. */
  lemma DecodeFourEscapes(s: string, b0: int, c1: int, c2: int, c3: int)
    requires |s| >= 12 && 0xF0 <= b0 < 0xF8 && 0 <= c1 < 64 && 0 <= c2 < 64 && 0 <= c3 < 64
    requires ByteAt(s, 0) == Some(b0) && ByteAt(s, 3) == Some(0x80 + c1)
    requires ByteAt(s, 6) == Some(0x80 + c2) && ByteAt(s, 9) == Some(0x80 + c3)
    ensures DecodePercent(s) == ScalarChar((b0 - 0xF0) * 262144 + c1 * 4096 + c2 * 64 + c3, 12)
  {
    assert ContinuationAt(s, 3) == Some(c1);
    assert ContinuationAt(s, 6) == Some(c2);
    assert ContinuationAt(s, 9) == Some(c3);
  }

  lemma DecodeThreeBytes(c: char, rest: string)
    requires 0x800 <= c as int < 0x1_0000
    ensures DecodePercent(PercentEncodeBytes(Utf8(c)) + rest) == Some((c, 9))
  {
    var n := c as int;
    var b0, c1, c2 := 0xE0 + n / 4096, (n / 64) % 64, n % 64;
    var bs := Utf8(c);
    assert bs == [b0, 0x80 + c1, 0x80 + c2];
    var s := PercentEncodeBytes(bs) + rest;
    Split3(n);
    ByteAtEncoded(bs, rest, 0);
    ByteAtEncoded(bs, rest, 1);
    ByteAtEncoded(bs, rest, 2);
    DecodeThreeEscapes(s, b0, c1, c2);
  }

  lemma DecodeFourBytes(c: char, rest: string)
    requires 0x1_0000 <= c as int
    ensures DecodePercent(PercentEncodeBytes(Utf8(c)) + rest) == Some((c, 12))
  {
    var n := c as int;
    var b0, c1, c2, c3 := 0xF0 + n / 262144, (n / 4096) % 64, (n / 64) % 64, n % 64;
    var bs := Utf8(c);
    assert bs == [b0, 0x80 + c1, 0x80 + c2, 0x80 + c3];
    var s := PercentEncodeBytes(bs) + rest;
    Split4(n);
    ByteAtEncoded(bs, rest, 0);
    ByteAtEncoded(bs, rest, 1);
    ByteAtEncoded(bs, rest, 2);
    ByteAtEncoded(bs, rest, 3);
    DecodeFourEscapes(s, b0, c1, c2, c3);
  }

  lemma DecodeCharEncoded(c: char, rest: string)
    ensures DecodeChar(EncodeChar(c) + rest) == Some((c, |EncodeChar(c)|))
  {
    if !IsUnreserved(c) && c != ' ' {
      var n := c as int;
      assert (EncodeChar(c) + rest)[0] == '%';
      if n < 0x80 {
        DecodeOneByte(c, rest);
      } else if n < 0x800 {
        DecodeTwoBytes(c, rest);
      } else if n < 0x1_0000 {
        DecodeThreeBytes(c, rest);
      } else {
        DecodeFourBytes(c, rest);
      }
    }
  }

  /** Decoding what `Encode` wrote gives back the original string. */
  lemma {:induction false} DecodeEncode(s: string)
    ensures Decode(Encode(s)) == Some(s)
  {
    if s != [] {
      var e := EncodeChar(s[0]);
      var t := Encode(s[1..]);
      assert Encode(s) == e + t;
      DecodeCharEncoded(s[0], t);
      assert (e + t)[|e|..] == t;
      DecodeEncode(s[1..]);
      assert Decode(e + t) == Some([s[0]] + s[1..]);
      assert [s[0]] + s[1..] == s;
    }
  }

  /** Distinct strings never encode alike. */
  lemma EncodeInjective(a: string, b: string)
    requires Encode(a) == Encode(b)
    ensures a == b
  {
    DecodeEncode(a);
    DecodeEncode(b);
  }

  /** Strings made only of unreserved characters are written as they are. */
  lemma {:induction false} EncodeUnreserved(s: string)
    requires forall i :: 0 <= i < |s| ==> IsUnreserved(s[i])
    ensures Encode(s) == s
  {
    if s != [] {
      EncodeUnreserved(s[1..]);
    }
  }

  // ---------------------------------------------------------------------------
  // Query strings

  function SerializePair(p: (string, string)): string {
    Encode(p.0) + "=" + Encode(p.1)
  }

  /** `URLSearchParams.toString()`: the pairs, in order, joined by `&`. */
  function Serialize(ps: seq<(string, string)>): (q: string)
    ensures q == "" <==> ps == []
  {
    if ps == [] then ""
    else if |ps| == 1 then SerializePair(ps[0])
    else SerializePair(ps[0]) + "&" + Serialize(ps[1..])
  }

  /** Index of the first `c` in `s`, or `|s|` when there is none. */
  function IndexOf(s: string, c: char): (i: nat)
    ensures i <= |s|
    ensures i < |s| ==> s[i] == c
    ensures forall k :: 0 <= k < i ==> s[k] != c
  {
    if s == [] then 0 else if s[0] == c then 0 else 1 + IndexOf(s[1..], c)
  }

  function ParsePair(seg: string): Option<(string, string)> {
    var j := IndexOf(seg, '=');
    if j == |seg| then None
    else
      match (Decode(seg[..j]), Decode(seg[j + 1..]))
      case (Some(name), Some(value)) => Some((name, value))
      case _ => None
  }

  /** Splits a query at `&`, each piece at its first `=`, and decodes both halves. */
  function ParseQuery(q: string): Option<seq<(string, string)>>
    decreases |q|
  {
    if q == [] then Some([])
    else
      var i := IndexOf(q, '&');
      match ParsePair(q[..i])
      case None => None
      case Some(p) =>
        if i == |q| then Some([p])
        else
          match ParseQuery(q[i + 1..])
          case None => None
          case Some(ps) => Some([p] + ps)
  }

  lemma IndexOfAt(a: string, c: char, b: string)
    requires forall k :: 0 <= k < |a| ==> a[k] != c
    ensures IndexOf(a + [c] + b, c) == |a|
    ensures IndexOf(a, c) == |a|
  {
    var s := a + [c] + b;
    assert s[|a|] == c;
  }

  lemma SerializePairNoAmpersand(p: (string, string))
    ensures forall k :: 0 <= k < |SerializePair(p)| ==> SerializePair(p)[k] != '&'
  {
  }

  lemma ParsePairSerialized(p: (string, string))
    ensures ParsePair(SerializePair(p)) == Some(p)
  {
    var seg := SerializePair(p);
    var n := Encode(p.0);
    var v := Encode(p.1);
    assert seg == n + ['='] + v;
    IndexOfAt(n, '=', v);
    assert seg[..|n|] == n;
    assert seg[|n| + 1..] == v;
    DecodeEncode(p.0);
    DecodeEncode(p.1);
  }

  /** Parsing a serialized query gives back exactly the pairs, in order. */
  lemma {:induction false} ParseSerialize(ps: seq<(string, string)>)
    ensures ParseQuery(Serialize(ps)) == Some(ps)
  {
    if ps != [] {
      var seg := SerializePair(ps[0]);
      SerializePairNoAmpersand(ps[0]);
      ParsePairSerialized(ps[0]);
      if |ps| > 1 {
        var tail := Serialize(ps[1..]);
        var q := seg + ['&'] + tail;
        assert Serialize(ps) == q;
        IndexOfAt(seg, '&', tail);
        assert q[..|seg|] == seg;
        assert q[|seg| + 1..] == tail;
        ParseSerialize(ps[1..]);
        assert ps == [ps[0]] + ps[1..];
      } else {
        IndexOfAt(seg, '&', "");
        assert seg[..|seg|] == seg;
        assert ps == [ps[0]];
      }
    }
  }
}
