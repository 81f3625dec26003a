/**
 * Percent-encoding as three callers of the core perform it:
 *  - URLSearchParams serialisation (application/x-www-form-urlencoded serializing,
 *    section 5.2 of the WHATWG URL Standard),
 *  - JavaScript's encodeURIComponent,
 *  - PHP's urlencode.
 * All three encode the UTF-8 bytes of the text and differ only in which bytes they
 * leave alone and in whether a space becomes '+'.
 */
module UrlEncoding {
  import opened Wrappers
  import opened Text

  type Byte = b: int | 0 <= b < 256

  datatype Flavour = FormUrlencoded | UriComponent | PhpUrlencode

  predicate IsAsciiAlnum(b: Byte)
  {
    0x30 <= b <= 0x39 || 0x41 <= b <= 0x5A || 0x61 <= b <= 0x7A
  }

  /** The bytes each flavour copies through unchanged. */
  predicate Unescaped(f: Flavour, b: Byte)
  {
    IsAsciiAlnum(b) ||
    match f
    case FormUrlencoded => b == 0x2A || b == 0x2D || b == 0x2E || b == 0x5F          // * - . _
    case UriComponent => b == 0x21 || b == 0x27 || b == 0x28 || b == 0x29 || b == 0x2A
                         || b == 0x2D || b == 0x2E || b == 0x5F || b == 0x7E        // ! ' ( ) * - . _ ~
    case PhpUrlencode => b == 0x2D || b == 0x2E || b == 0x5F                         // - . _
  }

  /** Whether a space byte is written as '+' (rather than "%20"). */
  predicate SpaceAsPlus(f: Flavour)
  {
    f != UriComponent
  }

  /** UTF-8 encoding of one Unicode scalar value. */
  function Utf8Char(c: char): (bs: seq<Byte>)
    ensures 1 <= |bs| <= 4
    ensures c as int < 0x80 <==> |bs| == 1 && bs[0] < 0x80
    ensures c as int < 0x80 ==> bs == [c as int]
  {
    var n := c as int;
    if n < 0x80 then [n]
    else if n < 0x800 then [0xC0 + n / 0x40, 0x80 + n % 0x40]
    else if n < 0x10000 then [0xE0 + n / 0x1000, 0x80 + (n / 0x40) % 0x40, 0x80 + n % 0x40]
    else [0xF0 + n / 0x40000, 0x80 + (n / 0x1000) % 0x40, 0x80 + (n / 0x40) % 0x40, 0x80 + n % 0x40]
  }

  function Utf8(s: string): seq<Byte>
  {
    if s == [] then [] else Utf8Char(s[0]) + Utf8(s[1..])
  }

  function HexDigit(d: int): (c: char)
    requires 0 <= d < 16
  {
    if d < 10 then ('0' as int + d) as char else ('A' as int + d - 10) as char
  }

  function HexValue(c: char): Option<int>
  {
    if '0' <= c <= '9' then Some(c as int - '0' as int)
    else if 'A' <= c <= 'F' then Some(c as int - 'A' as int + 10)
    else if 'a' <= c <= 'f' then Some(c as int - 'a' as int + 10)
    else None
  }

  lemma HexRoundTrip(d: int)
    requires 0 <= d < 16
    ensures HexValue(HexDigit(d)) == Some(d)
  {
  }

  /** The characters that may appear in any encoder's output. */
  predicate IsEncodedChar(c: char)
  {
    ('0' <= c <= '9') || ('A' <= c <= 'Z') || ('a' <= c <= 'z') ||
    c == '%' || c == '+' || c == '*' || c == '-' || c == '.' || c == '_' ||
    c == '!' || c == '\'' || c == '(' || c == ')' || c == '~'
  }

  function EncodeByte(f: Flavour, b: Byte): (r: string)
    ensures 1 <= |r| <= 3
    ensures forall i :: 0 <= i < |r| ==> IsEncodedChar(r[i])
  {
    if b == 0x20 && SpaceAsPlus(f) then "+"
    else if Unescaped(f, b) then [b as char]
    else ['%', HexDigit(b / 16), HexDigit(b % 16)]
  }

  function EncodeBytes(f: Flavour, bs: seq<Byte>): (r: string)
    ensures forall i :: 0 <= i < |r| ==> IsEncodedChar(r[i])
  {
    if bs == [] then [] else EncodeByte(f, bs[0]) + EncodeBytes(f, bs[1..])
  }

  /** The encoder itself: `URLSearchParams`, `encodeURIComponent` or `urlencode`
      applied to `s`. Its output never holds a separator of a query string. */
  function Encode(f: Flavour, s: string): (r: string)
    ensures forall i :: 0 <= i < |r| ==> r[i] != '&' && r[i] != '=' && r[i] != '?' && r[i] != '#' && r[i] != ' '
  {
    EncodeBytes(f, Utf8(s))
  }

  /** Percent-decoding, the inverse the receiving side applies ('+' means a space for
      the two flavours that write it). None for a malformed escape or a non-ASCII character. */
  function DecodeBytes(f: Flavour, t: string): Option<seq<Byte>>
  {
    if t == [] then Some([])
    else if t[0] == '%' then
      if |t| >= 3 && HexValue(t[1]).Some? && HexValue(t[2]).Some? then
        match DecodeBytes(f, t[3..])
        case Some(rest) => Some([HexValue(t[1]).value * 16 + HexValue(t[2]).value] + rest)
        case None => None
      else None
    else if t[0] == '+' && SpaceAsPlus(f) then
      match DecodeBytes(f, t[1..])
      case Some(rest) => Some([0x20] + rest)
      case None => None
    else if t[0] as int < 0x80 then
      match DecodeBytes(f, t[1..])
      case Some(rest) => Some([t[0] as int] + rest)
      case None => None
    else None
  }

  lemma DecodeAfterByte(f: Flavour, b: Byte, t: string)
    ensures DecodeBytes(f, EncodeByte(f, b) + t) ==
            match DecodeBytes(f, t)
            case Some(rest) => Some([b] + rest)
            case None => None
  {
    var e := EncodeByte(f, b);
    assert (e + t)[1..] == e[1..] + t;
    if b == 0x20 && SpaceAsPlus(f) {
    } else if Unescaped(f, b) {
      assert e[0] != '%' && e[0] != '+';
    } else {
      HexRoundTrip(b / 16);
      HexRoundTrip(b % 16);
      assert (e + t)[3..] == t;
    }
  }

  /** Decoding undoes encoding, byte for byte. */
  lemma {:induction false} DecodeEncodeBytes(f: Flavour, bs: seq<Byte>)
    ensures DecodeBytes(f, EncodeBytes(f, bs)) == Some(bs)
  {
    if bs != [] {
      DecodeEncodeBytes(f, bs[1..]);
      DecodeAfterByte(f, bs[0], EncodeBytes(f, bs[1..]));
      assert [bs[0]] + bs[1..] == bs;
    }
  }

  /** Whatever flavour encoded `s`, decoding gives back exactly its UTF-8 bytes. */
  lemma DecodeEncode(f: Flavour, s: string)
    ensures DecodeBytes(f, Encode(f, s)) == Some(Utf8(s))
  {
    DecodeEncodeBytes(f, Utf8(s));
  }

  /** A string of ASCII letters and digits (such as the hexadecimal stream id the
      POST-SSE proxy generates) is left unchanged by every flavour. */
  lemma {:induction false} EncodeAlnumIsIdentity(f: Flavour, s: string)
    requires forall i :: 0 <= i < |s| ==> ('0' <= s[i] <= '9') || ('a' <= s[i] <= 'z') || ('A' <= s[i] <= 'Z')
    ensures Encode(f, s) == s
  {
    if s != [] {
      EncodeAlnumIsIdentity(f, s[1..]);
      assert Utf8(s) == [s[0] as int] + Utf8(s[1..]);
      assert Utf8(s)[1..] == Utf8(s[1..]);
      assert [s[0]] + s[1..] == s;
    }
  }

  /** `URLSearchParams.toString()`: each name=value pair form-encoded, joined by '&'. */
  function Serialize(pairs: seq<(string, string)>): (r: string)
    ensures forall i :: 0 <= i < |r| ==> r[i] != '?' && r[i] != '#' && r[i] != ' '
  {
    if pairs == [] then ""
    else
      var head := Encode(FormUrlencoded, pairs[0].0) + "=" + Encode(FormUrlencoded, pairs[0].1);
      if |pairs| == 1 then head else head + "&" + Serialize(pairs[1..])
  }

  /** One name=value piece of a query, decoded ('=' absent: the whole piece is the name). */
  function DecodePair(piece: string): Option<(seq<Byte>, seq<Byte>)>
  {
    var parts := match SplitFirst(piece, '=')
                 case Some(p) => p
                 case None => (piece, "");
    match (DecodeBytes(FormUrlencoded, parts.0), DecodeBytes(FormUrlencoded, parts.1))
    case (Some(n), Some(v)) => Some((n, v))
    case _ => None
  }

  /** Reading a query string back into (name, value) byte pairs, skipping empty pieces,
      as the receiving side's form-urlencoded parser does on well-formed input. */
  function DecodeQuery(q: string): Option<seq<(seq<Byte>, seq<Byte>)>>
  {
    DecodePieces(SplitOn(q, '&'))
  }

  function DecodePieces(pieces: seq<string>): Option<seq<(seq<Byte>, seq<Byte>)>>
  {
    if pieces == [] then Some([])
    else if pieces[0] == "" then DecodePieces(pieces[1..])
    else
      match (DecodePair(pieces[0]), DecodePieces(pieces[1..]))
      case (Some(p), Some(rest)) => Some([p] + rest)
      case _ => None
  }

  /** Each (name, value) pair as the UTF-8 bytes of both. */
  function Utf8Pairs(pairs: seq<(string, string)>): (r: seq<(seq<Byte>, seq<Byte>)>)
    ensures |r| == |pairs|
    ensures forall i :: 0 <= i < |pairs| ==> r[i] == (Utf8(pairs[i].0), Utf8(pairs[i].1))
  {
    if pairs == [] then [] else [(Utf8(pairs[0].0), Utf8(pairs[0].1))] + Utf8Pairs(pairs[1..])
  }

  function Pieces(pairs: seq<(string, string)>): seq<string>
  {
    if pairs == [] then []
    else [Encode(FormUrlencoded, pairs[0].0) + "=" + Encode(FormUrlencoded, pairs[0].1)] + Pieces(pairs[1..])
  }

  lemma {:induction false} SplitSerialize(pairs: seq<(string, string)>)
    requires pairs != []
    ensures SplitOn(Serialize(pairs), '&') == Pieces(pairs)
  {
    var head := Encode(FormUrlencoded, pairs[0].0) + "=" + Encode(FormUrlencoded, pairs[0].1);
    assert forall i :: 0 <= i < |head| ==> head[i] != '&';
    if |pairs| == 1 {
      SplitOnNoSep(head, '&');
    } else {
      SplitSerialize(pairs[1..]);
      SplitOnJoin(head, '&', Serialize(pairs[1..]));
    }
  }

  lemma {:induction false} DecodePiecesOfPairs(pairs: seq<(string, string)>)
    ensures DecodePieces(Pieces(pairs)) == Some(Utf8Pairs(pairs))
  {
    if pairs != [] {
      var n := Encode(FormUrlencoded, pairs[0].0);
      var v := Encode(FormUrlencoded, pairs[0].1);
      SplitFirstJoin(n, '=', v);
      assert n + "=" + v == n + ['='] + v;
      DecodeEncode(FormUrlencoded, pairs[0].0);
      DecodeEncode(FormUrlencoded, pairs[0].1);
      DecodePiecesOfPairs(pairs[1..]);
    }
  }

  /** Round trip of a URLSearchParams query: the receiver recovers every pair, in order,
      as the UTF-8 bytes of the original name and value. */
  lemma QueryRoundTrip(pairs: seq<(string, string)>)
    ensures DecodeQuery(Serialize(pairs)) == Some(Utf8Pairs(pairs))
  {
    if pairs == [] {
      assert SplitOn("", '&') == [""];
    } else {
      SplitSerialize(pairs);
      DecodePiecesOfPairs(pairs);
    }
  }
}
