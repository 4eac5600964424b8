/**
 * Go's net/url path-segment escaping (url.PathEscape, url.PathUnescape), which
 * auth.go uses to reject provider names that would not survive as a URL path
 * segment. Go strings are byte sequences; a Dafny string is turned into those
 * bytes by UTF-8 encoding.
 */
module NetUrl {

  type byte = x: int | 0 <= x < 256

  const Percent: byte := 0x25

  /** UTF-8 encoding of one Unicode scalar value. */
  function EncodeRune(c: char): (r: seq<byte>)
    ensures 1 <= |r| <= 4
    ensures c as int < 0x80 ==> r == [c as int]
    ensures c as int >= 0x80 ==> forall i :: 0 <= i < |r| ==> r[i] >= 0x80
  {
    var n := c as int;
    if n < 0x80 then [n]
    else if n < 0x800 then [0xC0 + n / 0x40, 0x80 + n % 0x40]
    else if n < 0x10000 then [0xE0 + n / 0x1000, 0x80 + (n / 0x40) % 0x40, 0x80 + n % 0x40]
    else [0xF0 + n / 0x40000, 0x80 + (n / 0x1000) % 0x40, 0x80 + (n / 0x40) % 0x40, 0x80 + n % 0x40]
  }

  /** The bytes of a Go string holding the runes of s. */
  function Utf8(s: string): seq<byte> {
    if s == [] then [] else EncodeRune(s[0]) + Utf8(s[1..])
  }

  predicate IsAscii(s: string) {
    forall i :: 0 <= i < |s| ==> s[i] as int < 0x80
  }

  /** A string of ASCII runes is its own byte string. */
  lemma {:induction false} Utf8OfAscii(s: string)
    requires IsAscii(s)
    ensures |Utf8(s)| == |s|
    ensures forall i :: 0 <= i < |s| ==> Utf8(s)[i] == s[i] as int
  {
    if s != [] {
      Utf8OfAscii(s[1..]);
    }
  }

  /** The byte string has only bytes below 0x80 exactly when every rune is ASCII. */
  lemma {:induction false} Utf8AsciiIff(s: string)
    ensures (forall j :: 0 <= j < |Utf8(s)| ==> Utf8(s)[j] < 0x80) <==> IsAscii(s)
  {
    if s != [] {
      Utf8AsciiIff(s[1..]);
      var e := EncodeRune(s[0]);
      assert Utf8(s) == e + Utf8(s[1..]);
      if s[0] as int >= 0x80 {
        assert Utf8(s)[0] == e[0];
      } else if IsAscii(s) {
        assert IsAscii(s[1..]) by {
          forall i | 0 <= i < |s| - 1 ensures s[1..][i] as int < 0x80 {
            assert s[1..][i] == s[i + 1];
          }
        }
      } else {
        var k :| 0 <= k < |s| && s[k] as int >= 0x80;
        assert s[1..][k - 1] == s[k];
        var j :| 0 <= j < |Utf8(s[1..])| && Utf8(s[1..])[j] >= 0x80;
        assert Utf8(s)[|e| + j] == Utf8(s[1..])[j];
      }
    }
  }

  predicate IsAsciiAlnum(c: byte) {
    ('a' as int <= c <= 'z' as int) || ('A' as int <= c <= 'Z' as int) || ('0' as int <= c <= '9' as int)
  }

  /**
   * Go's shouldEscape(c, encodePathSegment): unreserved bytes stay, of the
   * reserved ones only '/', ';', ',' and '?' are escaped, everything else is.
   */
  predicate ShouldEscape(c: byte): (r: bool)
    ensures !r ==> c < 0x80
    ensures c == Percent || c == '/' as int || c == '?' as int ==> r
  {
    if IsAsciiAlnum(c) then false
    else if c == '-' as int || c == '_' as int || c == '.' as int || c == '~' as int then false
    else if c == '$' as int || c == '&' as int || c == '+' as int || c == ',' as int || c == '/' as int
         || c == ':' as int || c == ';' as int || c == '=' as int || c == '?' as int || c == '@' as int
    then c == '/' as int || c == ';' as int || c == ',' as int || c == '?' as int
    else true
  }

  function HexDigit(d: int): byte
    requires 0 <= d < 16
  {
    "0123456789ABCDEF"[d] as int
  }

  function EscapeByte(c: byte): seq<byte> {
    if ShouldEscape(c) then [Percent, HexDigit(c / 16), HexDigit(c % 16)] else [c]
  }

  /**
   * Go's escape(s, encodePathSegment) on bytes. It never shortens its input and
   * leaves a byte string unchanged when no byte needs escaping.
   */
  function EscapeBytes(b: seq<byte>): (r: seq<byte>)
    ensures |r| >= |b|
    ensures (forall i :: 0 <= i < |b| ==> !ShouldEscape(b[i])) ==> r == b
  {
    if b == [] then [] else EscapeByte(b[0]) + EscapeBytes(b[1..])
  }

  /** Escaping is the identity exactly on byte strings with nothing to escape. */
  lemma {:induction false} EscapeBytesFixedIff(b: seq<byte>)
    ensures EscapeBytes(b) == b <==> forall i :: 0 <= i < |b| ==> !ShouldEscape(b[i])
  {
    if b != [] && EscapeBytes(b) == b {
      assert !ShouldEscape(b[0]);
      assert EscapeBytes(b)[1..] == EscapeBytes(b[1..]);
      EscapeBytesFixedIff(b[1..]);
      forall i | 0 <= i < |b| ensures !ShouldEscape(b[i]) {
        if i > 0 {
          assert b[i] == b[1..][i - 1];
        }
      }
    }
  }

  /** Go's url.PathEscape(s): the UTF-8 bytes of s, unchanged exactly when none needs escaping. */
  function PathEscape(s: string): (r: seq<byte>)
    ensures r == Utf8(s) <==> forall i :: 0 <= i < |Utf8(s)| ==> !ShouldEscape(Utf8(s)[i])
  {
    EscapeBytesFixedIff(Utf8(s));
    EscapeBytes(Utf8(s))
  }

  predicate IsHex(c: byte) {
    ('0' as int <= c <= '9' as int) || ('a' as int <= c <= 'f' as int) || ('A' as int <= c <= 'F' as int)
  }

  function Unhex(c: byte): (d: int)
    requires IsHex(c)
    ensures 0 <= d < 16
  {
    if c <= '9' as int then c - '0' as int
    else if c <= 'F' as int then c - 'A' as int + 10
    else c - 'a' as int + 10
  }

  /** What url.PathUnescape returns: the decoded bytes, or an EscapeError naming the bad escape. */
  datatype Unescaped = Decoded(bytes: seq<byte>) | EscapeError(snippet: seq<byte>)

  /**
   * Go's unescape(s, encodePathSegment): "%XX" becomes the byte 0xXX, a '%' not
   * followed by two hex digits is an error quoting at most three bytes from it,
   * and every other byte (including '+') is kept. The input comes back unchanged
   * exactly when it holds no '%'.
   */
  function UnescapeBytes(b: seq<byte>): (r: Unescaped)
    ensures r.Decoded? ==> |r.bytes| <= |b|
    ensures r.Decoded? && Percent in b ==> |r.bytes| < |b|
    ensures r == Decoded(b) <==> Percent !in b
  {
    if b == [] then Decoded([])
    else if b[0] == Percent then
      if |b| < 3 || !IsHex(b[1]) || !IsHex(b[2]) then EscapeError(b[..if |b| < 3 then |b| else 3])
      else
        match UnescapeBytes(b[3..])
        case Decoded(rest) => Decoded([Unhex(b[1]) * 16 + Unhex(b[2])] + rest)
        case EscapeError(e) => EscapeError(e)
    else
      assert b == [b[0]] + b[1..];
      match UnescapeBytes(b[1..])
      case Decoded(rest) => Decoded([b[0]] + rest)
      case EscapeError(e) => EscapeError(e)
  }

  /** The byte '%' occurs in a string's UTF-8 encoding exactly where the rune '%' does. */
  lemma {:induction false} PercentInUtf8(s: string)
    ensures Percent in Utf8(s) <==> '%' in s
  {
    if s != [] {
      PercentInUtf8(s[1..]);
      assert s == [s[0]] + s[1..];
      assert Percent in EncodeRune(s[0]) <==> s[0] == '%';
    }
  }

  /** Go's url.PathUnescape(s): it gives back the bytes of s exactly when s holds no '%'. */
  function PathUnescape(s: string): (r: Unescaped)
    ensures r == Decoded(Utf8(s)) <==> '%' !in s
  {
    PercentInUtf8(s);
    UnescapeBytes(Utf8(s))
  }
}
