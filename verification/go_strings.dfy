/**
 * The parts of Go's `strings` and `unicode` packages that auth.go relies on:
 * TrimSpace, ToLower (as far as a comparison with ASCII names can tell) and Split.
 */
module GoStrings {

  /**
   * Go's unicode.IsSpace: the Unicode White_Space property. Among ASCII runes
   * it holds of exactly '\t', '\n', '\v', '\f', '\r' and ' '.
   */
  predicate IsSpace(c: char): (r: bool)
    ensures c as int < 0x80 ==> (r <==> c == ' ' || '\t' <= c <= '\r')
    ensures r ==> !('0' <= c <= '9') && !('A' <= c <= 'Z') && !('a' <= c <= 'z')
  {
    || ('\t' <= c <= '\r') || c == ' '
    || c == '\U{0085}' || c == '\U{00A0}' || c == '\U{1680}'
    || ('\U{2000}' <= c <= '\U{200A}')
    || c == '\U{2028}' || c == '\U{2029}' || c == '\U{202F}' || c == '\U{205F}' || c == '\U{3000}'
  }

  /** Strips leading white space: what is removed is all white space, what is kept is a suffix. */
  function TrimLeftSpace(s: string): (r: string)
    ensures |r| <= |s| && r == s[|s| - |r|..]
    ensures r == [] || !IsSpace(r[0])
    ensures forall i :: 0 <= i < |s| - |r| ==> IsSpace(s[i])
  {
    if s != [] && IsSpace(s[0]) then TrimLeftSpace(s[1..]) else s
  }

  /** Strips trailing white space: what is removed is all white space, what is kept is a prefix. */
  function TrimRightSpace(s: string): (r: string)
    ensures |r| <= |s| && r == s[..|r|]
    ensures r == [] || !IsSpace(r[|r| - 1])
    ensures forall i :: |r| <= i < |s| ==> IsSpace(s[i])
  {
    if s != [] && IsSpace(s[|s| - 1]) then TrimRightSpace(s[..|s| - 1]) else s
  }

  /** Go's strings.TrimSpace; it is empty exactly when every rune is white space. */
  function TrimSpace(s: string): (r: string)
    ensures r == [] <==> forall i :: 0 <= i < |s| ==> IsSpace(s[i])
  {
    TrimRightSpace(TrimLeftSpace(s))
  }

  /**
   * Go's unicode.ToLower for every rune whose lower case is ASCII: A-Z, U+0130
   * (capital I with dot above, lower-cased to 'i') and U+212A (Kelvin sign,
   * lower-cased to 'k'). Every other rune is left as it is; Go maps none of
   * them to an ASCII rune, so comparisons with an ASCII string come out the same.
   */
  function ToLowerRune(c: char): (r: char)
    ensures 'A' <= c <= 'Z' ==> r as int == c as int + 32
    ensures c == '\U{0130}' ==> r == 'i'
    ensures c == '\U{212A}' ==> r == 'k'
    ensures !('A' <= c <= 'Z') && c != '\U{0130}' && c != '\U{212A}' ==> r == c
    ensures 'a' <= r <= 'z' <==>
      ('a' <= c <= 'z') || ('A' <= c <= 'Z') || c == '\U{0130}' || c == '\U{212A}'
    ensures 'a' <= r <= 'z' ==>
      c == r || c as int == r as int - 32 || (c == '\U{0130}' && r == 'i') || (c == '\U{212A}' && r == 'k')
  {
    if 'A' <= c <= 'Z' then (c as int + 32) as char
    else if c == '\U{0130}' then 'i'
    else if c == '\U{212A}' then 'k'
    else c
  }

  /** Go's strings.ToLower, rune by rune (see ToLowerRune). */
  function ToLower(s: string): (r: string)
    ensures |r| == |s|
    ensures forall i :: 0 <= i < |s| ==> r[i] == ToLowerRune(s[i])
  {
    if s == [] then [] else [ToLowerRune(s[0])] + ToLower(s[1..])
  }

  /** A string with no ASCII upper-case letter and no U+0130 or U+212A. */
  predicate IsLowered(s: string) {
    forall i :: 0 <= i < |s| ==> !('A' <= s[i] <= 'Z') && s[i] != '\U{0130}' && s[i] != '\U{212A}'
  }

  /** Lower-casing is the identity on strings that are already lower case. */
  lemma ToLowerOfLowered(s: string)
    requires IsLowered(s)
    ensures ToLower(s) == s
  {
  }

  /**
   * Go's strings.Split(s, sep) for a one-rune separator: the pieces between
   * separators, so n separators give n + 1 pieces and "" gives [""].
   */
  function Split(s: string, sep: char): (r: seq<string>)
    ensures |r| >= 1
    ensures forall i :: 0 <= i < |r| ==> sep !in r[i]
    ensures |r| >= 2 <==> sep in s
  {
    if s == [] then [""]
    else
      var rest := Split(s[1..], sep);
      if s[0] == sep then [""] + rest
      else [[s[0]] + rest[0]] + rest[1..]
  }

  /** Go's strings.Join(parts, sep) for a one-rune separator. */
  function Join(parts: seq<string>, sep: char): string
    requires |parts| >= 1
  {
    if |parts| == 1 then parts[0] else parts[0] + [sep] + Join(parts[1..], sep)
  }

  /** Joining the pieces of a split gives back the string. */
  lemma {:induction false} JoinOfSplit(s: string, sep: char)
    ensures Join(Split(s, sep), sep) == s
  {
    if s != [] {
      var rest := Split(s[1..], sep);
      JoinOfSplit(s[1..], sep);
      if s[0] == sep {
        assert Split(s, sep)[1..] == rest;
        assert s == [sep] + s[1..];
      } else if |rest| == 1 {
        assert s == [s[0]] + s[1..];
      } else {
        var r := Split(s, sep);
        assert r[1..] == rest[1..];
        assert Join(rest, sep) == rest[0] + [sep] + Join(rest[1..], sep);
        assert s == [s[0]] + s[1..];
      }
    }
  }

  /** A piece without the separator is split into itself. */
  lemma {:induction false} SplitOfPiece(a: string, sep: char)
    requires sep !in a
    ensures Split(a, sep) == [a]
  {
    if a != [] {
      SplitOfPiece(a[1..], sep);
      assert a == [a[0]] + a[1..];
    }
  }

  /** A separator after a piece without one splits the piece off. */
  lemma {:induction false} SplitAfterPiece(a: string, sep: char, b: string)
    requires sep !in a
    ensures Split(a + [sep] + b, sep) == [a] + Split(b, sep)
  {
    var x := a + [sep] + b;
    if a == [] {
      assert x[1..] == b;
    } else {
      assert x[1..] == a[1..] + [sep] + b;
      SplitAfterPiece(a[1..], sep, b);
      assert a == [a[0]] + a[1..];
    }
  }

  /** Splitting a join of separator-free pieces gives back the pieces. */
  lemma {:induction false} SplitOfJoin(parts: seq<string>, sep: char)
    requires |parts| >= 1
    requires forall i :: 0 <= i < |parts| ==> sep !in parts[i]
    ensures Split(Join(parts, sep), sep) == parts
  {
    if |parts| == 1 {
      SplitOfPiece(parts[0], sep);
    } else {
      SplitOfJoin(parts[1..], sep);
      SplitAfterPiece(parts[0], sep, Join(parts[1..], sep));
      assert parts == [parts[0]] + parts[1..];
    }
  }
}
