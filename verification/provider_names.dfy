/**
 * The provider-name check of auth.go (isValidProviderName): a provider's name
 * becomes a segment of the auth routes ({base}/{name}/login and so on), so it
 * must survive URL path escaping unchanged and hold no reserved character.
 */
module ProviderNames {
  import opened GoStrings
  import opened NetUrl

  /** The reserved characters of section 2.2 of RFC 3986 (gen-delims and sub-delims). */
  predicate IsReserved(c: char) {
    || c == ':' || c == '/' || c == '?' || c == '#' || c == '[' || c == ']' || c == '@'
    || c == '!' || c == '$' || c == '&' || c == '\'' || c == '(' || c == ')'
    || c == '*' || c == '+' || c == ',' || c == ';' || c == '='
  }

  /** The unreserved characters of section 2.3 of RFC 3986. */
  predicate IsUnreserved(c: char) {
    ('a' <= c <= 'z') || ('A' <= c <= 'Z') || ('0' <= c <= '9') || c == '-' || c == '.' || c == '_' || c == '~'
  }

  /**
   * The regular expression `[:/?#\[\]@!$&'\(\)*+,;=]` matches somewhere in name.
   * A name that matches is not all unreserved.
   */
  predicate HasReserved(name: string): (r: bool)
    ensures r ==> !AllUnreserved(name)
    ensures '/' in name || ':' in name || '@' in name ==> r
  {
    exists i :: 0 <= i < |name| && IsReserved(name[i])
  }

  /**
   * isValidProviderName: the checks in the order the source makes them; the
   * first that fails rejects the name.
   */
  predicate IsValidProviderName(name: string): (r: bool)
    ensures r ==> TrimSpace(name) != [] && name != []
    ensures r ==> '%' !in name && '/' !in name && !HasReserved(name)
    ensures r ==> PathEscape(name) == Utf8(name)
  {
    if TrimSpace(name) == [] then false
    else if PathUnescape(name) != Decoded(Utf8(name)) then false
    else if Utf8(name) != PathEscape(name) then false
    else if HasReserved(name) then false
    else true
  }

  predicate AllUnreserved(name: string) {
    forall i :: 0 <= i < |name| ==> IsUnreserved(name[i])
  }

  /** An ASCII character that escaping keeps and that is not reserved is unreserved. */
  lemma KeptUnreservedChar(c: char)
    requires c as int < 0x80 && !ShouldEscape(c as int) && !IsReserved(c)
    ensures IsUnreserved(c)
  {
  }

  /** A name the checks accept is non-empty and made of unreserved characters only. */
  lemma AcceptedIsUnreserved(name: string)
    requires IsValidProviderName(name)
    ensures name != [] && AllUnreserved(name)
  {
    var b := Utf8(name);
    assert EscapeBytes(b) == b && !HasReserved(name);
    EscapeBytesFixedIff(b);
    assert forall j :: 0 <= j < |b| ==> !ShouldEscape(b[j]);
    Utf8AsciiIff(name);
    Utf8OfAscii(name);
    forall i | 0 <= i < |name| ensures IsUnreserved(name[i]) {
      assert b[i] == name[i] as int;
      KeptUnreservedChar(name[i]);
    }
  }

  /** Unreserved characters are ASCII, none is white space, '%' or reserved, and escaping keeps each. */
  lemma UnreservedChar(c: char)
    requires IsUnreserved(c)
    ensures c as int < 0x80 && !IsSpace(c) && c as int != Percent
    ensures !IsReserved(c) && !ShouldEscape(c as int)
  {
  }

  /** A name of unreserved characters is its own byte string, with nothing to escape and no '%'. */
  lemma UnreservedBytes(name: string)
    requires AllUnreserved(name)
    ensures Utf8(name) == seq(|name|, i requires 0 <= i < |name| => name[i] as int)
    ensures Percent !in Utf8(name)
    ensures forall j :: 0 <= j < |Utf8(name)| ==> !ShouldEscape(Utf8(name)[j])
  {
    forall i | 0 <= i < |name| ensures name[i] as int < 0x80 {
      UnreservedChar(name[i]);
    }
    Utf8OfAscii(name);
    var b := Utf8(name);
    forall j | 0 <= j < |b| ensures b[j] != Percent && !ShouldEscape(b[j]) {
      UnreservedChar(name[j]);
    }
  }

  /** A non-empty name made of unreserved characters passes every check. */
  lemma UnreservedIsAccepted(name: string)
    requires name != [] && AllUnreserved(name)
    ensures IsValidProviderName(name)
  {
    var b := Utf8(name);
    UnreservedBytes(name);
    UnreservedChar(name[0]);
    assert TrimSpace(name) != [];
    assert PathUnescape(name) == Decoded(b);
    assert PathEscape(name) == b;
    assert !HasReserved(name) by {
      forall i | 0 <= i < |name| ensures !IsReserved(name[i]) {
        UnreservedChar(name[i]);
      }
    }
  }

  /**
   * The four checks together accept exactly the non-empty names made of
   * RFC 3986 unreserved characters (letters, digits, '-', '.', '_', '~').
   */
  lemma ValidNameIff(name: string)
    ensures IsValidProviderName(name) <==> name != [] && AllUnreserved(name)
  {
    if IsValidProviderName(name) {
      AcceptedIsUnreserved(name);
    } else if name != [] && AllUnreserved(name) {
      UnreservedIsAccepted(name);
    }
  }
}
