/** The ZIP / postal code clean-up that the admin "add rate" action applies:
    .NET's `String.Trim()` followed by a cut to the column width. */
module Text {
  import opened Wrappers

  /** Width of the ZipPostalCode column (ZipPostalCodeMaxLength). */
  const ZipPostalCodeMaxLength: nat := 400

  /** .NET's `Char.IsWhiteSpace`: the Unicode space, line and paragraph
      separators, the controls TAB..CR, NEL and NO-BREAK SPACE. */
  predicate IsWhiteSpace(c: char) {
    || c == ' '
    || ('\t' <= c <= '\r')
    || c == '\U{0085}'
    || c == '\U{00A0}'
    || c == '\U{1680}'
    || ('\U{2000}' <= c <= '\U{200A}')
    || c == '\U{2028}'
    || c == '\U{2029}'
    || c == '\U{202F}'
    || c == '\U{205F}'
    || c == '\U{3000}'
  }

  /** `s` without its leading white space: a suffix of `s`. */
  function TrimStart(s: string): (r: string)
    ensures |r| <= |s| && r == s[|s| - |r|..]
    ensures forall i :: 0 <= i < |s| - |r| ==> IsWhiteSpace(s[i])
    ensures r != [] ==> !IsWhiteSpace(r[0])
  {
    if s != [] && IsWhiteSpace(s[0]) then TrimStart(s[1..]) else s
  }

  /** `s` without its trailing white space: a prefix of `s`. */
  function TrimEnd(s: string): (r: string)
    ensures |r| <= |s| && r == s[..|r|]
    ensures forall i :: |r| <= i < |s| ==> IsWhiteSpace(s[i])
    ensures r != [] ==> !IsWhiteSpace(r[|r| - 1])
  {
    if s != [] && IsWhiteSpace(s[|s| - 1]) then TrimEnd(s[..|s| - 1]) else s
  }

  /** `String.Trim()`: neither end of the result is white space, and what
      was cut from either end was white space. */
  function Trim(s: string): (r: string)
    ensures r != [] ==> !IsWhiteSpace(r[0]) && !IsWhiteSpace(r[|r| - 1])
    ensures exists a: nat {:trigger s[a..]} :: a + |r| <= |s| && r == s[a..a + |r|]
              && (forall i :: 0 <= i < a ==> IsWhiteSpace(s[i]))
              && (forall i :: a + |r| <= i < |s| ==> IsWhiteSpace(s[i]))
  {
    var t := TrimStart(s);
    var r := TrimEnd(t);
    var a := |s| - |t|;
    assert r == s[a..a + |r|];
    r
  }

  /** A string whose ends are not white space is its own trim. */
  lemma {:induction false} TrimOfTrimmed(s: string)
    requires s != [] ==> !IsWhiteSpace(s[0]) && !IsWhiteSpace(s[|s| - 1])
    ensures Trim(s) == s
  {
  }

  /** Trimming twice is trimming once. */
  lemma TrimIdempotent(s: string)
    ensures Trim(Trim(s)) == Trim(s)
  {
    TrimOfTrimmed(Trim(s));
  }

  /** `s.Substring(0, n)` when `s` is longer than `n`, else `s`. */
  function Truncate(s: string, n: nat): (r: string)
    ensures r <= s && |r| == if |s| <= n then |s| else n
    ensures |s| <= n ==> r == s
    ensures |s| > n ==> r == s[..n]
  {
    if |s| > n then s[..n] else s
  }

  /** The ZIP clean-up of the add action: null stays null; otherwise the
      trimmed code cut to ZipPostalCodeMaxLength characters. */
  function NormalizeZip(zip: Option<string>): (r: Option<string>)
    ensures r.None? <==> zip.None?
    ensures r.Some? ==> |r.value| <= ZipPostalCodeMaxLength && r.value <= Trim(zip.value)
    ensures r.Some? && |Trim(zip.value)| <= ZipPostalCodeMaxLength ==> r.value == Trim(zip.value)
    ensures r.Some? && |Trim(zip.value)| > ZipPostalCodeMaxLength ==> r.value == Trim(zip.value)[..ZipPostalCodeMaxLength]
    ensures r.Some? && r.value != [] ==> !IsWhiteSpace(r.value[0])
  {
    match zip
    case None => None
    case Some(s) => Some(Truncate(Trim(s), ZipPostalCodeMaxLength))
  }

  /** A code that was short enough is stored trimmed, so cleaning it again
      changes nothing. */
  lemma NormalizeZipStable(zip: Option<string>)
    requires zip.Some? ==> |Trim(zip.value)| <= ZipPostalCodeMaxLength
    ensures NormalizeZip(NormalizeZip(zip)) == NormalizeZip(zip)
  {
    if zip.Some? {
      TrimIdempotent(zip.value);
    }
  }

  /** Cutting after trimming can leave white space at the end: a code of 399
      letters, a space and a letter is stored ending in that space. */
  lemma TruncationCanEndInWhiteSpace()
    ensures var s := seq(401, i => if i == 399 then ' ' else 'a');
            var r := NormalizeZip(Some(s));
            r.Some? && |r.value| == 400 && IsWhiteSpace(r.value[399])
  {
    var s := seq(401, i => if i == 399 then ' ' else 'a');
    TrimOfTrimmed(s);
  }

  /** The ZIP rule of the update actions: the grid's "*" placeholder is
      stored as null, anything else verbatim, with no trim or cut. */
  function StarToNull(zip: Option<string>): (r: Option<string>)
    ensures zip == Some("*") ==> r.None?
    ensures zip != Some("*") ==> r == zip
  {
    if zip == Some("*") then None else zip
  }
}
