/** The two C library string functions the agent relies on: strlen, which
    reads a character buffer up to its first NUL, and strcmp, whose result is
    zero exactly when the two NUL-terminated strings are equal. A C string is
    modelled by the characters of its buffer; only the part before the first
    NUL is its text. */
module CStrings {

  const NUL: char := '\0'

  /** The text of a C string: the longest prefix of the buffer without a NUL. */
  function CStr(s: string): (r: string)
    ensures r <= s
    ensures NUL !in r
    ensures |r| < |s| ==> s[|r|] == NUL
  {
    if s == [] || s[0] == NUL then [] else [s[0]] + CStr(s[1..])
  }

  /** strcmp(a, b) == 0: exact, case-sensitive comparison of the texts. */
  predicate StrEqual(a: string, b: string) {
    CStr(a) == CStr(b)
  }

  /** A buffer without a NUL is its own text. */
  lemma CStrOfText(s: string)
    requires NUL !in s
    ensures CStr(s) == s
  {
  }

  /** On strings without an embedded NUL, strcmp is plain equality. */
  lemma StrEqualOnTexts(a: string, b: string)
    requires NUL !in a && NUL !in b
    ensures StrEqual(a, b) <==> a == b
  {
  }
}
