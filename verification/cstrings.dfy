/** The view a C string comparison has of a string.

    A string may contain the NUL character, but once it is handed over as a
    NUL-terminated character pointer, every C string routine stops reading at
    the first NUL. `CStr` is that view: the longest prefix free of NUL.
 */
module CStrings {

  const NUL: char := '\0'

  /** The characters a NUL-terminated reader sees: everything before the first NUL. */
  function CStr(s: string): (r: string)
    ensures |r| <= |s| && r == s[..|r|]
    ensures NUL !in r
    ensures |r| < |s| ==> s[|r|] == NUL
  {
    if |s| == 0 || s[0] == NUL then []
    else [s[0]] + CStr(s[1..])
  }

  /** A string without NUL is seen whole. */
  lemma {:induction false} CStrOfNulFree(s: string)
    requires NUL !in s
    ensures CStr(s) == s
  {
  }

  /** Whatever follows the first NUL is invisible. */
  lemma {:induction false} CStrIgnoresTail(s: string, tail: string)
    requires NUL !in s
    ensures CStr(s + [NUL] + tail) == s
  {
    var t := s + [NUL] + tail;
    if |s| > 0 {
      assert t[1..] == s[1..] + [NUL] + tail;
      CStrIgnoresTail(s[1..], tail);
      assert s == [s[0]] + s[1..];
    }
  }
}
