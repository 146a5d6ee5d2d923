/** The Python `str` methods the setters rely on: `strip()`, `upper()`,
    `lower()` and `capitalize()`.

    `strip()` removes exactly the characters Python's `str.isspace()`
    accepts.  Case mapping covers the ASCII letters; every other character
    is left as it is. */
module Text {

  /** Python's whitespace: the characters `str.isspace()` accepts and
      `str.strip()` removes. */
  predicate IsSpace(c: char) {
    var n := c as int;
    (9 <= n <= 13) || (28 <= n <= 32) || n == 0x85 || n == 0xA0 || n == 0x1680
    || (0x2000 <= n <= 0x200A) || n == 0x2028 || n == 0x2029 || n == 0x202F
    || n == 0x205F || n == 0x3000
  }

  predicate AllSpace(s: string) {
    forall i :: 0 <= i < |s| ==> IsSpace(s[i])
  }

  /** `s.lstrip()`: `s` without its leading whitespace. */
  function StripLeft(s: string): string {
    if |s| > 0 && IsSpace(s[0]) then StripLeft(s[1..]) else s
  }

  /** `s.rstrip()`: `s` without its trailing whitespace. */
  function StripRight(s: string): string {
    if |s| > 0 && IsSpace(s[|s| - 1]) then StripRight(s[..|s| - 1]) else s
  }

  /** `lstrip()` keeps a suffix, drops only whitespace, and leaves no
      leading whitespace. */
  lemma {:induction false} StripLeftSpec(s: string)
    ensures |StripLeft(s)| <= |s| && StripLeft(s) == s[|s| - |StripLeft(s)|..]
    ensures AllSpace(s[..|s| - |StripLeft(s)|])
    ensures StripLeft(s) == [] || !IsSpace(StripLeft(s)[0])
  {
    if |s| > 0 && IsSpace(s[0]) {
      StripLeftSpec(s[1..]);
      var r := StripLeft(s[1..]);
      assert s[..|s| - |r|] == [s[0]] + s[1..][..|s| - 1 - |r|];
    }
  }

  /** `rstrip()` keeps a prefix, drops only whitespace, and leaves no
      trailing whitespace. */
  lemma {:induction false} StripRightSpec(s: string)
    ensures |StripRight(s)| <= |s| && StripRight(s) == s[..|StripRight(s)|]
    ensures AllSpace(s[|StripRight(s)|..])
    ensures StripRight(s) == [] || !IsSpace(StripRight(s)[|StripRight(s)| - 1])
  {
    if |s| > 0 && IsSpace(s[|s| - 1]) {
      StripRightSpec(s[..|s| - 1]);
      var r := StripRight(s[..|s| - 1]);
      assert s[|r|..] == s[..|s| - 1][|r|..] + [s[|s| - 1]];
    }
  }

  /** `s` neither starts nor ends with whitespace. */
  predicate Stripped(s: string) {
    s == [] || (!IsSpace(s[0]) && !IsSpace(s[|s| - 1]))
  }

  /** `r` sits at offset `i` of `s` with only whitespace around it. */
  predicate StrippedAt(s: string, r: string, i: nat) {
    i + |r| <= |s| && s[i..i + |r|] == r && AllSpace(s[..i]) && AllSpace(s[i + |r|..])
  }

  /** `s.strip()`: `s` without its leading and trailing whitespace; what
      is left neither starts nor ends with whitespace. */
  function Strip(s: string): (r: string)
    ensures |r| <= |s|
    ensures Stripped(r)
  {
    StripLeftSpec(s);
    StripRightSpec(StripLeft(s));
    StripRight(StripLeft(s))
  }

  /** `strip()` removes whitespace only: the input is the result with
      nothing but whitespace before and after it. */
  lemma StripRemovesOnlyWhitespace(s: string)
    ensures exists i: nat :: StrippedAt(s, Strip(s), i)
  {
    var i := StripOffset(s);
    assert StrippedAt(s, Strip(s), i);
  }

  /** The offset of `strip()`'s result in its input is where `lstrip()`'s
      result begins. */
  lemma StripOffset(s: string) returns (i: nat)
    ensures StrippedAt(s, Strip(s), i)
  {
    StripLeftSpec(s);
    var t := StripLeft(s);
    StripRightSpec(t);
    var r := StripRight(t);
    i := |s| - |t|;
    assert t == s[i..];
    assert s[i..i + |r|] == t[..|r|];
    assert s[i + |r|..] == t[|r|..];
  }

  /** A string that neither starts nor ends with whitespace is exactly the
      strings `strip()` leaves unchanged; in particular stripping twice is
      stripping once. */
  lemma {:induction false} StripFixedPoint(s: string)
    ensures Strip(s) == s <==> Stripped(s)
    ensures Strip(Strip(s)) == Strip(s)
  {
    var r := Strip(s);
    if r != [] {
      assert StripLeft(r) == r;
      assert StripRight(r) == r;
    }
    if s != [] && Stripped(s) {
      assert StripLeft(s) == s;
      assert StripRight(s) == s;
    }
  }

  function UpperChar(c: char): char {
    if 'a' <= c <= 'z' then (c as int - 32) as char else c
  }

  function LowerChar(c: char): char {
    if 'A' <= c <= 'Z' then (c as int + 32) as char else c
  }

  /** `s.upper()` */
  function Upper(s: string): (r: string)
    ensures |r| == |s|
  {
    seq(|s|, i requires 0 <= i < |s| => UpperChar(s[i]))
  }

  /** `s.lower()` */
  function Lower(s: string): (r: string)
    ensures |r| == |s|
  {
    seq(|s|, i requires 0 <= i < |s| => LowerChar(s[i]))
  }

  /** `s.capitalize()`: first character upper case, the rest lower case. */
  function Capitalize(s: string): (r: string)
    ensures |r| == |s|
  {
    if s == [] then [] else [UpperChar(s[0])] + Lower(s[1..])
  }

  /** Upper-casing twice is upper-casing once. */
  lemma UpperIdempotent(s: string)
    ensures Upper(Upper(s)) == Upper(s)
  {
    forall i | 0 <= i < |s|
      ensures Upper(Upper(s))[i] == Upper(s)[i]
    {
      var c := s[i];
      assert Upper(Upper(s))[i] == UpperChar(UpperChar(c));
    }
  }

  /** Two characters that lower-case alike also upper-case alike, and
      the other way round. */
  lemma CaseFold(c: char, d: char)
    ensures UpperChar(c) == UpperChar(d) <==> LowerChar(c) == LowerChar(d)
  {
  }

  /** Comparing `capitalize()` with a word already in capitalized form is
      comparing case-insensitively: it is the same as comparing the
      lower-cased strings. */
  lemma {:induction false} CapitalizeMatches(s: string, w: string)
    requires w != [] && Capitalize(w) == w
    ensures Capitalize(s) == w <==> Lower(s) == Lower(w)
  {
    assert UpperChar(w[0]) == w[0] by {
      assert Capitalize(w)[0] == UpperChar(w[0]);
    }
    var wt := w[1..];
    assert Lower(wt) == wt by {
      assert Capitalize(w)[1..] == Lower(wt);
    }
    if Capitalize(s) == w {
      assert s != [];
      assert UpperChar(s[0]) == UpperChar(w[0]) by {
        assert Capitalize(s)[0] == UpperChar(s[0]);
      }
      CaseFold(s[0], w[0]);
      assert Lower(s[1..]) == Lower(wt) by {
        assert Capitalize(s)[1..] == Lower(s[1..]);
      }
      forall i | 0 <= i < |s|
        ensures Lower(s)[i] == Lower(w)[i]
      {
        if i > 0 {
          assert Lower(s)[i] == Lower(s[1..])[i - 1];
          assert Lower(w)[i] == Lower(wt)[i - 1];
        }
      }
    }
    if Lower(s) == Lower(w) {
      assert |s| == |w|;
      assert LowerChar(s[0]) == LowerChar(w[0]) by {
        assert Lower(s)[0] == Lower(w)[0];
      }
      CaseFold(s[0], w[0]);
      assert Lower(s[1..]) == Lower(wt) by {
        forall i | 0 <= i < |s| - 1
          ensures Lower(s[1..])[i] == Lower(wt)[i]
        {
          assert Lower(s)[i + 1] == Lower(w)[i + 1];
        }
      }
      assert Capitalize(s) == [UpperChar(s[0])] + Lower(s[1..]);
      assert Capitalize(w) == [UpperChar(w[0])] + Lower(wt);
    }
  }
}
