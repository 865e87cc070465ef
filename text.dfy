/** The parts of java.lang.String that the locale helper relies on. */
module JavaText {

  /** String.trim() removes every leading character whose code point is at most U+0020. */
  function TrimStart(s: string): (r: string)
    ensures |r| <= |s| && r == s[|s| - |r|..]
    ensures forall j :: 0 <= j < |s| - |r| ==> s[j] <= ' '
    ensures |r| > 0 ==> r[0] > ' '
  {
    if |s| > 0 && s[0] <= ' ' then TrimStart(s[1..]) else s
  }

  /** ... and every trailing one. */
  function TrimEnd(s: string): (r: string)
    ensures |r| <= |s| && r == s[..|r|]
    ensures forall j :: |r| <= j < |s| ==> s[j] <= ' '
    ensures |r| > 0 ==> r[|r| - 1] > ' '
  {
    if |s| > 0 && s[|s| - 1] <= ' ' then TrimEnd(s[..|s| - 1]) else s
  }

  /** `s[a..b]` is what remains of `s` after dropping only characters at most U+0020 on either side. */
  predicate TrimmedInfix(s: string, a: int, b: int) {
    0 <= a <= b <= |s| &&
    (forall j :: 0 <= j < a ==> s[j] <= ' ') &&
    (forall j :: b <= j < |s| ==> s[j] <= ' ')
  }

  /** String.trim(): the longest infix that neither starts nor ends with a control or space character. */
  function Trim(s: string): (r: string)
    ensures |r| <= |s|
    ensures exists a, b :: TrimmedInfix(s, a, b) && r == s[a..b]
    ensures |r| > 0 ==> r[0] > ' ' && r[|r| - 1] > ' '
    ensures |r| == 0 <==> forall i :: 0 <= i < |s| ==> s[i] <= ' '
  {
    InfixBetweenBlanks(s, TrimStart(s), TrimEnd(TrimStart(s)));
    TrimEnd(TrimStart(s))
  }

  /**
   * A suffix `t` of `s` after blanks, cut down to a prefix `e` before
   * blanks, is an infix of `s` with blanks on both sides.
   */
  lemma InfixBetweenBlanks(s: string, t: string, e: string)
    requires |t| <= |s| && t == s[|s| - |t|..]
    requires forall j :: 0 <= j < |s| - |t| ==> s[j] <= ' '
    requires |e| <= |t| && e == t[..|e|]
    requires forall j :: |e| <= j < |t| ==> t[j] <= ' '
    ensures TrimmedInfix(s, |s| - |t|, |s| - |t| + |e|)
    ensures e == s[|s| - |t|..|s| - |t| + |e|]
  {
    var a := |s| - |t|;
    forall j | a + |e| <= j < |s|
      ensures s[j] <= ' '
    {
      assert s[j] == t[j - a];
    }
  }

  /** `s.trim().isEmpty()` */
  predicate IsBlank(s: string)
    ensures IsBlank(s) <==> forall i :: 0 <= i < |s| ==> s[i] <= ' '
  {
    |Trim(s)| == 0
  }

  /** String.indexOf(char): the first position of `c`, or -1 when `c` does not occur. */
  function IndexOf(s: string, c: char): (r: int)
    ensures -1 <= r < |s|
    ensures r == -1 <==> c !in s
    ensures 0 <= r ==> s[r] == c && forall j :: 0 <= j < r ==> s[j] != c
  {
    if |s| == 0 then -1
    else if s[0] == c then 0
    else
      var i := IndexOf(s[1..], c);
      if i == -1 then -1
      else i + 1
  }
}
