/** Laws of `trim` and `parseInt` that relate several of the string operations: what
    `trim` removes and keeps, and what `parseInt` reads from white space, a sign and a
    run of digits. */
module TextLemmas {
  import opened Base
  import opened Text

  /** `trim` keeps the middle of the string: the input is the front `trimStart` removes,
      then the trimmed string, then the back `trimEnd` removes, and both removed parts are
      all white space. */
  lemma TrimMiddle(s: string)
    ensures |Trim(s)| <= |TrimStart(s)|
    ensures s == s[..|s| - |TrimStart(s)|] + Trim(s) + TrimStart(s)[|Trim(s)|..]
    ensures AllSpace(s[..|s| - |TrimStart(s)|])
    ensures AllSpace(TrimStart(s)[|Trim(s)|..])
  {
    var t := TrimStart(s);
    TrimStartSuffix(s);
    TrimEndPrefix(t);
    Rejoin(s, |s| - |t|, t, TrimEnd(t));
    TrimStartRemovesSpace(s);
    TrimEndRemovesSpace(t);
  }

  /** A string is its prefix before `k`, then a prefix `r` of the rest, then what follows `r`. */
  lemma Rejoin(s: string, k: nat, t: string, r: string)
    requires k <= |s| && t == s[k..] && |r| <= |t| && r == t[..|r|]
    ensures s == s[..k] + r + t[|r|..]
  {
    assert t == r + t[|r|..];
    assert s == s[..k] + t;
  }

  /** What `parseInt` reads: a run of digits gives the value of the digits, whatever
      follows the run (white space before the run is skipped, as `ParseIntSkipsSpace`
      states). */
  lemma ParseIntOf(digits: string, rest: string)
    requires digits != [] && AllDigits(digits)
    requires rest == [] || !IsDigit(rest[0])
    ensures ParseInt(digits + rest) == Some(DecimalValue(digits) as int)
  {
    DigitsLead(digits + rest);
    DigitsValueOf(digits, rest);
  }

  /** A '-' negates the value of the digit run that follows it, and leaves NaN when no
      digit follows (white space before the sign is skipped, as `ParseIntSkipsSpace`
      states). */
  lemma ParseIntOfNegative(d: string)
    ensures ParseInt("-" + d) == if DigitsValue(d).None? then None else Some(0 - DigitsValue(d).value)
  {
    var b := "-" + d;
    assert TrimStart(b) == b;
    assert b[1..] == d;
  }

  /** A '+' leaves the value of the digit run that follows it as it is. */
  lemma ParseIntOfPositive(d: string)
    ensures ParseInt("+" + d) == DigitsValue(d)
  {
    var b := "+" + d;
    assert TrimStart(b) == b;
    assert b[1..] == d;
  }

  /** Text that starts with neither white space, a sign nor a digit reads as NaN; after a
      sign, `ParseIntOfNegative` and `ParseIntOfPositive` give NaN when no digit follows. */
  lemma ParseIntNoDigits(s: string)
    requires s == [] || (!IsSpace(s[0]) && !IsDigit(s[0]) && s[0] != '+' && s[0] != '-')
    ensures ParseInt(s) == None
  {
    assert TrimStart(s) == s;
  }

  /** Leading white space does not change what `parseInt` reads. */
  lemma ParseIntSkipsSpace(ws: string, b: string)
    requires AllSpace(ws) && (b == [] || !IsSpace(b[0]))
    ensures ParseInt(ws + b) == ParseInt(b)
  {
    TrimStartSkips(ws, b);
    assert TrimStart(b) == b;
    SameTrimSameInt(ws + b, b);
  }

  /** `parseInt` depends on its argument only through the text left after the leading
      white space. */
  lemma SameTrimSameInt(s: string, t: string)
    requires TrimStart(s) == TrimStart(t)
    ensures ParseInt(s) == ParseInt(t)
  {
  }

}
