/**
 * String.prototype.trim as ECMAScript defines it: strip the WhiteSpace and
 * LineTerminator code points from both ends of a string.
 */
module Text {

  /** WhiteSpace (TAB, VT, FF, ZWNBSP and every Zs code point) and LineTerminator (LF, CR, LS, PS). */
  predicate IsWhitespace(c: char) {
    || c == '\t' || c == '\n' || c == '\r' || c == '\U{000B}' || c == '\U{000C}'
    || c == ' ' || c == '\U{00A0}' || c == '\U{1680}'
    || ('\U{2000}' <= c && c <= '\U{200A}')
    || c == '\U{2028}' || c == '\U{2029}' || c == '\U{202F}' || c == '\U{205F}'
    || c == '\U{3000}' || c == '\U{FEFF}'
  }

  predicate AllWhitespace(s: string) {
    forall i :: 0 <= i < |s| ==> IsWhitespace(s[i])
  }

  /** True when `s` neither starts nor ends with whitespace. */
  predicate Trimmed(s: string) {
    s == [] || (!IsWhitespace(s[0]) && !IsWhitespace(s[|s| - 1]))
  }

  /** The number of whitespace characters `s` starts with: what follows them is not whitespace. */
  function LeadingWhitespace(s: string): (n: nat)
    ensures n <= |s|
    ensures n < |s| ==> !IsWhitespace(s[n])
  {
    if s != [] && IsWhitespace(s[0]) then 1 + LeadingWhitespace(s[1..]) else 0
  }

  /** The number of whitespace characters `s` ends with: what precedes them is not whitespace. */
  function TrailingWhitespace(s: string): (n: nat)
    ensures n <= |s|
    ensures n < |s| ==> !IsWhitespace(s[|s| - n - 1])
  {
    if s != [] && IsWhitespace(s[|s| - 1]) then 1 + TrailingWhitespace(s[..|s| - 1]) else 0
  }

  /** Everything LeadingWhitespace counts is whitespace. */
  lemma {:induction false} LeadingWhitespaceIsWhitespace(s: string)
    ensures forall i :: 0 <= i < LeadingWhitespace(s) ==> IsWhitespace(s[i])
  {
    if s != [] && IsWhitespace(s[0]) {
      LeadingWhitespaceIsWhitespace(s[1..]);
      forall i | 1 <= i < LeadingWhitespace(s) ensures IsWhitespace(s[i]) {
        assert s[i] == s[1..][i - 1];
      }
    }
  }

  /** Everything TrailingWhitespace counts is whitespace. */
  lemma {:induction false} TrailingWhitespaceIsWhitespace(s: string)
    ensures forall i :: |s| - TrailingWhitespace(s) <= i < |s| ==> IsWhitespace(s[i])
  {
    if s != [] && IsWhitespace(s[|s| - 1]) {
      var init := s[..|s| - 1];
      TrailingWhitespaceIsWhitespace(init);
      forall i | |s| - TrailingWhitespace(s) <= i < |s| - 1 ensures IsWhitespace(s[i]) {
        assert s[i] == init[i];
      }
    }
  }

  /**
   * `s.trim()`: the part of `s` between its leading and its trailing
   * whitespace. What is left starts and ends with something else.
   */
  function Trim(s: string): (r: string)
    ensures |r| <= |s|
    ensures Trimmed(r)
  {
    var lead := LeadingWhitespace(s);
    var trail := TrailingWhitespace(s[lead..]);
    s[lead..|s| - trail]
  }

  /** Trimming removes whitespace and nothing else, from the two ends only. */
  lemma TrimRemovesOnlyWhitespace(s: string)
    ensures exists k :: 0 <= k <= |s| - |Trim(s)| && Trim(s) == s[k..k + |Trim(s)|]
                        && AllWhitespace(s[..k]) && AllWhitespace(s[k + |Trim(s)|..])
  {
    var lead := LeadingWhitespace(s);
    var t := s[lead..];
    var trail := TrailingWhitespace(t);
    LeadingWhitespaceIsWhitespace(s);
    TrailingWhitespaceIsWhitespace(t);
    var r := Trim(s);
    assert r == s[lead..lead + |r|];
    forall i | 0 <= i < lead ensures IsWhitespace(s[..lead][i]) {
      assert s[..lead][i] == s[i];
    }
    var tail := s[lead + |r|..];
    forall i | 0 <= i < trail ensures IsWhitespace(tail[i]) {
      assert tail[i] == t[|t| - trail + i];
    }
    assert AllWhitespace(s[..lead]) && AllWhitespace(tail);
  }

  /** A string that neither starts nor ends with whitespace is kept as it is. */
  lemma TrimKeepsTrimmed(s: string)
    requires Trimmed(s)
    ensures Trim(s) == s
  {
  }

  /** Trimming twice is trimming once. */
  lemma TrimIdempotent(s: string)
    ensures Trim(Trim(s)) == Trim(s)
  {
    TrimKeepsTrimmed(Trim(s));
  }

  /** The trimmed string is empty exactly when the input is all whitespace. */
  lemma TrimEmptyIff(s: string)
    ensures Trim(s) == [] <==> AllWhitespace(s)
  {
    var lead := LeadingWhitespace(s);
    if Trim(s) == [] {
      LeadingWhitespaceIsWhitespace(s);
      TrailingWhitespaceIsWhitespace(s[lead..]);
      assert lead == |s|;
      assert s[..lead] == s;
    }
  }
}
