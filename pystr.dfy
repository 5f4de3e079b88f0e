/**
 * The few Python `str` operations the configuration code relies on:
 * `strip()` (whitespace as `str.isspace` defines it), `upper()` and
 * `isalnum()`, the last two restricted to ASCII letters and digits.
 */
module PyStr {

  /** The characters for which Python's `str.isspace()` holds; `strip()` removes exactly these. */
  predicate IsSpace(c: char) {
    ('\U{9}' <= c <= '\U{D}') || ('\U{1C}' <= c <= '\U{1F}') || c == ' ' ||
    c == '\U{85}' || c == '\U{A0}' || c == '\U{1680}' || ('\U{2000}' <= c <= '\U{200A}') ||
    c == '\U{2028}' || c == '\U{2029}' || c == '\U{202F}' || c == '\U{205F}' || c == '\U{3000}'
  }

  predicate IsDigit(c: char) { '0' <= c <= '9' }

  predicate IsAsciiUpper(c: char) { 'A' <= c <= 'Z' }

  predicate IsAsciiLower(c: char) { 'a' <= c <= 'z' }

  /** `c.isalnum()` for an ASCII character. */
  predicate IsAlnumChar(c: char) { IsDigit(c) || IsAsciiUpper(c) || IsAsciiLower(c) }

  /** `c.upper()` for one character: ASCII lower-case letters map to upper case. */
  function UpperChar(c: char): (u: char)
    ensures IsAsciiLower(c) ==> IsAsciiUpper(u) && u as int == c as int - 32
    ensures !IsAsciiLower(c) ==> u == c
  {
    if IsAsciiLower(c) then (c as int - 32) as char else c
  }

  /** `s.upper()`. */
  function Upper(s: string): (u: string)
    ensures |u| == |s|
  {
    seq(|s|, i requires 0 <= i < |s| => UpperChar(s[i]))
  }

  /** `s.lstrip()`: what is left after dropping every leading whitespace character. */
  function StripLeft(s: string): string {
    if |s| > 0 && IsSpace(s[0]) then StripLeft(s[1..]) else s
  }

  /** `s.rstrip()`: what is left after dropping every trailing whitespace character. */
  function StripRight(s: string): string {
    if |s| > 0 && IsSpace(s[|s| - 1]) then StripRight(s[..|s| - 1]) else s
  }

  /** `lstrip()` keeps a suffix, drops only whitespace, and leaves none at the front. */
  lemma {:induction false} StripLeftShape(s: string)
    ensures |StripLeft(s)| <= |s| && StripLeft(s) == s[|s| - |StripLeft(s)|..]
    ensures forall k :: 0 <= k < |s| - |StripLeft(s)| ==> IsSpace(s[k])
    ensures StripLeft(s) == [] || !IsSpace(StripLeft(s)[0])
    decreases |s|
  {
    if |s| > 0 && IsSpace(s[0]) {
      StripLeftShape(s[1..]);
    }
  }

  /** `rstrip()` keeps a prefix, drops only whitespace, and leaves none at the end. */
  lemma {:induction false} StripRightShape(s: string)
    ensures |StripRight(s)| <= |s| && StripRight(s) == s[..|StripRight(s)|]
    ensures forall k :: |StripRight(s)| <= k < |s| ==> IsSpace(s[k])
    ensures StripRight(s) == [] || !IsSpace(StripRight(s)[|StripRight(s)| - 1])
    decreases |s|
  {
    if |s| > 0 && IsSpace(s[|s| - 1]) {
      StripRightShape(s[..|s| - 1]);
    }
  }

  /** `s.strip()`. */
  function Strip(s: string): string {
    StripRight(StripLeft(s))
  }

  /** A string that neither starts nor ends with whitespace is its own `strip()`. */
  lemma StripOfTrimmed(s: string)
    requires s == [] || (!IsSpace(s[0]) && !IsSpace(s[|s| - 1]))
    ensures Strip(s) == s
  {
    assert StripLeft(s) == s;
  }

  /** `strip()` leaves nothing to strip: `s.strip().strip() == s.strip()`. */
  lemma StripIdempotent(s: string)
    ensures Strip(Strip(s)) == Strip(s)
  {
    var l := StripLeft(s);
    var r := StripRight(l);
    StripLeftShape(s);
    StripRightShape(l);
    if r != [] {
      assert r[0] == l[0];
      StripOfTrimmed(r);
    }
  }

  /** Surrounding whitespace does not change the result of `strip()`. */
  lemma StripPadded(s: string, before: string, after: string)
    requires forall k :: 0 <= k < |before| ==> IsSpace(before[k])
    requires forall k :: 0 <= k < |after| ==> IsSpace(after[k])
    ensures Strip(before + s + after) == Strip(s)
  {
    StripLeftPadded(s + after, before);
    assert before + s + after == before + (s + after);
    var l := StripLeft(s);
    StripLeftAppendedRec(s, after);
    if l != [] {
      StripRightPadded(l, after);
    }
  }

  lemma {:induction false} StripLeftPadded(s: string, before: string)
    requires forall k :: 0 <= k < |before| ==> IsSpace(before[k])
    ensures StripLeft(before + s) == StripLeft(s)
  {
    if before != [] {
      assert (before + s)[1..] == before[1..] + s;
      StripLeftPadded(s, before[1..]);
    } else {
      assert before + s == s;
    }
  }

  lemma {:induction false} StripLeftAppendedRec(s: string, after: string)
    requires forall k :: 0 <= k < |after| ==> IsSpace(after[k])
    ensures StripLeft(s) != [] ==> StripLeft(s + after) == StripLeft(s) + after
    ensures StripLeft(s) == [] ==> StripLeft(s + after) == []
    decreases |s|
  {
    if s == [] {
      assert s + after == after;
      StripLeftAllSpace(after);
    } else if IsSpace(s[0]) {
      assert (s + after)[1..] == s[1..] + after;
      StripLeftAppendedRec(s[1..], after);
    }
  }

  lemma {:induction false} StripLeftAllSpace(s: string)
    requires forall k :: 0 <= k < |s| ==> IsSpace(s[k])
    ensures StripLeft(s) == []
    decreases |s|
  {
    if s != [] {
      StripLeftAllSpace(s[1..]);
    }
  }

  lemma {:induction false} StripRightPadded(s: string, after: string)
    requires forall k :: 0 <= k < |after| ==> IsSpace(after[k])
    ensures StripRight(s + after) == StripRight(s)
    decreases |after|
  {
    if after != [] {
      var shorter := after[..|after| - 1];
      assert (s + after)[..|s + after| - 1] == s + shorter;
      StripRightPadded(s, shorter);
    } else {
      assert s + after == s;
    }
  }

  /** `upper()` maps whitespace to whitespace and nothing else to whitespace. */
  lemma UpperKeepsSpaces(s: string)
    ensures forall k :: 0 <= k < |s| ==> (IsSpace(Upper(s)[k]) <==> IsSpace(s[k]))
  {
  }

  /** `upper()` is idempotent. */
  lemma UpperIdempotent(s: string)
    ensures Upper(Upper(s)) == Upper(s)
  {
  }

  lemma {:induction false} StripLeftUpper(s: string)
    ensures StripLeft(Upper(s)) == Upper(StripLeft(s))
    decreases |s|
  {
    if |s| > 0 && IsSpace(s[0]) {
      assert Upper(s)[1..] == Upper(s[1..]);
      StripLeftUpper(s[1..]);
    }
  }

  lemma {:induction false} StripRightUpper(s: string)
    ensures StripRight(Upper(s)) == Upper(StripRight(s))
    decreases |s|
  {
    if |s| > 0 && IsSpace(s[|s| - 1]) {
      assert Upper(s)[..|s| - 1] == Upper(s[..|s| - 1]);
      StripRightUpper(s[..|s| - 1]);
    }
  }

  /** `s.upper().strip() == s.strip().upper()`: case mapping never creates or removes whitespace. */
  lemma StripUpperCommute(s: string)
    ensures Strip(Upper(s)) == Upper(Strip(s))
  {
    StripLeftUpper(s);
    StripRightUpper(StripLeft(s));
  }
}
