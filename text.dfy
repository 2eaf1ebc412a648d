/**
 * The string operations the services apply to request fields:
 * `replaceAll("[^0-9]", "")`, `String.trim()`, `StringUtils.hasText` and
 * case-insensitive comparison (`equalsIgnoreCase`, the finders' `IgnoreCase`).
 */
module Text {
  import opened Wrappers

  /** The regular-expression class `[0-9]`: ASCII decimal digits only. */
  predicate IsDigit(c: char) {
    '0' <= c <= '9'
  }

  predicate AllDigits(s: string) {
    forall i :: 0 <= i < |s| ==> IsDigit(s[i])
  }

  /** `s.replaceAll("[^0-9]", "")`: the digits of `s`, in order. */
  function OnlyDigits(s: string): (r: string)
    ensures AllDigits(r)
    ensures |r| <= |s|
  {
    if s == [] then []
    else (if IsDigit(s[0]) then [s[0]] else []) + OnlyDigits(s[1..])
  }

  /** Normalising a concatenation normalises each part: the filter keeps the input's order. */
  lemma {:induction false} OnlyDigitsAppend(a: string, b: string)
    ensures OnlyDigits(a + b) == OnlyDigits(a) + OnlyDigits(b)
  {
    if a == [] {
      assert a + b == b;
    } else {
      assert (a + b)[0] == a[0];
      assert (a + b)[1..] == a[1..] + b;
      OnlyDigitsAppend(a[1..], b);
    }
  }

  /** Every digit of the input survives as often as it occurs, and nothing else does. */
  lemma {:induction false} OnlyDigitsCounts(s: string, c: char)
    ensures multiset(OnlyDigits(s))[c] == if IsDigit(c) then multiset(s)[c] else 0
  {
    if s != [] {
      OnlyDigitsCounts(s[1..], c);
      assert s == [s[0]] + s[1..];
    }
  }

  /** The normaliser leaves a string unchanged exactly when it is already all digits. */
  lemma {:induction false} OnlyDigitsFixes(s: string)
    ensures OnlyDigits(s) == s <==> AllDigits(s)
  {
    if s != [] {
      OnlyDigitsFixes(s[1..]);
      if AllDigits(s) {
        assert AllDigits(s[1..]);
        assert s == [s[0]] + s[1..];
      }
    }
  }

  /** Normalising twice is normalising once. */
  lemma OnlyDigitsIdempotent(s: string)
    ensures OnlyDigits(OnlyDigits(s)) == OnlyDigits(s)
  {
    OnlyDigitsFixes(OnlyDigits(s));
  }

  /** A string without digits normalises to the empty string. */
  lemma {:induction false} OnlyDigitsOfNonDigits(s: string)
    requires forall i :: 0 <= i < |s| ==> !IsDigit(s[i])
    ensures OnlyDigits(s) == []
  {
    if s != [] {
      OnlyDigitsOfNonDigits(s[1..]);
    }
  }

  /** Leading characters `<= ' '` removed, as the first half of `String.trim()`. */
  function TrimStart(s: string): string {
    if s != [] && s[0] <= ' ' then TrimStart(s[1..]) else s
  }

  /** Trailing characters `<= ' '` removed, as the second half of `String.trim()`. */
  function TrimEnd(s: string): string {
    if s != [] && s[|s| - 1] <= ' ' then TrimEnd(s[..|s| - 1]) else s
  }

  /** `String.trim()`: every leading and trailing character `<= ' '` removed. */
  function Trim(s: string): string {
    TrimEnd(TrimStart(s))
  }

  /** `TrimStart` drops a prefix of characters `<= ' '` and stops at the first character above it. */
  lemma {:induction false} TrimStartDropsPrefix(s: string)
    ensures |TrimStart(s)| <= |s| && TrimStart(s) == s[|s| - |TrimStart(s)|..]
    ensures TrimStart(s) == [] || TrimStart(s)[0] > ' '
    ensures forall i :: 0 <= i < |s| - |TrimStart(s)| ==> s[i] <= ' '
  {
    if s != [] && s[0] <= ' ' {
      TrimStartDropsPrefix(s[1..]);
    }
  }

  /** `TrimEnd` drops a suffix of characters `<= ' '` and stops at the last character above it. */
  lemma {:induction false} TrimEndDropsSuffix(s: string)
    ensures |TrimEnd(s)| <= |s| && TrimEnd(s) == s[..|TrimEnd(s)|]
    ensures TrimEnd(s) == [] || TrimEnd(s)[|TrimEnd(s)| - 1] > ' '
    ensures forall i :: |TrimEnd(s)| <= i < |s| ==> s[i] <= ' '
  {
    if s != [] && s[|s| - 1] <= ' ' {
      TrimEndDropsSuffix(s[..|s| - 1]);
    }
  }

  /**
   * `String.trim()` keeps a contiguous middle part of its input: what it
   * removes at either end is `<= ' '`, and what it keeps starts and ends
   * above `' '`.
   */
  lemma TrimIsMiddle(s: string)
    ensures exists lo, hi ::
      && 0 <= lo <= hi <= |s| && Trim(s) == s[lo..hi]
      && (forall i :: 0 <= i < lo ==> s[i] <= ' ')
      && (forall i :: hi <= i < |s| ==> s[i] <= ' ')
    ensures Trim(s) == [] || (Trim(s)[0] > ' ' && Trim(s)[|Trim(s)| - 1] > ' ')
  {
    var t := TrimStart(s);
    TrimStartDropsPrefix(s);
    TrimEndDropsSuffix(t);
    var lo := |s| - |t|;
    var hi := lo + |Trim(s)|;
    assert Trim(s) == s[lo..hi];
    forall i | hi <= i < |s|
      ensures s[i] <= ' '
    {
      assert s[i] == t[i - lo];
    }
  }

  /** Trimming before digit-stripping (as the phone path does) changes nothing. */
  lemma TrimKeepsDigits(s: string)
    ensures OnlyDigits(Trim(s)) == OnlyDigits(s)
  {
    TrimStartKeepsDigits(s);
    TrimEndKeepsDigits(TrimStart(s));
  }

  lemma {:induction false} TrimStartKeepsDigits(s: string)
    ensures OnlyDigits(TrimStart(s)) == OnlyDigits(s)
  {
    TrimStartDropsPrefix(s);
    var t := TrimStart(s);
    var head := s[..|s| - |t|];
    assert s == head + t;
    forall i | 0 <= i < |head| ensures !IsDigit(head[i]) {
      assert head[i] == s[i];
    }
    OnlyDigitsOfNonDigits(head);
    OnlyDigitsAppend(head, t);
  }

  lemma {:induction false} TrimEndKeepsDigits(s: string)
    ensures OnlyDigits(TrimEnd(s)) == OnlyDigits(s)
  {
    TrimEndDropsSuffix(s);
    var u := TrimEnd(s);
    var tail := s[|u|..];
    assert s == u + tail;
    forall i | 0 <= i < |tail| ensures !IsDigit(tail[i]) {
      assert tail[i] == s[|u| + i];
    }
    OnlyDigitsOfNonDigits(tail);
    OnlyDigitsAppend(u, tail);
  }

  /** A string of digits has nothing to trim. */
  lemma {:induction false} TrimOfDigits(s: string)
    requires AllDigits(s)
    ensures Trim(s) == s
  {
    if s != [] {
      assert s[0] > ' ';
      assert TrimStart(s) == s;
      assert s[|s| - 1] > ' ';
      assert TrimEnd(s) == s;
    }
  }

  /** `Character.isWhitespace`: Unicode space separators except the no-break ones, and the ASCII controls 9-13 and 28-31. */
  predicate IsWhitespace(c: char) {
    var n := c as int;
    (9 <= n <= 13) || (28 <= n <= 32) || n == 0x1680 || (0x2000 <= n <= 0x2006)
    || (0x2008 <= n <= 0x200A) || n == 0x2028 || n == 0x2029 || n == 0x205F || n == 0x3000
  }

  /** `StringUtils.hasText`: not null and holding a non-whitespace character. */
  predicate HasText(s: Option<string>) {
    s.Some? && exists i :: 0 <= i < |s.value| && !IsWhitespace(s.value[i])
  }

  /**
   * How `Character.isWhitespace` relates to what `trim` removes: ASCII
   * whitespace is all `<= ' '`, the controls below it outside 9-13 and
   * 28-31 count as text, and the no-break spaces count as text.
   */
  lemma WhitespaceAgainstTrim(c: char)
    ensures IsWhitespace(c) && c < '\U{80}' ==> c <= ' '
    ensures c <= ' ' && !IsWhitespace(c) ==> c < '\U{9}' || ('\U{D}' < c < '\U{1C}')
    ensures c == '\U{A0}' || c == '\U{2007}' || c == '\U{202F}' ==> !IsWhitespace(c)
  {
  }

  /** A string of characters `<= ' '` trims away entirely from the front. */
  lemma {:induction false} TrimStartOfBlank(s: string)
    requires forall i :: 0 <= i < |s| ==> s[i] <= ' '
    ensures TrimStart(s) == []
  {
    if s != [] {
      TrimStartOfBlank(s[1..]);
    }
  }

  /**
   * An ASCII string without text trims to nothing; the converse fails: a
   * control character such as U+0001 is text to `hasText` yet `trim` removes it.
   */
  lemma {:induction false} BlankTrimsToEmpty(s: string)
    ensures !HasText(Some(s)) && (forall i :: 0 <= i < |s| ==> s[i] < '\U{80}') ==> Trim(s) == []
    ensures HasText(Some("\U{1}")) && Trim("\U{1}") == []
  {
    if !HasText(Some(s)) && (forall i :: 0 <= i < |s| ==> s[i] < '\U{80}') {
      forall i | 0 <= i < |s|
        ensures s[i] <= ' '
      {
        WhitespaceAgainstTrim(s[i]);
      }
      TrimStartOfBlank(s);
    }
    assert !IsWhitespace("\U{1}"[0]);
    assert TrimStart("\U{1}") == [];
  }

  function LowerChar(c: char): char {
    if 'A' <= c <= 'Z' then (c as int + 32) as char else c
  }

  /**
   * ASCII lower-casing, the case folding this model uses: each upper-case
   * letter becomes its lower-case partner, and nothing else changes.
   */
  function Lower(s: string): (r: string)
    ensures |r| == |s|
    ensures forall i :: 0 <= i < |r| ==> !('A' <= r[i] <= 'Z')
    ensures forall i :: 0 <= i < |s| && 'A' <= s[i] <= 'Z' ==> r[i] == (s[i] as int + 32) as char
    ensures forall i :: 0 <= i < |s| && !('A' <= s[i] <= 'Z') ==> r[i] == s[i]
  {
    seq(|s|, i requires 0 <= i < |s| => LowerChar(s[i]))
  }

  /** `a.equalsIgnoreCase(b)`, and the finders' `IgnoreCase` match. */
  predicate SameIgnoringCase(a: string, b: string) {
    Lower(a) == Lower(b)
  }

  /**
   * Comparing ignoring case is an equivalence, a string matches its own
   * lower-cased form, and lower-casing twice is lower-casing once.
   */
  lemma {:induction false} SameIgnoringCaseEquivalence(a: string, b: string, c: string)
    ensures SameIgnoringCase(a, a)
    ensures SameIgnoringCase(a, b) ==> SameIgnoringCase(b, a)
    ensures SameIgnoringCase(a, b) && SameIgnoringCase(b, c) ==> SameIgnoringCase(a, c)
    ensures Lower(Lower(a)) == Lower(a) && SameIgnoringCase(a, Lower(a))
  {
    assert Lower(Lower(a)) == Lower(a);
  }
}
