/** The .NET string operations the core relies on, with their semantics written
    out: null-or-empty and null-or-white-space tests, string.Join, the line
    terminator StringBuilder.AppendLine uses, and an ordinal case-insensitive
    substring test. */
module Text {
  import opened Wrappers

  /** Environment.NewLine, taken to be a line feed: the model fixes the host's
      line terminator. */
  const NewLine: string := "\n"

  /** string.IsNullOrEmpty. */
  predicate IsNullOrEmpty(s: Option<string>) {
    s.None? || s.value == ""
  }

  /** char.IsWhiteSpace: the Unicode space, line and paragraph separators and
      the control characters U+0009 to U+000D and U+0085. */
  predicate IsWhiteSpace(c: char) {
    || ('\U{0009}' <= c <= '\U{000D}')
    || c == '\U{0020}' || c == '\U{0085}' || c == '\U{00A0}' || c == '\U{1680}'
    || ('\U{2000}' <= c <= '\U{200A}')
    || c == '\U{2028}' || c == '\U{2029}' || c == '\U{202F}' || c == '\U{205F}' || c == '\U{3000}'
  }

  /** string.IsNullOrWhiteSpace. */
  predicate IsNullOrWhiteSpace(s: Option<string>) {
    s.None? || forall i :: 0 <= i < |s.value| ==> IsWhiteSpace(s.value[i])
  }

  /** string.Join(separator, values). */
  function Join(separator: string, values: seq<string>): (r: string)
    ensures values == [] ==> r == ""
    ensures |values| == 1 ==> r == values[0]
  {
    if values == [] then ""
    else if |values| == 1 then values[0]
    else values[0] + separator + Join(separator, values[1..])
  }

  /** The upper-case mapping an ordinal case-insensitive comparison applies to
      ASCII: the small letters map to their capitals. Ordinal casing never maps
      a non-ASCII character onto an ASCII one, so every other character is
      taken to map to itself. */
  function FoldUpper(c: char): (u: char)
    ensures 'a' <= c <= 'z' ==> u as int == c as int - 32
    ensures u != c ==> 'a' <= c <= 'z'
    ensures c as int < 128 <==> u as int < 128
  {
    if 'a' <= c <= 'z' then (c as int - 32) as char
    else c
  }

  /** `value` occurs in `text` at index `i`, ignoring case ordinally. */
  ghost predicate MatchesAt(text: string, value: string, i: int)
    requires 0 <= i && i + |value| <= |text|
  {
    forall k :: 0 <= k < |value| ==> FoldUpper(text[i + k]) == FoldUpper(value[k])
  }

  /** `text` begins with `value`, ignoring case ordinally. */
  predicate StartsWithIgnoreCase(text: string, value: string)
    requires |value| <= |text|
  {
    if value == [] then true
    else FoldUpper(text[0]) == FoldUpper(value[0]) && StartsWithIgnoreCase(text[1..], value[1..])
  }

  /** text.Contains(value, StringComparison.OrdinalIgnoreCase). */
  predicate ContainsIgnoreCase(text: string, value: string)
    decreases |text|
  {
    if |text| < |value| then false
    else StartsWithIgnoreCase(text, value) || (text != [] && ContainsIgnoreCase(text[1..], value))
  }

  lemma {:induction false} StartsWithIgnoreCaseIff(text: string, value: string)
    requires |value| <= |text|
    ensures StartsWithIgnoreCase(text, value) <==> MatchesAt(text, value, 0)
  {
    if value != [] {
      StartsWithIgnoreCaseIff(text[1..], value[1..]);
      if MatchesAt(text, value, 0) {
        assert forall k :: 0 <= k < |value| - 1 ==> text[1..][k] == text[k + 1] && value[1..][k] == value[k + 1];
        assert MatchesAt(text[1..], value[1..], 0);
      }
      if StartsWithIgnoreCase(text, value) {
        forall k | 0 <= k < |value|
          ensures FoldUpper(text[k]) == FoldUpper(value[k])
        {
          if k > 0 {
            assert text[k] == text[1..][k - 1] && value[k] == value[1..][k - 1];
          }
        }
      }
    }
  }

  /** The recursive test agrees with its definition: the value occurs at some
      index of the text, character by character up to case. */
  lemma {:induction false} ContainsIgnoreCaseIff(text: string, value: string)
    ensures ContainsIgnoreCase(text, value) <==>
      exists i :: 0 <= i && i + |value| <= |text| && MatchesAt(text, value, i)
    decreases |text|
  {
    if |text| >= |value| {
      StartsWithIgnoreCaseIff(text, value);
      if text != [] {
        ContainsIgnoreCaseIff(text[1..], value);
        if j :| 0 <= j && j + |value| <= |text[1..]| && MatchesAt(text[1..], value, j) {
          forall k | 0 <= k < |value|
            ensures FoldUpper(text[j + 1 + k]) == FoldUpper(value[k])
          {
            assert text[1..][j + k] == text[j + 1 + k];
          }
          assert MatchesAt(text, value, j + 1);
        }
        if i :| 0 <= i && i + |value| <= |text| && MatchesAt(text, value, i) {
          if i > 0 {
            forall k | 0 <= k < |value|
              ensures FoldUpper(text[1..][i - 1 + k]) == FoldUpper(value[k])
            {
              assert text[1..][i - 1 + k] == text[i + k];
            }
            assert MatchesAt(text[1..], value, i - 1);
          }
        }
      } else {
        assert value == [];
        assert MatchesAt(text, value, 0);
      }
    }
  }
}
