/** The few pieces of Ruby's and Swift's string libraries that the audit's
    decisions depend on, written out character by character. */
module Strings {

  /** Ruby's String#strip whitespace: null, tab, line feed, vertical tab,
      form feed, carriage return and space. */
  predicate IsRubySpace(c: char) {
    c == ' ' || c == '\t' || c == '\n' || c == '\U{B}' || c == '\U{C}' || c == '\r' || c == '\0'
  }

  /** Swift's CharacterSet.whitespacesAndNewlines: the Unicode space
      separators, line and paragraph separators, tab, the line breaks
      U+000A to U+000D and NEXT LINE. */
  predicate IsSwiftWhitespace(c: char) {
    c == '\t' || ('\n' <= c <= '\r') || c == ' ' || c == '\U{85}' || c == '\U{A0}'
    || c == '\U{1680}' || ('\U{2000}' <= c <= '\U{200A}') || c == '\U{2028}' || c == '\U{2029}'
    || c == '\U{202F}' || c == '\U{205F}' || c == '\U{3000}'
  }

  predicate AllRubySpace(s: string) {
    forall i :: 0 <= i < |s| ==> IsRubySpace(s[i])
  }

  function StripLeading(s: string): (r: string)
    ensures |r| <= |s| && r == s[|s| - |r|..]
    ensures r == [] || !IsRubySpace(r[0])
    ensures AllRubySpace(s[..|s| - |r|])
  {
    if s != [] && IsRubySpace(s[0]) then
      var r := StripLeading(s[1..]);
      assert s[..|s| - |r|] == [s[0]] + s[1..][..|s| - 1 - |r|];
      r
    else s
  }

  function StripTrailing(s: string): (r: string)
    ensures |r| <= |s| && r == s[..|r|]
    ensures r == [] || !IsRubySpace(r[|r| - 1])
    ensures AllRubySpace(s[|r|..])
  {
    if s != [] && IsRubySpace(s[|s| - 1]) then
      var r := StripTrailing(s[..|s| - 1]);
      assert s[|r|..] == s[..|s| - 1][|r|..] + [s[|s| - 1]];
      r
    else s
  }

  /** Ruby's String#strip. */
  function Strip(s: string): (r: string)
    ensures r == [] || (!IsRubySpace(r[0]) && !IsRubySpace(r[|r| - 1]))
    ensures r == [] <==> AllRubySpace(s)
  {
    var lead := StripLeading(s);
    var r := StripTrailing(lead);
    assert r == [] ==> s == s[..|s| - |lead|] + lead;
    assert r != [] ==> r[0] == lead[0];
    r
  }

  /** Text with no space at either end is its own strip. */
  lemma StripOfTrimmed(s: string)
    requires s != [] && !IsRubySpace(s[0]) && !IsRubySpace(s[|s| - 1])
    ensures Strip(s) == s
  {
    assert StripLeading(s) == s;
    assert StripTrailing(s) == s;
  }

  /** A leading space makes no difference to the strip. */
  lemma StripSkipsLeadingSpace(c: char, s: string)
    requires IsRubySpace(c)
    ensures Strip([c] + s) == Strip(s)
  {
    assert ([c] + s)[1..] == s;
  }

  function AsciiLower(c: char): char {
    if 'A' <= c <= 'Z' then (c as int + 32) as char else c
  }

  /** Ruby's String#downcase, for the ASCII letters. */
  function Lower(s: string): (r: string)
    ensures |r| == |s|
    ensures forall i :: 0 <= i < |s| ==> r[i] == AsciiLower(s[i])
  {
    seq(|s|, i requires 0 <= i < |s| => AsciiLower(s[i]))
  }

  predicate IsPrefix(p: string, s: string) {
    |p| <= |s| && s[..|p|] == p
  }

  /** Ruby's String#end_with? for one suffix. */
  predicate EndsWith(s: string, suffix: string) {
    |suffix| <= |s| && s[|s| - |suffix|..] == suffix
  }

  /** The needle occurs somewhere in s. */
  predicate Contains(s: string, needle: string)
    decreases |s|
  {
    IsPrefix(needle, s) || (s != [] && Contains(s[1..], needle))
  }

  /** A match of a literal lower-case pattern under the `i` flag. */
  predicate ContainsIgnoringCase(s: string, lowerNeedle: string) {
    Contains(Lower(s), lowerNeedle)
  }

  /** Array#join with a separator. */
  function Join(parts: seq<string>, sep: string): (r: string)
    ensures parts == [] ==> r == []
    ensures |parts| == 1 ==> r == parts[0]
  {
    if parts == [] then []
    else if |parts| == 1 then parts[0]
    else parts[0] + sep + Join(parts[1..], sep)
  }

  /** Splitting at every separator. Ruby's String#split also drops trailing
      empty fields; every caller here discards empty fields anyway. */
  function Split(s: string, sep: char): (r: seq<string>)
    ensures |r| >= 1
    ensures forall i :: 0 <= i < |r| ==> sep !in r[i]
  {
    if s == [] then [[]]
    else
      var rest := Split(s[1..], sep);
      if s[0] == sep then [[]] + rest else [[s[0]] + rest[0]] + rest[1..]
  }

  /** Splitting loses nothing: joining the fields back gives the input. */
  lemma {:induction false} SplitJoin(s: string, sep: char)
    ensures Join(Split(s, sep), [sep]) == s
  {
    if s != [] {
      var rest := Split(s[1..], sep);
      SplitJoin(s[1..], sep);
      if s[0] == sep {
        assert Split(s, sep) == [[]] + rest;
        assert Join([[]] + rest, [sep]) == [] + [sep] + Join(rest, [sep]);
      } else {
        assert Split(s, sep) == [[s[0]] + rest[0]] + rest[1..];
        if |rest| == 1 {
          assert Join(Split(s, sep), [sep]) == [s[0]] + rest[0];
        } else {
          assert Join(rest, [sep]) == rest[0] + [sep] + Join(rest[1..], [sep]);
          assert Join(Split(s, sep), [sep]) == ([s[0]] + rest[0]) + [sep] + Join(rest[1..], [sep]);
        }
      }
    }
  }
}
