/**
 * Character and string primitives that the Python code gets from `str`:
 * `lower()`, `strip()`, the `in` substring test, `"sep".join(...)`, and the
 * word characters that the regular-expression assertion `\b` looks at.
 */
module Text {

  /** ASCII lower-casing of one character. */
  function LowerChar(c: char): char {
    if 'A' <= c <= 'Z' then (c as int + 32) as char else c
  }

  /** `s.lower()`, restricted to ASCII case mapping. */
  function Lower(s: string): (r: string)
    ensures |r| == |s|
    ensures forall i :: 0 <= i < |s| ==> r[i] == LowerChar(s[i])
  {
    seq(|s|, i requires 0 <= i < |s| => LowerChar(s[i]))
  }

  lemma LowerAppend(a: string, b: string)
    ensures Lower(a + b) == Lower(a) + Lower(b)
  {
    assert forall i :: 0 <= i < |a + b| ==> Lower(a + b)[i] == (Lower(a) + Lower(b))[i];
  }

  lemma LowerIdempotent(s: string)
    ensures Lower(Lower(s)) == Lower(s)
  {
    assert forall i :: 0 <= i < |s| ==> Lower(Lower(s))[i] == Lower(s)[i];
  }

  lemma LowerSlice(s: string, i: nat, j: nat)
    requires i <= j <= |s|
    ensures Lower(s[i..j]) == Lower(s)[i..j]
  {
  }

  /** A word character of `\w` in an ASCII reading: letters, digits and underscore. */
  predicate IsWordChar(c: char) {
    ('a' <= c <= 'z') || ('A' <= c <= 'Z') || ('0' <= c <= '9') || c == '_'
  }

  /**
   * The characters for which Python's `str.isspace()` holds, so the ones
   * `str.strip()` removes: the ASCII separators and the Unicode space characters.
   */
  predicate IsSpace(c: char) {
    || c == ' ' || ('\t' <= c <= '\r') || ('\U{1c}' <= c <= '\U{1f}')
    || c == '\U{85}' || c == '\U{a0}' || c == '\U{1680}'
    || ('\U{2000}' <= c <= '\U{200a}') || c == '\U{2028}' || c == '\U{2029}'
    || c == '\U{202f}' || c == '\U{205f}' || c == '\U{3000}'
  }

  /** Every character of `s` is white space (vacuously so for the empty string). */
  predicate Blank(s: string) {
    forall i :: 0 <= i < |s| ==> IsSpace(s[i])
  }

  /** `s.lstrip()`: the leading white space removed. */
  function TrimStart(s: string): (r: string)
    ensures |r| <= |s| && r == s[|s| - |r|..]
    ensures Blank(s[..|s| - |r|])
    ensures |r| > 0 ==> !IsSpace(r[0])
  {
    if |s| > 0 && IsSpace(s[0]) then
      var r := TrimStart(s[1..]);
      assert Blank(s[..|s| - |r|]) by {
        forall i | 1 <= i < |s| - |r| ensures IsSpace(s[i]) {
          assert s[i] == s[1..][..|s| - 1 - |r|][i - 1];
        }
      }
      r
    else s
  }

  /** `s.rstrip()`: the trailing white space removed. */
  function TrimEnd(s: string): (r: string)
    ensures |r| <= |s| && r == s[..|r|]
    ensures Blank(s[|r|..])
    ensures |r| > 0 ==> !IsSpace(r[|r| - 1])
  {
    if |s| > 0 && IsSpace(s[|s| - 1]) then
      var r := TrimEnd(s[..|s| - 1]);
      assert forall i :: 0 <= i < |s| - 1 - |r| ==> s[|r|..][i] == s[..|s| - 1][|r|..][i];
      r
    else s
  }

  /** `s.strip()`. */
  function Strip(s: string): string {
    TrimEnd(TrimStart(s))
  }

  /** Stripping leaves nothing exactly when the string is all white space. */
  lemma StripEmptyIffBlank(s: string)
    ensures |Strip(s)| == 0 <==> Blank(s)
  {
    var t := TrimStart(s);
    if |Strip(s)| == 0 {
      assert Blank(t[0..]);
      assert s == s[..|s| - |t|] + t;
    }
  }

  /** `needle` occurs in `hay` starting at index `i`. */
  predicate OccursAt(needle: string, hay: string, i: nat) {
    i + |needle| <= |hay| && hay[i..i + |needle|] == needle
  }

  /** Python's `needle in hay` for strings. */
  ghost predicate IsInfix(needle: string, hay: string) {
    exists i: nat :: OccursAt(needle, hay, i)
  }

  /** Left-to-right scan for `needle` in `hay` from index `from` onwards. */
  function ContainsFrom(hay: string, needle: string, from: nat): (r: bool)
    requires from <= |hay|
    ensures r <==> exists i: nat :: from <= i && OccursAt(needle, hay, i)
    decreases |hay| - from
  {
    if from + |needle| > |hay| then false
    else if hay[from..from + |needle|] == needle then assert OccursAt(needle, hay, from); true
    else ContainsFrom(hay, needle, from + 1)
  }

  /** The executable substring test. */
  function Contains(hay: string, needle: string): (r: bool)
    ensures r <==> IsInfix(needle, hay)
  {
    ContainsFrom(hay, needle, 0)
  }

  lemma InfixOfLonger(needle: string, a: string, b: string)
    requires IsInfix(needle, a)
    ensures IsInfix(needle, a + b) && IsInfix(needle, b + a)
  {
    var i: nat :| OccursAt(needle, a, i);
    assert (a + b)[i..i + |needle|] == a[i..i + |needle|];
    assert OccursAt(needle, a + b, i);
    assert (b + a)[|b| + i..|b| + i + |needle|] == a[i..i + |needle|];
    assert OccursAt(needle, b + a, |b| + i);
  }

  /** A string occurs in any text made by writing something before and after it. */
  lemma InfixOfMiddle(needle: string, a: string, b: string)
    ensures IsInfix(needle, a + needle + b)
  {
    assert (a + needle + b)[|a|..|a| + |needle|] == needle;
    assert OccursAt(needle, a + needle + b, |a|);
  }

  /** A text cut around an occurrence of `needle`. */
  lemma SplitAtOccurrence(needle: string, text: string, j: nat)
    requires OccursAt(needle, text, j)
    ensures text == text[..j] + needle + text[j + |needle|..]
  {
    assert text == text[..j] + text[j..j + |needle|] + text[j + |needle|..];
  }

  /** `sep.join(parts)`. */
  function Join(parts: seq<string>, sep: string): string {
    if |parts| == 0 then ""
    else if |parts| == 1 then parts[0]
    else parts[0] + sep + Join(parts[1..], sep)
  }

  /** Every part of a join stands, whole, somewhere in the joined string. */
  lemma {:induction false} JoinHasPart(parts: seq<string>, sep: string, k: nat)
    requires k < |parts|
    ensures exists a: string, b: string :: Join(parts, sep) == a + parts[k] + b
  {
    if |parts| == 1 {
      assert Join(parts, sep) == "" + parts[k] + "";
    } else if k == 0 {
      assert Join(parts, sep) == "" + parts[0] + (sep + Join(parts[1..], sep));
    } else {
      JoinHasPart(parts[1..], sep, k - 1);
      var a: string, b: string :| Join(parts[1..], sep) == a + parts[1..][k - 1] + b;
      assert Join(parts, sep) == (parts[0] + sep + a) + parts[k] + b;
    }
  }

  /** ASCII upper-casing, `s.upper()` on the ASCII letters. */
  function Upper(s: string): (r: string)
    ensures |r| == |s|
  {
    seq(|s|, i requires 0 <= i < |s| => if 'a' <= s[i] <= 'z' then (s[i] as int - 32) as char else s[i])
  }
}
