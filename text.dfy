/** String primitives the components rely on: JavaScript's `String.prototype.trim`,
    `toLowerCase` (on ASCII letters), `includes` on strings, and the
    `/^([^(]+)/` capture that four components use to pick the Chinese part of a
    reply ("你好！(Nǐ hǎo!) Hello!" gives "你好！"). */
module Text {

  datatype Option<T> = None | Some(value: T)

  /** ECMAScript WhiteSpace and LineTerminator code points: exactly what `trim` strips. */
  predicate IsSpace(c: char)
  {
    var n := c as int;
    || (0x09 <= n <= 0x0D) || n == 0x20 || n == 0xA0 || n == 0x1680 || (0x2000 <= n <= 0x200A)
    || n == 0x2028 || n == 0x2029 || n == 0x202F || n == 0x205F || n == 0x3000 || n == 0xFEFF
  }

  predicate AllSpace(s: string)
  {
    forall i :: 0 <= i < |s| ==> IsSpace(s[i])
  }

  /** Number of whitespace characters at the front of `s`. */
  function LeadingSpaces(s: string): (k: nat)
    ensures k <= |s|
    ensures forall i :: 0 <= i < k ==> IsSpace(s[i])
    ensures k < |s| ==> !IsSpace(s[k])
  {
    if |s| > 0 && IsSpace(s[0]) then 1 + LeadingSpaces(s[1..]) else 0
  }

  /** Number of whitespace characters at the end of `s`. */
  function TrailingSpaces(s: string): (k: nat)
    ensures k <= |s|
    ensures forall i :: |s| - k <= i < |s| ==> IsSpace(s[i])
    ensures k < |s| ==> !IsSpace(s[|s| - k - 1])
  {
    if |s| > 0 && IsSpace(s[|s| - 1]) then 1 + TrailingSpaces(s[..|s| - 1]) else 0
  }

  /** `s.trim()`: `s` without its leading and trailing whitespace. */
  function Trim(s: string): (r: string)
    ensures |r| <= |s|
    ensures r == [] <==> AllSpace(s)
    ensures r != [] ==> !IsSpace(r[0]) && !IsSpace(r[|r| - 1])
    ensures forall i :: 0 <= i < |r| ==> r[i] in s
    // what is removed is a whitespace prefix and a whitespace suffix, and nothing in between
    ensures exists a, b :: 0 <= a <= b <= |s| && r == s[a..b] && AllSpace(s[..a]) && AllSpace(s[b..])
  {
    var a := LeadingSpaces(s);
    if a == |s| then
      assert s[|s|..|s|] == [] && s[..|s|] == s;
      []
    else
      var b := TrailingSpaces(s);
      // `s[a]` is not whitespace, so the trailing run ends after it
      assert a < |s| - b;
      var r := s[a..|s| - b];
      assert forall i :: 0 <= i < |r| ==> r[i] == s[a + i];
      assert !AllSpace(s) by { assert !IsSpace(s[a]); }
      assert AllSpace(s[..a]) && AllSpace(s[|s| - b..]);
      r
  }

  /** Trimming twice trims nothing more. */
  lemma TrimIdempotent(s: string)
    ensures Trim(Trim(s)) == Trim(s)
  {
    var r := Trim(s);
    if r != [] {
      TrimKeepsSpaceFree(r);
    }
  }

  /** A string that neither starts nor ends with whitespace is its own trim. */
  lemma TrimKeepsSpaceFree(s: string)
    requires s != [] && !IsSpace(s[0]) && !IsSpace(s[|s| - 1])
    ensures Trim(s) == s
  {
    assert LeadingSpaces(s) == 0;
    assert TrailingSpaces(s) == 0;
  }

  /** `c.toLowerCase()` on ASCII letters; every other character is left alone. */
  function LowerChar(c: char): (r: char)
    ensures 'A' <= c <= 'Z' ==> r as int == c as int + 32
    ensures !('A' <= c <= 'Z') ==> r == c
  {
    if 'A' <= c <= 'Z' then (c as int + 32) as char else c
  }

  /** `s.toLowerCase()`, character by character (ASCII case mapping). */
  function ToLower(s: string): (r: string)
    ensures |r| == |s|
    ensures forall i :: 0 <= i < |s| ==> r[i] == LowerChar(s[i])
  {
    if s == [] then [] else [LowerChar(s[0])] + ToLower(s[1..])
  }

  /** Lower-casing a lower-cased string changes nothing. */
  lemma ToLowerIdempotent(s: string)
    ensures ToLower(ToLower(s)) == ToLower(s)
  {
    var r := ToLower(s);
    assert forall i :: 0 <= i < |r| ==> LowerChar(r[i]) == r[i];
  }

  /** `needle` occurs in `hay` starting at position `i`. */
  predicate OccursAt(hay: string, needle: string, i: nat)
  {
    i + |needle| <= |hay| && hay[i..i + |needle|] == needle
  }

  /** A string without ASCII capitals is its own lower-case form. */
  lemma ToLowerFixesLower(s: string)
    requires forall i :: 0 <= i < |s| ==> !('A' <= s[i] <= 'Z')
    ensures ToLower(s) == s
  {
  }

  /** `hay.includes(needle)`: `needle` occurs at some position of `hay`. */
  predicate Includes(hay: string, needle: string)
  {
    exists i: nat | i <= |hay| :: OccursAt(hay, needle, i)
  }

  /** The empty string is included in every string. */
  lemma IncludesEmpty(hay: string)
    ensures Includes(hay, "")
  {
    assert OccursAt(hay, "", 0);
  }

  /** Index of the first `(` in `s`, or `|s|` when there is none. */
  function ParenIndex(s: string): (k: nat)
    ensures k <= |s|
    ensures forall i :: 0 <= i < k ==> s[i] != '('
    ensures k < |s| ==> s[k] == '('
  {
    if s == [] || s[0] == '(' then 0 else 1 + ParenIndex(s[1..])
  }

  /** Capture group 1 of `s.match(/^([^(]+)/)`: the longest non-empty prefix free of `(`,
      or no match when `s` is empty or starts with `(`. */
  function ParenPrefixMatch(s: string): (m: Option<string>)
    ensures m.None? <==> (s == [] || s[0] == '(')
    ensures m.Some? ==> |m.value| > 0 && m.value <= s && '(' !in m.value
    ensures m.Some? && |m.value| < |s| ==> s[|m.value|] == '('
  {
    var k := ParenIndex(s);
    if k == 0 then None else Some(s[..k])
  }

  /** `m ? m[1].trim() : ""` for that match: the Chinese part of a reply. */
  function ChineseText(content: string): (r: string)
    ensures '(' !in r
    ensures (content == [] || content[0] == '(') ==> r == []
    ensures r == Trim(content[..ParenIndex(content)])
  {
    match ParenPrefixMatch(content)
    case None => ""
    case Some(g) => Trim(g)
  }

  /** Whatever follows the first `(` has no influence on the extracted text. */
  lemma ChineseTextIgnoresAfterParen(head: string, tail: string)
    requires '(' !in head
    ensures ChineseText(head + "(" + tail) == Trim(head)
  {
    var s := head + "(" + tail;
    assert forall i :: 0 <= i < |head| ==> s[i] == head[i];
    assert s[|head|] == '(';
    assert ParenIndex(s) == |head|;
    assert s[..|head|] == head;
  }
}
