/** Characters and strings as the Rust standard library treats them. */
module Text {

  /** `char::is_whitespace`: the Unicode White_Space property. */
  predicate IsWhitespace(c: char) {
    var n := c as int;
    || 0x09 <= n <= 0x0D || n == 0x20 || n == 0x85 || n == 0xA0 || n == 0x1680
    || 0x2000 <= n <= 0x200A || n == 0x2028 || n == 0x2029 || n == 0x202F || n == 0x205F || n == 0x3000
  }

  /** `char::is_control`: the Unicode general category Cc. */
  predicate IsControl(c: char) {
    var n := c as int;
    n <= 0x1F || 0x7F <= n <= 0x9F
  }

  predicate NoWhitespace(s: string) {
    forall c :: c in s ==> !IsWhitespace(c)
  }

  predicate NoControl(s: string) {
    forall c :: c in s ==> !IsControl(c)
  }

  function TrimStart(s: string): string {
    if s != "" && IsWhitespace(s[0]) then TrimStart(s[1..]) else s
  }

  function TrimEnd(s: string): string {
    if s != "" && IsWhitespace(s[|s| - 1]) then TrimEnd(s[..|s| - 1]) else s
  }

  /** `str::trim`. */
  function Trim(s: string): string {
    TrimEnd(TrimStart(s))
  }

  /** `str::len`: the length in UTF-8 bytes. */
  function ByteLength(s: string): nat {
    if s == "" then 0 else CharLength(s[0]) + ByteLength(s[1..])
  }

  function CharLength(c: char): nat {
    var n := c as int;
    if n < 0x80 then 1 else if n < 0x800 then 2 else if n < 0x10000 then 3 else 4
  }

  /** `to_ascii_lowercase`. */
  function LowerAscii(s: string): (r: string) {
    seq(|s|, i requires 0 <= i < |s| => if 'A' <= s[i] <= 'Z' then (s[i] as int + 32) as char else s[i])
  }

  /** The index of the first occurrence of `c`, or the length of `s` when there is none. */
  function Find(s: string, c: char): (i: nat)
    ensures i <= |s| && c !in s[..i]
    ensures i < |s| ==> s[i] == c
  {
    if s == "" || s[0] == c then 0 else
      var j := Find(s[1..], c);
      assert s[..j + 1] == [s[0]] + s[1..][..j];
      j + 1
  }

  predicate StartsWith(s: string, prefix: string) {
    prefix <= s
  }

  predicate EndsWith(s: string, suffix: string) {
    |suffix| <= |s| && s[|s| - |suffix|..] == suffix
  }

  /** Trimming changes a string exactly when it begins or ends with white space. */
  lemma {:induction false} TrimFixed(s: string)
    ensures Trim(s) == s <==> s == "" || (!IsWhitespace(s[0]) && !IsWhitespace(s[|s| - 1]))
  {
    TrimStartShrinks(s);
    TrimEndShrinks(TrimStart(s));
  }

  lemma {:induction false} TrimStartShrinks(s: string)
    ensures |TrimStart(s)| <= |s|
    ensures s != "" && IsWhitespace(s[0]) ==> |TrimStart(s)| < |s|
  {
    if s != "" && IsWhitespace(s[0]) { TrimStartShrinks(s[1..]); }
  }

  lemma {:induction false} TrimEndShrinks(s: string)
    ensures |TrimEnd(s)| <= |s|
    ensures s != "" && IsWhitespace(s[|s| - 1]) ==> |TrimEnd(s)| < |s|
  {
    if s != "" && IsWhitespace(s[|s| - 1]) { TrimEndShrinks(s[..|s| - 1]); }
  }

  /** A string without white space survives trimming. */
  lemma TrimNoWhitespace(s: string)
    requires NoWhitespace(s)
    ensures Trim(s) == s
  {
    if s != "" { assert s[0] in s && s[|s| - 1] in s; }
    TrimFixed(s);
  }

  /** On ASCII text a byte is a character. */
  lemma {:induction false} AsciiByteLength(s: string)
    requires forall c :: c in s ==> c as int < 0x80
    ensures ByteLength(s) == |s|
  {
    if s != "" {
      assert s[0] in s && forall c :: c in s[1..] ==> c in s;
      AsciiByteLength(s[1..]);
    }
  }

  /** A separator absent from both left parts splits a text in one way only. */
  lemma SplitUnique(a: string, b: string, c: string, d: string, sep: char)
    requires sep !in a && sep !in c
    requires a + [sep] + b == c + [sep] + d
    ensures a == c && b == d
  {
    var whole, other := a + [sep] + b, c + [sep] + d;
    assert whole[|a|] == sep && forall i :: 0 <= i < |a| ==> whole[i] == a[i];
    assert other[|c|] == sep && forall i :: 0 <= i < |c| ==> other[i] == c[i];
    assert |a| == |c|;
    assert a == whole[..|a|] && c == other[..|c|];
    assert b == whole[|a| + 1..] && d == other[|c| + 1..];
  }

  /** The 25 characters of Unicode white space, the 65 control characters, and the UTF-8 lengths, by their bounds. */
  lemma CharacterClasses(c: char)
    ensures IsWhitespace(c)
       <==> c in {'\t', '\n', '\U{0B}', '\U{0C}', '\r', ' ', '\U{85}', '\U{A0}', '\U{1680}',
                  '\U{2000}', '\U{2001}', '\U{2002}', '\U{2003}', '\U{2004}', '\U{2005}', '\U{2006}', '\U{2007}',
                  '\U{2008}', '\U{2009}', '\U{200A}', '\U{2028}', '\U{2029}', '\U{202F}', '\U{205F}', '\U{3000}'}
    ensures IsControl(c) <==> c < ' ' || '\U{7F}' <= c < '\U{A0}'
    ensures CharLength(c) <= 1 <==> c < '\U{80}'
    ensures CharLength(c) <= 2 <==> c < '\U{800}'
    ensures CharLength(c) <= 3 <==> c < '\U{10000}'
    ensures 1 <= CharLength(c) <= 4
  {
  }
}
