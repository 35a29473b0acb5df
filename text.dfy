/** String operations the source takes from the JavaScript runtime:
    `length`, `trim`, `toLowerCase`, `includes`, `startsWith` and the two regular
    expressions its forms test, written out as predicates on characters. */
module Text {

  /** `s.length`: JavaScript strings count UTF-16 code units, so a character
      beyond U+FFFF, stored as a surrogate pair, counts twice. */
  function Utf16Length(s: string): (n: nat)
    ensures |s| <= n <= 2 * |s|
    ensures (forall i :: 0 <= i < |s| ==> s[i] as int <= 0xFFFF) ==> n == |s|
  {
    if s == [] then 0
    else
      assert forall i :: 0 <= i < |s[1..]| ==> s[1..][i] == s[i + 1];
      (if s[0] as int > 0xFFFF then 2 else 1) + Utf16Length(s[1..])
  }

  /** Four emoji have a JavaScript length of eight. */
  lemma SurrogatePairsCountTwice()
    ensures Utf16Length("\U{1F600}\U{1F600}\U{1F600}\U{1F600}") == 8
  {
    var e := "\U{1F600}";
    assert "\U{1F600}\U{1F600}\U{1F600}\U{1F600}"[1..] == e + e + e;
    assert (e + e + e)[1..] == e + e;
    assert (e + e)[1..] == e;
  }

  /** The characters JavaScript's `\s` class and `String.prototype.trim` treat
      as white space (WhiteSpace and LineTerminator of ECMAScript). */
  predicate IsSpace(c: char) {
    || c == ' ' || c == '\t' || c == '\n' || c == '\r'
    || c == '\U{000B}' || c == '\U{000C}' || c == '\U{00A0}' || c == '\U{1680}'
    || ('\U{2000}' <= c <= '\U{200A}')
    || c == '\U{2028}' || c == '\U{2029}' || c == '\U{202F}' || c == '\U{205F}'
    || c == '\U{3000}' || c == '\U{FEFF}'
  }

  predicate AllSpace(s: string) {
    forall i :: 0 <= i < |s| ==> IsSpace(s[i])
  }

  predicate NoSpace(s: string) {
    forall i :: 0 <= i < |s| ==> !IsSpace(s[i])
  }

  /** `trimStart`: drops the leading white space and nothing else. */
  function TrimStart(s: string): (r: string)
    ensures |r| <= |s| && r == s[|s| - |r|..]
    ensures r == [] || !IsSpace(r[0])
    ensures forall i :: 0 <= i < |s| - |r| ==> IsSpace(s[i])
  {
    if s != [] && IsSpace(s[0]) then TrimStart(s[1..]) else s
  }

  /** `trimEnd`: drops the trailing white space and nothing else. */
  function TrimEnd(s: string): (r: string)
    ensures |r| <= |s| && r == s[..|r|]
    ensures r == [] || !IsSpace(r[|r| - 1])
    ensures forall i :: |r| <= i < |s| ==> IsSpace(s[i])
  {
    if s != [] && IsSpace(s[|s| - 1]) then TrimEnd(s[..|s| - 1]) else s
  }

  /** `trim`. The forms only ask whether the trimmed text is empty, which
      happens exactly when every character is white space. */
  function Trim(s: string): (r: string)
    ensures r == [] <==> AllSpace(s)
    ensures NoSpace(s) ==> r == s
  {
    var t := TrimStart(s);
    assert t != [] ==> !IsSpace(s[|s| - |t|]);
    TrimEnd(t)
  }

  /** `toLowerCase` on the ASCII letters; other characters are kept. */
  function LowerChar(c: char): char {
    if 'A' <= c <= 'Z' then (c as int + 32) as char else c
  }

  function Lower(s: string): string {
    seq(|s|, i requires 0 <= i < |s| => LowerChar(s[i]))
  }

  /** `sub` occurs in `s` starting at index `i`. */
  predicate OccursAt(s: string, sub: string, i: int) {
    0 <= i && i + |sub| <= |s| && s[i..i + |sub|] == sub
  }

  /** `s.includes(sub)`. */
  predicate Includes(s: string, sub: string) {
    exists i | 0 <= i <= |s| :: OccursAt(s, sub, i)
  }

  /** `s.startsWith(prefix)`. */
  predicate StartsWith(s: string, prefix: string) {
    |prefix| <= |s| && s[..|prefix|] == prefix
  }

  /** A character the class `[^\s@]` matches. */
  predicate Plain(c: char) {
    !IsSpace(c) && c != '@'
  }

  predicate AllPlain(s: string) {
    forall i :: 0 <= i < |s| ==> Plain(s[i])
  }

  /** `s` reads `a@b.c` with the `@` at `at`, the `.` at `dot` and `a`, `b`,
      `c` non-empty runs of `[^\s@]`. */
  predicate EmailSplitAt(s: string, at: int, dot: int) {
    && 0 < at && at + 1 < dot && dot + 1 < |s|
    && s[at] == '@' && s[dot] == '.'
    && AllPlain(s[..at]) && AllPlain(s[at + 1..dot]) && AllPlain(s[dot + 1..])
  }

  /** `/^[^\s@]+@[^\s@]+\.[^\s@]+$/.test(s)`. */
  predicate IsEmail(s: string) {
    exists at, dot | 0 <= at < dot < |s| :: EmailSplitAt(s, at, dot)
  }

  /** An address the pattern accepts has no white space at all, so trimming
      leaves it unchanged, and it has at least five characters. */
  lemma EmailHasNoSpace(s: string)
    requires IsEmail(s)
    ensures NoSpace(s) && Trim(s) == s && |s| >= 5
  {
    var at, dot :| 0 <= at < dot < |s| && EmailSplitAt(s, at, dot);
    forall i | 0 <= i < |s| ensures !IsSpace(s[i]) {
      if i < at {
        assert s[..at][i] == s[i];
      } else if at < i < dot {
        assert s[at + 1..dot][i - at - 1] == s[i];
      } else if dot < i {
        assert s[dot + 1..][i - dot - 1] == s[i];
      }
    }
  }

  /** `.` in a JavaScript regular expression: any character but a line terminator. */
  predicate AnyChar(c: char) {
    c != '\n' && c != '\r' && c != '\U{2028}' && c != '\U{2029}'
  }

  /** `s` reads `http://` or `https://` (the scheme ends at `p`), then at least
      one `.`-character, a literal `.` at `dot` and one more `.`-character. */
  predicate UrlSplitAt(s: string, p: int, dot: int) {
    && ((p == 7 && StartsWith(s, "http://")) || (p == 8 && StartsWith(s, "https://")))
    && p < dot && dot + 1 < |s| && s[dot] == '.'
    && (forall k :: p <= k < dot ==> AnyChar(s[k]))
    && AnyChar(s[dot + 1])
  }

  /** `/^https?:\/\/.+\..+/.test(s)`: the pattern is anchored at the start only. */
  predicate IsHttpUrl(s: string) {
    exists p, dot | 7 <= p <= 8 && p < dot < |s| :: UrlSplitAt(s, p, dot)
  }
}
