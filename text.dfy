/** The string operations the dialogue applies to every inbound message:
    `String.prototype.trim`, `String.prototype.toLowerCase` and the
    `length` of a JavaScript string (UTF-16 code units). */
module Text {

  /** The characters `trim` strips: ECMAScript WhiteSpace (tab, vertical
      tab, form feed, space, no-break space, the byte order mark and the
      Unicode space separators) and LineTerminator (line feed, carriage
      return, line and paragraph separators). */
  predicate IsTrimmable(c: char) {
    || '\t' <= c <= '\r'
    || c == ' ' || c == '\U{00A0}' || c == '\U{1680}'
    || '\U{2000}' <= c <= '\U{200A}'
    || c == '\U{2028}' || c == '\U{2029}' || c == '\U{202F}' || c == '\U{205F}'
    || c == '\U{3000}' || c == '\U{FEFF}'
  }

  /** The position of the first character at or after `i` that is not
      trimmable, or `|s|`. */
  function StartOf(s: string, i: nat): (j: nat)
    requires i <= |s|
    ensures i <= j <= |s|
    decreases |s| - i
  {
    if i < |s| && IsTrimmable(s[i]) then StartOf(s, i + 1) else i
  }

  /** The end, exclusive, of `s[lo..j]` once its trailing trimmable
      characters are dropped. */
  function EndOf(s: string, j: nat, lo: nat): (e: nat)
    requires lo <= j <= |s|
    ensures lo <= e <= j
    decreases j
  {
    if lo < j && IsTrimmable(s[j - 1]) then EndOf(s, j - 1, lo) else j
  }

  /** `StartOf` skips exactly a run of trimmable characters. */
  lemma {:induction false} StartOfSkips(s: string, i: nat)
    requires i <= |s|
    ensures var j := StartOf(s, i);
      && (j == |s| || !IsTrimmable(s[j]))
      && (forall k :: i <= k < j ==> IsTrimmable(s[k]))
    decreases |s| - i
  {
    if i < |s| && IsTrimmable(s[i]) {
      StartOfSkips(s, i + 1);
    }
  }

  /** `EndOf` drops exactly a run of trimmable characters. */
  lemma {:induction false} EndOfSkips(s: string, j: nat, lo: nat)
    requires lo <= j <= |s|
    ensures var e := EndOf(s, j, lo);
      && (e == lo || !IsTrimmable(s[e - 1]))
      && (forall k :: e <= k < j ==> IsTrimmable(s[k]))
    decreases j
  {
    if lo < j && IsTrimmable(s[j - 1]) {
      EndOfSkips(s, j - 1, lo);
    }
  }

  /** `s.trim()`: leading, then trailing, white space and line terminators
      removed. */
  function Trim(s: string): string {
    var i := StartOf(s, 0);
    s[i..EndOf(s, |s|, i)]
  }

  /** `trim` keeps the longest infix of `s` that neither starts nor ends with
      a trimmable character; everything cut away is trimmable. */
  lemma TrimSpec(s: string)
    ensures var r := Trim(s); var i := StartOf(s, 0);
      && i + |r| <= |s| && r == s[i..i + |r|]
      && (forall k :: 0 <= k < i ==> IsTrimmable(s[k]))
      && (forall k :: i + |r| <= k < |s| ==> IsTrimmable(s[k]))
      && (r == [] || (!IsTrimmable(r[0]) && !IsTrimmable(r[|r| - 1])))
  {
    var i := StartOf(s, 0);
    var e := EndOf(s, |s|, i);
    StartOfSkips(s, 0);
    EndOfSkips(s, |s|, i);
    var r := s[i..e];
    if r != [] {
      assert r[0] == s[i] && r[|r| - 1] == s[e - 1];
    }
  }

  /** Trimming is idempotent: a trimmed message is its own normal form. */
  lemma TrimIdempotent(s: string)
    ensures Trim(Trim(s)) == Trim(s)
  {
    var r := Trim(s);
    TrimSpec(s);
    assert StartOf(r, 0) == 0;
    assert EndOf(r, |r|, 0) == |r|;
  }

  /** Lower-casing of one character: ASCII and Latin-1 capitals. */
  function LowerChar(c: char): (d: char)
    ensures ('A' <= c <= 'Z' || ('\U{00C0}' <= c <= '\U{00DE}' && c != '\U{00D7}')) ==> d as int == c as int + 32
    ensures !('A' <= c <= 'Z' || ('\U{00C0}' <= c <= '\U{00DE}' && c != '\U{00D7}')) ==> d == c
  {
    if 'A' <= c <= 'Z' || ('\U{00C0}' <= c <= '\U{00DE}' && c != '\U{00D7}') then
      (c as int + 32) as char
    else
      c
  }

  /** `s.toLowerCase()`, character by character. */
  function ToLower(s: string): (r: string)
    ensures |r| == |s|
    ensures forall i :: 0 <= i < |s| ==> r[i] == LowerChar(s[i])
  {
    seq(|s|, i requires 0 <= i < |s| => LowerChar(s[i]))
  }

  /** Lower-casing a lower-cased string changes nothing. */
  lemma ToLowerIdempotent(s: string)
    ensures ToLower(ToLower(s)) == ToLower(s)
  {
  }

  /** `s.length`: characters outside the Basic Multilingual Plane take two
      UTF-16 code units. */
  function Utf16Length(s: string): (n: nat)
    ensures |s| <= n <= 2 * |s|
    ensures n == |s| <==> forall i :: 0 <= i < |s| ==> s[i] as int <= 0xFFFF
  {
    if s == [] then 0
    else Utf16Length(s[..|s| - 1]) + (if s[|s| - 1] as int > 0xFFFF then 2 else 1)
  }
}
