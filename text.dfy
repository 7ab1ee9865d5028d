/**
 * Whitespace trimming as JavaScript's `String.prototype.trim` does it.
 * Every handler of the app that rejects blank input asks `s.trim()`; the admin
 * panel additionally stores the trimmed text. A string is blank when its trim
 * is empty, that is when it consists of whitespace only.
 *
 * The trim is the slice of `s` from the first non-whitespace character up to
 * and including the last one; the two scans below find its bounds.
 */
module Text {

  /** The ECMAScript WhiteSpace and LineTerminator code points (the space separators included). */
  predicate IsWhitespace(c: char) {
    || c == '\U{0009}' || c == '\U{000A}' || c == '\U{000B}' || c == '\U{000C}' || c == '\U{000D}'
    || c == '\U{0020}' || c == '\U{00A0}' || c == '\U{1680}'
    || ('\U{2000}' <= c <= '\U{200A}')
    || c == '\U{2028}' || c == '\U{2029}' || c == '\U{202F}' || c == '\U{205F}'
    || c == '\U{3000}' || c == '\U{FEFF}'
  }

  /** The index of the first character at or after `i` that is not whitespace, or `|s|` when there is none. */
  function SkipWhitespace(s: string, i: nat): (j: nat)
    requires i <= |s|
    ensures i <= j <= |s|
    ensures forall k :: i <= k < j ==> IsWhitespace(s[k])
    ensures j == |s| || !IsWhitespace(s[j])
    decreases |s| - i
  {
    if i < |s| && IsWhitespace(s[i]) then SkipWhitespace(s, i + 1) else i
  }

  /** Scanning back from `j` to no further than `lo`: the index just after the last character that is not whitespace, or `lo`. */
  function BackOverWhitespace(s: string, lo: nat, j: nat): (e: nat)
    requires lo <= j <= |s|
    ensures lo <= e <= j
    ensures forall k :: e <= k < j ==> IsWhitespace(s[k])
    ensures e == lo || !IsWhitespace(s[e - 1])
    decreases j
  {
    if j > lo && IsWhitespace(s[j - 1]) then BackOverWhitespace(s, lo, j - 1) else j
  }

  /** Where the trimmed text starts in `s`. */
  function TrimStartIndex(s: string): nat {
    SkipWhitespace(s, 0)
  }

  /** Where the trimmed text ends in `s`. */
  function TrimEndIndex(s: string): nat {
    BackOverWhitespace(s, TrimStartIndex(s), |s|)
  }

  /** `s.trim()` */
  function Trim(s: string): (t: string)
    ensures |t| <= |s|
  {
    s[TrimStartIndex(s)..TrimEndIndex(s)]
  }

  /** A string of whitespace only, the strings whose `trim()` is empty and so false to JavaScript. */
  predicate IsBlank(s: string): (blank: bool)
    ensures s == "" ==> blank
    ensures blank ==> TrimStartIndex(s) == |s|
  {
    forall i :: 0 <= i < |s| ==> IsWhitespace(s[i])
  }

  /**
   * The trimmed text is the slice of the original between a whitespace-only
   * head and a whitespace-only tail, and it starts and ends with a
   * non-whitespace character.
   */
  lemma TrimShape(s: string)
    ensures TrimStartIndex(s) <= TrimEndIndex(s) <= |s|
    ensures Trim(s) == s[TrimStartIndex(s)..TrimEndIndex(s)]
    ensures forall k :: 0 <= k < TrimStartIndex(s) ==> IsWhitespace(s[k])
    ensures forall k :: TrimEndIndex(s) <= k < |s| ==> IsWhitespace(s[k])
    ensures Trim(s) == [] || (!IsWhitespace(Trim(s)[0]) && !IsWhitespace(Trim(s)[|Trim(s)| - 1]))
  {
    var a, e := TrimStartIndex(s), TrimEndIndex(s);
    if a < e {
      assert Trim(s)[0] == s[a];
      assert Trim(s)[|Trim(s)| - 1] == s[e - 1];
    }
  }

  /** A string is blank exactly when its trim is the empty string. */
  lemma BlankIffTrimEmpty(s: string)
    ensures IsBlank(s) <==> Trim(s) == ""
  {
    var a, e := TrimStartIndex(s), TrimEndIndex(s);
    if a < |s| {
      assert !IsWhitespace(s[a]);
    }
    if Trim(s) == "" {
      assert a == e;
    }
  }

  /** Trimming a trimmed string changes nothing. */
  lemma TrimIdempotent(s: string)
    ensures Trim(Trim(s)) == Trim(s)
  {
    var r := Trim(s);
    TrimShape(s);
    if r != [] {
      assert TrimStartIndex(r) == 0;
      assert TrimEndIndex(r) == |r|;
      assert r[0..|r|] == r;
    }
  }

  /** A non-blank string trims to a non-blank string. */
  lemma TrimOfNonBlankIsNonBlank(s: string)
    requires !IsBlank(s)
    ensures !IsBlank(Trim(s)) && Trim(s) != ""
  {
    TrimIdempotent(s);
    BlankIffTrimEmpty(s);
    BlankIffTrimEmpty(Trim(s));
  }
}
