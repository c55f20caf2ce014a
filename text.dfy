/** The Option wrapper used for Kotlin's nullable values. */
module Wrappers {

  datatype Option<+T> = None | Some(value: T) {

    /** Kotlin's `x ?: default`. */
    function GetOr(default: T): T {
      match this
      case Some(v) => v
      case None => default
    }
  }

  /** `map[key]` on a Kotlin map or a `Properties` object: null when the key is absent. */
  function Lookup<K, V>(m: map<K, V>, key: K): (r: Option<V>)
    ensures r.Some? <==> key in m
    ensures r.Some? ==> r.value == m[key]
  {
    if key in m then Some(m[key]) else None
  }
}

/** String predicates with the meaning the Kotlin standard library gives them. */
module Text {
  import opened Wrappers

  /** `s.startsWith(prefix)`. */
  predicate StartsWith(s: string, prefix: string) {
    |prefix| <= |s| && s[..|prefix|] == prefix
  }

  /** `part in s`: `part` occurs somewhere in `s` (the empty string occurs in every string). */
  predicate Contains(s: string, part: string)
    decreases |s|
  {
    StartsWith(s, part) || (|s| > 0 && Contains(s[1..], part))
  }

  /** An occurrence at a known offset makes `Contains` hold. */
  lemma {:induction false} ContainsAt(s: string, part: string, i: nat)
    requires i + |part| <= |s| && s[i..i + |part|] == part
    ensures Contains(s, part)
    decreases i
  {
    if i > 0 {
      assert s[1..][i - 1..i - 1 + |part|] == s[i..i + |part|];
      ContainsAt(s[1..], part, i - 1);
    }
  }

  /** A string in which the first character of `part` never occurs does not contain `part`. */
  lemma {:induction false} NotContainsWithoutFirstChar(s: string, part: string)
    requires |part| > 0 && forall i :: 0 <= i < |s| ==> s[i] != part[0]
    ensures !Contains(s, part)
    decreases |s|
  {
    if |s| > 0 {
      if |part| <= |s| {
        assert s[..|part|][0] == s[0];
      }
      NotContainsWithoutFirstChar(s[1..], part);
    }
  }

  /**
   * `Char.isWhitespace()` on the JVM: `Character.isWhitespace(c) || Character.isSpaceChar(c)`,
   * written out as the code points these two accept.
   */
  predicate IsWhitespace(c: char) {
    var n := c as int;
    (0x09 <= n <= 0x0D) || (0x1C <= n <= 0x20) || n == 0xA0 || n == 0x1680
    || (0x2000 <= n <= 0x200A) || n == 0x2028 || n == 0x2029 || n == 0x202F
    || n == 0x205F || n == 0x3000
  }

  /** `s.isBlank()`: empty, or whitespace only. */
  predicate IsBlank(s: string) {
    forall i :: 0 <= i < |s| ==> IsWhitespace(s[i])
  }

  function LowerAscii(c: char): char {
    if 'A' <= c <= 'Z' then (c as int + 32) as char else c
  }

  /** `String.equals(other, ignoreCase = true)` restricted to ASCII case folding. */
  predicate EqualsIgnoreCase(a: string, b: string) {
    |a| == |b| && forall i :: 0 <= i < |a| ==> LowerAscii(a[i]) == LowerAscii(b[i])
  }

  /** `String?.toBoolean()`: true exactly for a non-null string equal to "true" ignoring case. */
  predicate ToBoolean(s: Option<string>) {
    s.Some? && EqualsIgnoreCase(s.value, "true")
  }

  /** `Boolean.toString()`. */
  function BoolToString(b: bool): (s: string)
    ensures s == "true" || s == "false"
    ensures ToBoolean(Some(s)) == b
  {
    if b then "true" else "false"
  }
}

/** Files and directories as the sequence of segments they were built from. */
module Paths {
  /**
   * A path: the segments passed to successive `File(parent, child)` / `Directory.dir(child)`
   * calls, in order. A segment may itself hold separators ("../jsc-android/dist").
   */
  type Path = seq<string>
}
