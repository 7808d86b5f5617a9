/**
 * String helpers with the meaning of the Python string methods the plugin
 * calls: `replace('\\', '/')`, `startswith`, `endswith`, `rfind`,
 * `isdigit` and `strip`.
 */
module Text {

  /** `s.replace('\\', '/')`: every backslash becomes a forward slash. */
  function Normalize(s: string): (r: string)
    ensures |r| == |s|
    ensures forall i :: 0 <= i < |s| ==> r[i] == (if s[i] == '\\' then '/' else s[i])
    ensures '\\' !in r
  {
    seq(|s|, i requires 0 <= i < |s| => if s[i] == '\\' then '/' else s[i])
  }

  /** Normalising a string without backslashes leaves it unchanged. */
  lemma NormalizeIdentity(s: string)
    requires '\\' !in s
    ensures Normalize(s) == s
  {
    var r := Normalize(s);
    assert forall i :: 0 <= i < |s| ==> r[i] == s[i];
  }

  /** `s.startswith(p)`. */
  predicate StartsWith(s: string, p: string) {
    p <= s
  }

  /** `s.endswith(p)`. */
  predicate EndsWith(s: string, p: string) {
    |p| <= |s| && s[|s| - |p|..] == p
  }

  /** `local[:-1]` when `local.endswith('/')`. */
  function DropTrailingSlash(s: string): string {
    if EndsWith(s, "/") then s[..|s| - 1] else s
  }

  /** `common[1:]` when `common.startswith('/')`. */
  function DropLeadingSlash(s: string): string {
    if StartsWith(s, "/") then s[1..] else s
  }

  /**
   * `local + '/' + common` after dropping one trailing slash from `local` and
   * one leading slash from `common`: the rewrite of a matched path prefix.
   */
  function Graft(local: string, common: string): (r: string)
    ensures '\\' !in local && '\\' !in common ==> '\\' !in r
  {
    var l := DropTrailingSlash(local);
    var c := DropLeadingSlash(common);
    assert forall i :: 0 <= i < |l| ==> l[i] == local[i];
    assert forall i :: 0 <= i < |c| ==> c[i] in common;
    l + "/" + c
  }

  /** `s.rfind(c)`: the index of the last occurrence of `c`, or -1. */
  function LastIndexOf(s: string, c: char): (r: int)
    ensures -1 <= r < |s|
    ensures r == -1 <==> c !in s
    ensures r >= 0 ==> s[r] == c && c !in s[r + 1..]
  {
    if s == [] then -1
    else if s[|s| - 1] == c then |s| - 1
    else LastIndexOf(s[..|s| - 1], c)
  }

  /**
   * `s.isdigit()` restricted to the ASCII digits: true for a non-empty
   * string made only of '0'..'9'.
   */
  predicate IsDigits(s: string) {
    |s| > 0 && forall i :: 0 <= i < |s| ==> '0' <= s[i] <= '9'
  }

  /** The characters Python's `str.strip()` removes (`str.isspace()`). */
  predicate IsSpace(c: char) {
    ('\U{0009}' <= c <= '\U{000D}') || ('\U{001C}' <= c <= '\U{0020}') ||
    c == '\U{0085}' || c == '\U{00A0}' || c == '\U{1680}' ||
    ('\U{2000}' <= c <= '\U{200A}') || c == '\U{2028}' || c == '\U{2029}' ||
    c == '\U{202F}' || c == '\U{205F}' || c == '\U{3000}'
  }

  /** `not s.strip()`: the string is empty or whitespace only. */
  predicate IsBlank(s: string) {
    forall i :: 0 <= i < |s| ==> IsSpace(s[i])
  }
}
