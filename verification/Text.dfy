/** Character classes and text operations that the program applies to names and ids.

    Names of devices and profiles are trimmed and cut to 80 characters; ids are letters,
    digits and hyphens; what is left over is refused or filtered out before it is stored
    (windows-server/src/volume_profiles.rs, windows-server/src/application/registry.rs). */
module Text {
  /** Code points with the Unicode property White_Space. */
  predicate IsWhitespace(c: char) {
    || '\U{9}' <= c <= '\U{D}' || c == ' ' || c == '\U{85}' || c == '\U{A0}' || c == '\U{1680}'
    || '\U{2000}' <= c <= '\U{200A}' || c == '\U{2028}' || c == '\U{2029}' || c == '\U{202F}'
    || c == '\U{205F}' || c == '\U{3000}'
  }

  /** Code points of the Unicode category Cc. */
  predicate IsControl(c: char) {
    c <= '\U{1F}' || '\U{7F}' <= c <= '\U{9F}'
  }

  predicate IsDigit(c: char) { '0' <= c <= '9' }

  predicate IsAlphanumeric(c: char) {
    IsDigit(c) || 'A' <= c <= 'Z' || 'a' <= c <= 'z'
  }

  function TrimStart(s: string): string {
    if s != "" && IsWhitespace(s[0]) then TrimStart(s[1..]) else s
  }

  function TrimEnd(s: string): string {
    if s != "" && IsWhitespace(s[|s| - 1]) then TrimEnd(s[..|s| - 1]) else s
  }

  /** `str::trim`. */
  function Trim(s: string): string { TrimEnd(TrimStart(s)) }

  function Filter(s: string, keep: char -> bool): string {
    if s == "" then "" else
    if keep(s[0]) then [s[0]] + Filter(s[1..], keep) else Filter(s[1..], keep)
  }

  function Take(s: string, n: nat): string { if |s| <= n then s else s[..n] }

  lemma {:induction false} FilterKeepsAll(s: string, keep: char -> bool)
    requires forall c <- s :: keep(c)
    ensures Filter(s, keep) == s
  {
    if s != "" {
      FilterKeepsAll(s[1..], keep);
    }
  }
}
