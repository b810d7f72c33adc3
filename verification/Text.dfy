/** The few string operations the controller uses. A char stands for one byte. */
module Text {

  predicate HasPrefix(s: string, prefix: string) {
    prefix <= s
  }

  predicate HasSuffix(s: string, suffix: string) {
    |suffix| <= |s| && s[|s| - |suffix|..] == suffix
  }

  function TrimPrefix(s: string, prefix: string): string {
    if prefix <= s then s[|prefix|..] else s
  }

  /** Truncation as in `s[:n]`, applied only to longer strings. */
  function Truncate(s: string, n: nat): string {
    if |s| > n then s[..n] else s
  }

  function LowerChar(c: char): char {
    if 'A' <= c <= 'Z' then 'a' + (c - 'A') else c
  }

  /** Lower-casing of the ASCII letters. */
  function ToLower(s: string): (r: string)
    ensures |r| == |s|
    ensures forall i :: 0 <= i < |s| ==> r[i] as int == s[i] as int + if 'A' <= s[i] <= 'Z' then 32 else 0
  {
    seq(|s|, i requires 0 <= i < |s| => LowerChar(s[i]))
  }
}
