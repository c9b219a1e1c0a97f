/** Character classes and C string routines (the "C" locale) that the engine relies on. */
module Strings {

  datatype Option<+T> = None | Some(value: T)

  predicate IsDigit(c: char) { '0' <= c <= '9' }
  predicate IsUpper(c: char) { 'A' <= c <= 'Z' }
  predicate IsLower(c: char) { 'a' <= c <= 'z' }

  /** `isalnum` */
  predicate IsAlnum(c: char) { IsDigit(c) || IsUpper(c) || IsLower(c) }

  /** `isxdigit` */
  predicate IsXDigit(c: char) { IsDigit(c) || 'a' <= c <= 'f' || 'A' <= c <= 'F' }

  /** `isspace`: space, tab, newline, vertical tab, form feed, carriage return */
  predicate IsSpace(c: char) { c == ' ' || 9 <= c as int <= 13 }

  /** `tolower` */
  function ToLower(c: char): (r: char)
    ensures IsUpper(c) ==> IsLower(r) && r as int == c as int + 32
    ensures !IsUpper(c) ==> r == c
  {
    if IsUpper(c) then (c as int + 32) as char else c
  }

  function Lower(s: string): (r: string)
    ensures |r| == |s|
    ensures forall i :: 0 <= i < |s| ==> r[i] == ToLower(s[i])
  {
    seq(|s|, i requires 0 <= i < |s| => ToLower(s[i]))
  }

  /** `strcasecmp(a, b) == 0` */
  predicate EqualsIgnoreCase(a: string, b: string) { Lower(a) == Lower(b) }

  /** `strncmp(s, p, strlen(p)) == 0` */
  predicate HasPrefix(s: string, p: string) { |p| <= |s| && s[..|p|] == p }

  /** The part of `s` before the first `c` (what is left once `strchr(s, c)` is overwritten by a NUL). */
  function Before(s: string, c: char): (r: string)
    ensures c !in r
    ensures HasPrefix(s, r)
    ensures |r| < |s| <==> c in s
    ensures |r| < |s| ==> s[|r|] == c
  {
    if s == [] then [] else if s[0] == c then [] else [s[0]] + Before(s[1..], c)
  }

  /** The part of `s` after the first `c`, when there is one. */
  function After(s: string, c: char): (r: Option<string>)
    ensures r.None? <==> c !in s
    ensures r.Some? ==> s == Before(s, c) + [c] + r.value
  {
    var b := Before(s, c);
    if |b| < |s| then
      assert s == b + [c] + s[|b| + 1..];
      Some(s[|b| + 1..])
    else None
  }

  /** `s` with exactly one trailing '/' added when it does not already end in one. */
  function EnsureSlash(s: string): (r: string)
    ensures |r| > 0 && r[|r| - 1] == '/'
    ensures |s| > 0 && s[|s| - 1] == '/' ==> r == s
    ensures !(|s| > 0 && s[|s| - 1] == '/') ==> r == s + "/"
  {
    if |s| > 0 && s[|s| - 1] == '/' then s else s + "/"
  }

  function SkipSpace(s: string): (r: string)
    ensures |r| <= |s| && r == s[|s| - |r|..]
    ensures r == [] || !IsSpace(r[0])
  {
    if |s| > 0 && IsSpace(s[0]) then SkipSpace(s[1..]) else s
  }

  /** The longest prefix of `s` made of decimal digits. */
  function LeadingDigits(s: string): (r: string)
    ensures HasPrefix(s, r)
    ensures forall i :: 0 <= i < |r| ==> IsDigit(r[i])
    ensures |r| < |s| ==> !IsDigit(s[|r|])
  {
    if |s| > 0 && IsDigit(s[0]) then [s[0]] + LeadingDigits(s[1..]) else []
  }

  function DecimalValue(d: string): (n: nat)
    requires forall i :: 0 <= i < |d| ==> IsDigit(d[i])
  {
    if d == [] then 0
    else
      assert IsDigit(d[|d| - 1]);
      DecimalValue(d[..|d| - 1]) * 10 + (d[|d| - 1] as int - '0' as int)
  }

  /** `atoi`: leading white space, an optional sign, then as many decimal digits as follow. */
  function Atoi(s: string): int
  {
    var t := SkipSpace(s);
    if |t| > 0 && t[0] == '-' then 0 - DecimalValue(LeadingDigits(t[1..])) as int
    else if |t| > 0 && t[0] == '+' then DecimalValue(LeadingDigits(t[1..]))
    else DecimalValue(LeadingDigits(t))
  }
}
