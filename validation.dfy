/**
 * The DataAnnotations attributes the DTOs and models are annotated with, as string predicates,
 * and the three regular expressions that occur in them.
 *
 * An attribute sees the property's value, which may be null (`None`).  As in .NET,
 * `[StringLength]` and `[RegularExpression]` accept null, `[RegularExpression]` also accepts
 * the empty string and otherwise demands that the pattern match the WHOLE string, and
 * `[Required]` rejects null, the empty string and white-space-only strings.
 */
module Validation {
  import opened Wrappers
  import opened Clr

  predicate IsAsciiLower(c: char) { 'a' <= c <= 'z' }
  predicate IsAsciiUpper(c: char) { 'A' <= c <= 'Z' }
  /** `\d`, restricted to the ASCII digits. */
  predicate IsAsciiDigit(c: char) { '0' <= c <= '9' }

  /** The accented letters of `[a-zA-ZáéíóúÁÉÍÓÚñÑ\s]`. */
  predicate IsSpanishLetter(c: char) {
    c in ['\U{00E1}', '\U{00E9}', '\U{00ED}', '\U{00F3}', '\U{00FA}',
          '\U{00C1}', '\U{00C9}', '\U{00CD}', '\U{00D3}', '\U{00DA}',
          '\U{00F1}', '\U{00D1}']
  }

  /** The character class `[a-zA-ZáéíóúÁÉÍÓÚñÑ\s]` ("letters and spaces"). */
  predicate IsNameChar(c: char) {
    IsAsciiLower(c) || IsAsciiUpper(c) || IsSpanishLetter(c) || IsWhiteSpace(c)
  }

  /** The character classes used inside look-aheads. */
  datatype CharClass = Lower | Upper | Digit

  predicate InClass(k: CharClass, c: char) {
    match k
    case Lower => IsAsciiLower(c)
    case Upper => IsAsciiUpper(c)
    case Digit => IsAsciiDigit(c)
  }

  /** The regular expressions of the annotated properties. */
  datatype Pattern =
    | StrongPassword                      // ^(?=.*[a-z])(?=.*[A-Z])(?=.*\d).{8,}$
    | LettersAndSpaces(min: nat, max: nat) // ^[a-zA-ZáéíóúÁÉÍÓÚñÑ\s]{min,max}$
    | HttpUrl                             // ^(http|https):\/\/ followed by a host and path

  /** `(?=.*[k])` at the start of `s`: some character of class `k` is reachable without crossing a `\n`. */
  predicate LookAhead(s: string, k: CharClass) {
    exists i :: 0 <= i < |s| && InClass(k, s[i]) && forall j :: 0 <= j < i ==> s[j] != '\n'
  }

  /** `.{n,}` spanning all of `s`: at least `n` characters, none of them `\n`. */
  predicate DotRun(s: string, n: nat) {
    |s| >= n && forall j :: 0 <= j < |s| ==> s[j] != '\n'
  }

  predicate StartsWith(s: string, prefix: string) {
    |prefix| <= |s| && s[..|prefix|] == prefix
  }

  /** Does `p` match the whole of `s`? */
  predicate FullMatch(p: Pattern, s: string) {
    match p
    case StrongPassword =>
      LookAhead(s, Lower) && LookAhead(s, Upper) && LookAhead(s, Digit) && DotRun(s, 8)
    case LettersAndSpaces(min, max) =>
      min <= |s| <= max && forall j :: 0 <= j < |s| ==> IsNameChar(s[j])
    case HttpUrl =>
      StartsWith(s, "http://") || StartsWith(s, "https://")
  }

  // ---------------------------------------------------------------------
  // The attributes
  // ---------------------------------------------------------------------

  /** `[Required]`: present and not white space only. */
  predicate Required(v: Option<string>) {
    v.Some? && exists j :: 0 <= j < |v.value| && !IsWhiteSpace(v.value[j])
  }

  /** `[StringLength(max, MinimumLength = min)]`. */
  predicate StringLength(v: Option<string>, min: nat, max: nat) {
    v.None? || min <= |v.value| <= max
  }

  /** `[RegularExpression(p)]`. */
  predicate RegularExpression(v: Option<string>, p: Pattern) {
    v.None? || v.value == [] || FullMatch(p, v.value)
  }

  /** The strong-password pattern in plain terms: 8 or more characters on one line, with a lower-case letter, an upper-case letter and a digit. */
  lemma StrongPasswordMeaning(s: string)
    ensures FullMatch(StrongPassword, s) <==>
      && |s| >= 8
      && (forall j :: 0 <= j < |s| ==> s[j] != '\n')
      && (exists i :: 0 <= i < |s| && IsAsciiLower(s[i]))
      && (exists i :: 0 <= i < |s| && IsAsciiUpper(s[i]))
      && (exists i :: 0 <= i < |s| && IsAsciiDigit(s[i]))
  {
    if FullMatch(StrongPassword, s) {
      var a :| 0 <= a < |s| && InClass(Lower, s[a]);
      var b :| 0 <= b < |s| && InClass(Upper, s[b]);
      var c :| 0 <= c < |s| && InClass(Digit, s[c]);
      assert IsAsciiLower(s[a]) && IsAsciiUpper(s[b]) && IsAsciiDigit(s[c]);
    }
    if |s| >= 8 && (forall j :: 0 <= j < |s| ==> s[j] != '\n') {
      if i :| 0 <= i < |s| && IsAsciiLower(s[i]) {
        assert InClass(Lower, s[i]);
      }
      if i :| 0 <= i < |s| && IsAsciiUpper(s[i]) {
        assert InClass(Upper, s[i]);
      }
      if i :| 0 <= i < |s| && IsAsciiDigit(s[i]) {
        assert InClass(Digit, s[i]);
      }
    }
  }
}
