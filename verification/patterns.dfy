/** The two regular expressions the booking form tests its contact fields
    against, written as predicates over the characters of the string.

    The e-mail test `/\S+@\S+\.\S+/.test(s)` has no anchors: it succeeds when
    SOME substring of `s` is a run of non-space characters, an `@`, a run of
    non-space characters, a `.`, and a run of non-space characters.
    The phone test `/^\d{10}$/.test(s)` is anchored at both ends and has no
    `m` flag, so `s` itself must be exactly ten ASCII digits. */
module Patterns {
  import opened Text

  /** Indices `a <= .. < p` hold the first `\S+`, `p` the `@`, `p+1 .. < q`
      the second `\S+`, `q` the `.`, and `q+1 .. < e` the third `\S+`. */
  predicate EmailMatchAt(s: string, a: int, p: int, q: int, e: int) {
    && 0 <= a < p && p + 1 < q && q + 1 < e <= |s|
    && s[p] == '@' && s[q] == '.'
    && AllNonSpace(s[a..p]) && AllNonSpace(s[p + 1..q]) && AllNonSpace(s[q + 1..e])
  }

  /** The regular-expression semantics of `/\S+@\S+\.\S+/.test(s)`. */
  ghost predicate EmailRegexMatches(s: string) {
    exists a, p, q, e :: EmailMatchAt(s, a, p, q, e)
  }

  /** The shortest possible match around an `@` at `p` and a `.` at `q`: one
      non-space before the `@`, the non-space run between them, one
      non-space after the `.`. */
  predicate EmailCore(s: string, p: int, q: int) {
    && 1 <= p && p + 1 < q && q + 1 < |s|
    && s[p] == '@' && s[q] == '.'
    && !IsSpace(s[p - 1]) && !IsSpace(s[q + 1])
    && AllNonSpace(s[p + 1..q])
  }

  /** The executable form of the e-mail test used by the validator. */
  predicate IsEmailLike(s: string) {
    exists p, q | 0 <= p < |s| && 0 <= q < |s| :: EmailCore(s, p, q)
  }

  /** The executable test accepts exactly the strings the regular expression matches. */
  lemma EmailTestMatchesRegex(s: string)
    ensures IsEmailLike(s) <==> EmailRegexMatches(s)
  {
    if IsEmailLike(s) {
      var p, q :| 0 <= p < |s| && 0 <= q < |s| && EmailCore(s, p, q);
      assert s[p - 1..p] == [s[p - 1]];
      assert s[q + 1..q + 2] == [s[q + 1]];
      assert EmailMatchAt(s, p - 1, p, q, q + 2);
    }
    if EmailRegexMatches(s) {
      var a, p, q, e :| EmailMatchAt(s, a, p, q, e);
      assert s[a..p][p - 1 - a] == s[p - 1];
      assert s[q + 1..e][0] == s[q + 1];
      assert EmailCore(s, p, q);
    }
  }

  /** Any match needs both an `@` and a later `.`. */
  lemma EmailNeedsAtAndDot(s: string)
    requires IsEmailLike(s)
    ensures '@' in s && '.' in s
  {
    var p, q :| 0 <= p < |s| && 0 <= q < |s| && EmailCore(s, p, q);
    assert s[p] == '@' && s[q] == '.';
  }

  /** `/^\d{10}$/.test(s)`. */
  predicate IsTenDigits(s: string) {
    |s| == 10 && forall i :: 0 <= i < |s| ==> IsDigit(s[i])
  }

  /** A string of ten digits is never blank, so the "required" check never
      shadows a well-formed number. */
  lemma TenDigitsNotBlank(s: string)
    requires IsTenDigits(s)
    ensures !IsBlank(s)
  {
    assert !IsSpace(s[0]);
    BlankIffAllSpace(s);
  }

  /** A string the e-mail test accepts is never blank. */
  lemma EmailLikeNotBlank(s: string)
    requires IsEmailLike(s)
    ensures !IsBlank(s)
  {
    var p, q :| 0 <= p < |s| && 0 <= q < |s| && EmailCore(s, p, q);
    assert !IsSpace(s[p]);
    BlankIffAllSpace(s);
  }

  /** The placeholder's address passes; an address without a domain or without an `@` fails. */
  lemma EmailExamples()
    ensures IsEmailLike("john@example.com")
    ensures !IsEmailLike("john@")
    ensures !IsEmailLike("johnexample.com")
  {
    var s := "john@example.com";
    assert s[5..12] == "example";
    assert EmailCore(s, 4, 12);
    if IsEmailLike("john@") {
      EmailNeedsAtAndDot("john@");
    }
    if IsEmailLike("johnexample.com") {
      EmailNeedsAtAndDot("johnexample.com");
    }
  }

  lemma PhoneExamples()
    ensures IsTenDigits("1234567890")
    ensures !IsTenDigits(" 1234567890")
    ensures !IsTenDigits("123-456-7890")
    ensures !IsTenDigits("12345")
  {
  }
}
