/**
 * Input validators of the portal: the complaint-id check shared by the
 * complaint routes, and the field rules of the user sign-up and sign-in
 * schemas.
 */
module Validators {
  import opened Text

  // ---------------------------------------------------------------- ids

  /** Offsets of the four hyphens of the 8-4-4-4-12 layout of RFC 4122, section 3. */
  predicate IsHyphenSlot(i: int) {
    i == 8 || i == 13 || i == 18 || i == 23
  }

  /**
   * The complaint-id pattern (hex digits in either case, hyphens at the
   * four fixed offsets, nothing else), stated position by position.
   * Version and variant nibbles are not inspected.
   */
  predicate IsUuid(s: string) {
    |s| == 36 && forall i :: 0 <= i < 36 ==> if IsHyphenSlot(i) then s[i] == '-' else IsHexDigit(s[i])
  }

  /** Every character of `s` in `[lo, hi)` is a hex digit. */
  predicate HexSpan(s: string, lo: nat, hi: nat)
    requires lo <= hi <= |s|
  {
    forall i :: lo <= i < hi ==> IsHexDigit(s[i])
  }

  /** The layout read the way the pattern is written: hex groups of the given widths joined by '-'. */
  predicate MatchGroups(s: string, groups: seq<nat>)
    decreases groups
  {
    if groups == [] then s == []
    else
      var g := groups[0];
      && g <= |s|
      && HexSpan(s, 0, g)
      && if |groups| == 1 then |s| == g
         else g < |s| && s[g] == '-' && MatchGroups(s[g + 1..], groups[1..])
  }

  lemma MatchLastGroup(t: string, w: nat)
    ensures MatchGroups(t, [w]) <==> |t| == w && HexSpan(t, 0, w)
  {
  }

  lemma MatchGroupStep(t: string, w: nat, rest: seq<nat>)
    requires rest != []
    ensures MatchGroups(t, [w] + rest) <==>
      w < |t| && HexSpan(t, 0, w) && t[w] == '-' && MatchGroups(t[w + 1..], rest)
  {
    assert ([w] + rest)[1..] == rest;
  }

  /** The group at offset `k` of `s` is the first group of `s[k..]`. */
  lemma HexSpanShift(s: string, k: nat, w: nat)
    requires k + w <= |s|
    ensures HexSpan(s[k..], 0, w) <==> HexSpan(s, k, k + w)
  {
    assert forall i :: 0 <= i < w ==> s[k..][i] == s[k + i];
  }

  /** The five hex groups and four hyphens of a 36-character id, as spans of positions. */
  predicate UuidSpans(s: string)
    requires |s| == 36
  {
    && HexSpan(s, 0, 8) && s[8] == '-' && HexSpan(s, 9, 13) && s[13] == '-'
    && HexSpan(s, 14, 18) && s[18] == '-' && HexSpan(s, 19, 23) && s[23] == '-'
    && HexSpan(s, 24, 36)
  }

  /** Only 36-character strings match the group reading. */
  lemma {:induction false} LayoutHasUuidLength(s: string)
    requires MatchGroups(s, [8, 4, 4, 4, 12])
    ensures |s| == 36
  {
    MatchGroupStep(s, 8, [4, 4, 4, 12]);
    var t1 := s[9..];
    MatchGroupStep(t1, 4, [4, 4, 12]);
    var t2 := t1[5..];
    MatchGroupStep(t2, 4, [4, 12]);
    var t3 := t2[5..];
    MatchGroupStep(t3, 4, [12]);
    MatchLastGroup(t3[5..], 12);
  }

  lemma UuidBySpans(s: string)
    requires |s| == 36
    ensures IsUuid(s) <==> UuidSpans(s)
  {
  }

  lemma {:induction false} LayoutBySpans(s: string)
    requires |s| == 36
    ensures MatchGroups(s, [8, 4, 4, 4, 12]) <==> UuidSpans(s)
  {
    var t1, t2, t3, t4 := s[9..], s[14..], s[19..], s[24..];
    assert t1[5..] == t2 && t2[5..] == t3 && t3[5..] == t4;
    assert t1[4] == s[13] && t2[4] == s[18] && t3[4] == s[23];
    MatchGroupStep(s, 8, [4, 4, 4, 12]);
    MatchGroupStep(t1, 4, [4, 4, 12]);
    MatchGroupStep(t2, 4, [4, 12]);
    MatchGroupStep(t3, 4, [12]);
    MatchLastGroup(t4, 12);
    HexSpanShift(s, 9, 4);
    HexSpanShift(s, 14, 4);
    HexSpanShift(s, 19, 4);
    HexSpanShift(s, 24, 12);
  }

  /** The positional predicate and the group-by-group reading accept the same strings. */
  lemma {:induction false} UuidMatchesLayout(s: string)
    ensures IsUuid(s) <==> MatchGroups(s, [8, 4, 4, 4, 12])
  {
    if MatchGroups(s, [8, 4, 4, 4, 12]) {
      LayoutHasUuidLength(s);
    }
    if |s| == 36 {
      UuidBySpans(s);
      LayoutBySpans(s);
    }
  }

  /** The pattern carries the `i` flag: lower-casing an id never changes the verdict. */
  lemma UuidIgnoresCase(s: string)
    ensures IsUuid(s) <==> IsUuid(ToLower(s))
  {
    var l := ToLower(s);
    if |s| == 36 {
      assert forall i :: 0 <= i < 36 ==> (IsHexDigit(s[i]) <==> IsHexDigit(l[i])) && (s[i] == '-' <==> l[i] == '-');
    }
  }

  // ---------------------------------------------------------------- phone numbers

  /** `\d{lo,hi}` matched against the whole of `s`. */
  predicate DigitRun(s: string, lo: nat, hi: nat) {
    lo <= |s| <= hi && forall i :: 0 <= i < |s| ==> IsDigit(s[i])
  }

  /** `[1-9]\d{1,14}` matched against the whole of `s`. */
  predicate PhoneBody(s: string) {
    |s| >= 1 && '1' <= s[0] <= '9' && DigitRun(s[1..], 1, 14)
  }

  /** The sign-up phone pattern `^\+?[1-9]\d{1,14}$`: the optional '+' is tried taken, then skipped. */
  predicate MatchesPhone(s: string) {
    (|s| > 0 && s[0] == '+' && PhoneBody(s[1..])) || PhoneBody(s)
  }

  /** What follows an optional leading '+'. */
  function PhoneDigits(s: string): (d: string)
    ensures |s| > 0 && s[0] == '+' ==> |d| == |s| - 1
  {
    if |s| > 0 && s[0] == '+' then s[1..] else s
  }

  /**
   * The shape of an ITU-T E.164 number as the pattern sees it: an optional
   * '+', then 2 to 15 decimal digits of which the first is not 0.
   */
  predicate IsE164Shape(s: string) {
    var d := PhoneDigits(s);
    2 <= |d| <= 15 && d[0] != '0' && forall i :: 0 <= i < |d| ==> IsDigit(d[i])
  }

  /** The pattern accepts exactly the E.164-shaped strings. */
  lemma PhonePatternIsE164Shape(s: string)
    ensures MatchesPhone(s) <==> IsE164Shape(s)
  {
    var d := PhoneDigits(s);
    if |s| > 0 && s[0] == '+' {
      assert !PhoneBody(s);
    }
    if |d| >= 1 {
      assert forall i :: 1 <= i < |d| ==> d[i] == d[1..][i - 1];
    }
  }

  /** A phone number never matches with a 0 right after the optional '+'. */
  lemma PhoneRejectsLeadingZero(s: string)
    requires |PhoneDigits(s)| > 0 && PhoneDigits(s)[0] == '0'
    ensures !MatchesPhone(s)
  {
    PhonePatternIsE164Shape(s);
  }

  /** Any character other than a digit, apart from one leading '+', makes the pattern fail. */
  lemma PhoneRejectsNonDigit(s: string, k: nat)
    requires k < |PhoneDigits(s)| && !IsDigit(PhoneDigits(s)[k])
    ensures !MatchesPhone(s)
  {
    PhonePatternIsE164Shape(s);
  }

  // ---------------------------------------------------------------- account schemas

  datatype SignupField = EmailField | PhoneField | NameField | PasswordField

  /**
   * Fields `signupSchema` reports, in declaration order. `emailOk` is the
   * verdict of the schema library's e-mail check, which is not modelled.
   */
  function SignupIssues(emailOk: bool, phone: string, name: string, password: string): (r: seq<SignupField>)
    ensures EmailField in r <==> !emailOk
    ensures PhoneField in r <==> !IsE164Shape(phone)
    ensures NameField in r <==> |name| < 1
    ensures PasswordField in r <==> |password| < 8
    ensures r == [] <==> emailOk && IsE164Shape(phone) && |name| >= 1 && |password| >= 8
  {
    PhonePatternIsE164Shape(phone);
    (if emailOk then [] else [EmailField])
    + (if MatchesPhone(phone) then [] else [PhoneField])
    + (if |name| >= 1 then [] else [NameField])
    + (if |password| >= 8 then [] else [PasswordField])
  }

  /** Fields `signinSchema` reports: the e-mail check and a non-empty password. */
  function SigninIssues(emailOk: bool, password: string): (r: seq<SignupField>)
    ensures EmailField in r <==> !emailOk
    ensures PasswordField in r <==> |password| == 0
    ensures PhoneField !in r && NameField !in r
  {
    (if emailOk then [] else [EmailField]) + (if |password| >= 1 then [] else [PasswordField])
  }

  /**
   * Sign-in is strictly weaker than sign-up: whatever passes sign-up
   * passes sign-in, any non-empty password passes sign-in with a valid
   * e-mail, and a one-character password passes sign-in but never sign-up.
   */
  lemma SigninWeakerThanSignup(emailOk: bool, phone: string, name: string, password: string)
    ensures SignupIssues(emailOk, phone, name, password) == [] ==> SigninIssues(emailOk, password) == []
    ensures emailOk && |password| > 0 ==> SigninIssues(emailOk, password) == []
    ensures SigninIssues(true, "x") == [] && SignupIssues(true, phone, name, "x") != []
  {
  }
}
