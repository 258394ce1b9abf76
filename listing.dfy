/**
 * Arithmetic of the public complaint listing (`GET /` of the complaint
 * routes): page and limit parsing and clamping, offset, page count and
 * navigation flags, the choice of sort keys, and description truncation.
 * Query-string values are strings; an absent one takes the route's default.
 */
module Listing {
  import opened Wrappers
  import opened Text

  // ---------------------------------------------------------------- parseInt

  predicate IsRadixDigit(c: char, hex: bool) {
    IsDigit(c) || (hex && IsHexDigit(c))
  }

  function DigitValue(c: char): (v: nat)
    requires IsHexDigit(c)
    ensures v < 16 && (IsDigit(c) ==> v < 10)
  {
    if IsDigit(c) then c as int - '0' as int
    else if 'a' <= c <= 'f' then c as int - 'a' as int + 10
    else c as int - 'A' as int + 10
  }

  /** Length of the longest prefix of digits of the radix. */
  function LeadingDigits(s: string, hex: bool): (n: nat)
    ensures n <= |s|
    ensures forall i :: 0 <= i < n ==> IsRadixDigit(s[i], hex)
    ensures n < |s| ==> !IsRadixDigit(s[n], hex)
  {
    if s == [] || !IsRadixDigit(s[0], hex) then 0 else 1 + LeadingDigits(s[1..], hex)
  }

  /** Positional value of a digit string in base 10 or 16. */
  function ValueOf(digits: string, hex: bool): nat
    requires forall i :: 0 <= i < |digits| ==> IsRadixDigit(digits[i], hex)
  {
    if digits == [] then 0
    else
      var last := digits[|digits| - 1];
      assert IsRadixDigit(last, hex);
      ValueOf(digits[..|digits| - 1], hex) * (if hex then 16 else 10) + DigitValue(last)
  }

  /** What `parseInt` reads after the sign: a `0x`/`0X` prefix selects base 16; no digit at all is NaN (`None`). */
  function ParseMagnitude(u: string): Option<nat>
  {
    var hex := |u| >= 2 && u[0] == '0' && (u[1] == 'x' || u[1] == 'X');
    var body := if hex then u[2..] else u;
    var n := LeadingDigits(body, hex);
    if n == 0 then None else Some(ValueOf(body[..n], hex))
  }

  /** What `parseInt` reads from text that starts after the white space: one optional sign, then the magnitude. */
  function ParseSigned(t: string): Option<int>
  {
    var negative := |t| > 0 && t[0] == '-';
    var u := if |t| > 0 && (t[0] == '-' || t[0] == '+') then t[1..] else t;
    match ParseMagnitude(u)
    case None => None
    case Some(v) => Some(if negative then -(v as int) else v as int)
  }

  /**
   * JavaScript `parseInt(s)` without a radix: leading white space is
   * skipped, one sign is read, and then the longest run of digits.
   */
  function ParseInt(s: string): Option<int>
  {
    ParseSigned(TrimStart(s))
  }

  lemma {:induction false} AllDigitsLead(s: string, hex: bool)
    requires forall i :: 0 <= i < |s| ==> IsRadixDigit(s[i], hex)
    ensures LeadingDigits(s, hex) == |s|
  {
    if s != [] {
      AllDigitsLead(s[1..], hex);
    }
  }

  /** A digit is not white space, so nothing is trimmed before it. */
  lemma TrimStartAtDigit(s: string)
    requires |s| > 0 && IsDigit(s[0])
    ensures TrimStart(s) == s
  {
    assert !IsSpace(s[0]);
  }

  /** A digit string with no `0x` prefix reads in base 10, in full. */
  lemma MagnitudeOfDecimal(digits: string)
    requires |digits| > 0 && forall i :: 0 <= i < |digits| ==> IsDigit(digits[i])
    ensures ParseMagnitude(digits) == Some(ValueOf(digits, false))
  {
    assert |digits| >= 2 ==> IsDigit(digits[1]);
    AllDigitsLead(digits, false);
    assert digits[..|digits|] == digits;
  }

  /** A plain string of decimal digits parses to its decimal value. */
  lemma ParseDecimal(digits: string)
    requires |digits| > 0 && forall i :: 0 <= i < |digits| ==> IsDigit(digits[i])
    ensures ParseInt(digits) == Some(ValueOf(digits, false))
  {
    TrimStartAtDigit(digits);
    MagnitudeOfDecimal(digits);
  }

  /** `parseInt(s) || fallback`: NaN and 0 are both falsy. */
  function ParseIntOr(s: string, fallback: int): (n: int)
    ensures ParseInt(s).Some? && ParseInt(s).value != 0 ==> n == ParseInt(s).value
    ensures ParseInt(s).None? || ParseInt(s) == Some(0) ==> n == fallback
  {
    match ParseInt(s)
    case Some(n) => if n != 0 then n else fallback
    case None => fallback
  }

  /** Leading white space does not change what `parseInt` reads. */
  lemma ParseIntSkipsSpace(ws: string, s: string)
    requires forall i :: 0 <= i < |ws| ==> IsSpace(ws[i])
    ensures ParseInt(ws + s) == ParseInt(s)
  {
    LeadingSpaceAfterSpace(ws, s);
    assert (ws + s)[|ws| + LeadingSpace(s)..] == s[LeadingSpace(s)..];
    assert TrimStart(ws + s) == TrimStart(s);
  }

  /** The value `parseInt` gives text that starts with the sign `c`. */
  lemma {:induction false} SignedText(c: char, t: string)
    requires c == '+' || c == '-'
    ensures ParseInt([c] + t) ==
      match ParseMagnitude(t) case None => None case Some(v) => Some(if c == '-' then -(v as int) else v as int)
  {
    var u := [c] + t;
    assert !IsSpace(u[0]);
    assert TrimStart(u) == u;
    assert u[1..] == t;
  }

  /** One sign in front of the digits: `-` negates, `+` changes nothing; a second sign is NaN. */
  lemma ParseIntSign(t: string)
    ensures ParseInt("+" + t) == match ParseMagnitude(t) case None => None case Some(v) => Some(v as int)
    ensures ParseInt("-" + t) == match ParseMagnitude(t) case None => None case Some(v) => Some(-(v as int))
    ensures ParseInt("-" + ("-" + t)) == None && ParseInt("+" + ("-" + t)) == None
  {
    SignedText('+', t);
    SignedText('-', t);
    SignedText('-', "-" + t);
    SignedText('+', "-" + t);
    MagnitudeAtSign("-" + t);
  }

  /** No digits follow when the text after the sign starts with another sign. */
  lemma MagnitudeAtSign(u: string)
    requires |u| > 0 && u[0] == '-'
    ensures ParseMagnitude(u) == None
  {
    assert LeadingDigits(u, false) == 0;
  }

  /** A `0x` prefix followed by hexadecimal digits reads them in base 16. */
  lemma MagnitudeOfHex(digits: string)
    requires |digits| > 0 && forall i :: 0 <= i < |digits| ==> IsHexDigit(digits[i])
    ensures ParseMagnitude("0x" + digits) == Some(ValueOf(digits, true))
  {
    assert ("0x" + digits)[2..] == digits;
    AllDigitsLead(digits, true);
    assert digits[..|digits|] == digits;
  }

  /** `parseInt` of `0x` and hexadecimal digits is their base-16 value. */
  lemma ParseHex(digits: string)
    requires |digits| > 0 && forall i :: 0 <= i < |digits| ==> IsHexDigit(digits[i])
    ensures ParseInt("0x" + digits) == Some(ValueOf(digits, true))
  {
    TrimStartAtDigit("0x" + digits);
    MagnitudeOfHex(digits);
  }

  // ---------------------------------------------------------------- page and limit

  /** `Math.max(1, parseInt(page) || 1)`, with `page` defaulting to "1". */
  function PageNumber(page: Option<string>): (p: int)
    ensures p >= 1
    ensures page.Some? && ParseInt(page.value).Some? && ParseInt(page.value).value >= 1 ==> p == ParseInt(page.value).value
    ensures page.None? || ParseInt(page.value).None? || ParseInt(page.value).value < 1 ==> p == 1
  {
    // the default "1" parses to 1
    var n := if page.None? then 1 else ParseIntOr(page.value, 1);
    if n < 1 then 1 else n
  }

  /** `Math.min(50, Math.max(1, parseInt(limit) || 10))`, with `limit` defaulting to "10". */
  function LimitNumber(limit: Option<string>): (l: int)
    ensures 1 <= l <= 50
    ensures limit.None? ==> l == 10
    ensures limit.Some? ==> match ParseInt(limit.value)
      case None => l == 10
      case Some(n) => l == (if n == 0 then 10 else if n < 1 then 1 else if n > 50 then 50 else n)
  {
    // the default "10" parses to 10
    var n := if limit.None? then 10 else ParseIntOr(limit.value, 10);
    if n < 1 then 1 else if n > 50 then 50 else n
  }

  /** Rows skipped before the page. */
  function Offset(page: int, limit: int): (o: int)
    requires page >= 1 && limit >= 1
    ensures o >= 0 && (o == 0 <==> page == 1)
  {
    (page - 1) * limit
  }

  /** `Math.ceil(total / limit)`. */
  function TotalPages(total: nat, limit: int): (n: nat)
    requires limit >= 1
    ensures (n - 1) * limit < total <= n * limit || (total == 0 && n == 0)
  {
    (total + limit - 1) / limit
  }

  lemma MulMonotone(a: int, b: int, c: int)
    requires a <= b && c >= 0
    ensures a * c <= b * c
  {
  }

  /** `hasNext` holds exactly when rows remain after the current page. */
  lemma HasNextIffRowsRemain(page: int, limit: int, total: nat)
    requires page >= 1 && limit >= 1
    ensures page < TotalPages(total, limit) <==> Offset(page, limit) + limit < total
  {
    var n := TotalPages(total, limit);
    if page < n {
      MulMonotone(page, n - 1, limit);
    } else {
      MulMonotone(n, page, limit);
    }
  }

  /** A page that starts before the last row is one of the counted pages. */
  lemma PageWithinCount(page: int, limit: int, total: nat)
    requires page >= 1 && limit >= 1 && Offset(page, limit) < total
    ensures page <= TotalPages(total, limit)
  {
    var n := TotalPages(total, limit);
    if page > n {
      MulMonotone(n, page - 1, limit);
    }
  }

  datatype Pagination = Pagination(currentPage: int, totalPages: nat, totalCount: nat, hasNext: bool, hasPrev: bool)

  datatype ListingReply = NoneFound | Listed(offset: int, rows: nat, pagination: Pagination)

  /**
   * The listing for `total` matching complaints: the rows the page query
   * returns and the pagination block; an empty page is answered with 404.
   */
  function List(page: Option<string>, limit: Option<string>, total: nat): (r: ListingReply)
    ensures r.Listed? ==> 1 <= r.rows <= LimitNumber(limit) && r.offset + r.rows <= total
    ensures r.Listed? ==> 1 <= r.pagination.currentPage <= r.pagination.totalPages
    ensures r.Listed? ==> (r.pagination.hasNext <==> r.offset + r.rows < total)
    ensures r.Listed? ==> (r.pagination.hasPrev <==> r.offset > 0)
    ensures r.NoneFound? <==> Offset(PageNumber(page), LimitNumber(limit)) >= total
    ensures r.Listed? ==>
      var p := PageNumber(page);
      var l := LimitNumber(limit);
      && r.offset == Offset(p, l)
      && r.rows == (if total - r.offset < l then total - r.offset else l)
      && r.pagination.currentPage == p
      && r.pagination.totalPages == TotalPages(total, l)
      && r.pagination.totalCount == total
      && (r.pagination.hasNext <==> p < r.pagination.totalPages)
      && (r.pagination.hasPrev <==> p > 1)
  {
    var p := PageNumber(page);
    var l := LimitNumber(limit);
    var offset := Offset(p, l);
    var rows := if offset >= total then 0 else if total - offset < l then total - offset else l;
    if rows == 0 then NoneFound
    else
      var pages := TotalPages(total, l);
      HasNextIffRowsRemain(p, l, total);
      PageWithinCount(p, l, total);
      Listed(offset, rows, Pagination(p, pages, total, p < pages, p > 1))
  }

  // ---------------------------------------------------------------- sorting

  /** Columns the listing can be ordered by; every key sorts descending. */
  datatype SortKey = SubmissionDate | UpvoteCount | Urgency

  /** The `orderBy` chosen from `sortBy` (default "recent"; unknown values also sort by date). */
  function OrderBy(sortBy: Option<string>): (keys: seq<SortKey>)
    ensures keys == [UpvoteCount] <==> sortBy == Some("upvotes")
    ensures keys == [Urgency, SubmissionDate] <==> sortBy == Some("urgent")
    ensures keys == [SubmissionDate] <==> sortBy != Some("upvotes") && sortBy != Some("urgent")
    ensures keys[|keys| - 1] != Urgency
  {
    match sortBy.GetOr("recent")
    case "upvotes" => [UpvoteCount]
    case "urgent" => [Urgency, SubmissionDate]
    case _ => [SubmissionDate]
  }

  // ---------------------------------------------------------------- descriptions

  /** Listing description: more than 100 characters become the first 100 followed by "...". */
  function Truncate(d: string): (r: string)
    ensures |r| == if |d| <= 100 then |d| else 103
    ensures |d| <= 100 ==> r == d
    ensures |d| > 100 ==> d[..100] <= r && r[100..] == "..."
  {
    if |d| > 100 then d[..100] + "..." else d
  }

  /** Truncating a truncated description changes nothing. */
  lemma TruncateIdempotent(d: string)
    ensures Truncate(Truncate(d)) == Truncate(d)
  {
    if |d| > 100 {
      assert Truncate(d)[..100] == d[..100];
    }
  }
}
