/** The page number the pagination middleware reads from a request
    (`get_page` in core/middleware.py). */
module Pagination {
  import opened Wrappers

  predicate IsDigit(c: char) { '0' <= c <= '9' }

  predicate AllDigits(s: string)
  {
    forall i :: 0 <= i < |s| ==> IsDigit(s[i])
  }

  /** The value of a string of decimal digits, most significant first. */
  function DigitsValue(s: string): nat
    requires AllDigits(s)
  {
    if s == [] then 0
    else DigitsValue(s[..|s| - 1]) * 10 + (s[|s| - 1] as int - '0' as int)
  }

  /** Python's `int(s)` on a string, as an optional `+` or `-` followed by one
      or more decimal digits; anything else is the `ValueError` case. */
  function ParseInt(s: string): (r: Option<int>)
    ensures r.Some? <==> |s| > 0 && AllDigits(s[1..]) && (IsDigit(s[0]) || (s[0] in "+-" && |s| > 1))
    ensures r.Some? && r.value < 0 ==> s[0] == '-'
    ensures r.Some? && s[0] == '-' ==> r.value <= 0
  {
    if |s| > 0 && s[0] in "+-" then
      var body := s[1..];
      if |body| > 0 && AllDigits(body) then
        var magnitude: int := DigitsValue(body);
        Some(if s[0] == '-' then -magnitude else magnitude)
      else None
    else if |s| > 0 && AllDigits(s) then Some(DigitsValue(s))
    else None
  }

  function DigitChar(d: nat): char
    requires d < 10
  {
    ('0' as int + d) as char
  }

  /** The decimal numeral of `n`, without leading zeros. */
  function ShowNat(n: nat): (r: string)
    ensures |r| > 0 && AllDigits(r)
    ensures r[0] != '0' || n == 0
  {
    if n < 10 then [DigitChar(n)] else ShowNat(n / 10) + [DigitChar(n % 10)]
  }

  /** The decimal numeral of `n`, as Python's `str(n)` writes it. */
  function ShowInt(n: int): (r: string)
    ensures |r| > 0
  {
    if n < 0 then "-" + ShowNat(-n) else ShowNat(n)
  }

  lemma {:induction false} DigitsValueOfShowNat(n: nat)
    ensures DigitsValue(ShowNat(n)) == n
  {
    if n >= 10 {
      var s := ShowNat(n);
      assert s[..|s| - 1] == ShowNat(n / 10);
      DigitsValueOfShowNat(n / 10);
    }
  }

  /** Every integer written out in decimal parses back to itself. */
  lemma ParseShowInt(n: int)
    ensures ParseInt(ShowInt(n)) == Some(n)
  {
    if n < 0 {
      var digits := ShowNat(-n);
      DigitsValueOfShowNat(-n);
      assert ShowInt(n) == "-" + digits;
      SignedNumeral('-', digits);
    } else {
      var digits := ShowNat(n);
      DigitsValueOfShowNat(n);
      UnsignedNumeral(digits);
    }
  }

  /** Digits alone: their value. */
  lemma UnsignedNumeral(t: string)
    requires |t| > 0 && AllDigits(t)
    ensures ParseInt(t) == Some(DigitsValue(t))
  {
    assert IsDigit(t[0]) && t[0] !in "+-";
  }

  /** A sign followed by digits: the magnitude, negated for `-`. */
  lemma SignedNumeral(sign: char, t: string)
    requires sign in "+-" && |t| > 0 && AllDigits(t)
    ensures ParseInt([sign] + t) == Some(if sign == '-' then -(DigitsValue(t) as int) else DigitsValue(t))
  {
    var s := [sign] + t;
    assert s[0] == sign && s[1..] == t;
    var magnitude: int := DigitsValue(t);
    assert ParseInt(s) == Some(if sign == '-' then -magnitude else magnitude);
  }

  /** A leading zero does not change the value of a digit string. */
  lemma {:induction false} DigitsValueLeadingZero(t: string)
    requires AllDigits(t)
    ensures AllDigits("0" + t) && DigitsValue("0" + t) == DigitsValue(t)
  {
    if t != [] {
      var z := "0" + t;
      assert z[..|z| - 1] == "0" + t[..|t| - 1];
      DigitsValueLeadingZero(t[..|t| - 1]);
    }
  }

  /** Numerals that are not in canonical form: leading zeros are ignored, a
      leading `+` changes nothing and a leading `-` negates, so `"007"` is 7,
      `"+5"` is 5 and `"-0"` is 0. With `ParseShowInt` this fixes the value of
      every string `ParseInt` accepts. */
  lemma NonCanonicalNumerals(t: string)
    requires |t| > 0 && AllDigits(t)
    ensures ParseInt("0" + t) == ParseInt(t) == Some(DigitsValue(t))
    ensures ParseInt("+" + t) == ParseInt(t)
    ensures ParseInt("-" + t) == Some(-(DigitsValue(t) as int))
  {
    DigitsValueLeadingZero(t);
    UnsignedNumeral("0" + t);
    UnsignedNumeral(t);
    SignedNumeral('+', t);
    SignedNumeral('-', t);
  }

  /** `get_page`: the integer value of the `page` parameter, or 1 when the
      parameter is missing (`KeyError`) or is not an integer (`ValueError`). */
  function GetPage(params: map<string, string>): (r: int)
    ensures "page" !in params ==> r == 1
    ensures "page" in params && ParseInt(params["page"]).None? ==> r == 1
    ensures "page" in params && ParseInt(params["page"]).Some? ==> r == ParseInt(params["page"]).value
    // the converse: any result other than the fallback came from `page`
    ensures r != 1 ==> "page" in params && ParseInt(params["page"]) == Some(r)
  {
    if "page" in params then
      match ParseInt(params["page"])
      case Some(n) => n
      case None => 1
    else 1
  }

  /** A well-formed `page` parameter is returned as it is: zero and negative
      numbers are not clamped to 1. */
  lemma GetPageReturnsParsed(params: map<string, string>, n: int)
    requires "page" in params && params["page"] == ShowInt(n)
    ensures GetPage(params) == n
  {
    ParseShowInt(n);
  }

  /** A `page` value that is empty, a bare sign, or holds a character that is
      neither a digit nor a leading sign falls back to page 1. */
  lemma GetPageMalformed(params: map<string, string>, i: nat)
    requires "page" in params
    requires var v := params["page"]; i < |v| && !IsDigit(v[i]) && (i > 0 || v[i] !in "+-")
    ensures GetPage(params) == 1
  {
  }

  lemma GetPageEmptyOrSign(params: map<string, string>)
    requires "page" in params && params["page"] in ["", "+", "-"]
    ensures GetPage(params) == 1
  {
  }

}
