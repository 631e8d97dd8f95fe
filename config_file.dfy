/**
  A stand-in for the key/value store the frontend reads and writes its settings
  through (the `ConfigFile` class). Only what gtk_config.cpp relies on is kept:
  a file is a map from "Section::Name" keys to text; integers are written in
  decimal, booleans as the words given to `SetBool`; a getter returns the
  store's fallback when the key is missing or its text does not read back.
 */
module ConfigFile {
  import opened Option

  type ConfigFile = map<string, string>

  /** What `GetInt` yields for a missing or unreadable key. */
  const MissingInt: int := -1
  /** What `GetBool` yields for a missing or unreadable key. */
  const MissingBool: bool := false

  predicate IsDigit(c: char) {
    '0' <= c <= '9'
  }

  predicate AllDigits(s: string) {
    forall k :: 0 <= k < |s| ==> IsDigit(s[k])
  }

  function DigitChar(d: nat): (c: char)
    requires d < 10
    ensures IsDigit(c)
  {
    (('0' as int) + d) as char
  }

  function DigitValue(c: char): (d: nat)
    requires IsDigit(c)
    ensures d < 10 && DigitChar(d) == c
  {
    (c as int) - ('0' as int)
  }

  /** Decimal text of a natural number, most significant digit first, no leading zero. */
  function NatText(n: nat): (s: string)
    ensures |s| > 0 && AllDigits(s)
    ensures n < 10 <==> |s| == 1
    decreases n
  {
    if n < 10 then [DigitChar(n)] else NatText(n / 10) + [DigitChar(n % 10)]
  }

  /** The value of a run of decimal digits. */
  function DigitsValue(s: string): nat
    requires AllDigits(s)
    decreases |s|
  {
    if |s| == 0 then 0 else DigitsValue(s[..|s| - 1]) * 10 + DigitValue(s[|s| - 1])
  }

  lemma {:induction false} DigitsValueOfNatText(n: nat)
    ensures DigitsValue(NatText(n)) == n
    decreases n
  {
    var s := NatText(n);
    if n >= 10 {
      DigitsValueOfNatText(n / 10);
      assert s[..|s| - 1] == NatText(n / 10);
      assert DigitValue(s[|s| - 1]) == n % 10;
    } else {
      assert DigitValue(s[0]) == n;
    }
  }

  /** `SetInt` text: an optional minus sign and the decimal digits. */
  function IntText(i: int): (s: string)
    ensures |s| > 0
  {
    if i < 0 then "-" + NatText(-i) else NatText(i)
  }

  /** Reads back decimal text with an optional leading minus; anything else is unreadable. */
  function ParseInt(s: string): (r: Option<int>)
    ensures r.Some? ==> |s| > 0
    ensures AllDigits(s) && |s| > 0 ==> r == Some(DigitsValue(s))
  {
    if |s| > 1 && s[0] == '-' && AllDigits(s[1..]) then
      var v: int := 0 - DigitsValue(s[1..]) as int; Some(v)
    else if |s| > 0 && AllDigits(s) then Some(DigitsValue(s))
    else None
  }

  lemma {:induction false} ParseIntText(i: int)
    ensures ParseInt(IntText(i)) == Some(i)
  {
    if i < 0 {
      ParseNegativeText(-i);
    } else {
      var s := NatText(i);
      assert IsDigit(s[0]);
      DigitsValueOfNatText(i);
    }
  }

  lemma ParseNegativeText(n: nat)
    requires n > 0
    ensures ParseInt("-" + NatText(n)) == Some(0 - n)
  {
    var s := "-" + NatText(n);
    assert s[1..] == NatText(n);
    DigitsValueOfNatText(n);
  }

  /** The words `outbool` hands to `SetBool` (gtk_config.cpp:232). */
  function BoolText(b: bool): string {
    if b then "true" else "false"
  }

  function ParseBool(s: string): (r: Option<bool>)
    ensures r.Some? <==> s == BoolText(true) || s == BoolText(false)
    ensures r.Some? ==> s == BoolText(r.value)
  {
    if s == "true" then Some(true) else if s == "false" then Some(false) else None
  }

  function GetInt(cf: ConfigFile, key: string): (i: int)
    ensures key !in cf ==> i == MissingInt
  {
    if key in cf then
      match ParseInt(cf[key])
      case Some(v) => v
      case None => MissingInt
    else MissingInt
  }

  function GetBool(cf: ConfigFile, key: string): (b: bool)
    ensures key !in cf ==> b == MissingBool
    ensures b ==> key in cf && cf[key] == BoolText(true)
  {
    if key in cf then
      match ParseBool(cf[key])
      case Some(v) => v
      case None => MissingBool
    else MissingBool
  }

  function GetString(cf: ConfigFile, key: string, default: string): (s: string)
    ensures key in cf ==> s == cf[key]
    ensures key !in cf ==> s == default
  {
    if key in cf then cf[key] else default
  }

  /** What `SetInt` stores is what `GetInt` reads back. */
  lemma {:induction false} IntReadsBack(cf: ConfigFile, key: string, i: int)
    requires key in cf && cf[key] == IntText(i)
    ensures GetInt(cf, key) == i
  {
    ParseIntText(i);
  }
}
