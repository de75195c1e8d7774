/** Decimal text for array indices: the integer tokens accepted inside `name[...]`
    and the canonical decimal spelling of a number, which is also how an array's
    own keys are spelled when `for...in` enumerates it. */
module Decimal {

  predicate IsDigit(c: char) {
    '0' <= c <= '9'
  }

  predicate AllDigits(s: string) {
    forall i :: 0 <= i < |s| ==> IsDigit(s[i])
  }

  /** An integer index token: an optional minus sign followed by one or more
      decimal digits (leading zeros allowed, as `parseInt` allows them). */
  predicate IsIntToken(s: string)
    ensures IsIntToken(s) <==>
      && s != "" && s != "-"
      && forall i :: 0 <= i < |s| ==> IsDigit(s[i]) || (i == 0 && s[i] == '-')
  {
    if |s| > 0 && s[0] == '-' then |s| > 1 && AllDigits(s[1..])
    else |s| > 0 && AllDigits(s)
  }

  function DigitValue(c: char): (d: nat)
    requires IsDigit(c)
    ensures d < 10
  {
    (c as int) - ('0' as int)
  }

  function DigitChar(d: nat): (c: char)
    requires d < 10
    ensures IsDigit(c) && DigitValue(c) == d
  {
    (('0' as int) + d) as char
  }

  /** The value of a string of decimal digits, most significant first. */
  function ParseNat(s: string): nat
    requires AllDigits(s)
  {
    if s == [] then 0 else 10 * ParseNat(s[..|s| - 1]) + DigitValue(s[|s| - 1])
  }

  /** The value `parseInt(token, 10)` gives an integer token. */
  function ParseInt(s: string): (n: int)
    requires IsIntToken(s)
    ensures n < 0 ==> s[0] == '-'
    ensures s[0] != '-' ==> n >= 0
  {
    if s[0] == '-' then -(ParseNat(s[1..]) as int) else ParseNat(s)
  }

  /** The canonical decimal spelling of a natural number (no leading zeros). */
  function ShowNat(n: nat): (s: string)
    ensures |s| > 0 && AllDigits(s)
    ensures |s| > 1 ==> s[0] != '0'
  {
    if n < 10 then [DigitChar(n)] else ShowNat(n / 10) + [DigitChar(n % 10)]
  }

  /** The spelling `String(n)` gives an integer. */
  function ShowInt(i: int): string {
    if i < 0 then "-" + ShowNat(-i) else ShowNat(i)
  }

  lemma {:induction false} ParseShowNat(n: nat)
    ensures ParseNat(ShowNat(n)) == n
  {
    if n >= 10 {
      var s := ShowNat(n);
      assert s[..|s| - 1] == ShowNat(n / 10);
      ParseShowNat(n / 10);
    }
  }

  /** Reading back the spelling of any integer gives that integer. */
  lemma ParseShowInt(i: int)
    ensures IsIntToken(ShowInt(i))
    ensures ParseInt(ShowInt(i)) == i
  {
    if i < 0 {
      assert ShowInt(i)[1..] == ShowNat(-i);
      ParseShowNat(-i);
    } else {
      ParseShowNat(i);
    }
  }

  /** A string of digits that does not start with `0` has a positive value. */
  lemma {:induction false} ParseNatPositive(s: string)
    requires AllDigits(s) && |s| > 0 && s[0] != '0'
    ensures ParseNat(s) >= 1
  {
    if |s| > 1 {
      ParseNatPositive(s[..|s| - 1]);
    }
  }

  /** A string of digits without leading zeros is the spelling of its value. */
  lemma {:induction false} ShowParseNat(s: string)
    requires AllDigits(s) && |s| > 0 && (|s| > 1 ==> s[0] != '0')
    ensures ShowNat(ParseNat(s)) == s
  {
    if |s| > 1 {
      var init := s[..|s| - 1];
      ParseNatPositive(init);
      ShowParseNat(init);
      var n := ParseNat(s);
      assert n / 10 == ParseNat(init) && n % 10 == DigitValue(s[|s| - 1]);
      assert DigitChar(n % 10) == s[|s| - 1];
      assert s == init + [s[|s| - 1]];
    }
  }

  /** An integer token in canonical form (no leading zeros, no `-0`) is the
      spelling of the integer `parseInt` reads from it. */
  lemma ShowParseInt(s: string)
    requires IsIntToken(s)
    requires s[0] == '-' ==> s[1] != '0'
    requires s[0] != '-' && |s| > 1 ==> s[0] != '0'
    ensures ShowInt(ParseInt(s)) == s
  {
    if s[0] == '-' {
      ShowParseNat(s[1..]);
      ParseNatPositive(s[1..]);
      assert s == "-" + s[1..];
    } else {
      ShowParseNat(s);
    }
  }

  /** Distinct numbers have distinct spellings. */
  lemma ShowNatInjective(a: nat, b: nat)
    ensures ShowNat(a) == ShowNat(b) ==> a == b
  {
    ParseShowNat(a);
    ParseShowNat(b);
  }

  /** The keys `for...in` yields for an array or a string of length `n`. */
  function IndexKeys(n: nat): (keys: set<string>)
    ensures forall i :: 0 <= i < n ==> ShowNat(i) in keys
  {
    set i | 0 <= i < n :: ShowNat(i)
  }

  /** The position an index key names. */
  function KeyIndex(k: string, n: nat): (i: nat)
    requires k in IndexKeys(n)
    ensures i < n && ShowNat(i) == k
  {
    IndexKeyParses(k, n);
    ParseNat(k)
  }

  lemma IndexKeyParses(k: string, n: nat)
    requires k in IndexKeys(n)
    ensures AllDigits(k) && ParseNat(k) < n && ShowNat(ParseNat(k)) == k
  {
    var i :| 0 <= i < n && ShowNat(i) == k;
    ParseShowNat(i);
  }

  /** Enumerating one more position adds exactly that position's key, which is
      new. */
  lemma IndexKeysStep(n: nat)
    ensures IndexKeys(n + 1) == IndexKeys(n) + {ShowNat(n)}
    ensures ShowNat(n) !in IndexKeys(n)
  {
    if ShowNat(n) in IndexKeys(n) {
      var i :| 0 <= i < n && ShowNat(i) == ShowNat(n);
      ShowNatInjective(i, n);
    }
  }
}
