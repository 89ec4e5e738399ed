/**
 * Coin amounts as text: the thousands formatter, the coin-string parser with
 * its k/m/b suffixes, and the scan of the scoreboard for the purse line.
 * Numbers are exact (`real`); floating-point rounding is not modelled.
 */
module Coins {
  import opened Wrappers

  // ---------------------------------------------------------------------------
  // Decimal digits
  // ---------------------------------------------------------------------------

  /** An ASCII decimal digit, what `\d` matches in a JavaScript regular expression. */
  predicate IsDigit(c: char) { '0' <= c <= '9' }

  predicate AllDigits(s: string) { forall c :: c in s ==> IsDigit(c) }

  function DigitChar(d: nat): (c: char)
    requires d < 10
    ensures IsDigit(c)
  {
    (('0' as int) + d) as char
  }

  function DigitValue(c: char): (d: nat)
    requires IsDigit(c)
    ensures d < 10
  {
    c as int - '0' as int
  }

  function Pow10(k: nat): (p: nat)
    ensures p >= 1
  {
    if k == 0 then 1 else 10 * Pow10(k - 1)
  }

  /** The decimal digits of `n` as `Number.prototype.toString` writes an integer. */
  function Digits(n: nat): (s: string)
    ensures |s| >= 1 && AllDigits(s)
  {
    if n < 10 then [DigitChar(n)] else Digits(n / 10) + [DigitChar(n % 10)]
  }

  /** The number a string of decimal digits denotes (0 for the empty string). */
  function DigitsValue(ds: string): nat
    requires AllDigits(ds)
  {
    if ds == [] then 0 else DigitsValue(ds[..|ds| - 1]) * 10 + DigitValue(ds[|ds| - 1])
  }

  lemma {:induction false} DigitsValueOfDigits(n: nat)
    ensures DigitsValue(Digits(n)) == n
  {
    if n >= 10 {
      var d := Digits(n);
      assert d[..|d| - 1] == Digits(n / 10);
      DigitsValueOfDigits(n / 10);
    }
  }

  /** `Digits(n)` has at most `k` characters exactly when `n < 10^k`. */
  lemma {:induction false} DigitsLength(n: nat, k: nat)
    requires k >= 1
    ensures |Digits(n)| <= k <==> n < Pow10(k)
  {
    if n >= 10 {
      if k == 1 {
        assert |Digits(n)| >= 2;
      } else {
        DigitsLength(n / 10, k - 1);
        assert n / 10 < Pow10(k - 1) <==> n < Pow10(k);
      }
    } else {
      assert Pow10(k) >= 10 by { assert Pow10(k) == 10 * Pow10(k - 1); }
    }
  }

  // ---------------------------------------------------------------------------
  // formatNumber
  // ---------------------------------------------------------------------------

  /** The string with every ',' deleted. */
  function RemoveCommas(s: string): string
  {
    if s == [] then []
    else RemoveCommas(s[..|s| - 1]) + (if s[|s| - 1] == ',' then [] else [s[|s| - 1]])
  }

  /** No comma is left, and every other character is kept. */
  lemma {:induction false} RemoveCommasNoneLeft(s: string)
    ensures forall c :: c in RemoveCommas(s) <==> c in s && c != ','
  {
    if s != [] {
      RemoveCommasNoneLeft(s[..|s| - 1]);
      assert s == s[..|s| - 1] + [s[|s| - 1]];
    }
  }

  lemma {:induction false} RemoveCommasAppend(a: string, b: string)
    ensures RemoveCommas(a + b) == RemoveCommas(a) + RemoveCommas(b)
  {
    if b != [] {
      assert (a + b)[..|a + b| - 1] == a + b[..|b| - 1];
      RemoveCommasAppend(a, b[..|b| - 1]);
    } else {
      assert a + b == a;
    }
  }

  lemma {:induction false} RemoveCommasNoComma(s: string)
    requires ',' !in s
    ensures RemoveCommas(s) == s
  {
    if s != [] {
      RemoveCommasNoComma(s[..|s| - 1]);
      assert s == s[..|s| - 1] + [s[|s| - 1]];
    }
  }

  lemma RemoveCommasOfDigits(ds: string)
    requires AllDigits(ds)
    ensures RemoveCommas(ds) == ds
  {
    RemoveCommasNoComma(ds);
  }

  /**
   * A comma before every position whose remaining digits are a positive
   * multiple of three, which is what the regular expression
   * `\B(?=(\d{3})+(?!\d))` selects in a string of digits.
   */
  function Group(ds: string): string
  {
    if |ds| <= 3 then ds else Group(ds[..|ds| - 3]) + "," + ds[|ds| - 3..]
  }

  /** `formatNumber` on an integer: a minus sign is a word boundary, so no comma follows it. */
  function FormatNumber(n: int): string
  {
    if n < 0 then "-" + Group(Digits(-n)) else Group(Digits(n))
  }

  /** A first group of one to three digits, then groups of exactly three, separated by commas. */
  predicate WellGrouped(s: string)
  {
    if |s| <= 3 then 1 <= |s| && AllDigits(s)
    else |s| >= 5 && s[|s| - 4] == ',' && AllDigits(s[|s| - 3..]) && WellGrouped(s[..|s| - 4])
  }

  lemma AllDigitsSlice(ds: string, i: nat, j: nat)
    requires AllDigits(ds) && i <= j <= |ds|
    ensures AllDigits(ds[i..j])
  {
    forall c | c in ds[i..j]
      ensures IsDigit(c)
    {
      var k :| 0 <= k < j - i && ds[i..j][k] == c;
      assert ds[i + k] == c;
    }
  }

  /** A comma between two runs disappears. */
  lemma RemoveCommasJoin(g: string, tail: string)
    ensures RemoveCommas(g + [','] + tail) == RemoveCommas(g) + RemoveCommas(tail)
  {
    var gc := g + [','];
    RemoveCommasAppend(gc, tail);
    assert gc[..|gc| - 1] == g && gc[|gc| - 1] == ',';
    assert RemoveCommas(gc) == RemoveCommas(g) + [];
  }

  lemma {:induction false} GroupRemoveCommas(ds: string)
    requires AllDigits(ds)
    ensures RemoveCommas(Group(ds)) == ds
  {
    if |ds| <= 3 {
      RemoveCommasOfDigits(ds);
    } else {
      var head, tail := ds[..|ds| - 3], ds[|ds| - 3..];
      AllDigitsSlice(ds, 0, |ds| - 3);
      AllDigitsSlice(ds, |ds| - 3, |ds|);
      assert ds[0..|ds| - 3] == head && ds[|ds| - 3..|ds|] == tail;
      assert Group(ds) == Group(head) + "," + tail;
      GroupRemoveCommas(head);
      RemoveCommasOfDigits(tail);
      RemoveCommasJoin(Group(head), tail);
      assert head + tail == ds;
    }
  }

  lemma {:induction false} GroupWellGrouped(ds: string)
    requires AllDigits(ds) && |ds| >= 1
    ensures WellGrouped(Group(ds))
  {
    if |ds| > 3 {
      var head, tail := ds[..|ds| - 3], ds[|ds| - 3..];
      GroupWellGrouped(head);
      var g := Group(ds);
      var gh := Group(head);
      assert g == gh + "," + tail;
      assert |gh| >= 1 && |g| == |gh| + 4;
      assert g[..|g| - 4] == gh;
      assert g[|g| - 3..] == tail;
      assert g[|g| - 4] == ',';
      assert AllDigits(tail) by {
        forall c | c in tail ensures IsDigit(c) { assert c in ds; }
      }
    }
  }

  /** Deleting the commas from `formatNumber(n)` gives back the decimal digits of `n`. */
  lemma FormatNumberDigits(n: nat)
    ensures RemoveCommas(FormatNumber(n)) == Digits(n)
  {
    GroupRemoveCommas(Digits(n));
  }

  /** The groups of `formatNumber(n)` are one to three digits, then exactly three each. */
  lemma FormatNumberGroups(n: nat)
    ensures WellGrouped(FormatNumber(n))
  {
    GroupWellGrouped(Digits(n));
  }

  /** `formatNumber(n)` holds a comma exactly when `n` is at least 1000. */
  lemma FormatNumberCommaIff(n: nat)
    ensures ',' in FormatNumber(n) <==> n >= 1000
  {
    var ds := Digits(n);
    DigitsLength(n, 3);
    assert Pow10(3) == 1000;
    if |ds| <= 3 {
      assert FormatNumber(n) == ds;
      assert forall k :: 0 <= k < |ds| ==> IsDigit(ds[k]);
    } else {
      var g := Group(ds);
      assert g == Group(ds[..|ds| - 3]) + "," + ds[|ds| - 3..];
      assert g[|Group(ds[..|ds| - 3])|] == ',';
    }
  }

  // ---------------------------------------------------------------------------
  // parseFloat on strings of digits and dots, and parseCoins
  // ---------------------------------------------------------------------------

  /** The length of the leading run of digits. */
  function DigitRun(s: string): (r: nat)
    ensures r <= |s| && AllDigits(s[..r])
    ensures r < |s| ==> !IsDigit(s[r])
  {
    if s == [] || !IsDigit(s[0]) then 0
    else
      var r := 1 + DigitRun(s[1..]);
      assert s[..r] == [s[0]] + s[1..][..r - 1];
      r
  }

  lemma DigitRunOfDigits(s: string)
    requires AllDigits(s)
    ensures DigitRun(s) == |s|
  {
  }

  /** The digits before the first non-digit. */
  function IntegerPart(s: string): (r: string)
    ensures AllDigits(r)
  {
    s[..DigitRun(s)]
  }

  /** The digits after a '.' that directly follows the integer part, up to the next non-digit. */
  function FractionPart(s: string): (r: string)
    ensures AllDigits(r)
  {
    var i := DigitRun(s);
    if i < |s| && s[i] == '.' then IntegerPart(s[i + 1..]) else ""
  }

  /**
   * `parseFloat` on a string that starts with digits and dots: the digits up to
   * the first '.', then the digits after it up to the next non-digit. The
   * result is NaN (`None`) when neither part has a digit.
   */
  function ParseFloat(s: string): (r: Option<real>)
    ensures s == [] ==> r == None
    ensures r.None? <==> (s == [] || (!IsDigit(s[0]) && !(s[0] == '.' && |s| > 1 && IsDigit(s[1]))))
  {
    var ip, fp := IntegerPart(s), FractionPart(s);
    if ip == [] && fp == [] then None
    else Some(DigitsValue(ip) as real + DigitsValue(fp) as real / Pow10(|fp|) as real)
  }

  lemma {:induction false} DigitRunUpTo(a: string, t: string)
    requires AllDigits(a)
    requires t == [] || !IsDigit(t[0])
    ensures DigitRun(a + t) == |a|
  {
    if a != [] {
      assert (a + t)[1..] == a[1..] + t;
      DigitRunUpTo(a[1..], t);
    } else {
      assert a + t == t;
    }
  }

  lemma IntegerPartUpTo(a: string, t: string)
    requires AllDigits(a)
    requires t == [] || !IsDigit(t[0])
    ensures IntegerPart(a + t) == a
  {
    DigitRunUpTo(a, t);
    assert (a + t)[..|a|] == a;
  }

  /** `parseFloat` of a string of digits is the number they spell. */
  lemma ParseFloatDigits(a: string)
    requires AllDigits(a) && a != []
    ensures ParseFloat(a) == Some(DigitsValue(a) as real)
  {
    assert a + [] == a;
    IntegerPartUpTo(a, []);
    DigitRunOfDigits(a);
  }

  lemma FractionPartUpTo(a: string, b: string, t: string)
    requires AllDigits(a) && AllDigits(b)
    requires t == [] || !IsDigit(t[0])
    ensures FractionPart(a + "." + b + t) == b
  {
    var s := a + "." + b + t;
    assert s == a + ("." + b + t);
    DigitRunUpTo(a, "." + b + t);
    assert s[|a| + 1..] == b + t;
    IntegerPartUpTo(b, t);
  }

  lemma FractionPartAfterDot(a: string, b: string)
    requires AllDigits(a) && AllDigits(b)
    ensures FractionPart(a + "." + b) == b
  {
    assert a + "." + b + [] == a + "." + b;
    FractionPartUpTo(a, b, []);
  }

  lemma ParseFloatOfParts(s: string, a: string, b: string)
    requires IntegerPart(s) == a && FractionPart(s) == b && a != []
    ensures ParseFloat(s) == Some(DigitsValue(a) as real + DigitsValue(b) as real / Pow10(|b|) as real)
  {
  }

  /**
   * `parseFloat` reads digits, a dot and digits and stops at the first
   * character that cannot continue the number, a second dot included.
   */
  lemma ParseFloatPrefix(a: string, b: string, t: string)
    requires AllDigits(a) && AllDigits(b) && a != []
    requires t == [] || !IsDigit(t[0])
    ensures ParseFloat(a + "." + b + t) ==
              Some(DigitsValue(a) as real + DigitsValue(b) as real / Pow10(|b|) as real)
  {
    var u := "." + b + t;
    var s := a + u;
    assert a + "." + b + t == s;
    assert IntegerPart(s) == a by { IntegerPartUpTo(a, u); }
    assert FractionPart(s) == b by {
      FractionPartUpTo(a, b, t);
      assert a + "." + b + t == s;
    }
    ParseFloatOfParts(s, a, b);
  }

  /** `parseFloat` of digits, a dot and digits is the decimal number they spell. */
  lemma ParseFloatDecimal(a: string, b: string)
    requires AllDigits(a) && AllDigits(b) && a != []
    ensures ParseFloat(a + "." + b) ==
              Some(DigitsValue(a) as real + DigitsValue(b) as real / Pow10(|b|) as real)
  {
    var s := a + "." + b;
    assert s == a + ("." + b);
    IntegerPartUpTo(a, "." + b);
    FractionPartAfterDot(a, b);
    ParseFloatOfParts(s, a, b);
  }

  /** The factor a trailing k/K, m/M or b/B stands for, and 0 for every other character. */
  function Multiplier(c: char): nat
  {
    if c == 'k' || c == 'K' then 1000
    else if c == 'm' || c == 'M' then 1000000
    else if c == 'b' || c == 'B' then 1000000000
    else 0
  }

  /**
   * `parseCoins`: delete the thousands commas, scale by a trailing suffix,
   * parse the rest, and give 0 for NaN (`value || 0`).
   */
  function ParseCoins(s: string): real
  {
    match Scaled(RemoveCommas(s))
    case Some(x) => x
    case None => 0.0
  }

  /** `x` times the factor of suffix `c`, each factor a constant so that the product stays linear. */
  function ScaleBy(x: real, c: char): real
    requires Multiplier(c) > 0
  {
    if c == 'k' || c == 'K' then x * 1000.0
    else if c == 'm' || c == 'M' then x * 1000000.0
    else x * 1000000000.0
  }

  /** The number of comma-free coin text: a trailing `k`, `m` or `b` scales what precedes it. */
  function Scaled(v: string): Option<real>
  {
    if |v| > 0 && Multiplier(v[|v| - 1]) > 0 then
      match ParseFloat(v[..|v| - 1])
      case Some(x) => Some(ScaleBy(x, v[|v| - 1]))
      case None => None
    else ParseFloat(v)
  }

  /** A coin string that is digits once its commas are gone is the number they spell. */
  lemma ParseCoinsOfDigits(s: string)
    requires AllDigits(RemoveCommas(s)) && RemoveCommas(s) != []
    ensures ParseCoins(s) == DigitsValue(RemoveCommas(s)) as real
  {
    var v := RemoveCommas(s);
    assert IsDigit(v[|v| - 1]);
    assert Multiplier(v[|v| - 1]) == 0;
    assert Scaled(v) == ParseFloat(v);
    ParseFloatDigits(v);
  }

  /** Parsing what `formatNumber` printed gives the number back. */
  lemma ParseCoinsFormatNumber(n: nat)
    ensures ParseCoins(FormatNumber(n)) == n as real
  {
    FormatNumberDigits(n);
    ParseCoinsOfDigits(FormatNumber(n));
    DigitsValueOfDigits(n);
  }

  lemma RemoveCommasExample()
    ensures RemoveCommas("123,456") == "123456"
  {
    var a, b := "123", "456";
    assert "123,456" == a + [','] + b;
    RemoveCommasAppend(a + [','], b);
    RemoveCommasAppend(a, [',']);
    assert RemoveCommas([',']) == [];
    RemoveCommasNoComma(a);
    RemoveCommasNoComma(b);
    assert a + b == "123456";
  }

  lemma DigitsValueExample()
    ensures AllDigits("123456") && DigitsValue("123456") == 123456
  {
    assert "123456"[..5] == "12345" && "12345"[..4] == "1234" && "1234"[..3] == "123";
    assert "123"[..2] == "12" && "12"[..1] == "1" && "1"[..0] == "";
  }

  /** The worked example with thousands commas: "123,456" is 123456. */
  lemma ParseCoinsCommas()
    ensures ParseCoins("123,456") == 123456.0
  {
    RemoveCommasExample();
    DigitsValueExample();
    ParseCoinsOfDigits("123,456");
  }

  lemma RemoveCommasSuffix(v: string, c: char)
    requires c != ','
    ensures RemoveCommas(v + [c]) == RemoveCommas(v) + [c]
  {
    assert (v + [c])[..|v|] == v;
  }

  lemma ScaledSuffix(u: string, c: char)
    requires Multiplier(c) > 0
    ensures Scaled(u + [c]) == match ParseFloat(u) case Some(x) => Some(ScaleBy(x, c)) case None => None
  {
    var w := u + [c];
    assert w[|w| - 1] == c && w[..|w| - 1] == u;
  }

  /**
   * A trailing k/K, m/M or b/B multiplies the number before it, commas
   * deleted, by a thousand, a million or a billion; a prefix that is not a
   * number still gives 0.
   */
  lemma ParseCoinsSuffix(v: string, c: char)
    requires Multiplier(c) > 0
    ensures c == 'k' || c == 'K' ==>
              ParseCoins(v + [c]) == match ParseFloat(RemoveCommas(v)) case Some(x) => x * 1000.0 case None => 0.0
    ensures c == 'm' || c == 'M' ==>
              ParseCoins(v + [c]) == match ParseFloat(RemoveCommas(v)) case Some(x) => x * 1000000.0 case None => 0.0
    ensures c == 'b' || c == 'B' ==>
              ParseCoins(v + [c]) == match ParseFloat(RemoveCommas(v)) case Some(x) => x * 1000000000.0 case None => 0.0
  {
    var u := RemoveCommas(v);
    RemoveCommasSuffix(v, c);
    ScaledSuffix(u, c);
  }

  /** The worked example with the k suffix: "1.5k" is 1500. */
  lemma ParseCoinsThousands()
    ensures ParseCoins("1.5k") == 1500.0
  {
    var v := "1.5k";
    RemoveCommasNoComma(v);
    assert v[..3] == "1" + "." + "5";
    assert Multiplier(v[3]) == 1000;
    assert DigitsValue("1") == 1 by { assert "1"[..0] == ""; }
    assert DigitsValue("5") == 5 by { assert "5"[..0] == ""; }
    ParseFloatDecimal("1", "5");
    assert Pow10(1) == 10;
  }

  /** The worked example with the M suffix: "2.3M" is 2300000. */
  lemma ParseCoinsMillions()
    ensures ParseCoins("2.3M") == 2300000.0
  {
    var v := "2.3M";
    RemoveCommasNoComma(v);
    assert v[..3] == "2" + "." + "3";
    assert Multiplier(v[3]) == 1000000;
    assert DigitsValue("2") == 2 by { assert "2"[..0] == ""; }
    assert DigitsValue("3") == 3 by { assert "3"[..0] == ""; }
    ParseFloatDecimal("2", "3");
    assert Pow10(1) == 10;
  }

  lemma ParseFloatDotGrouped()
    ensures ParseFloat("1.234.567") == Some(1.234)
  {
    var a, b, t := "1", "234", ".567";
    assert DigitsValue(a) == 1 by { assert a[..0] == ""; }
    assert DigitsValue(b) == 234 by { assert b[..2] == "23" && "23"[..1] == "2" && "2"[..0] == ""; }
    assert Pow10(|b|) == 1000;
    assert ParseFloat(a + "." + b + t) == Some(1.0 + 234.0 / 1000.0) by {
      ParseFloatPrefix(a, b, t);
    }
    assert a + "." + b + t == "1.234.567";
  }

  /**
   * A purse written with dots between the thousands, "1.234.567", is read
   * the way `parseFloat` reads it: up to the second dot, as 1.234 coins.
   */
  lemma ParseCoinsDotGrouped()
    ensures ParseCoins("1.234.567") == 1.234
  {
    RemoveCommasNoComma("1.234.567");
    assert Multiplier('7') == 0;
    ParseFloatDotGrouped();
  }

  /** A value that is not a number (NaN) gives 0. */
  lemma ParseCoinsNaN()
    ensures ParseCoins("abc") == 0.0
    ensures ParseCoins("") == 0.0
  {
    RemoveCommasNoComma("abc");
  }

  // ---------------------------------------------------------------------------
  // The purse line of the scoreboard
  // ---------------------------------------------------------------------------

  /** `line.includes(pat)`. */
  predicate Contains(line: string, pat: string)
  {
    exists i :: 0 <= i <= |line| - |pat| && pat <= line[i..]
  }

  /** The labels a purse line carries, in English and German. */
  predicate HasPurseLabel(line: string)
  {
    Contains(line, "Purse:") || Contains(line, "Münzen:") || Contains(line, "Coins:")
  }

  /** A character of the class `[\d,.]`. */
  predicate IsNumChar(c: char) { IsDigit(c) || c == ',' || c == '.' }

  /** A character of the class `[kKmMbB]`. */
  predicate IsSuffix(c: char) { c in "kKmMbB" }

  /** The first index at or after `i` that holds a `[\d,.]` character, or `|line|`. */
  function TokenStart(line: string, i: nat): (r: nat)
    requires i <= |line|
    ensures i <= r <= |line|
    ensures r < |line| ==> IsNumChar(line[r])
    ensures forall k :: i <= k < r ==> !IsNumChar(line[k])
    decreases |line| - i
  {
    if i == |line| || IsNumChar(line[i]) then i else TokenStart(line, i + 1)
  }

  /** The end of the run of `[\d,.]` characters that starts at `i`. */
  function RunEnd(line: string, i: nat): (r: nat)
    requires i <= |line|
    ensures i <= r <= |line|
    ensures forall k :: i <= k < r ==> IsNumChar(line[k])
    ensures r < |line| ==> !IsNumChar(line[r])
    decreases |line| - i
  {
    if i == |line| || !IsNumChar(line[i]) then i else RunEnd(line, i + 1)
  }

  /**
   * The first match of `/[\d,.]+[kKmMbB]?/` in the line: the leftmost
   * `[\d,.]` character, the longest run of them from there, and the suffix
   * letter right after it if there is one.
   */
  function PurseToken(line: string): (r: Option<string>)
    ensures r.None? <==> forall k :: 0 <= k < |line| ==> !IsNumChar(line[k])
  {
    var start := TokenStart(line, 0);
    if start == |line| then None
    else
      var end := RunEnd(line, start);
      Some(line[start..end] + (if end < |line| && IsSuffix(line[end]) then [line[end]] else []))
  }

  /** A line that the purse scan stops at. */
  predicate Qualifies(line: string)
  {
    HasPurseLabel(line) && PurseToken(line).Some?
  }

  /** The purse that `getPlayerPurse` reads from the cleaned scoreboard lines, front to back. */
  function ScoreboardPurse(lines: seq<string>): real
  {
    if lines == [] then 0.0
    else if Qualifies(lines[0]) then ParseCoins(PurseToken(lines[0]).value)
    else ScoreboardPurse(lines[1..])
  }

  /**
   * The purse is the parsed token of the first qualifying line, and 0 when no
   * line qualifies.
   */
  lemma {:induction false} ScoreboardPurseFirstMatch(lines: seq<string>, k: nat)
    requires k <= |lines|
    requires forall j :: 0 <= j < k ==> !Qualifies(lines[j])
    ensures k < |lines| && Qualifies(lines[k]) ==>
              ScoreboardPurse(lines) == ParseCoins(PurseToken(lines[k]).value)
    ensures k == |lines| ==> ScoreboardPurse(lines) == 0.0
  {
    if k > 0 {
      forall j | 0 <= j < k - 1
        ensures !Qualifies(lines[1..][j])
      {
        assert lines[1..][j] == lines[j + 1];
      }
      ScoreboardPurseFirstMatch(lines[1..], k - 1);
      assert !Qualifies(lines[0]);
      assert ScoreboardPurse(lines) == ScoreboardPurse(lines[1..]);
      assert k < |lines| ==> lines[1..][k - 1] == lines[k];
    }
  }

  /**
   * The scan of `getPlayerPurse` over lines whose formatting codes are
   * already removed: it returns at the first line with a purse label and a
   * number token, and gives 0 when there is none.
   */
  method GetPlayerPurse(lines: seq<string>) returns (purse: real)
    ensures purse == ScoreboardPurse(lines)
  {
    for i := 0 to |lines|
      invariant ScoreboardPurse(lines) == ScoreboardPurse(lines[i..])
    {
      assert lines[i..][1..] == lines[i + 1..];
      var line := lines[i];
      if HasPurseLabel(line) {
        var token := PurseToken(line);
        if token.Some? {
          purse := ParseCoins(token.value);
          return;
        }
      }
    }
    purse := 0.0;
  }
}
