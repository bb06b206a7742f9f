/**
 * The global amount helpers (app/Helpers/global.php): `extractCurrency`, the
 * leading `[A-Za-z$]+` run of an amount string, and `extractAmount`, the first
 * match of `\d+(\.\d+)?`. The regular expressions are written out as
 * functions over the characters; `extractAmount` returns the matched text
 * rather than its conversion to a float.
 */
module Helpers {
  import opened Wrappers

  /** The character class `[A-Za-z$]`. */
  predicate IsCurrencyChar(c: char) {
    ('A' <= c <= 'Z') || ('a' <= c <= 'z') || c == '$'
  }

  /** The character class `\d` (ASCII digits). */
  predicate IsDigit(c: char) {
    '0' <= c <= '9'
  }

  predicate AllCurrency(s: string) {
    forall i :: 0 <= i < |s| ==> IsCurrencyChar(s[i])
  }

  predicate AllDigits(s: string) {
    forall i :: 0 <= i < |s| ==> IsDigit(s[i])
  }

  predicate NoDigit(s: string) {
    forall i :: 0 <= i < |s| ==> !IsDigit(s[i])
  }

  /** A currency run holds no digit. */
  lemma CurrencyHasNoDigit(c: string)
    requires AllCurrency(c)
    ensures NoDigit(c)
  {
    forall i | 0 <= i < |c| ensures !IsDigit(c[i]) {
      assert IsCurrencyChar(c[i]);
    }
  }

  /** The text matches `\d+(\.\d+)?` as a whole. */
  ghost predicate IsNumberText(t: string) {
    exists m :: 1 <= m <= |t| && AllDigits(t[..m]) &&
      (m == |t| || (t[m] == '.' && m + 1 < |t| && AllDigits(t[m + 1..])))
  }

  /** The longest prefix of `s` drawn from `[A-Za-z$]`. */
  function CurrencyRun(s: string): (r: string)
    ensures r <= s && AllCurrency(r)
    ensures |r| == |s| || !IsCurrencyChar(s[|r|])
  {
    if s != [] && IsCurrencyChar(s[0]) then [s[0]] + CurrencyRun(s[1..]) else []
  }

  /** The longest prefix of `s` made of digits. */
  function DigitRun(s: string): (r: string)
    ensures r <= s && AllDigits(r)
    ensures |r| == |s| || !IsDigit(s[|r|])
  {
    if s != [] && IsDigit(s[0]) then [s[0]] + DigitRun(s[1..]) else []
  }

  /**
   * `\d+(\.\d+)?` matched greedily at the start of `s`: the digit run, then a
   * dot and the following digit run when at least one digit follows the dot.
   */
  function NumberAt(s: string): (r: string)
    requires s != [] && IsDigit(s[0])
    ensures r <= s && IsNumberText(r)
    ensures |r| == |s| || !IsDigit(s[|r|])
    ensures '.' !in r ==> !(|r| + 1 < |s| && s[|r|] == '.' && IsDigit(s[|r| + 1]))
  {
    var whole := DigitRun(s);
    var rest := s[|whole|..];
    if |rest| >= 2 && rest[0] == '.' && IsDigit(rest[1]) then
      var fraction := DigitRun(rest[1..]);
      var r := whole + "." + fraction;
      assert r[..|whole|] == whole && r[|whole| + 1..] == fraction;
      assert r == s[..|r|];
      r
    else
      assert whole[..|whole|] == whole;
      assert '.' !in whole;
      whole
  }

  /**
   * `extractAmount`: the first match of `\d+(\.\d+)?` in `s`, or `None` (PHP
   * null) when `s` holds no digit.
   */
  function ExtractAmount(s: string): (r: Option<string>)
    ensures r.None? <==> NoDigit(s)
    ensures r.Some? ==> IsNumberText(r.value)
  {
    if s == [] then None
    else if IsDigit(s[0]) then Some(NumberAt(s))
    else
      var r := ExtractAmount(s[1..]);
      assert forall i :: 1 <= i < |s| ==> s[i] == s[1..][i - 1];
      r
  }

  /**
   * `extractCurrency`: the leading run of `[A-Za-z$]`, or `None` (PHP null)
   * when `s` does not start with such a character.
   */
  function ExtractCurrency(s: string): (r: Option<string>)
    ensures r.None? <==> (s == [] || !IsCurrencyChar(s[0]))
    ensures r.Some? ==> r.value <= s && AllCurrency(r.value)
    ensures r.Some? ==> |r.value| == |s| || !IsCurrencyChar(s[|r.value|])
  {
    var run := CurrencyRun(s);
    if run == [] then None else Some(run)
  }

  /** The currency run of `c + t` is `c` when `t` does not go on with a currency character. */
  lemma {:induction false} CurrencyRunOf(c: string, t: string)
    requires AllCurrency(c)
    requires t == [] || !IsCurrencyChar(t[0])
    ensures CurrencyRun(c + t) == c
  {
    if c != [] {
      assert (c + t)[1..] == c[1..] + t;
      CurrencyRunOf(c[1..], t);
    }
  }

  /** The digit run of `d + t` is `d` when `t` does not go on with a digit. */
  lemma {:induction false} DigitRunOf(d: string, t: string)
    requires AllDigits(d)
    requires t == [] || !IsDigit(t[0])
    ensures DigitRun(d + t) == d
  {
    if d != [] {
      assert (d + t)[1..] == d[1..] + t;
      DigitRunOf(d[1..], t);
    }
  }

  /** Characters without digits in front of the text are skipped. */
  lemma {:induction false} ExtractAmountSkips(p: string, t: string)
    requires NoDigit(p)
    ensures ExtractAmount(p + t) == ExtractAmount(t)
  {
    if p != [] {
      assert (p + t)[1..] == p[1..] + t;
      assert (p + t)[0] == p[0] && !IsDigit(p[0]);
      assert forall i :: 0 <= i < |p[1..]| ==> p[1..][i] == p[i + 1];
      ExtractAmountSkips(p[1..], t);
    } else {
      assert p + t == t;
    }
  }

  /** A non-digit in front of a digit-free text leaves it digit-free. */
  lemma NoDigitCons(c: char, t: string)
    requires !IsDigit(c) && NoDigit(t)
    ensures NoDigit([c] + t)
  {
    var u := [c] + t;
    forall k | 0 <= k < |u| ensures !IsDigit(u[k]) {
      if k > 0 { assert u[k] == t[k - 1]; }
    }
  }

  /** The position of the first digit of `s`. */
  function FirstDigit(s: string): (i: nat)
    requires !NoDigit(s)
    ensures i < |s| && IsDigit(s[i]) && NoDigit(s[..i])
  {
    if IsDigit(s[0]) then
      assert s[..0] == [];
      0
    else
      var t := s[1..];
      assert !NoDigit(t) by {
        var k :| 0 <= k < |s| && IsDigit(s[k]);
        assert t[k - 1] == s[k];
      }
      var j := FirstDigit(t);
      NoDigitCons(s[0], t[..j]);
      assert s[..j + 1] == [s[0]] + t[..j];
      j + 1
  }

  /**
   * `preg_match` reports the leftmost match: the text is the greedy
   * `\d+(\.\d+)?` match at the first digit of `s`.
   */
  lemma ExtractAmountFirstMatch(s: string)
    requires !NoDigit(s)
    ensures ExtractAmount(s) == Some(NumberAt(s[FirstDigit(s)..]))
  {
    var i := FirstDigit(s);
    assert s == s[..i] + s[i..];
    ExtractAmountSkips(s[..i], s[i..]);
  }

  /** A whole number text, digits and optionally a dot and more digits, is matched whole. */
  lemma NumberOfNumberText(d: string, f: string)
    requires d != [] && AllDigits(d) && AllDigits(f)
    ensures f == [] ==> ExtractAmount(d) == Some(d)
    ensures f != [] ==> ExtractAmount(d + "." + f) == Some(d + "." + f)
  {
    if f == [] {
      DigitRunOf(d, []);
      assert d + [] == d;
    } else {
      var s := d + "." + f;
      assert s == d + ("." + f);
      DigitRunOf(d, "." + f);
      assert s[|d|..] == "." + f;
      DigitRunOf(f, []);
      assert ("." + f)[1..] == f + [];
    }
  }

  /** `$100` gives currency `$` and amount text `100`. */
  lemma DollarExample()
    ensures ExtractCurrency("$100") == Some("$")
    ensures ExtractAmount("$100") == Some("100")
  {
    CurrencyRunOf("$", "100");
    assert "$100" == "$" + "100";
    ExtractAmountSkips("$", "100");
    NumberOfNumberText("100", "");
  }
}
