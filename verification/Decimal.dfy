/** `strconv.FormatInt(n, 10)` and `strconv.ParseInt(s, 10, 64)`. */
module Decimal {
  import opened Wrappers
  import opened GoTime

  function DigitChar(d: nat): char
    requires d < 10
  {
    '0' + d as char
  }

  predicate IsDigit(c: char) {
    '0' <= c <= '9'
  }

  function DigitValue(c: char): nat
    requires IsDigit(c)
  {
    (c - '0') as nat
  }

  predicate AllDigits(s: string) {
    forall i :: 0 <= i < |s| ==> IsDigit(s[i])
  }

  function Digits(n: nat): string {
    if n < 10 then [DigitChar(n)] else Digits(n / 10) + [DigitChar(n % 10)]
  }

  function Value(s: string): nat
    requires AllDigits(s)
  {
    if s == "" then 0 else 10 * Value(s[..|s| - 1]) + DigitValue(s[|s| - 1])
  }

  function FormatInt(n: int): string {
    if n < 0 then "-" + Digits(-n) else Digits(n)
  }

  /** None is Go's error: no digits, a stray character, or a value outside 64 bits. */
  function ParseInt(s: string): Option<Int64> {
    var negative := s != "" && s[0] == '-';
    var magnitude := if s != "" && (s[0] == '-' || s[0] == '+') then s[1..] else s;
    if magnitude == "" || !AllDigits(magnitude) then None
    else
      var m: int := Value(magnitude);
      var n := if negative then -m else m;
      if MIN_INT64 <= n <= MAX_INT64 then Some(n) else None
  }

  lemma {:induction false} DigitsSpellTheNumber(n: nat)
    ensures Digits(n) != "" && AllDigits(Digits(n)) && Value(Digits(n)) == n
  {
    if n < 10 {
      assert Digits(n)[..0] == "";
    } else {
      DigitsSpellTheNumber(n / 10);
      assert Digits(n)[..|Digits(n)| - 1] == Digits(n / 10);
    }
  }

  /** Every 64-bit integer survives being written out and read back. */
  lemma ParseUndoesFormat(n: int)
    requires MIN_INT64 <= n <= MAX_INT64
    ensures ParseInt(FormatInt(n)) == Some(n)
  {
    if n < 0 {
      DigitsSpellTheNumber(-n);
      assert FormatInt(n)[1..] == Digits(-n);
    } else {
      DigitsSpellTheNumber(n);
      assert IsDigit(Digits(n)[0]);
    }
  }

  /** The text of an integer outside 64 bits does not parse. */
  lemma ParseRejectsOutOfRange(n: int)
    requires n < MIN_INT64 || n > MAX_INT64
    ensures ParseInt(FormatInt(n)) == None
  {
    if n < 0 {
      DigitsSpellTheNumber(-n);
      assert FormatInt(n)[1..] == Digits(-n);
    } else {
      DigitsSpellTheNumber(n);
      assert IsDigit(Digits(n)[0]);
    }
  }

  // --- Which texts are integers ---

  function Zeros(k: nat): (s: string)
    ensures |s| == k && forall i :: 0 <= i < k ==> s[i] == '0'
  {
    seq(k, _ => '0')
  }

  function Abs(n: int): nat {
    if n < 0 then -n else n
  }

  predicate IsSign(sign: string, n: int) {
    (sign == "" && n >= 0) || (sign == "+" && n >= 0) || (sign == "-" && n <= 0)
  }

  /** A sign if any, leading zeros if any, and the digits of the number. */
  ghost predicate Spells(text: string, n: int) {
    exists sign, k :: IsSign(sign, n) && text == sign + (Zeros(k) + Digits(Abs(n)))
  }

  lemma {:induction false} AllDigitsSplit(s: string) returns (k: nat)
    requires s != "" && AllDigits(s)
    ensures s == Zeros(k) + Digits(Value(s))
  {
    var init, d := s[..|s| - 1], s[|s| - 1];
    assert DigitChar(DigitValue(d)) == d;
    if init == "" {
      k := 0;
    } else {
      k := AllDigitsSplit(init);
      if Value(init) == 0 {
        k := k + 1;
        assert init == Zeros(k);
      }
      assert s == init + [d];
    }
  }

  lemma {:induction false} LeadingZeros(k: nat, s: string)
    requires AllDigits(s)
    ensures AllDigits(Zeros(k) + s) && Value(Zeros(k) + s) == Value(s)
    decreases |s| + k
  {
    var all := Zeros(k) + s;
    if s == "" {
      if k > 0 {
        LeadingZeros(k - 1, s);
        assert all[..|all| - 1] == Zeros(k - 1) + s;
      }
    } else {
      LeadingZeros(k, s[..|s| - 1]);
      assert all[..|all| - 1] == Zeros(k) + s[..|s| - 1];
    }
  }

  lemma ParsedIsSpelled(text: string, n: Int64)
    requires ParseInt(text) == Some(n)
    ensures Spells(text, n)
  {
    var sign, digits := "", text;
    if text[0] == '-' || text[0] == '+' {
      sign, digits := text[..1], text[1..];
    }
    hide Digits, Value;
    var k := AllDigitsSplit(digits);
    assert IsSign(sign, n);
  }

  lemma SpelledIsParsed(sign: string, digits: string, n: Int64)
    requires IsSign(sign, n) && digits != "" && AllDigits(digits) && Value(digits) == Abs(n)
    ensures ParseInt(sign + digits) == Some(n)
  {
    hide Digits, Value;
    var text := sign + digits;
    if sign == "" {
      assert text == digits && IsDigit(text[0]);
    } else {
      assert text[0] == sign[0] && text[1..] == digits;
    }
  }

  /** Parsing accepts exactly the texts that spell a 64-bit integer, and reads that integer. */
  lemma ParseIntIff(text: string, n: Int64)
    ensures ParseInt(text) == Some(n) <==> Spells(text, n)
  {
    hide ParseInt;
    if ParseInt(text) == Some(n) {
      ParsedIsSpelled(text, n);
    }
    if Spells(text, n) {
      var sign, k :| IsSign(sign, n) && text == sign + (Zeros(k) + Digits(Abs(n)));
      DigitsSpellTheNumber(Abs(n));
      LeadingZeros(k, Digits(Abs(n)));
      SpelledIsParsed(sign, Zeros(k) + Digits(Abs(n)), n);
    }
  }

  /** What is written is the shortest of the texts that spell the number. */
  lemma FormatIsShortest(n: int, text: string)
    requires Spells(text, n)
    ensures Spells(FormatInt(n), n) && |FormatInt(n)| <= |text|
  {
    var sign, k :| IsSign(sign, n) && text == sign + (Zeros(k) + Digits(Abs(n)));
    var least := if n < 0 then "-" else "";
    assert Zeros(0) + Digits(Abs(n)) == Digits(Abs(n));
    assert FormatInt(n) == least + (Zeros(0) + Digits(Abs(n)));
    assert IsSign(least, n);
    hide Digits;
    assert |least| <= |sign|;
  }
}
