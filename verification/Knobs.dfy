/** Per-session knobs: seconds stored as annotation text, read back as 64-bit durations. */
module Knobs {
  import opened Wrappers
  import opened GoTime
  import opened Decimal

  /** The text `Create` stores for a requested number of seconds. */
  function KnobText(seconds: Int64): string {
    FormatInt(seconds)
  }

  /** effectiveDuration: the annotation's seconds when it parses and is not negative. The
      product with a second is a 64-bit one. */
  function EffectiveDuration(annotation: string, default: Duration): Duration {
    if annotation == "" then default
    else
      match ParseInt(annotation)
      case None => default
      case Some(seconds) => if seconds < 0 then default else Wrap(seconds * SECOND)
  }

  /** The number of seconds the session view shows for an effective duration. */
  function SecondsShown(d: Duration): int {
    TruncDiv(d, SECOND)
  }

  /** Whatever the text: the seconds it spells, in 64 bits, unless they are negative; the default
      for a negative number and for a text that spells none, the empty one included. */
  lemma KnobReads(text: string, default: Duration)
    ensures forall n: Int64 :: Spells(text, n) ==>
      EffectiveDuration(text, default) == if n < 0 then default else Wrap(n * SECOND)
    ensures (forall n: Int64 :: !Spells(text, n)) ==> EffectiveDuration(text, default) == default
    ensures forall n: int :: !Spells("", n)
  {
    hide ParseInt, Spells, EffectiveDuration, Wrap;
    EffectiveIs(text, default, ParseInt(text));
    forall n: Int64
      ensures ParseInt(text) == Some(n) <==> Spells(text, n)
    {
      ParseIntIff(text, n);
    }
    forall n: int
      ensures !Spells("", n)
    {
      NothingSpellsNothing(n);
    }
  }

  lemma EffectiveIs(text: string, default: Duration, read: Option<Int64>)
    requires read == ParseInt(text)
    ensures EffectiveDuration(text, default)
         == if read.None? || read.value < 0 then default else Wrap(read.value * SECOND)
  {
    hide Value, AllDigits;
  }

  lemma NothingSpellsNothing(n: int)
    ensures !Spells("", n)
  {
    DigitsSpellTheNumber(Abs(n));
    forall sign: string, k
      ensures "" != sign + (Zeros(k) + Digits(Abs(n)))
    {
      assert |sign + (Zeros(k) + Digits(Abs(n)))| > 0;
    }
  }

  /** The largest number of seconds whose duration fits 64 bits. */
  const MAX_SECONDS: int := 9_223_372_036

  /** A requested knob comes back unchanged in the session view exactly up to MAX_SECONDS,
      or when it happens to equal what a rejected (negative) request falls back to. */
  lemma KnobRoundTrip(seconds: int, default: Duration)
    requires MIN_INT64 <= seconds <= MAX_INT64
    ensures KnobText(seconds) != ""
    ensures 0 <= seconds <= 9_223_372_036 ==> EffectiveDuration(KnobText(seconds), default) == seconds * SECOND
    ensures seconds < 0 ==> EffectiveDuration(KnobText(seconds), default) == default
    ensures seconds > MAX_SECONDS ==> EffectiveDuration(KnobText(seconds), default) == Wrap(seconds * SECOND)
    ensures seconds >= 0 ==>
      (SecondsShown(EffectiveDuration(KnobText(seconds), default)) == seconds <==> seconds <= MAX_SECONDS)
  {
    ParseUndoesFormat(seconds);
    if seconds >= 0 {
      DigitsSpellTheNumber(seconds);
      var d := Wrap(seconds * SECOND);
      if seconds > MAX_SECONDS {
        assert SecondsShown(d) <= MAX_SECONDS;
      } else {
        assert d == seconds * SECOND;
        assert SecondsShown(d) == seconds;
      }
    } else {
      assert KnobText(seconds)[0] == '-';
    }
  }

  /** A request for about 585 years of life is stored as less than a second of it: the TTL
      sweeper reads a positive duration that the session's age passes almost at once. */
  lemma HugeTtlBecomesSubSecond()
    ensures var ttl := EffectiveDuration(KnobText(18_446_744_074), 0);
      0 < ttl < SECOND
  {
    KnobRoundTrip(18_446_744_074, 0);
    assert 18_446_744_074 * SECOND - TWO_TO_64 == 290_448_384;
    WrapMisses(18_446_744_074 * SECOND);
  }

  lemma WrapMisses(x: int)
    requires TWO_TO_64 <= x < TWO_TO_64 + MAX_INT64
    ensures Wrap(x) == x - TWO_TO_64
  {
  }

  /** And a request one second past MAX_SECONDS becomes negative, which the TTL and idle
      sweepers both read as "disabled". */
  lemma JustPastTheBoundDisables(default: Duration)
    ensures EffectiveDuration(KnobText(MAX_SECONDS + 1), default) < 0
  {
    KnobRoundTrip(MAX_SECONDS + 1, default);
  }
}
