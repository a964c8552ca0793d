// The amount field read character by character: what the consumer sends and what the provider accepts.
module AmountTexts {
  import opened Entities
  import opened Amounts

  function Decimal(c: char): Option<nat> {
    match c
    case '0' => Some(0)
    case '1' => Some(1)
    case '2' => Some(2)
    case '3' => Some(3)
    case '4' => Some(4)
    case '5' => Some(5)
    case '6' => Some(6)
    case '7' => Some(7)
    case '8' => Some(8)
    case '9' => Some(9)
    case _ => None
  }

  // A text read in base 10; None if some character is no digit.
  function ReadDecimal(s: string): Option<nat> {
    if s == "" then Some(0)
    else
      match (ReadDecimal(s[..|s| - 1]), Decimal(s[|s| - 1]))
      case (Some(n), Some(d)) => Some(10 * n + d)
      case _ => None
  }

  lemma {:induction false} DigitsAgree(c: char)
    ensures IsDigit(c) <==> Decimal(c).Some?
    ensures IsDigit(c) ==> Decimal(c) == Some(DigitValue(c))
  {
  }

  lemma {:induction false} NumbersAgree(s: string)
    ensures AllDigits(s) <==> ReadDecimal(s).Some?
    ensures AllDigits(s) ==> ReadDecimal(s) == Some(NumberOf(s))
  {
    if s != "" {
      var before, last := s[..|s| - 1], s[|s| - 1];
      assert s == before + [last];
      NumbersAgree(before);
      DigitsAgree(last);
      assert AllDigits(s) <==> AllDigits(before) && IsDigit(last);
    }
  }

  // The amount of a text is h: digits, a point and two digits, which read as h hundredths, at least one.
  predicate ReadsAs(s: string, h: nat) {
    && |s| >= 4 && s[|s| - 3] == '.' && h > 0
    && ReadDecimal(s[..|s| - 3]) == Some(h / 100) && ReadDecimal(s[|s| - 2..]) == Some(h % 100)
  }

  lemma {:induction false} TwoDigits(s: string)
    requires |s| == 2 && ReadDecimal(s).Some?
    ensures ReadDecimal(s).value < 100
  {
    var first := s[..1];
    assert first[..|first| - 1] == "" && ReadDecimal(first) == Decimal(s[0]);
  }

  // The provider accepts exactly these texts, and with that amount.
  lemma {:induction false} ParsedIff(s: string, h: nat)
    ensures ParseAmount(s) == Some(h) <==> ReadsAs(s, h)
  {
    if |s| >= 4 {
      var whole, cents := s[..|s| - 3], s[|s| - 2..];
      NumbersAgree(whole);
      NumbersAgree(cents);
      if ReadDecimal(cents).Some? {
        TwoDigits(cents);
      }
    }
  }

  // The consumer sends a text of that form, with no needless zero in front, for every positive amount.
  lemma {:induction false} SentText(a: nat)
    requires a >= 1
    ensures Trip(a).Some? && ReadsAs(FormatAmount(a), Trip(a).value)
    ensures FormatAmount(a)[0] == '0' ==> |FormatAmount(a)| == 4
  {
    TripExactIff(a);
    ParsedIff(FormatAmount(a), Trip(a).value);
    NoLeadingZero(Hundredths(DivideBy100(a)) / 100);
  }

  lemma {:induction false} NoLeadingZero(n: nat)
    ensures DigitsOf(n)[0] == '0' ==> n == 0 && DigitsOf(n) == "0"
  {
    if n >= 10 {
      NoLeadingZero(n / 10);
    }
  }

  // Up to 100 * 2^46 that text is the amount itself, in hundredths.
  lemma {:induction false} SentExactly(a: nat)
    requires 1 <= a <= 7_036_874_417_766_400
    ensures ReadsAs(FormatAmount(a), a)
  {
    SentText(a);
    TripExactUpToBound(a);
  }

  // Zero and negative amounts, which no stored payment has.
  lemma {:induction false} OtherTexts(a: nat)
    requires a >= 1
    ensures FormatAmount(0) == "0.00"
    ensures FormatAmount(0 - a) == "-" + FormatAmount(a)
  {
    assert FixedText(0) == "0" + "." + "00";
  }
}
