/** Concrete sessions on the wallet, with amounts typed as plain decimal
    numerals. */
module Scenarios {
  import opened Wrappers
  import opened Text
  import opened Ledger
  import opened Flow
  import opened Session
  import Numeral

  /** The wallet screen holding `balance` with `text` typed in. */
  function Typed(balance: real, text: string): (s: App)
    ensures s.route == Wallet && s.input == text && s.error == None
    ensures s.account.balance == balance
  {
    App(Account(balance), text, None, Wallet)
  }

  /** The value of a three-digit numeral without separator. */
  lemma ThreeDigits(s: string)
    requires |s| == 3 && Numeral.AllDigits(s)
    ensures Numeral.Parse(s)
         == Some((100 * (s[0] as int - '0' as int) + 10 * (s[1] as int - '0' as int) + (s[2] as int - '0' as int)) as real)
  {
    var d0, d1, d2 := s[0] as int - '0' as int, s[1] as int - '0' as int, s[2] as int - '0' as int;
    assert Numeral.DotIndex(s) == 3 by {
      assert s[0] != '.' && s[1] != '.' && s[2] != '.';
    }
    assert s[..3] == s;
    assert Numeral.DigitsValue(s[..1]) == d0 by {
      assert s[..1][..0] == [];
    }
    assert Numeral.DigitsValue(s[..2]) == 10 * d0 + d1 by {
      assert s[..2][..1] == s[..1];
    }
    assert Numeral.DigitsValue(s) == 100 * d0 + 10 * d1 + d2 by {
      assert s[..|s| - 1] == s[..2];
    }
  }

  /** With 10 000.00, "500" withdraws 500.00 and leaves 9 500.00. */
  lemma FiveHundredFromOpening()
    ensures Submit(Numeral.Parse, Typed(10000.0, "500")) == App(Account(9500.0), "", None, Receipt(500.0))
  {
    NormalizeWithoutComma("500");
    ThreeDigits("500");
  }

  /** From launch, typing "500" and pressing the button withdraws 500.00,
      leaves 9500.00 and shows the receipt for 500.00. */
  lemma WithdrawFiveHundred()
    ensures Run(Numeral.Parse, Initial(), [Edit("500"), Press])
         == App(Account(9500.0), "", None, Receipt(500.0))
  {
    var evs := [Edit("500"), Press];
    var s := Step(Numeral.Parse, Initial(), Edit("500"));
    assert s == Typed(10000.0, "500");
    assert evs[1..] == [Press];
    assert ButtonEnabled(s) by { assert !IsWhitespace("500"[0]); }
    FiveHundredFromOpening();
    assert Step(Numeral.Parse, s, Press) == App(Account(9500.0), "", None, Receipt(500.0));
  }

  /** With 100.00, "150" is refused for insufficient balance and nothing moves. */
  lemma OverdraftScenario()
    ensures Submit(Numeral.Parse, Typed(100.0, "150")) == Typed(100.0, "150").(error := Some(Insufficient))
  {
    NormalizeWithoutComma("150");
    ThreeDigits("150");
  }

  /** "0" is refused as not positive. */
  lemma ZeroScenario()
    ensures Submit(Numeral.Parse, Typed(100.0, "0")) == Typed(100.0, "0").(error := Some(NotPositive))
  {
    NormalizeWithoutComma("0");
    assert Numeral.DotIndex("0") == 1;
    assert "0"[..1] == "0";
  }

  /** "abc" is not a number: the invalid-number error, nothing else changes. */
  lemma LettersScenario(balance: real)
    ensures Submit(Numeral.Parse, Typed(balance, "abc")) == Typed(balance, "abc").(error := Some(InvalidNumber))
  {
    NormalizeWithoutComma("abc");
    Numeral.LeadingLetterIsNotANumber("abc", 0);
  }

  /** Withdrawing the whole 100.00 leaves exactly 0.00. */
  lemma WholeBalanceScenario()
    ensures Submit(Numeral.Parse, Typed(100.0, "100")) == App(Account(0.0), "", None, Receipt(100.0))
  {
    NormalizeWithoutComma("100");
    ThreeDigits("100");
  }

  /** The numeral "12.50" denotes 12.5. */
  lemma TwelveFifty()
    ensures Numeral.Parse("12.50") == Some(12.5)
  {
    assert Numeral.DotIndex("12.50") == 2;
    assert "12.50"[..2] == "12";
    assert "12.50"[3..] == "50";
    assert Numeral.DigitsValue("12") == 12 by {
      assert "12"[..1] == "1";
      assert Numeral.DigitsValue("1") == 1;
    }
    assert Numeral.DigitsValue("50") == 50 by {
      assert "50"[..1] == "5";
      assert Numeral.DigitsValue("5") == 5;
    }
    assert Numeral.Pow10(2) == 100;
  }

  /** "12,50" and "12.50" both withdraw 12.50. */
  lemma CommaOrDotScenario()
    ensures Submit(Numeral.Parse, Typed(100.0, "12,50")) == App(Account(87.5), "", None, Receipt(12.5))
    ensures Submit(Numeral.Parse, Typed(100.0, "12.50")) == App(Account(87.5), "", None, Receipt(12.5))
  {
    assert Normalize("12,50") == "12.50";
    NormalizeWithoutComma("12.50");
    TwelveFifty();
  }

  /** A thousands separator is not understood: "1,000.50" becomes "1.000.50",
      which is not a number. */
  lemma ThousandsSeparatorScenario(balance: real)
    ensures Submit(Numeral.Parse, Typed(balance, "1,000.50")) == Typed(balance, "1,000.50").(error := Some(InvalidNumber))
  {
    assert Normalize("1,000.50") == "1.000.50";
    Numeral.TwoDotsIsNotANumber("1.000.50", 1, 5);
  }

  /** The keyboard's "done" action on a blank field reports an invalid number. */
  lemma BlankDoneScenario(balance: real, text: string)
    requires IsBlank(text)
    ensures Step(Numeral.Parse, Typed(balance, text), Done) == Typed(balance, text).(error := Some(InvalidNumber))
    ensures Step(Numeral.Parse, Typed(balance, text), Press) == Typed(balance, text)
  {
    NormalizeKeepsBlankness(text);
    Numeral.BlankIsNotANumber(Normalize(text));
  }
}
