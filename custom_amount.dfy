/** The custom-amount screen: two text fields, whole euros and cents, that
    the diner types into or fills from a preset button, clamped against the
    remaining balance of the bill. Money is counted in whole cents here, so
    `Math.floor(remaining)` is `remaining / 100` and the cents of the
    remaining balance are `remaining % 100`. The remaining balance comes
    from the bill context and is an input. */
module CustomAmount {
  import opened Common
  import opened Text

  /** Both fields hold decimal digits only, and the cents field at most two
      of them. */
  predicate WellFormed(euros: string, cents: string) {
    IsDigits(euros) && IsDigits(cents) && |cents| <= 2
  }

  /** `enteredAmount`, in cents: 0 while both fields are empty, otherwise
      `parseFloat` of `euros || '0'`, a point, and the cents right-padded to
      two digits. The euros field gives the whole euros, and a one-digit
      cents field counts as tens of cents. */
  function EnteredAmount(euros: string, cents: string): (r: nat)
    requires WellFormed(euros, cents)
    ensures euros == [] && cents == [] ==> r == 0
    ensures r / 100 == ParseNat(euros)
    ensures r % 100 == if |cents| == 1 then 10 * ParseNat(cents) else ParseNat(cents)
  {
    if euros == [] && cents == [] then 0
    else
      var c := ParseNat(PadEnd2(cents));
      assert c < 100 by {
        if |cents| == 1 {
          assert ParseNat(cents) == DigitValue(cents[0]) by { assert cents[..0] == []; }
        } else if |cents| == 2 {
          CentsBelowHundred(cents);
        }
      }
      ParseNat(euros) * 100 + c
  }

  lemma CentsBelowHundred(s: string)
    requires IsDigits(s) && |s| == 2
    ensures ParseNat(s) < 100
  {
    assert s[..1][..0] == [];
    assert ParseNat(s[..1]) == DigitValue(s[0]);
  }

  /** `isValidAmount`: above 0 and not above the remaining balance. */
  predicate IsValidAmount(amount: int, remaining: int) {
    0 < amount <= remaining
  }

  /** The clamp the edit handlers aim at: the euros are at most the whole
      euros remaining, and when they are exactly that, the cents (read with
      `parseInt`) are at most the cents remaining. */
  predicate Clamped(remaining: nat, euros: string, cents: string)
    requires WellFormed(euros, cents)
  {
    && ParseNat(euros) <= remaining / 100
    && (ParseNat(euros) == remaining / 100 ==> ParseNat(cents) <= remaining % 100)
  }

  /** The clamp keeps the amount within the remaining balance as long as the
      cents field does not hold a single digit. */
  lemma ClampedWithinRemaining(remaining: nat, euros: string, cents: string)
    requires WellFormed(euros, cents) && Clamped(remaining, euros, cents) && |cents| != 1
    ensures EnteredAmount(euros, cents) <= remaining
  {
    var a := EnteredAmount(euros, cents);
    assert a == a / 100 * 100 + a % 100;
    if ParseNat(euros) < remaining / 100 {
      assert a / 100 + 1 <= remaining / 100;
    }
  }

  /** The clamp compares `parseInt` of the cents while the amount pads them
      on the right: with 45.07 remaining, euros "45" and cents "5" pass the
      clamp (5 is at most 7) and still enter 45.50. */
  lemma OneDigitCentsOvershoot()
    ensures WellFormed("45", "5") && Clamped(4507, "45", "5")
    ensures EnteredAmount("45", "5") == 4550 && !IsValidAmount(4550, 4507)
  {
    assert "45"[..1] == "4";
    assert "4"[..0] == [];
    assert "5"[..0] == [];
    assert ParseNat("45") == 45;
  }

  /** The preset amounts: 10, 25 and 50 euros and the remaining balance. */
  function Presets(remaining: nat): (r: seq<nat>)
    ensures |r| == 4 && r[3] == remaining
  {
    [1000, 2500, 5000, remaining]
  }

  /** The screen's state: the remaining balance it is given, the two
      fields, and whether the diner typed last (rather than pressing a
      preset). */
  class AmountEntry {
    const remaining: nat
    var euros: string
    var cents: string
    var isTyping: bool

    ghost predicate Valid()
      reads this
    {
      WellFormed(euros, cents)
    }

    function Amount(): nat
      reads this
      requires Valid()
    {
      EnteredAmount(euros, cents)
    }

    /** The euros field starts empty and the cents field holds the cents of
        the remaining balance, padded to two digits: the amount first
        entered is those cents, and the fields start clamped. */
    constructor (remaining: nat)
      ensures Valid() && this.remaining == remaining && !isTyping
      ensures euros == [] && |cents| == 2 && ParseNat(cents) == remaining % 100
      ensures Amount() == remaining % 100 && Clamped(remaining, euros, cents)
    {
      this.remaining := remaining;
      euros := [];
      cents := PadStart2(Show(remaining % 100));
      isTyping := false;
    }

    /** `handleEurosChange`: the digits typed become the euros unless they
        exceed the whole euros remaining, in which case both fields are set
        to the remaining balance; at exactly the whole euros remaining the
        cents are lowered to the cents remaining if they were above. Either
        way the fields end up clamped. */
    method EditEuros(input: string)
      requires Valid()
      modifies this`euros, this`cents, this`isTyping
      ensures Valid() && isTyping && Clamped(remaining, euros, cents)
      ensures ParseNat(DigitsOnly(input)) > remaining / 100 ==>
                euros == Show(remaining / 100) && cents == PadStart2(Show(remaining % 100)) && Amount() == remaining
      ensures ParseNat(DigitsOnly(input)) <= remaining / 100 ==> euros == DigitsOnly(input)
      ensures ParseNat(DigitsOnly(input)) == remaining / 100 && ParseNat(old(cents)) > remaining % 100 ==>
                cents == PadStart2(Show(remaining % 100)) && ParseNat(cents) == remaining % 100
      ensures ParseNat(DigitsOnly(input)) < remaining / 100 ||
              (ParseNat(DigitsOnly(input)) == remaining / 100 && ParseNat(old(cents)) <= remaining % 100) ==>
                cents == old(cents)
    {
      var value := DigitsOnly(input);
      var typed := ParseNat(value);
      var wholeEuros := remaining / 100;
      var maxCents := remaining % 100;
      if typed > wholeEuros {
        euros := Show(wholeEuros);
        cents := PadStart2(Show(maxCents));
      } else {
        euros := value;
        if typed == wholeEuros {
          if ParseNat(cents) > maxCents {
            cents := PadStart2(Show(maxCents));
          }
        }
      }
      isTyping := true;
    }

    /** `handleCentsChange`: the first two digits typed become the cents,
        lowered to the cents remaining when the euros are at the whole euros
        remaining; euros above that are reset, with the cents, to the
        remaining balance. Either way the fields end up clamped. */
    method EditCents(input: string)
      requires Valid()
      modifies this`euros, this`cents, this`isTyping
      ensures Valid() && isTyping && Clamped(remaining, euros, cents)
      ensures ParseNat(old(euros)) < remaining / 100 ==>
                euros == old(euros) && cents == Take(DigitsOnly(input), 2)
      ensures ParseNat(old(euros)) == remaining / 100 ==>
                euros == old(euros) &&
                (if ParseNat(Take(DigitsOnly(input), 2)) > remaining % 100
                 then cents == PadStart2(Show(remaining % 100)) && ParseNat(cents) == remaining % 100
                 else cents == Take(DigitsOnly(input), 2))
      ensures ParseNat(old(euros)) > remaining / 100 ==>
                euros == Show(remaining / 100) && cents == PadStart2(Show(remaining % 100)) && Amount() == remaining
    {
      var value := Take(DigitsOnly(input), 2);
      assert IsDigits(value) by {
        assert forall i :: 0 <= i < |value| ==> value[i] == DigitsOnly(input)[i];
      }
      var currentEuros := ParseNat(euros);
      var wholeEuros := remaining / 100;
      var maxCents := remaining % 100;
      if currentEuros == wholeEuros {
        if ParseNat(value) > maxCents {
          cents := PadStart2(Show(maxCents));
        } else {
          cents := value;
        }
      } else if currentEuros > wholeEuros {
        euros := Show(wholeEuros);
        cents := PadStart2(Show(maxCents));
      } else {
        cents := value;
      }
      isTyping := true;
    }

    /** `setPresetAmount`: the euros become the whole euros of the preset,
        capped at the remaining balance; the cents are left as they are, so
        the fields need not end up clamped. */
    method ApplyPreset(amount: nat)
      requires Valid()
      modifies this`euros, this`isTyping
      ensures Valid() && !isTyping && cents == old(cents)
      ensures euros == Show(Min(amount, remaining) / 100)
      ensures ParseNat(euros) <= remaining / 100
      ensures amount >= remaining ==> ParseNat(euros) == remaining / 100
    {
      euros := Show(Min(amount, remaining) / 100);
      isTyping := false;
    }

    /** The continue button: disabled unless the amount is valid, and then
        it hands on the amount, which is above 0 and within the remaining
        balance. */
    method Continue() returns (r: Option<nat>)
      requires Valid()
      ensures r.Some? <==> IsValidAmount(Amount(), remaining)
      ensures r.Some? ==> r.value == Amount() && 0 < r.value <= remaining
    {
      if IsValidAmount(Amount(), remaining) {
        r := Some(Amount());
      } else {
        r := None;
      }
    }
  }

  /** The decimal readings and spellings the two scenarios below rely on. */
  lemma ScenarioDigits()
    ensures DigitsOnly("99") == "99" && ParseNat("99") == 99
    ensures Show(45) == "45" && Show(67) == "67" && PadStart2("67") == "67"
    ensures ParseNat("45") == 45
  {
    NinetyNine();
    FortyFive();
    assert Show(6) == "6";
  }

  lemma NinetyNine()
    ensures DigitsOnly("99") == "99" && ParseNat("99") == 99
  {
    assert "99"[..1] == "9" && "9"[..0] == [];
  }

  lemma FortyFive()
    ensures Show(45) == "45" && ParseNat("45") == 45
  {
    assert "45"[..1] == "4" && "4"[..0] == [];
    assert Show(4) == "4";
  }

  /** With 45.67 remaining, typing "99" euros sets the fields to "45" and
      "67": the whole remaining balance. */
  method TypeTooManyEuros() returns (euros: string, cents: string, amount: nat)
    ensures euros == "45" && cents == "67" && amount == 4567
  {
    var entry := new AmountEntry(4567);
    ScenarioDigits();
    entry.EditEuros("99");
    euros, cents, amount := entry.euros, entry.cents, entry.Amount();
  }

  /** With 45.07 remaining, cents "99" typed while the euros are empty are
      kept, and the remaining-balance preset then sets the euros to "45":
      the fields now enter 45.99, above the remaining balance, and only the
      validity guard stops it. */
  method PresetAfterTypedCents() returns (amount: nat, proceeds: Option<nat>)
    ensures amount == 4599 && !IsValidAmount(amount, 4507) && proceeds.None?
  {
    var entry := new AmountEntry(4507);
    ScenarioDigits();
    entry.EditCents("99");
    entry.ApplyPreset(4507);
    amount := entry.Amount();
    proceeds := entry.Continue();
  }
}
