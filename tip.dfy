/** The tip screen: a choice among preset tip rates or a custom rate of up
    to fifty percent, the tip it gives on the subtotal, and the total
    before the service fee. */
module Tip {

  /** The tip buttons: `'0'`, `'7'`, `'10'`, `'15'` and `'custom'`. */
  datatype TipChoice = NoTip | Seven | Ten | Fifteen | Custom

  /** The preset buttons in display order, each with the percentage it
      shows. */
  function TipOptions(): (r: seq<(TipChoice, int)>)
    ensures |r| == 4
    ensures forall i :: 0 <= i < |r| ==> r[i].0 != Custom && 0 <= r[i].1 <= 15
  {
    [(NoTip, 0), (Seven, 7), (Ten, 10), (Fifteen, 15)]
  }

  /** `calculateTipAmount`: the subtotal times the rate of the chosen
      button, or times the custom percentage over 100. */
  function TipAmount(choice: TipChoice, subtotal: real, customPercentage: int): (tip: real)
    ensures choice == NoTip ==> tip == 0.0
    ensures choice == Custom ==> tip * 100.0 == subtotal * customPercentage as real
    ensures subtotal >= 0.0 && (choice != Custom || 0 <= customPercentage <= 50) ==>
              0.0 <= tip && tip * 2.0 <= subtotal
  {
    match choice
    case NoTip => 0.0
    case Seven => subtotal * 0.07
    case Ten => subtotal * 0.10
    case Fifteen => subtotal * 0.15
    case Custom => CustomTip(subtotal, customPercentage)
  }

  function CustomTip(subtotal: real, customPercentage: int): (tip: real)
    ensures tip * 100.0 == subtotal * customPercentage as real
    ensures subtotal >= 0.0 && 0 <= customPercentage <= 50 ==> 0.0 <= tip && tip * 2.0 <= subtotal
  {
    var rate := customPercentage as real / 100.0;
    assert subtotal >= 0.0 && 0 <= customPercentage <= 50 ==> 0.0 <= rate <= 0.5;
    Scale(subtotal, rate);
    subtotal * rate
  }

  /** A rate between 0 and one half takes at most half of a non-negative
      amount. */
  lemma Scale(amount: real, rate: real)
    ensures amount >= 0.0 && 0.0 <= rate <= 0.5 ==> 0.0 <= amount * rate && amount * rate * 2.0 <= amount
  {
    if amount >= 0.0 && 0.0 <= rate <= 0.5 {
      assert amount * rate <= amount * 0.5;
    }
  }

  /** Each preset button charges exactly the percentage it shows. */
  lemma PresetsChargeShownPercentage(subtotal: real)
    ensures forall i :: 0 <= i < |TipOptions()| ==>
              TipAmount(TipOptions()[i].0, subtotal, 0) * 100.0 == subtotal * TipOptions()[i].1 as real
  {
    var opts := TipOptions();
    forall i | 0 <= i < |opts|
      ensures TipAmount(opts[i].0, subtotal, 0) * 100.0 == subtotal * opts[i].1 as real
    {
      assert i == 0 || i == 1 || i == 2 || i == 3;
    }
  }

  /** `total`: the subtotal and the tip; the service fee is added only at
      payment. It is never below the subtotal for a non-negative tip. */
  function TotalWithTip(subtotal: real, tip: real): (total: real)
    ensures total - tip == subtotal
    ensures tip >= 0.0 ==> total >= subtotal
  {
    subtotal + tip
  }

  /** The default seven percent on a 20.00 subtotal is 1.40, for a total of
      21.40. */
  lemma DefaultTipOnTwenty()
    ensures TipAmount(Seven, 20.0, 20) == 1.4
    ensures TotalWithTip(20.0, TipAmount(Seven, 20.0, 20)) == 21.4
  {
  }

  /** The screen's state: the subtotal and service fee it is given, the
      chosen button, the custom percentage and whether its slider shows. */
  class TipSelector {
    const subtotal: real
    const serviceFee: real
    var selectedTip: TipChoice
    var customTipPercentage: int
    var showCustomInput: bool

    /** The slider shows exactly while the custom button is chosen, and the
        custom percentage lies within the slider's range. */
    ghost predicate Valid()
      reads this
    {
      && (showCustomInput <==> selectedTip == Custom)
      && 0 <= customTipPercentage <= 50
    }

    /** The seven percent button is chosen, the custom percentage is 20 and
        the slider is hidden. */
    constructor (subtotal: real, serviceFee: real)
      ensures Valid() && this.subtotal == subtotal && this.serviceFee == serviceFee
      ensures selectedTip == Seven && customTipPercentage == 20 && !showCustomInput
    {
      this.subtotal := subtotal;
      this.serviceFee := serviceFee;
      selectedTip := Seven;
      customTipPercentage := 20;
      showCustomInput := false;
    }

    function Tip(): real
      reads this
    {
      TipAmount(selectedTip, subtotal, customTipPercentage)
    }

    /** A preset button: chooses it and hides the slider. */
    method ChoosePreset(choice: TipChoice)
      requires Valid() && choice != Custom
      modifies this`selectedTip, this`showCustomInput
      ensures Valid() && selectedTip == choice && !showCustomInput
    {
      selectedTip := choice;
      showCustomInput := false;
    }

    /** The custom button: chooses it and shows the slider. */
    method ChooseCustom()
      requires Valid()
      modifies this`selectedTip, this`showCustomInput
      ensures Valid() && selectedTip == Custom && showCustomInput
    {
      selectedTip := Custom;
      showCustomInput := true;
    }

    /** The slider, whose range is 0 to 50: the custom percentage becomes
        the value it reports. */
    method Slide(value: int)
      requires Valid() && showCustomInput && 0 <= value <= 50
      modifies this`customTipPercentage
      ensures Valid() && customTipPercentage == value
    {
      customTipPercentage := value;
    }

    /** The continue button hands on the current tip, which for a
        non-negative subtotal lies between 0 and half the subtotal. */
    method Continue() returns (tip: real)
      requires Valid()
      ensures tip == Tip()
      ensures subtotal >= 0.0 ==> 0.0 <= tip && tip * 2.0 <= subtotal
    {
      tip := Tip();
    }
  }
}
