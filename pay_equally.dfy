/** The pay-equally page: first the head count of the split is chosen,
    then how many of those people the diner pays for, next to the people
    others are choosing at the same time and those who already paid. The
    counts of other diners are fixed inputs here. */
module PayEqually {
  import opened Common
  import SplitEqually

  /** The bill total the page works with, in euros. */
  const TotalAmount: real := 122.60

  /** The page's two views. */
  datatype View = SplitCountView | PayForPeopleView

  class PayEquallyPage {
    var currentView: View
    var splitCount: int
    var payingFor: int
    const othersSelecting: int
    const othersPayingFor: int
    const alreadyPaid: int

    /** `maxSelectablePeople`: the split's people not taken by others. */
    function MaxSelectable(): int
      reads this
    {
      splitCount - othersPayingFor - alreadyPaid
    }

    /** `totalPeopleSelected`. */
    function TotalPeopleSelected(): int
      reads this
    {
      payingFor + othersPayingFor + alreadyPaid
    }

    /** `remainingAvailable`: the people of the split nobody has taken, which
        is what the diner could still add to their own selection. While the
        diner chooses whom to pay for, and others have not over-committed
        the split, it is never negative: the selection never takes more
        people than the split has. */
    function RemainingAvailable(): (r: int)
      reads this
      ensures r == MaxSelectable() - payingFor
      ensures Valid() && currentView == PayForPeopleView && MaxSelectable() >= 0 ==>
                r >= 0 && TotalPeopleSelected() <= splitCount
    {
      splitCount - TotalPeopleSelected()
    }

    /** `perPersonAmount`. */
    function PerPerson(): real
      reads this
      requires splitCount > 0
    {
      SplitEqually.PerPersonAmount(TotalAmount, splitCount)
    }

    /** The split has at least two people; the diner pays for nobody while
        the head count is being chosen, and for at most the people others
        have not taken while choosing whom to pay for. */
    ghost predicate Valid()
      reads this
    {
      && splitCount >= 2
      && 0 <= payingFor
      && (currentView == SplitCountView ==> payingFor == 0)
      && (currentView == PayForPeopleView ==> payingFor <= Max(0, MaxSelectable()))
    }

    /** The page opens on the head count, six people, paying for nobody. */
    constructor (othersSelecting: int, othersPayingFor: int, alreadyPaid: int)
      ensures Valid() && currentView == SplitCountView && splitCount == 6 && payingFor == 0
      ensures this.othersSelecting == othersSelecting && this.othersPayingFor == othersPayingFor
      ensures this.alreadyPaid == alreadyPaid
    {
      this.othersSelecting := othersSelecting;
      this.othersPayingFor := othersPayingFor;
      this.alreadyPaid := alreadyPaid;
      currentView := SplitCountView;
      splitCount := 6;
      payingFor := 0;
    }

    /** The head-count minus button: disabled at 2, otherwise one fewer
        (`Math.max(2, splitCount - 1)`). */
    method SplitMinus()
      requires Valid() && currentView == SplitCountView
      modifies this`splitCount
      ensures Valid()
      ensures old(splitCount) <= 2 ==> splitCount == old(splitCount)
      ensures old(splitCount) > 2 ==> splitCount == old(splitCount) - 1
    {
      if splitCount > 2 {
        splitCount := Max(2, splitCount - 1);
      }
    }

    /** The head-count plus button: one more, with no upper bound. */
    method SplitPlus()
      requires Valid() && currentView == SplitCountView
      modifies this`splitCount
      ensures Valid() && splitCount == old(splitCount) + 1
    {
      splitCount := splitCount + 1;
    }

    /** `handleUpdateSplit`: on to choosing whom to pay for. */
    method UpdateSplit()
      requires Valid() && currentView == SplitCountView
      modifies this`currentView
      ensures Valid() && currentView == PayForPeopleView && payingFor == 0
    {
      currentView := PayForPeopleView;
    }

    /** `handleChangeSplit`: back to the head count, dropping the diner's
        selection. */
    method ChangeSplit()
      requires Valid() && currentView == PayForPeopleView
      modifies this`currentView, this`payingFor
      ensures Valid() && currentView == SplitCountView && payingFor == 0
    {
      currentView := SplitCountView;
      payingFor := 0;
    }

    /** The paying-for minus button: disabled at 0, otherwise one fewer
        (`Math.max(0, payingFor - 1)`). */
    method PayingMinus()
      requires Valid() && currentView == PayForPeopleView
      modifies this`payingFor
      ensures Valid()
      ensures old(payingFor) == 0 ==> payingFor == 0
      ensures old(payingFor) > 0 ==> payingFor == old(payingFor) - 1
    {
      if payingFor > 0 {
        payingFor := Max(0, payingFor - 1);
      }
    }

    /** The paying-for plus button: disabled once the people others have
        not taken are all chosen, otherwise one more
        (`Math.min(maxSelectablePeople, payingFor + 1)`). */
    method PayingPlus()
      requires Valid() && currentView == PayForPeopleView
      modifies this`payingFor
      ensures Valid()
      ensures old(payingFor) >= MaxSelectable() ==> payingFor == old(payingFor)
      ensures old(payingFor) < MaxSelectable() ==> payingFor == old(payingFor) + 1
    {
      if payingFor < MaxSelectable() {
        payingFor := Min(MaxSelectable(), payingFor + 1);
      }
    }

    /** The continue button is disabled exactly when `payingFor` is 0, so
        on a valid page it is enabled exactly when the diner pays for
        somebody. */
    predicate CanContinue()
      reads this
      ensures Valid() ==> (CanContinue() <==> payingFor > 0)
    {
      !(payingFor == 0)
    }

    /** What the diner's selection costs, `payingFor * perPersonAmount`:
        their people's part of the total. */
    function AmountToPay(): (r: real)
      reads this
      requires splitCount > 0
      ensures r * splitCount as real == payingFor as real * TotalAmount
    {
      payingFor as real * PerPerson()
    }
  }

  /** With the page's simulated counts (two choosing, one of them holding a
      person, one already paid) and the opening six-way split, four people
      can be chosen, and choosing all four fills the split. */
  method OpeningSplit() returns (max: int, remaining: int)
    ensures max == 4 && remaining == 0
  {
    var page := new PayEquallyPage(2, 1, 1);
    page.UpdateSplit();
    page.PayingPlus();
    page.PayingPlus();
    page.PayingPlus();
    page.PayingPlus();
    page.PayingPlus();
    max, remaining := page.MaxSelectable(), page.RemainingAvailable();
  }
}
