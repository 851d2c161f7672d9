/** The pay-for-people screen of an equal split: how many people the
    recorded equal-split payments already covered, how many can still be
    chosen, and the counter of people the diner pays for, kept within
    [1, the number still selectable]. The payment list comes from the bill
    context and is an input here. */
module PayForPeople {
  import opened Common
  import opened Bill
  import opened Text

  /** The split-mode label of an equal split. */
  const EqualSplitMode: string := "Gelijk verdelen"

  /** `p.splitMode?.includes('Gelijk verdelen')`. */
  predicate IsEqualSplit(p: Payment) {
    Contains(p.splitMode, EqualSplitMode)
  }

  /** `payment.peopleCount || 1`: an absent count and a count of 0 are both
      falsy and read as 1; every other count is taken as it is. */
  function PeopleWeight(p: Payment): (w: int)
    ensures p.peopleCount.Some? && p.peopleCount.value != 0 ==> w == p.peopleCount.value
    ensures p.peopleCount.None? || p.peopleCount.value == 0 ==> w == 1
  {
    match p.peopleCount
    case None => 1
    case Some(n) => if n == 0 then 1 else n
  }

  /** A payment's count is sensible when it is absent or not negative. */
  predicate SensibleCount(p: Payment) {
    p.peopleCount.None? || p.peopleCount.value >= 0
  }

  /** The equal-split payments of a list, in order (the `filter`). */
  function EqualSplitPayments(payments: seq<Payment>): (r: seq<Payment>)
    ensures |r| <= |payments|
    ensures forall i :: 0 <= i < |r| ==> IsEqualSplit(r[i]) && r[i] in payments
    ensures forall i :: 0 <= i < |payments| && IsEqualSplit(payments[i]) ==> payments[i] in r
  {
    if payments == [] then []
    else if IsEqualSplit(payments[0]) then [payments[0]] + EqualSplitPayments(payments[1..])
    else EqualSplitPayments(payments[1..])
  }

  /** The filter keeps every equal-split payment, in order: filtering
      `a + b` gives the kept payments of `a` followed by those of `b`. */
  lemma {:induction false} EqualSplitPaymentsAppend(a: seq<Payment>, b: seq<Payment>)
    ensures EqualSplitPayments(a + b) == EqualSplitPayments(a) + EqualSplitPayments(b)
  {
    if a == [] {
      assert a + b == b;
    } else {
      assert (a + b)[0] == a[0] && (a + b)[1..] == a[1..] + b;
      EqualSplitPaymentsAppend(a[1..], b);
    }
  }

  /** `peoplePaidCount`: the people the equal-split payments covered. With
      sensible counts every equal-split payment covers at least one person,
      so the count is at least the number of such payments; a list with no
      equal-split payment covers nobody. */
  function PeoplePaidCount(payments: seq<Payment>): (r: int)
    ensures (forall i :: 0 <= i < |payments| ==> SensibleCount(payments[i])) ==>
              r >= |EqualSplitPayments(payments)|
    ensures EqualSplitPayments(payments) == [] ==> r == 0
  {
    if payments == [] then 0
    else
      assert forall i :: 0 <= i < |payments[1..]| ==> payments[1..][i] == payments[i + 1];
      (if IsEqualSplit(payments[0]) then PeopleWeight(payments[0]) else 0) + PeoplePaidCount(payments[1..])
  }

  /** Recording one more payment raises the count by its weight when it is
      an equal-split payment, and leaves it unchanged otherwise. */
  lemma {:induction false} PeoplePaidAfterPayment(payments: seq<Payment>, p: Payment)
    ensures PeoplePaidCount(payments + [p])
            == PeoplePaidCount(payments) + (if IsEqualSplit(p) then PeopleWeight(p) else 0)
  {
    if payments == [] {
      assert payments + [p] == [p];
      assert [p][1..] == [];
    } else {
      assert (payments + [p])[1..] == payments[1..] + [p];
      PeoplePaidAfterPayment(payments[1..], p);
    }
  }

  /** `maxSelectablePeople`. */
  function MaxSelectable(totalPeople: int, payments: seq<Payment>): int {
    totalPeople - PeoplePaidCount(payments)
  }

  /** Recording an equal-split payment for `n` people (n > 0) lowers the
      number still selectable by exactly `n`; any other payment leaves it. */
  lemma MaxSelectableAfterPayment(totalPeople: int, payments: seq<Payment>, p: Payment)
    ensures IsEqualSplit(p) && p.peopleCount.Some? && p.peopleCount.value > 0 ==>
              MaxSelectable(totalPeople, payments + [p]) == MaxSelectable(totalPeople, payments) - p.peopleCount.value
    ensures !IsEqualSplit(p) ==>
              MaxSelectable(totalPeople, payments + [p]) == MaxSelectable(totalPeople, payments)
  {
    PeoplePaidAfterPayment(payments, p);
  }

  /** The decrement button's update, `Math.max(1, selected - 1)`. */
  function Decremented(selected: int): (r: int)
    ensures r >= 1
    ensures selected > 1 ==> r == selected - 1
    ensures selected <= 1 ==> r == 1
  {
    Max(1, selected - 1)
  }

  /** The increment button's update, `Math.min(max, selected + 1)`. */
  function Incremented(max: int, selected: int): (r: int)
    ensures r <= max
    ensures selected < max ==> r == selected + 1
    ensures selected >= max ==> r == max
  {
    Min(max, selected + 1)
  }

  /** Which of the screen's two faces is shown. */
  datatype Face = EveryonePaid | Choosing

  /** The screen's state: the inputs it receives and the people counter. */
  class PeopleSelector {
    const totalPeople: int
    const perPersonAmount: real
    const payments: seq<Payment>
    var selectedPeople: int

    function Max(): int {
      MaxSelectable(totalPeople, payments)
    }

    /** The terminal "everyone has paid" face is shown exactly when the
        number still selectable is 0; with more people paid than the split
        has (a negative maximum) the chooser is still shown. */
    function Shown(): (f: Face)
      ensures f == EveryonePaid <==> PeoplePaidCount(payments) == totalPeople
    {
      if Max() == 0 then EveryonePaid else Choosing
    }

    /** The counter is at least 1 and never above the number still
        selectable, unless that number is below 1. */
    ghost predicate Valid()
      reads this
    {
      1 <= selectedPeople <= Common.Max(1, Max())
    }

    constructor (totalPeople: int, perPersonAmount: real, payments: seq<Payment>)
      ensures Valid()
      ensures this.totalPeople == totalPeople && this.perPersonAmount == perPersonAmount
      ensures this.payments == payments && selectedPeople == 1
    {
      this.totalPeople := totalPeople;
      this.perPersonAmount := perPersonAmount;
      this.payments := payments;
      selectedPeople := 1;
    }

    /** `totalToPay`. */
    function TotalToPay(): real
      reads this
    {
      selectedPeople as real * perPersonAmount
    }

    /** `peopleRemaining`: the people neither paid for earlier nor chosen
        now. While the counter is valid and someone can still be chosen, it
        is never negative, so the split is never oversubscribed. */
    function PeopleRemaining(): (r: int)
      reads this
      ensures r == Max() - selectedPeople
      ensures Valid() && Max() >= 1 ==> r >= 0 && PeoplePaidCount(payments) + selectedPeople <= totalPeople
    {
      totalPeople - PeoplePaidCount(payments) - selectedPeople
    }

    /** The "still to pay" card is shown exactly when the counter is below
        the number still selectable, that is when the plus button is
        enabled. */
    predicate ShowsRemainingCard()
      reads this
      ensures ShowsRemainingCard() <==> selectedPeople < Max()
    {
      PeopleRemaining() > 0
    }

    /** The minus button: disabled at 1 or below, otherwise one less. */
    method PressMinus()
      requires Valid() && Shown() == Choosing
      modifies this`selectedPeople
      ensures Valid()
      ensures old(selectedPeople) <= 1 ==> selectedPeople == old(selectedPeople)
      ensures old(selectedPeople) > 1 ==> selectedPeople == old(selectedPeople) - 1
    {
      if selectedPeople > 1 {
        selectedPeople := Decremented(selectedPeople);
      }
    }

    /** The plus button: disabled once the number still selectable is
        reached, otherwise one more. */
    method PressPlus()
      requires Valid() && Shown() == Choosing
      modifies this`selectedPeople
      ensures Valid()
      ensures old(selectedPeople) >= Max() ==> selectedPeople == old(selectedPeople)
      ensures old(selectedPeople) < Max() ==> selectedPeople == old(selectedPeople) + 1
    {
      if selectedPeople < Max() {
        selectedPeople := Incremented(Max(), selectedPeople);
      }
    }

    /** The continue button: hands on the number of people and what they
        owe, that many times the per-person amount. */
    method Continue() returns (people: int, amount: real)
      requires Valid() && Shown() == Choosing
      ensures people == selectedPeople && people >= 1
      ensures amount == people as real * perPersonAmount
      ensures Max() >= 1 ==> people <= Max()
    {
      people, amount := selectedPeople, TotalToPay();
    }
  }

  /** A bill for six where one diner already paid for two by equal split
      and another paid by items: four people can still be chosen. */
  lemma SixPeopleTwoPaid()
    ensures var paid := [
              Payment(30.0, 0.0, 0.0, 30.0, EqualSplitMode, None, Some(2)),
              Payment(12.5, 0.0, 0.0, 12.5, "Items", None, None)];
            MaxSelectable(6, paid) == 4
  {
    var a := Payment(30.0, 0.0, 0.0, 30.0, EqualSplitMode, None, Some(2));
    var b := Payment(12.5, 0.0, 0.0, 12.5, "Items", None, None);
    assert IsEqualSplit(a);
    assert !IsEqualSplit(b);
    assert [a, b][1..] == [b];
  }

  /** An equal-split payment whose count is 0 still covers one person:
      after it, one person fewer can be chosen. */
  lemma ZeroCountCoversOne(totalPeople: int)
    ensures var p := Payment(10.0, 0.0, 0.0, 10.0, EqualSplitMode, None, Some(0));
            MaxSelectable(totalPeople, [p]) == totalPeople - 1
  {
    var p := Payment(10.0, 0.0, 0.0, 10.0, EqualSplitMode, None, Some(0));
    assert IsEqualSplit(p);
    PeoplePaidAfterPayment([], p);
  }
}
