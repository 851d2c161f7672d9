/** The split-equally screen: a head count of at least two and the share
    of the total each of them pays. */
module SplitEqually {
  import opened Common

  /** `total / numberOfPeople`: the share that, taken once per person,
      makes up the total. */
  function PerPersonAmount(total: real, people: int): (share: real)
    requires people > 0
    ensures share * people as real == total
    ensures total >= 0.0 ==> 0.0 <= share <= total
  {
    total / people as real
  }

  /** Adding a person lowers each share of a positive total. */
  lemma MorePeoplePayLess(total: real, people: int)
    requires total > 0.0 && people > 0
    ensures PerPersonAmount(total, people + 1) < PerPersonAmount(total, people)
  {
    var a := PerPersonAmount(total, people);
    var b := PerPersonAmount(total, people + 1);
    assert b * (people + 1) as real == a * people as real;
    assert b * people as real + b == a * people as real;
    assert b > 0.0;
    assert (a - b) * people as real == b;
    PositiveFactor(a - b, people as real);
  }

  lemma PositiveFactor(x: real, y: real)
    requires x * y > 0.0 && y > 0.0
    ensures x > 0.0
  {
  }

  /** The screen's state: the total it is given and the head count. */
  class HeadCount {
    const total: real
    var numberOfPeople: int

    ghost predicate Valid()
      reads this
    {
      numberOfPeople >= 2
    }

    constructor (total: real)
      ensures Valid() && this.total == total && numberOfPeople == 2
    {
      this.total := total;
      numberOfPeople := 2;
    }

    /** The share shown for each person. */
    function Share(): real
      reads this
      requires Valid()
    {
      PerPersonAmount(total, numberOfPeople)
    }

    /** The minus button: disabled at 2, otherwise one fewer
        (`Math.max(2, n - 1)`). */
    method PressMinus()
      requires Valid()
      modifies this`numberOfPeople
      ensures Valid()
      ensures old(numberOfPeople) <= 2 ==> numberOfPeople == old(numberOfPeople)
      ensures old(numberOfPeople) > 2 ==> numberOfPeople == old(numberOfPeople) - 1
    {
      if numberOfPeople > 2 {
        numberOfPeople := Max(2, numberOfPeople - 1);
      }
    }

    /** The plus button: one more, with no upper bound. */
    method PressPlus()
      requires Valid()
      modifies this`numberOfPeople
      ensures Valid() && numberOfPeople == old(numberOfPeople) + 1
    {
      numberOfPeople := numberOfPeople + 1;
    }

    /** The continue button hands on the head count, not an amount, though
        the callback's parameter is called `amount`. */
    method Continue() returns (people: int)
      requires Valid()
      ensures people == numberOfPeople && people >= 2
      ensures Share() * people as real == total
    {
      people := numberOfPeople;
    }
  }
}
