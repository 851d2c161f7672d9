/** The payment-method screen: the five-minute countdown with its `m:ss`
    display and progress bar, and the pay button, which caps the amount at
    what is left of the bill, records one payment in the bill and builds
    the parameters of the thank-you page. The remaining balance of the bill
    and the current time are inputs here. */
module PaymentMethod {
  import opened Common
  import opened Bill
  import opened Text
  import PayForPeople

  /** The countdown's starting value, in seconds. */
  const CountdownStart: int := 300

  /** One step of the interval callback: a value at or below 0 becomes 0,
      anything else one less. */
  function CountdownStep(prev: int): (next: int)
    ensures next >= 0
    ensures prev > 0 ==> next == prev - 1
    ensures prev <= 0 ==> next == 0
  {
    if prev <= 0 then 0 else prev - 1
  }

  /** The countdown after `k` steps. */
  function Ticks(t: int, k: nat): int
    decreases k
  {
    if k == 0 then t else Ticks(CountdownStep(t), k - 1)
  }

  /** After `k` steps the countdown reads `t - k`, or 0 once that would be
      negative: it runs down one second per step and then stays at 0. */
  lemma {:induction false} TicksCountDown(t: int, k: nat)
    requires t >= 0 || k > 0
    ensures Ticks(t, k) == Max(0, t - k)
    decreases k
  {
    if k > 0 {
      TicksCountDown(CountdownStep(t), k - 1);
    }
  }

  /** `formatTime`: whole minutes, a colon, and the seconds left over,
      padded to two digits. */
  function FormatTime(seconds: nat): string {
    Show(seconds / 60) + ":" + PadStart2(Show(seconds % 60))
  }

  /** The position of the first colon of `s`, if it has one. */
  function IndexOfColon(s: string): (r: Option<nat>)
    ensures r.Some? ==> r.value < |s| && s[r.value] == ':' && forall j :: 0 <= j < r.value ==> s[j] != ':'
    ensures r.None? ==> forall j :: 0 <= j < |s| ==> s[j] != ':'
  {
    if s == [] then None
    else if s[0] == ':' then Some(0)
    else
      match IndexOfColon(s[1..])
      case None => None
      case Some(i) => Some(i + 1)
  }

  /** Reads an `m:ss` display back into seconds: digits, a colon, and two
      digits below 60. */
  function ReadTime(s: string): Option<nat> {
    match IndexOfColon(s)
    case None => None
    case Some(i) =>
      var minutes, secs := s[..i], s[i + 1..];
      if minutes != [] && IsDigits(minutes) && |secs| == 2 && IsDigits(secs) && ParseNat(secs) < 60
      then Some(ParseNat(minutes) * 60 + ParseNat(secs))
      else None
  }

  /** The display loses nothing: reading it back gives the seconds it was
      made from. */
  lemma ReadFormatTime(seconds: nat)
    ensures ReadTime(FormatTime(seconds)) == Some(seconds)
  {
    var minutes := Show(seconds / 60);
    var secs := PadStart2(Show(seconds % 60));
    var s := FormatTime(seconds);
    assert s == minutes + ":" + secs;
    ColonAfterDigits(minutes, secs);
    assert s[..|minutes|] == minutes;
    assert s[|minutes| + 1..] == secs;
  }

  /** In digits, a colon and anything after, the first colon is the one
      after the digits. */
  lemma ColonAfterDigits(digits: string, rest: string)
    requires IsDigits(digits)
    ensures IndexOfColon(digits + ":" + rest) == Some(|digits|)
  {
    var s := digits + ":" + rest;
    assert s[|digits|] == ':';
    assert forall j :: 0 <= j < |digits| ==> s[j] == digits[j] && IsDigit(digits[j]);
  }

  /** The countdown opens at "5:00". */
  lemma OpeningDisplay()
    ensures FormatTime(CountdownStart) == "5:00"
  {
    assert Show(5) == "5" && Show(0) == "0";
  }

  /** `progressPercentage`: the share of the five minutes still left, as a
      percentage, which stays between 0 and 100 while the countdown does. */
  function ProgressPercentage(timeRemaining: int): (p: real)
    ensures p * 3.0 == timeRemaining as real
    ensures 0 <= timeRemaining <= CountdownStart ==> 0.0 <= p <= 100.0
  {
    timeRemaining as real / 300.0 * 100.0
  }

  /** The parameters of the thank-you page. */
  datatype RedirectParams = RedirectParams(
    paymentId: string,
    amount: real,
    serviceFee: real,
    tip: real,
    total: real,
    splitMode: string)

  /** What pressing pay leads to: either the bill was already paid and
      nothing is recorded, or one payment is recorded and the diner is sent
      on with these parameters. */
  datatype PayOutcome = BillAlreadyPaid | Recorded(payment: Payment, params: RedirectParams)

  /** The pay button's handler at time `now` (the milliseconds that name the
      payment). The amount is the subtotal capped at the remaining balance;
      when that is not above 0 the handler stops. Otherwise the payment
      records that amount, the given fee, tip, split mode, items and head
      count, and a total of the amount, fee and tip; the page parameters
      carry the same figures. The `totalAmount` the screen is given plays
      no part. */
  function Commit(subtotal: real, remaining: real, serviceFee: real, tipAmount: real, splitMode: string,
                  items: Option<seq<SelectedItem>>, peopleCount: Option<int>, now: nat): (r: PayOutcome)
    ensures r.BillAlreadyPaid? <==> subtotal <= 0.0 || remaining <= 0.0
    ensures r.Recorded? ==>
              && 0.0 < r.payment.amount <= remaining
              && r.payment.amount <= subtotal
              && (r.payment.amount == subtotal || r.payment.amount == remaining)
              && r.payment.total == r.payment.amount + serviceFee + tipAmount
              && r.payment.tipAmount == tipAmount && r.payment.serviceFee == serviceFee
              && r.payment.splitMode == splitMode && r.payment.items == items
              && r.payment.peopleCount == peopleCount
    ensures r.Recorded? ==>
              && r.params.amount == r.payment.amount && r.params.total == r.payment.total
              && r.params.serviceFee == serviceFee && r.params.tip == tipAmount
              && r.params.splitMode == splitMode
              && r.params.paymentId == "payment_" + Show(now)
  {
    var actual := MinReal(subtotal, remaining);
    if actual <= 0.0 then BillAlreadyPaid
    else
      var total := actual + serviceFee + tipAmount;
      Recorded(
        Payment(actual, tipAmount, serviceFee, total, splitMode, items, peopleCount),
        RedirectParams("payment_" + Show(now), actual, serviceFee, tipAmount, total, splitMode))
  }

  /** Paying for people in an equal split leaves that many fewer people to
      choose on the pay-for-people screen. */
  lemma EqualSplitPaymentTakesPeople(totalPeople: int, payments: seq<Payment>, subtotal: real, remaining: real,
                                     serviceFee: real, tipAmount: real, people: int, now: nat)
    requires people > 0
    requires Commit(subtotal, remaining, serviceFee, tipAmount, PayForPeople.EqualSplitMode, None, Some(people), now).Recorded?
    ensures var p := Commit(subtotal, remaining, serviceFee, tipAmount, PayForPeople.EqualSplitMode, None, Some(people), now).payment;
            PayForPeople.MaxSelectable(totalPeople, payments + [p])
            == PayForPeople.MaxSelectable(totalPeople, payments) - people
  {
    var p := Commit(subtotal, remaining, serviceFee, tipAmount, PayForPeople.EqualSplitMode, None, Some(people), now).payment;
    assert PayForPeople.EqualSplitMode <= p.splitMode;
    PayForPeople.MaxSelectableAfterPayment(totalPeople, payments, p);
  }

  /** The screen's state: the figures it is given and the countdown. */
  class PaymentScreen {
    const subtotal: real
    const serviceFee: real
    const tipAmount: real
    const splitMode: string
    const selectedItems: Option<seq<SelectedItem>>
    const peopleCount: Option<int>
    var timeRemaining: int

    ghost predicate Valid()
      reads this
    {
      0 <= timeRemaining <= CountdownStart
    }

    /** The countdown opens at five minutes; an absent split mode is
        `'Onbekend'`. */
    constructor (subtotal: real, serviceFee: real, tipAmount: real, splitMode: Option<string>,
                 selectedItems: Option<seq<SelectedItem>>, peopleCount: Option<int>)
      ensures Valid() && timeRemaining == CountdownStart
      ensures this.subtotal == subtotal && this.serviceFee == serviceFee && this.tipAmount == tipAmount
      ensures this.splitMode == (if splitMode.Some? then splitMode.value else "Onbekend")
      ensures this.selectedItems == selectedItems && this.peopleCount == peopleCount
    {
      this.subtotal := subtotal;
      this.serviceFee := serviceFee;
      this.tipAmount := tipAmount;
      this.splitMode := if splitMode.Some? then splitMode.value else "Onbekend";
      this.selectedItems := selectedItems;
      this.peopleCount := peopleCount;
      timeRemaining := CountdownStart;
    }

    /** One second of the countdown. */
    method Tick()
      requires Valid()
      modifies this`timeRemaining
      ensures Valid() && timeRemaining == CountdownStep(old(timeRemaining))
      ensures timeRemaining <= old(timeRemaining)
    {
      timeRemaining := if timeRemaining <= 0 then 0 else timeRemaining - 1;
    }

    /** The pay button: records the payment in the bill, or records nothing
        when the bill is already paid. */
    method Pay(bill: BillState, remaining: real, now: nat) returns (outcome: PayOutcome)
      modifies bill
      ensures outcome == Commit(subtotal, remaining, serviceFee, tipAmount, splitMode, selectedItems, peopleCount, now)
      ensures outcome.Recorded? ==> bill.payments == old(bill.payments) + [outcome.payment]
      ensures outcome.BillAlreadyPaid? ==> bill.payments == old(bill.payments)
    {
      outcome := Commit(subtotal, remaining, serviceFee, tipAmount, splitMode, selectedItems, peopleCount, now);
      if outcome.Recorded? {
        bill.AddPayment(outcome.payment);
      }
    }
  }
}
