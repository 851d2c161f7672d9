/** The part of the shared bill context that the screens write to: the
    list of recorded payments, to which `addPayment` appends. The context's
    own derived values (`remainingAmount`, `paidAmount`, the remaining
    quantity of an item) are taken as inputs by the screens that read them. */
module Bill {
  import opened Common

  /** One line of a pay-for-items payment: `{ name, quantity, price }`. */
  datatype SelectedItem = SelectedItem(name: string, quantity: int, price: real)

  /** One recorded payment. `amount` is the principal; `total` adds the
      service fee and the tip. */
  datatype Payment = Payment(
    amount: real,
    tipAmount: real,
    serviceFee: real,
    total: real,
    splitMode: string,
    items: Option<seq<SelectedItem>>,
    peopleCount: Option<int>)

  /** The bill context's payment list: payments are appended, never edited
      or removed. */
  class BillState {
    var payments: seq<Payment>

    constructor ()
      ensures payments == []
    {
      payments := [];
    }

    /** `addPayment(p)`. */
    method AddPayment(p: Payment)
      modifies this
      ensures payments == old(payments) + [p]
    {
      payments := payments + [p];
    }
  }
}
