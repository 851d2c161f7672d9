/** The pay-for-items screen: a record from item name to the quantity the
    diner selects, each entry kept within [0, remaining quantity of the
    item]; the selected total; the display order that puts fully paid items
    last; and the list of selected items handed on when the diner continues.
    The remaining quantity of an item comes from the bill context and is an
    input here (`remainingOf`). */
module PayForItems {
  import opened Common
  import opened Bill

  /** One ordered line of the bill. */
  datatype OrderItem = OrderItem(name: string, quantity: int, unitPrice: real, totalPrice: real)

  function Names(items: seq<OrderItem>): set<string> {
    set i | 0 <= i < |items| :: items[i].name
  }

  /** `selected[name] || 0`: an absent entry reads as 0. */
  function QuantityOf(selected: map<string, int>, name: string): int {
    if name in selected then selected[name] else 0
  }

  /** The initial record, built by a `reduce` over the items that sets each
      item name to 0. */
  function InitialSelection(items: seq<OrderItem>): (m: map<string, int>)
    ensures m.Keys == Names(items)
    ensures forall n :: n in m ==> m[n] == 0
  {
    if items == [] then map[]
    else
      var prefix := items[..|items| - 1];
      assert forall i :: 0 <= i < |prefix| ==> prefix[i] == items[i];
      assert Names(items) == Names(prefix) + {items[|items| - 1].name};
      InitialSelection(prefix)[items[|items| - 1].name := 0]
  }

  /** `Math.max(0, Math.min(current + delta, remaining))`. */
  function ClampedQuantity(current: int, delta: int, remaining: int): (q: int)
    ensures 0 <= q <= Max(0, remaining)
    ensures 0 <= current + delta <= remaining ==> q == current + delta
    ensures current + delta < 0 ==> q == 0
    ensures current + delta > remaining ==> q == Max(0, remaining)
  {
    Max(0, Min(current + delta, remaining))
  }

  /** The comparator of the display sort: an item with nothing left to pay
      (remaining 0) goes after one with remaining stock; any other pair
      compares equal. */
  function CompareRemaining(remainingOf: string -> int, a: OrderItem, b: OrderItem): int {
    var ar, br := remainingOf(a.name), remainingOf(b.name);
    if ar == 0 && br > 0 then 1
    else if ar > 0 && br == 0 then -1
    else 0
  }

  predicate FullyPaid(remainingOf: string -> int, item: OrderItem) {
    remainingOf(item.name) == 0
  }

  /** The items whose fully-paid status is `paid`, in list order. */
  function WithStatus(items: seq<OrderItem>, remainingOf: string -> int, paid: bool): (r: seq<OrderItem>)
    ensures |r| <= |items|
    ensures forall k :: 0 <= k < |r| ==> FullyPaid(remainingOf, r[k]) == paid
  {
    if items == [] then []
    else
      (if FullyPaid(remainingOf, items[0]) == paid then [items[0]] else [])
      + WithStatus(items[1..], remainingOf, paid)
  }

  /** What `items.sort(CompareRemaining)` leaves in the array. The sort is
      stable, so the items with remaining stock keep their relative order,
      and so do the fully paid ones placed after them. */
  function SortRemainingFirst(items: seq<OrderItem>, remainingOf: string -> int): (r: seq<OrderItem>)
    ensures |r| == |items|
    ensures forall i, j :: 0 <= i < j < |r| ==> CompareRemaining(remainingOf, r[i], r[j]) <= 0
  {
    var open, paid := WithStatus(items, remainingOf, false), WithStatus(items, remainingOf, true);
    StatusesSplit(items, remainingOf);
    assert multiset(open + paid) == multiset(open) + multiset(paid);
    assert |multiset(open + paid)| == |multiset(items)|;
    open + paid
  }

  /** The display sort only reorders: it is a permutation of the items. */
  lemma {:induction false} SortIsPermutation(items: seq<OrderItem>, remainingOf: string -> int)
    ensures multiset(SortRemainingFirst(items, remainingOf)) == multiset(items)
  {
    var open, paid := WithStatus(items, remainingOf, false), WithStatus(items, remainingOf, true);
    assert SortRemainingFirst(items, remainingOf) == open + paid;
    StatusesSplit(items, remainingOf);
    assert multiset(open + paid) == multiset(open) + multiset(paid);
  }

  /** Every item lands in exactly one of the two status groups. */
  lemma {:induction false} StatusesSplit(items: seq<OrderItem>, remainingOf: string -> int)
    ensures multiset(WithStatus(items, remainingOf, false)) + multiset(WithStatus(items, remainingOf, true))
            == multiset(items)
  {
    if items != [] {
      var x, rest := items[0], items[1..];
      StatusesSplit(rest, remainingOf);
      var open', paid' := WithStatus(rest, remainingOf, false), WithStatus(rest, remainingOf, true);
      assert multiset(items) == multiset{x} + multiset(rest) by {
        assert items == [x] + rest;
      }
      if FullyPaid(remainingOf, x) {
        assert WithStatus(items, remainingOf, false) == open';
        assert WithStatus(items, remainingOf, true) == [x] + paid';
        assert multiset([x] + paid') == multiset{x} + multiset(paid');
      } else {
        assert WithStatus(items, remainingOf, false) == [x] + open';
        assert WithStatus(items, remainingOf, true) == paid';
        assert multiset([x] + open') == multiset{x} + multiset(open');
      }
    }
  }

  lemma {:induction false} WithStatusOfUniform(items: seq<OrderItem>, remainingOf: string -> int, paid: bool)
    requires forall k :: 0 <= k < |items| ==> FullyPaid(remainingOf, items[k]) == paid
    ensures WithStatus(items, remainingOf, paid) == items
    ensures WithStatus(items, remainingOf, !paid) == []
  {
    if items != [] {
      WithStatusOfUniform(items[1..], remainingOf, paid);
    }
  }

  lemma {:induction false} WithStatusAppend(a: seq<OrderItem>, b: seq<OrderItem>, remainingOf: string -> int, paid: bool)
    ensures WithStatus(a + b, remainingOf, paid) == WithStatus(a, remainingOf, paid) + WithStatus(b, remainingOf, paid)
  {
    if a == [] {
      assert a + b == b;
    } else {
      assert (a + b)[0] == a[0] && (a + b)[1..] == a[1..] + b;
      WithStatusAppend(a[1..], b, remainingOf, paid);
    }
  }

  /** The sort is stable: within each class (fully paid or not) the items
      of the sorted list are those of the original list, in their original
      order. */
  lemma SortIsStable(items: seq<OrderItem>, remainingOf: string -> int, paid: bool)
    ensures WithStatus(SortRemainingFirst(items, remainingOf), remainingOf, paid)
            == WithStatus(items, remainingOf, paid)
  {
    var open, closed := WithStatus(items, remainingOf, false), WithStatus(items, remainingOf, true);
    assert SortRemainingFirst(items, remainingOf) == open + closed;
    WithStatusAppend(open, closed, remainingOf, paid);
    WithStatusOfUniform(open, remainingOf, false);
    WithStatusOfUniform(closed, remainingOf, true);
  }

  /** The screen sorts the same array on every render; sorting an already
      sorted list changes nothing. */
  lemma SortIsIdempotent(items: seq<OrderItem>, remainingOf: string -> int)
    ensures SortRemainingFirst(SortRemainingFirst(items, remainingOf), remainingOf)
            == SortRemainingFirst(items, remainingOf)
  {
    var sorted := SortRemainingFirst(items, remainingOf);
    SortIsStable(items, remainingOf, false);
    SortIsStable(items, remainingOf, true);
    assert SortRemainingFirst(sorted, remainingOf)
           == WithStatus(sorted, remainingOf, false) + WithStatus(sorted, remainingOf, true);
  }

  /** Two permutations of one another carry the same item names. */
  lemma SameNames(a: seq<OrderItem>, b: seq<OrderItem>)
    requires multiset(a) == multiset(b)
    ensures Names(a) == Names(b)
  {
    forall n | n in Names(a) ensures n in Names(b) {
      var i :| 0 <= i < |a| && a[i].name == n;
      assert a[i] in multiset(b);
      var j :| 0 <= j < |b| && b[j] == a[i];
    }
    forall n | n in Names(b) ensures n in Names(a) {
      var j :| 0 <= j < |b| && b[j].name == n;
      assert b[j] in multiset(a);
      var i :| 0 <= i < |a| && a[i] == b[j];
    }
  }

  /** The display sort keeps the set of item names. */
  lemma SortKeepsNames(items: seq<OrderItem>, remainingOf: string -> int)
    ensures Names(SortRemainingFirst(items, remainingOf)) == Names(items)
  {
    SortIsPermutation(items, remainingOf);
    SameNames(items, SortRemainingFirst(items, remainingOf));
  }

  /** What one item's entry costs: its unit price times its selected
      quantity. */
  function LineCost(item: OrderItem, selected: map<string, int>): real {
    Cost(item.unitPrice, QuantityOf(selected, item.name))
  }

  /** Unit price times quantity. */
  function Cost(price: real, quantity: int): real {
    price * quantity as real
  }

  /** The selected total: the sum over the items of unit price times
      selected quantity. The source sums left to right; over exact reals the
      order of summation does not matter. */
  function TotalSelected(items: seq<OrderItem>, selected: map<string, int>): real {
    if items == [] then 0.0 else LineCost(items[0], selected) + TotalSelected(items[1..], selected)
  }

  /** The unit price an item contributes to the name `name`. */
  function PriceFor(item: OrderItem, name: string): real {
    if item.name == name then item.unitPrice else 0.0
  }

  /** The summed unit price of the items called `name`. */
  function PriceOfName(items: seq<OrderItem>, name: string): real {
    if items == [] then 0.0 else PriceFor(items[0], name) + PriceOfName(items[1..], name)
  }

  /** Changing the entry of one name moves the selected total by the cost
      of the change in quantity at that name's unit price, and by nothing
      else. */
  lemma {:induction false} TotalAfterChange(items: seq<OrderItem>, selected: map<string, int>, name: string, q: int)
    ensures TotalSelected(items, selected[name := q])
            == TotalSelected(items, selected) + Cost(PriceOfName(items, name), q - QuantityOf(selected, name))
  {
    if items == [] {
      assert PriceOfName(items, name) == 0.0;
    } else {
      TotalAfterChange(items[1..], selected, name, q);
      TotalAfterChangeStep(items, selected, name, q);
    }
  }

  /** The induction step of `TotalAfterChange`: the first item's cost plus
      the total of the rest. */
  lemma TotalAfterChangeStep(items: seq<OrderItem>, selected: map<string, int>, name: string, q: int)
    requires items != []
    requires TotalSelected(items[1..], selected[name := q])
             == TotalSelected(items[1..], selected) + Cost(PriceOfName(items[1..], name), q - QuantityOf(selected, name))
    ensures TotalSelected(items, selected[name := q])
            == TotalSelected(items, selected) + Cost(PriceOfName(items, name), q - QuantityOf(selected, name))
  {
    LineCostAfterChange(items[0], selected, name, q);
    TotalsUnfold(items, selected, selected[name := q], name);
    StepArithmetic(q - QuantityOf(selected, name),
                   LineCost(items[0], selected), LineCost(items[0], selected[name := q]), PriceFor(items[0], name),
                   TotalSelected(items[1..], selected), TotalSelected(items[1..], selected[name := q]),
                   PriceOfName(items[1..], name),
                   TotalSelected(items, selected), TotalSelected(items, selected[name := q]), PriceOfName(items, name));
  }

  /** The selected totals and the price of a name, split into the first
      item and the rest. */
  lemma TotalsUnfold(items: seq<OrderItem>, selected: map<string, int>, changed: map<string, int>, name: string)
    requires items != []
    ensures TotalSelected(items, selected) == LineCost(items[0], selected) + TotalSelected(items[1..], selected)
    ensures TotalSelected(items, changed) == LineCost(items[0], changed) + TotalSelected(items[1..], changed)
    ensures PriceOfName(items, name) == PriceFor(items[0], name) + PriceOfName(items[1..], name)
  {
  }

  /** Changing the entry of one name moves one item's cost by the cost of
      the change in quantity at what the item contributes to that name. */
  lemma LineCostAfterChange(item: OrderItem, selected: map<string, int>, name: string, q: int)
    ensures LineCost(item, selected[name := q])
            == LineCost(item, selected) + Cost(PriceFor(item, name), q - QuantityOf(selected, name))
  {
    var before := QuantityOf(selected, item.name);
    var d := q - QuantityOf(selected, name);
    if item.name == name {
      assert QuantityOf(selected[name := q], item.name) == before + d;
      assert item.unitPrice * (before + d) as real == item.unitPrice * before as real + item.unitPrice * d as real;
    } else {
      assert QuantityOf(selected[name := q], item.name) == before;
    }
  }

  /** The arithmetic of one induction step of `TotalAfterChange`: costs at
      one quantity add up over the prices. */
  lemma StepArithmetic(d: int, line: real, lineChanged: real, own: real,
                       rest: real, restChanged: real, restPrice: real,
                       total: real, totalChanged: real, price: real)
    requires lineChanged == line + Cost(own, d)
    requires restChanged == rest + Cost(restPrice, d)
    requires total == line + rest && totalChanged == lineChanged + restChanged && price == own + restPrice
    ensures totalChanged == total + Cost(price, d)
  {
    assert (own + restPrice) * d as real == own * d as real + restPrice * d as real;
  }

  /** The `filter`/`map` run on continue: the items whose entry is above 0,
      in list order, each with its selected quantity and unit price. */
  function SelectedItems(items: seq<OrderItem>, selected: map<string, int>): (r: seq<SelectedItem>)
    ensures |r| <= |items|
    ensures forall k :: 0 <= k < |r| ==>
              r[k].name in Names(items) && r[k].quantity == QuantityOf(selected, r[k].name) && r[k].quantity > 0
  {
    if items == [] then []
    else
      var q := QuantityOf(selected, items[0].name);
      var rest := SelectedItems(items[1..], selected);
      assert Names(items[1..]) <= Names(items) by {
        forall n | n in Names(items[1..]) ensures n in Names(items) {
          var i :| 0 <= i < |items[1..]| && items[1..][i].name == n;
          assert items[i + 1].name == n;
        }
      }
      if q > 0 then [SelectedItem(items[0].name, q, items[0].unitPrice)] + rest else rest
  }

  /** The line emitted for `item`: its name, its selected quantity and its
      unit price. */
  predicate IsLineOf(item: OrderItem, selected: map<string, int>, line: SelectedItem) {
    line == SelectedItem(item.name, QuantityOf(selected, item.name), item.unitPrice)
  }

  /** Every line of `lines` is the line of some listed item. */
  predicate LinesOfItems(items: seq<OrderItem>, selected: map<string, int>, lines: seq<SelectedItem>) {
    forall k :: 0 <= k < |lines| ==> exists i :: 0 <= i < |items| && IsLineOf(items[i], selected, lines[k])
  }

  /** Every emitted line is the line of some listed item, so it carries that
      item's unit price as well as its name and selected quantity. */
  lemma {:induction false} SelectedItemsCarryPrices(items: seq<OrderItem>, selected: map<string, int>)
    ensures LinesOfItems(items, selected, SelectedItems(items, selected))
  {
    if items != [] {
      SelectedItemsCarryPrices(items[1..], selected);
      var rest := SelectedItems(items[1..], selected);
      var r := SelectedItems(items, selected);
      var q := QuantityOf(selected, items[0].name);
      var off := if q > 0 then 1 else 0;
      assert r == (if q > 0 then [SelectedItem(items[0].name, q, items[0].unitPrice)] else []) + rest;
      forall k | 0 <= k < |r| ensures exists i :: 0 <= i < |items| && IsLineOf(items[i], selected, r[k]) {
        if k < off {
          assert IsLineOf(items[0], selected, r[k]);
        } else {
          assert 0 <= k - off < |rest| && r[k] == rest[k - off];
          assert exists i :: 0 <= i < |items[1..]| && IsLineOf(items[1..][i], selected, rest[k - off]);
          var i :| 0 <= i < |items[1..]| && IsLineOf(items[1..][i], selected, rest[k - off]);
          assert IsLineOf(items[i + 1], selected, r[k]);
        }
      }
    }
  }

  /** The selection list is built item by item, so it follows list order:
      the list for `a + b` is the list for `a` followed by the list for `b`. */
  lemma {:induction false} SelectedItemsAppend(a: seq<OrderItem>, b: seq<OrderItem>, selected: map<string, int>)
    ensures SelectedItems(a + b, selected) == SelectedItems(a, selected) + SelectedItems(b, selected)
  {
    if a == [] {
      assert a + b == b;
    } else {
      assert (a + b)[0] == a[0] && (a + b)[1..] == a[1..] + b;
      SelectedItemsAppend(a[1..], b, selected);
    }
  }

  /** The selection list is non-empty exactly when some item has a
      selected quantity above 0. */
  lemma {:induction false} SelectedItemsNonEmptyIff(items: seq<OrderItem>, selected: map<string, int>)
    ensures SelectedItems(items, selected) != [] <==>
            exists i :: 0 <= i < |items| && QuantityOf(selected, items[i].name) > 0
  {
    if items != [] {
      SelectedItemsNonEmptyIff(items[1..], selected);
      if exists i :: 0 <= i < |items| && QuantityOf(selected, items[i].name) > 0 {
        var i :| 0 <= i < |items| && QuantityOf(selected, items[i].name) > 0;
        if i > 0 {
          assert items[1..][i - 1] == items[i];
        }
      }
      if exists i :: 0 <= i < |items[1..]| && QuantityOf(selected, items[1..][i].name) > 0 {
        var i :| 0 <= i < |items[1..]| && QuantityOf(selected, items[1..][i].name) > 0;
        assert items[i + 1] == items[1..][i];
      }
    }
  }

  /** `Object.values(selected).some(qty => qty > 0)`. */
  predicate HasSelection(selected: map<string, int>) {
    exists n :: n in selected && selected[n] > 0
  }

  /** While the record holds exactly the item names, the continue button is
      offered (some entry above 0) exactly when the selection list it would
      hand on is non-empty. */
  lemma HasSelectionIffItemsSelected(items: seq<OrderItem>, selected: map<string, int>)
    requires selected.Keys == Names(items)
    ensures HasSelection(selected) <==> SelectedItems(items, selected) != []
  {
    SelectedItemsNonEmptyIff(items, selected);
    if HasSelection(selected) {
      var n :| n in selected && selected[n] > 0;
      var i :| 0 <= i < |items| && items[i].name == n;
      assert QuantityOf(selected, items[i].name) > 0;
    }
    if exists i :: 0 <= i < |items| && QuantityOf(selected, items[i].name) > 0 {
      var i :| 0 <= i < |items| && QuantityOf(selected, items[i].name) > 0;
      assert items[i].name in selected;
    }
  }

  /** The sum of price times quantity over a selection list. */
  function LinesTotal(lines: seq<SelectedItem>): real {
    if lines == [] then 0.0 else Cost(lines[0].price, lines[0].quantity) + LinesTotal(lines[1..])
  }

  /** The amount handed on agrees with the items handed on: with no negative
      entry, the selected total is the sum of price times quantity over the
      selection list. */
  lemma {:induction false} TotalMatchesSelectedItems(items: seq<OrderItem>, selected: map<string, int>)
    requires forall n :: n in selected ==> selected[n] >= 0
    ensures LinesTotal(SelectedItems(items, selected)) == TotalSelected(items, selected)
  {
    if items != [] {
      TotalMatchesSelectedItems(items[1..], selected);
      TotalMatchesStep(items, selected);
    }
  }

  /** The induction step of `TotalMatchesSelectedItems`: the first item adds
      a line exactly when its entry is above 0, and an entry of 0 costs
      nothing. */
  lemma TotalMatchesStep(items: seq<OrderItem>, selected: map<string, int>)
    requires items != []
    requires forall n :: n in selected ==> selected[n] >= 0
    requires LinesTotal(SelectedItems(items[1..], selected)) == TotalSelected(items[1..], selected)
    ensures LinesTotal(SelectedItems(items, selected)) == TotalSelected(items, selected)
  {
    var q := QuantityOf(selected, items[0].name);
    var rest := SelectedItems(items[1..], selected);
    if q > 0 {
      var line := SelectedItem(items[0].name, q, items[0].unitPrice);
      assert SelectedItems(items, selected) == [line] + rest;
      assert ([line] + rest)[1..] == rest;
    } else {
      assert SelectedItems(items, selected) == rest;
      assert Cost(items[0].unitPrice, q) == 0.0;
    }
  }

  /** The screen's state: the item list (which the display sort reorders in
      place) and the record of selected quantities. */
  class ItemSelector {
    var items: seq<OrderItem>
    const remainingOf: string -> int
    var selected: map<string, int>

    /** The items are in display order, and the record holds exactly the
        item names, each within [0, remaining quantity] (0 when the remaining
        quantity is not positive). */
    ghost predicate Valid()
      reads this
    {
      && items == SortRemainingFirst(items, remainingOf)
      && selected.Keys == Names(items)
      && forall n :: n in selected ==> 0 <= selected[n] <= Max(0, remainingOf(n))
    }

    /** The record starts from the items as given; the first render sorts
        the array before any button can be pressed. */
    constructor (items: seq<OrderItem>, remainingOf: string -> int)
      ensures Valid()
      ensures this.items == SortRemainingFirst(items, remainingOf) && this.remainingOf == remainingOf
      ensures selected == InitialSelection(items)
    {
      var sorted := SortRemainingFirst(items, remainingOf);
      SortKeepsNames(items, remainingOf);
      SortIsIdempotent(items, remainingOf);
      this.items := sorted;
      this.remainingOf := remainingOf;
      selected := InitialSelection(items);
    }

    /** `handleQuantityChange(itemName, delta)`: the entry of `name` becomes
        the clamped new quantity; every other entry is unchanged. The handler
        is only bound to the buttons of the listed items. */
    method ChangeQuantity(name: string, delta: int)
      requires Valid() && name in Names(items)
      modifies this`selected
      ensures Valid()
      ensures selected == old(selected)[name := ClampedQuantity(QuantityOf(old(selected), name), delta, remainingOf(name))]
      ensures forall n :: n in selected && n != name ==> selected[n] == old(selected)[n]
    {
      var current := QuantityOf(selected, name);
      var remaining := remainingOf(name);
      selected := selected[name := ClampedQuantity(current, delta, remaining)];
    }

    /** The minus button of an item: disabled at 0, otherwise one less. */
    method PressMinus(name: string)
      requires Valid() && name in Names(items)
      modifies this`selected
      ensures Valid()
      ensures old(selected[name]) == 0 ==> selected == old(selected)
      ensures old(selected[name]) > 0 ==> selected == old(selected)[name := old(selected[name]) - 1]
    {
      if selected[name] != 0 {
        ChangeQuantity(name, -1);
      }
    }

    /** The plus button of an item: disabled once the remaining quantity is
        reached, otherwise one more. */
    method PressPlus(name: string)
      requires Valid() && name in Names(items)
      modifies this`selected
      ensures Valid()
      ensures old(selected[name]) >= remainingOf(name) ==> selected == old(selected)
      ensures old(selected[name]) < remainingOf(name) ==> selected == old(selected)[name := old(selected[name]) + 1]
    {
      if selected[name] < remainingOf(name) {
        ChangeQuantity(name, 1);
      }
    }

    /** The `items.sort(...)` of each render, which reorders the array in
        place. The first render already sorted it, so every later render
        leaves it as it is. */
    method SortForDisplay()
      requires Valid()
      modifies this`items
      ensures Valid()
      ensures items == SortRemainingFirst(old(items), remainingOf)
      ensures multiset(items) == multiset(old(items))
      ensures items == old(items)
    {
      SortIsPermutation(items, remainingOf);
      SameNames(items, SortRemainingFirst(items, remainingOf));
      SortIsIdempotent(items, remainingOf);
      items := SortRemainingFirst(items, remainingOf);
    }

    /** The bottom button: offered only when something is selected; it hands
        on the selected total and the selection list, whose prices times
        quantities add up to that total. */
    method Continue() returns (r: Option<(real, seq<SelectedItem>)>)
      requires Valid()
      ensures r.None? <==> !HasSelection(selected)
      ensures r.Some? ==> r.value.1 == SelectedItems(items, selected) && r.value.1 != []
      ensures r.Some? ==> r.value.0 == TotalSelected(items, selected) == LinesTotal(r.value.1)
    {
      if HasSelection(selected) {
        HasSelectionIffItemsSelected(items, selected);
        TotalMatchesSelectedItems(items, selected);
        r := Some((TotalSelected(items, selected), SelectedItems(items, selected)));
      } else {
        r := None;
      }
    }
  }
}
