# Splitty split-the-bill screens in Dafny

This project models the bookkeeping of the split-the-bill screens of the
Splitty web app, where restaurant diners pay their share of one bill. Each
screen's rules are modelled, and their promises are proved:

- **Pay for items** (`PayForItems`). The diner picks how many of each
  ordered item to pay for. Each quantity stays within what is left of the
  item. The screen shows the selected total and lists fully paid items
  last. On continue it hands on the selection list.
- **Pay for people** (`PayForPeople`). The diner chooses how many people
  of an equal split they pay for. The screen counts the people already
  covered by earlier equal-split payments. It has a terminal "everyone has
  paid" face.
- **Custom amount** (`CustomAmount`). The diner types whole euros and
  cents, or presses a preset. Both are clamped against the remaining
  balance, counted in whole cents.
- **Split equally** and **pay equally** (`SplitEqually`, `PayEqually`).
  Head-count counters with a floor of two. The pay-equally page also has
  a two-view state machine and a "paying for" counter limited to the
  people others have not taken.
- **Tip** (`Tip`). A preset or custom tip rate, the tip it gives, and the
  total before the service fee.
- **Payment method** (`PaymentMethod`). The five-minute countdown and its
  `m:ss` display. The pay button caps the amount at the remaining balance,
  records one payment in the bill, and builds the parameters of the
  thank-you page.
- **Menu** (`Menu`). The cart, its totals, the flattened catalogue, the
  case-insensitive search, and the scroll handler that picks the active
  subcategory tab.

Shared modules: `Common` (option type, min/max), `Text` (the JavaScript
string operations the screens use: digit filtering, `parseInt`,
`toString`, `padStart`/`padEnd`, `slice`, `toLowerCase`, `includes`,
`trim`) and `Bill` (the payment record and the bill's payment list).

Each screen whose handlers change state step by step is a `class`. Its
fields are the screen's state, and its methods are the click handlers. A
disabled button is a handler that leaves the state as it is. The derived
values (totals, counts, filters) are functions, and their properties are
proved as lemmas.

The bill context the screens read (remaining balance, remaining quantity
per item, the payment list) is an input. `addPayment` appends to a
sequence.

## Model

| member | source | states |
|---|---|---|
| PayForItems.InitialSelection | components/PayForItemsView.tsx:23-25 | the initial record has exactly the item names as keys, each mapped to 0 |
| PayForItems.QuantityOf | components/PayForItemsView.tsx:37 | the entry of the name in the selection record, or 0 when the record has none, as the `or 0` default of the source reads it |
| PayForItems.ClampedQuantity | components/PayForItemsView.tsx:29-31 | the new quantity lies in [0, max(0, remaining)]; it is current + delta when that fits, 0 below the range and the remaining quantity above it |
| PayForItems.ItemSelector.constructor | components/PayForItemsView.tsx:23-25 | the screen starts with the initial record built from the items as given, and with the items in display order, as the first render leaves them; the clamp invariant holds |
| PayForItems.ItemSelector.ChangeQuantity | components/PayForItemsView.tsx:27-34 | keeps every entry in [0, remaining]; the entry of the named item becomes the clamped quantity and every other entry is unchanged |
| PayForItems.ItemSelector.PressMinus | components/PayForItemsView.tsx:117-119 | disabled at 0; otherwise the entry shrinks by exactly 1 and nothing else changes |
| PayForItems.ItemSelector.PressPlus | components/PayForItemsView.tsx:129-131 | disabled at the remaining quantity; otherwise the entry grows by exactly 1 and nothing else changes |
| PayForItems.CompareRemaining | components/PayForItemsView.tsx:68-75 | the comparator: 1 when only the first item is fully paid and the second has stock, -1 the other way round, 0 otherwise |
| PayForItems.SortRemainingFirst | components/PayForItemsView.tsx:67-76 | the sorted list has the same length, and no pair of its items is out of order under the comparator: no fully paid item precedes one with remaining stock |
| PayForItems.SortIsStable | components/PayForItemsView.tsx:67-76 | the sort is stable: the fully paid items of the sorted list are those of the input in input order, and so are the others |
| PayForItems.SortIsPermutation | components/PayForItemsView.tsx:67-76 | the display sort is a permutation of the items |
| PayForItems.SortIsIdempotent | components/PayForItemsView.tsx:67-76 | sorting the sorted list again changes nothing, since the sort is stable and the comparator returns 0 within a class |
| PayForItems.ItemSelector.SortForDisplay | components/PayForItemsView.tsx:67-76 | the item list is replaced by its sorted order, which is a permutation and, since the first render sorted it, the list it already was; the record still holds exactly the item names |
| PayForItems.TotalSelected | components/PayForItemsView.tsx:36-39 | `totalSelected`, the sum over the items of unit price times selected quantity, an absent entry counting 0; pinned down by `TotalAfterChange` and `TotalMatchesSelectedItems` |
| PayForItems.TotalAfterChange | components/PayForItemsView.tsx:36-39 | changing one name's entry moves the selected total by the change in quantity times that name's unit price, and by nothing else |
| PayForItems.SelectedItems | components/PayForItemsView.tsx:159-166 | every emitted line names a listed item and carries its selected quantity, which is above 0 |
| PayForItems.SelectedItemsCarryPrices | components/PayForItemsView.tsx:161-165 | every emitted line is the line of some listed item: its name, its selected quantity and its unit price |
| PayForItems.SelectedItemsAppend | components/PayForItemsView.tsx:159-166 | the selection list follows list order: for `a + b` it is the list for `a` followed by the list for `b` |
| PayForItems.SelectedItemsNonEmptyIff | components/PayForItemsView.tsx:159-166 | the selection list is non-empty exactly when some item's quantity is above 0 |
| PayForItems.HasSelection | components/PayForItemsView.tsx:41 | `hasSelection`: some entry of the record is above 0; `HasSelectionIffItemsSelected` ties it to the emitted list |
| PayForItems.HasSelectionIffItemsSelected | components/PayForItemsView.tsx:41 | while the record holds exactly the item names, `hasSelection` holds exactly when the selection list is non-empty |
| PayForItems.TotalMatchesSelectedItems | components/PayForItemsView.tsx:36-39 | with no negative entry, the selected total equals the sum of price times quantity over the emitted selection list |
| PayForItems.ItemSelector.Continue | components/PayForItemsView.tsx:150-178 | continuing is offered exactly when something is selected; it hands on the selected total and the non-empty selection list, whose lines add up to that total |
| PayForPeople.IsEqualSplit | components/PayForPeopleView.tsx:28 | a payment counts as an equal split when its split mode contains "Gelijk verdelen", by `Text.Contains` |
| PayForPeople.PeopleWeight | components/PayForPeopleView.tsx:31 | an absent count and a count of 0 weigh 1, any other count weighs itself |
| PayForPeople.EqualSplitPayments | components/PayForPeopleView.tsx:28 | the filter keeps exactly the payments whose split mode contains the equal-split label: each kept payment is one of the list, and every equal-split payment of the list is kept |
| PayForPeople.EqualSplitPaymentsAppend | components/PayForPeopleView.tsx:28 | the filter keeps list order: the payments kept from `a + b` are those kept from `a` followed by those kept from `b` |
| PayForPeople.PeoplePaidCount | components/PayForPeopleView.tsx:27-32 | with no negative counts, the count is at least the number of equal-split payments; with none it is 0 |
| PayForPeople.PeoplePaidAfterPayment | components/PayForPeopleView.tsx:27-32 | recording a payment raises the count by its weight if it is an equal-split payment, and leaves it unchanged otherwise |
| PayForPeople.MaxSelectable | components/PayForPeopleView.tsx:35 | `maxSelectablePeople`, the total people minus those already paid for by equal-split payments; `MaxSelectableAfterPayment` states how a payment moves it |
| PayForPeople.MaxSelectableAfterPayment | components/PayForPeopleView.tsx:35 | an equal-split payment for n > 0 people lowers the number still selectable by exactly n; any other payment leaves it |
| PayForPeople.Decremented | components/PayForPeopleView.tsx:131 | `max(1, sel - 1)` is at least 1, and it is one less whenever sel > 1 |
| PayForPeople.Incremented | components/PayForPeopleView.tsx:145 | `min(max, sel + 1)` is at most max, and it is one more whenever sel < max |
| PayForPeople.PeopleSelector.Max | components/PayForPeopleView.tsx:35 | the screen's `maxSelectablePeople`, from its total and the bill's payments |
| PayForPeople.PeopleSelector.Shown | components/PayForPeopleView.tsx:48-68 | the terminal "everyone paid" face shows exactly when the people already paid equal the total |
| PayForPeople.PeopleSelector.constructor | components/PayForPeopleView.tsx:24 | the counter starts at 1 |
| PayForPeople.PeopleSelector.TotalToPay | components/PayForPeopleView.tsx:37 | `totalToPay`, the selected head count times the per-person amount, which `Continue` hands on |
| PayForPeople.PeopleSelector.PeopleRemaining | components/PayForPeopleView.tsx:39 | the remaining people are the selectable ones minus the selection; while the counter is valid and someone is selectable this is never negative, so the split is never oversubscribed |
| PayForPeople.PeopleSelector.ShowsRemainingCard | components/PayForPeopleView.tsx:179 | the "still to pay" card shows exactly when the counter is below the number still selectable |
| PayForPeople.PeopleSelector.PressMinus | components/PayForPeopleView.tsx:131-132 | disabled at 1; otherwise one less; the counter stays within [1, max] |
| PayForPeople.PeopleSelector.PressPlus | components/PayForPeopleView.tsx:145-146 | disabled at the maximum; otherwise one more; the counter stays within [1, max] |
| PayForPeople.PeopleSelector.Continue | components/PayForPeopleView.tsx:204 | hands on the selected people (at least 1, and at most the maximum when that is at least 1) and that many times the per-person amount |
| PayForPeople.SixPeopleTwoPaid | components/PayForPeopleView.tsx:27-35 | a six-person bill with one equal-split payment for two and one item payment leaves four selectable |
| PayForPeople.ZeroCountCoversOne | components/PayForPeopleView.tsx:31 | an equal-split payment with a count of 0 still takes one person |
| CustomAmount.EnteredAmount | components/CustomAmountView.tsx:26-27 | the amount is 0 with both fields empty; its whole euros are the euros field, and its cents are the cents field, where one digit counts as tens of cents |
| CustomAmount.AmountEntry.Amount | components/CustomAmountView.tsx:26-27 | `enteredAmount` of the two fields, in cents, as `EnteredAmount` states it |
| CustomAmount.CentsBelowHundred | components/CustomAmountView.tsx:57 | two digits kept by the cents field read as less than 100 cents |
| CustomAmount.IsValidAmount | components/CustomAmountView.tsx:32 | `isValidAmount`: above 0 and not above the remaining balance, the guard `Continue` applies |
| CustomAmount.Clamped | components/CustomAmountView.tsx:40-52 | the bound the edit handlers keep: euros at most the whole euros remaining and, at exactly those euros, cents at most the remaining cents; `EditEuros`, `EditCents` and the constructor end with it |
| CustomAmount.ClampedWithinRemaining | components/CustomAmountView.tsx:40-52 | fields within the clamp enter at most the remaining balance, provided the cents field does not hold a single digit |
| CustomAmount.OneDigitCentsOvershoot | components/CustomAmountView.tsx:63-69 | the clamp reads the cents with `parseInt` but the amount pads them on the right: with 45.07 remaining, "45" and "5" pass the clamp and enter 45.50 |
| CustomAmount.Presets | components/CustomAmountView.tsx:82-87 | four presets, the last being the remaining balance |
| CustomAmount.AmountEntry.constructor | components/CustomAmountView.tsx:20-24 | euros start empty; cents start as the remaining cents, padded to two digits; the fields start clamped |
| CustomAmount.AmountEntry.EditEuros | components/CustomAmountView.tsx:34-55 | digits above the remaining euros set both fields to the remaining balance; otherwise the digits are kept, and the cents are lowered to the remaining cents only at the remaining euros; the fields always end clamped |
| CustomAmount.AmountEntry.EditCents | components/CustomAmountView.tsx:57-79 | keeps the first two digits typed; caps them at the remaining cents when the euros are at the cap; resets both fields when the euros are above it; the fields always end clamped |
| CustomAmount.AmountEntry.ApplyPreset | components/CustomAmountView.tsx:89-96 | the euros become the whole euros of the preset capped at the remaining balance; the cents are untouched |
| CustomAmount.AmountEntry.Continue | components/CustomAmountView.tsx:206-212 | proceeds exactly when the amount is valid, handing on an amount above 0 and not above the remaining balance |
| CustomAmount.TypeTooManyEuros | components/CustomAmountView.tsx:40-42 | with 45.67 remaining, typing "99" euros leaves "45" and "67", which enter exactly 45.67 |
| CustomAmount.PresetAfterTypedCents | components/CustomAmountView.tsx:89-96 | with 45.07 remaining, cents "99" then the remaining-balance preset enter 45.99, and only the validity guard stops it |
| SplitEqually.PerPersonAmount | components/SplitEquallyView.tsx:16 | the share taken once per person makes up the total, and lies between 0 and a non-negative total |
| SplitEqually.MorePeoplePayLess | components/SplitEquallyView.tsx:16 | one more person lowers each share of a positive total |
| SplitEqually.HeadCount.constructor | components/SplitEquallyView.tsx:13 | the head count starts at 2 |
| SplitEqually.HeadCount.PressMinus | components/SplitEquallyView.tsx:47-48 | disabled at 2; otherwise one less; never below 2 |
| SplitEqually.HeadCount.PressPlus | components/SplitEquallyView.tsx:61 | exactly one more, with no upper bound |
| SplitEqually.HeadCount.Share | components/SplitEquallyView.tsx:16 | `perPersonAmount` for the current head count, whose properties `PerPersonAmount` states |
| SplitEqually.HeadCount.Continue | components/SplitEquallyView.tsx:95 | hands on the head count (at least 2), not an amount; the share times that count is the total |
| Tip.TipOptions | components/TipView.tsx:39-44 | four preset buttons, none custom, with percentages from 0 to 15 |
| Tip.CustomTip | components/TipView.tsx:30 | the custom tip is the percentage of the subtotal (tip × 100 = subtotal × pct), between 0 and half the subtotal for a percentage of at most 50 |
| Tip.TipAmount | components/TipView.tsx:19-34 | no tip gives 0; the custom tip is the custom percentage of the subtotal; with a non-negative subtotal and a custom percentage of at most 50 the tip lies between 0 and half the subtotal |
| Tip.PresetsChargeShownPercentage | components/TipView.tsx:19-44 | each preset button charges exactly the percentage it shows |
| Tip.TotalWithTip | components/TipView.tsx:37 | the total is the subtotal plus the tip, without the service fee, and is at least the subtotal for a non-negative tip |
| Tip.DefaultTipOnTwenty | components/TipView.tsx:14-37 | the default seven percent on 20.00 is a tip of 1.40 and a total of 21.40 |
| Tip.TipSelector.constructor | components/TipView.tsx:14-17 | seven percent chosen, custom percentage 20, slider hidden |
| Tip.TipSelector.ChoosePreset | components/TipView.tsx:88-91 | the preset is chosen and the slider hidden |
| Tip.TipSelector.ChooseCustom | components/TipView.tsx:121-124 | custom is chosen and the slider shown |
| Tip.TipSelector.Slide | components/TipView.tsx:140-145 | the custom percentage becomes the slider value in [0, 50]; the slider shows exactly while custom is chosen |
| Tip.TipSelector.Tip | components/TipView.tsx:36 | `tipAmount` for the current choice, as `TipAmount` states it |
| Tip.TipSelector.Continue | components/TipView.tsx:175 | hands on the current tip, which lies between 0 and half a non-negative subtotal |
| PayEqually.PayEquallyPage.PerPerson | app/pay-equally/page.tsx:16 | `perPersonAmount`, the total over the head count, whose properties `SplitEqually.PerPersonAmount` states |
| PayEqually.PayEquallyPage.MaxSelectable | app/pay-equally/page.tsx:17 | `maxSelectablePeople`, the head count minus the people others pay for and those already paid; `PayingPlus` never goes above it |
| PayEqually.PayEquallyPage.TotalPeopleSelected | app/pay-equally/page.tsx:18 | `totalPeopleSelected`, the diner's own people plus those of others and those already paid |
| PayEqually.PayEquallyPage.RemainingAvailable | app/pay-equally/page.tsx:17-19 | the people still available are the selectable ones minus the diner's own; while choosing on a valid page this is never negative, so the selection never exceeds the split |
| PayEqually.PayEquallyPage.constructor | app/pay-equally/page.tsx:8-13 | the page opens on the head count, six people, paying for nobody |
| PayEqually.PayEquallyPage.SplitMinus | app/pay-equally/page.tsx:71-73 | disabled at 2; otherwise one less |
| PayEqually.PayEquallyPage.SplitPlus | app/pay-equally/page.tsx:83 | exactly one more |
| PayEqually.PayEquallyPage.UpdateSplit | app/pay-equally/page.tsx:22-24 | moves to choosing whom to pay for, with nobody chosen |
| PayEqually.PayEquallyPage.ChangeSplit | app/pay-equally/page.tsx:26-29 | back to the head count, with the selection reset to 0 |
| PayEqually.PayEquallyPage.PayingMinus | app/pay-equally/page.tsx:219-221 | disabled at 0; otherwise one less |
| PayEqually.PayEquallyPage.PayingPlus | app/pay-equally/page.tsx:231-233 | disabled at the selectable maximum; otherwise one more; never above it |
| PayEqually.PayEquallyPage.CanContinue | app/pay-equally/page.tsx:275 | on a valid page, continuing is enabled exactly when the diner pays for somebody |
| PayEqually.PayEquallyPage.AmountToPay | app/pay-equally/page.tsx:258 | the diner's amount is their people's share of the total |
| PayEqually.OpeningSplit | app/pay-equally/page.tsx:8-19 | with the page's simulated counts and six people, four can be chosen, and choosing them all fills the split |
| PaymentMethod.CountdownStep | components/PaymentMethodView.tsx:40-46 | a step never goes below 0: one less above 0, and 0 at or below 0 |
| PaymentMethod.Ticks | components/PaymentMethodView.tsx:36-46 | the countdown after k interval callbacks; `TicksCountDown` gives its value |
| PaymentMethod.TicksCountDown | components/PaymentMethodView.tsx:36-46 | after k steps the countdown reads max(0, t - k) |
| PaymentMethod.FormatTime | components/PaymentMethodView.tsx:52-56 | `formatTime`: whole minutes, a colon, and the left-over seconds padded to two digits; `ReadFormatTime` reads it back |
| PaymentMethod.ReadFormatTime | components/PaymentMethodView.tsx:52-56 | the `m:ss` display loses nothing: reading it back gives the seconds |
| PaymentMethod.OpeningDisplay | components/PaymentMethodView.tsx:52-56 | the countdown opens at "5:00" |
| PaymentMethod.ProgressPercentage | components/PaymentMethodView.tsx:58 | the percentage is a third of the seconds left, and lies in [0, 100] while the countdown does |
| PaymentMethod.Commit | components/PaymentMethodView.tsx:287-317 | aborts exactly when min(subtotal, remaining) is not above 0; otherwise records that amount (above 0, at most remaining and subtotal), a total of amount + fee + tip, and the fee, tip, mode, items and head count unchanged; the page parameters carry the same figures |
| PaymentMethod.EqualSplitPaymentTakesPeople | components/PaymentMethodView.tsx:299-307 | a committed equal-split payment for n people leaves n fewer people selectable on the pay-for-people screen |
| PaymentMethod.PaymentScreen.constructor | components/PaymentMethodView.tsx:21-36 | the countdown starts at 300 and an absent split mode is "Onbekend" |
| PaymentMethod.PaymentScreen.Tick | components/PaymentMethodView.tsx:40-46 | one countdown step, staying within [0, 300] |
| PaymentMethod.PaymentScreen.Pay | components/PaymentMethodView.tsx:287-317 | appends exactly the committed payment to the bill, or nothing when the bill is already paid |
| Bill.BillState.AddPayment | components/PaymentMethodView.tsx:299-307 | the bill's payment list grows by exactly the new payment |
| Menu.IncrementId | components/MenuView.tsx:258-260 | every line for the id gets one more; every other line is unchanged |
| Menu.WithItemAdded | components/MenuView.tsx:254-264 | afterwards the cart holds the item's id: an existing id is incremented, a new one appended with quantity 1 |
| Menu.AddExistingBumpsOneLine | components/MenuView.tsx:256-260 | with unique ids, adding an item already in the cart raises exactly that line by one |
| Menu.AddKeepsIdsUnique | components/MenuView.tsx:254-264 | adding to the cart keeps the item ids unique |
| Menu.TotalItems | components/MenuView.tsx:266 | `getTotalItems`, the summed quantities of the cart; `TotalsAfterUpdate`, `TotalsAfterAppend` and `AddRaisesTotals` state how it moves |
| Menu.TotalPrice | components/MenuView.tsx:267 | `getTotalPrice`, the summed price times quantity of the cart lines; the same lemmas state how it moves |
| Menu.TotalsAfterUpdate | components/MenuView.tsx:266-267 | replacing one line moves both totals by that line's change alone |
| Menu.TotalsAfterAppend | components/MenuView.tsx:266-267 | appending a line raises both totals by that line |
| Menu.AddRaisesTotals | components/MenuView.tsx:266-267 | each add raises the item count by exactly 1 and the total price by the item's price |
| Menu.EntriesOf | components/MenuView.tsx:218 | each item of a subcategory becomes an entry carrying its category's title, in order |
| Menu.SubCategoryEntriesMembership | components/MenuView.tsx:217-219 | an entry is among a category's entries exactly when one of its subcategories lists the item |
| Menu.AllItems | components/MenuView.tsx:216-220 | `allItems`, the catalogue flattened to its items, each with its category title; `AllItemsMembership` and `AllItemsAppend` pin it down |
| Menu.AllItemsMembership | components/MenuView.tsx:216-220 | an entry is in `allItems` exactly when the catalogue lists its item under a category with that title |
| Menu.AllItemsAppend | components/MenuView.tsx:216-220 | the catalogue is flattened in order |
| Menu.Matches | components/MenuView.tsx:225-226 | an item matches when its lowercased name or its lowercased description contains the lowercased query |
| Menu.FilterMatches | components/MenuView.tsx:224-227 | an entry is kept exactly when it is in the input and its lowercased name or description contains the lowercased query |
| Menu.FilterMatchesAppend | components/MenuView.tsx:224-227 | the filter keeps input order and repeats: the matches of `a + b` are the matches of `a` followed by those of `b` |
| Menu.IsSearching | components/MenuView.tsx:230 | searching exactly when the query has a character that is not whitespace |
| Menu.SearchResults | components/MenuView.tsx:223-228 | no results for a blank query; otherwise exactly the listed items that match, in catalogue order |
| Menu.SearchIgnoresCase | components/MenuView.tsx:223-227 | the search is case-insensitive: two queries that differ only in the case of their letters give the same results |
| Menu.SearchFindsName | components/MenuView.tsx:224-227 | a listed item whose name contains the query as typed is always found |
| Menu.SubCategoriesOf | components/MenuView.tsx:213 | each subcategory of a category, tagged with the category's id, in order |
| Menu.AllSubCategories | components/MenuView.tsx:213 | every flattened subcategory is tagged with the id of a catalogue category |
| Menu.AllSubCategoriesMembership | components/MenuView.tsx:213 | an entry is flattened exactly when it is subcategory j of category i, tagged with the id of that category i |
| Menu.AllSubCategoriesAppend | components/MenuView.tsx:213 | the subcategories are flattened in catalogue order: those of `a + b` are those of `a` followed by those of `b` |
| Menu.FindVisibleSection | components/MenuView.tsx:298-313 | finds the first subcategory whose mounted section spans the line 100 pixels down, or reports that none does |
| Menu.FindCategory | components/MenuView.tsx:332 | `menuCategories.find` by id: the position of the first category with that id, or none when no category has it |
| Menu.MenuScreen.constructor | components/MenuView.tsx:202-205 | nothing selected, an empty cart and an empty query |
| Menu.MenuScreen.SelectCategory | components/MenuView.tsx:639 | a category button makes that category the chosen one |
| Menu.MenuScreen.Open | components/MenuView.tsx:233-239 | on opening with `skipCategorySelection` and nothing chosen, the food category is chosen; otherwise the choice is kept |
| Menu.MenuScreen.Close | components/MenuView.tsx:248-252 | closing clears the chosen category and the active tab |
| Menu.MenuScreen.SetInitialSubCategory | components/MenuView.tsx:330-338 | with a category chosen and no tab active, the first subcategory of the first category with that id becomes active when it has one; otherwise the tab is unchanged |
| Menu.MenuScreen.AddToCart | components/MenuView.tsx:254-264 | the cart becomes the cart with the item added and keeps its ids unique |
| Menu.MenuScreen.Results | components/MenuView.tsx:223-228 | the results for the current query: none while it is blank, and each one a catalogue entry that matches it |
| Menu.MenuScreen.SetSearchQuery | components/MenuView.tsx:205 | the query becomes what was typed |
| Menu.MenuScreen.HandleScroll | components/MenuView.tsx:289-313 | with a category chosen, the first visible subcategory becomes the active tab and its category the chosen one; with none visible, or no category chosen, nothing changes |
| Text.DigitsOnly | components/CustomAmountView.tsx:35 | the result holds only digits, each one taken from the input; it keeps every digit of the input and leaves a digit string unchanged |
| Text.DigitsOnlyDropsNonDigit | components/CustomAmountView.tsx:35 | a character that is not a decimal digit is removed; with `DigitsOnlyAppend` this fixes the filter on every string |
| Text.DigitsOnlyAppend | components/CustomAmountView.tsx:35 | the digits are kept in order with repeats: the digits of `a + b` are those of `a` followed by those of `b` |
| Text.ParseNat | components/CustomAmountView.tsx:36 | `parseInt` of a digit string, most significant digit first; `Show`, `PadStart2` and `PadEnd2` state what it reads |
| Text.Show | components/CustomAmountView.tsx:41 | `toString` gives a digit string that `parseInt` reads back as the number |
| Text.PadStart2 | components/CustomAmountView.tsx:23 | pads to two characters without changing the value read |
| Text.PadEnd2 | components/CustomAmountView.tsx:27 | pads to two characters; a single digit then reads as ten times its value |
| Text.Take | components/CustomAmountView.tsx:57 | a prefix of the string whose length is the smaller of n and the string's length: the first n characters, or the whole string when it is shorter |
| Text.Contains | components/MenuView.tsx:225 | `includes`: the needle is a prefix of some suffix of the haystack; `ContainsIffOccurs` gives the index form |
| Text.ContainsIffOccurs | components/MenuView.tsx:225 | `includes` holds exactly when the needle occurs at some position |
| Text.Lower | components/MenuView.tsx:225 | `toLowerCase` keeps the length and leaves no capital: each capital A to Z becomes its small letter, 32 code points above, and every other character is kept |
| Text.SameUpToCaseLower | components/MenuView.tsx:225 | two strings that differ only in the case of their letters lowercase to the same string |
| Text.LowerKeepsContains | components/MenuView.tsx:225 | lowercasing both sides keeps every match |
| Text.Trim | components/MenuView.tsx:223 | `trim`: leading and trailing whitespace removed; `TrimEmptyIffBlank` states when nothing is left |
| Text.TrimEmptyIffBlank | components/MenuView.tsx:223 | trimming leaves nothing exactly when every character is whitespace |

## Left out

- Floating point: money is `real` (exact), except in `CustomAmount`, which counts whole cents. `toFixed`, `Math.round` of display values, and the string conversion of the thank-you page parameters are not modelled.
- CustomAmount.AmountEntry.constructor: the remaining balance is a `nat` number of cents. A negative remaining balance, and the floating-point `Math.round((remaining % 1) * 100)`, which can give 100, are not modelled.
- Text.Lower: folds ASCII letters only, not full Unicode `toLowerCase`.
- The menu catalogue contents are not transcribed. The catalogue is a parameter, since every property holds for any catalogue.
- The search entry omits `subCategoryName`. The source reads `s.name`, which the subcategory type does not have, so it is always undefined.
- Timers and navigation are not modelled: `setInterval`/`clearInterval`, `router.push`, `alert`, `setTimeout`. The countdown is modelled as one step and as k steps. `Date.now()` is the parameter `now`.
- The simulated live counts of the pay-equally page are constructor inputs, with no model of other diners acting concurrently. `othersSelecting` feeds no derived value.
- The pay-equally continue button has no click handler in the source. Only its enabled condition is modelled.
- Display-only state is not modelled: the payment method choice (`selectedMethod`), the progress-bar percentages of the pay-for-people, pay-equally and custom-amount screens (`progressPercentage` and `newProgressPercentage` of the custom amount), the parent's `onClose` callback, the tab scrolling (`scrollTo`, `scrollIntoView`), and the body scroll lock.
- PayForItems.SortRemainingFirst: an item whose remaining quantity is negative compares equal to both an open and a fully paid item under the source comparator, which is then inconsistent, and the order JavaScript produces is implementation-defined. The model places such an item with the open ones (fully paid means remaining exactly 0), so its order is only the source's when no remaining quantity is negative.
- PayForItems.ItemSelector.SortForDisplay: the in-place `items.sort` is modelled as reassigning the item sequence to its stable sorted order, without aliasing of the props array.
- The bill context (`remainingAmount`, `paidAmount`, `getRemainingQuantityForItem`, `payments`, `addPayment`) is not shown. Its values are inputs, and `addPayment` is an append to the payment list.
- The translation context and the VAT calculator are not modelled; they only supply display text.
