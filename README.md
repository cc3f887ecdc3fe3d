# Invoice line-item ledger

A Dafny model of the bookkeeping inside the `InvoiceGenerator` class of the
invoice builder (`public/js/invoice-generator.js`). The object keeps three
pieces of state:

- `itemsArr`, the ordered list of line items `{id, quantity, name, price, description}`;
- `removeItemsOn`, the remove-mode flag;
- `taxPercentage`, fixed at 4.

The event handlers and methods that change or read this state are modelled as an
imperative Dafny class, `Invoice.InvoiceGenerator`. Its `itemsArr` is a
`seq<Ledger.Item>` that the methods reassign, and `removeItemsOn` is a `bool`.
Every method is tied to pure specification functions in module `Ledger`:

- `FirstIndex` is `Array.prototype.find`: the first item with a given id.
- `RemoveAt` is `splice(k, 1)`.
- `StepQuantity` is the plus/minus step with its floor at 1.
- `LineTotal` and `Subtotal` are `price * quantity` and their sum.

Lemmas in `Ledger` relate these functions to each other. Module `PriceKeys`
models the keydown filter on an item's editable price as a predicate. It also
proves that the filter keeps a typed price to at most one decimal point.

Modelling choices:

- Ids are unbounded integers passed in by the caller. The source takes them
  from `new Date().getTime()`, so two items can get the same id. For that
  reason every lookup is first-match, exactly as `find` is.
  `Ledger.RemoveTakesOnlyFirstOfDuplicates` shows what that does when ids
  collide. `Ledger.FindsOwnItem` shows that a lookup finds the clicked item
  when ids are distinct.
- Prices are `Option<real>`, with `None` standing for `null`. A null price
  contributes 0 to the totals, as `null * n` does in JavaScript.
- Amounts are exact `real`s, so no floating-point rounding is modelled.
- A lookup that finds no item makes the source throw a `TypeError`, and
  the state stays as it was. In the quantity handler, `updateItemQuantity`,
  the price handler and `updateItemTotal`, `find` returns `undefined` and
  reading or writing a field of it throws before anything is stored.
  `removeItem` handles the missing index itself (line 193 leaves the list
  alone); its `TypeError` comes afterwards, from the page lookup at line 194.
  The model instead reports `found == false`, `NotFound` or `None`.
- `UpdateTotal` and `UpdateItemTotal` return the amounts the source writes
  into the page. They read the state and change nothing. The discount is a
  parameter: in the source it is the value of the discount input.
- `ItemsCount` is the definition of the number the items counter shows,
  `itemsArr.length` (line 109). Its changes are stated by `AddItem` (one
  more) and `RemoveItem` (one fewer when an item is removed), and
  `Invoice.CountSession` proves that it counts the `AddItem` calls made on a
  new ledger.
- `Invoice.PricingSession`, `Invoice.TwoItemSession`,
  `Invoice.QuantitySession` and `Invoice.RemovalSession` are client
  methods. They walk through short sessions with concrete prices: adding
  items, pricing them, stepping quantities, reading totals after a discount,
  toggling remove mode and removing items. Each expected state is stated as
  an assertion.

Behaviours of the code that a reader might expect otherwise:

- `removeItem` has no one-item floor. Removing the last item empties the
  list (see `Invoice.RemovalSession`).
- `updateItemQuantity` writes whatever quantity it is given and does not
  clamp it. The floor at 1 comes only from the quantity step handler, which
  lowers a quantity only when it is at least 2. So `Valid()` (every quantity
  is at least 1) is preserved by every operation except a direct
  `UpdateItemQuantity` with a quantity below 1.
- The constructor seeds no items.
- Ids are not guaranteed to be unique.
- Remove mode stays on after a removal. Only the toggle and `addItem` turn
  it off.
- Tax is `(subtotal − discount) / 100 × 4`, so it is charged on the
  amount after the discount.

## Model

| member | source | states |
|---|---|---|
| `Ledger.LineTotal` | public/js/invoice-generator.js:74-76 | an item's line total is its price times its quantity, and an item with a null price contributes 0 |
| `Ledger.Subtotal` | public/js/invoice-generator.js:74-80 | the sum of the line totals over the list; a list where no item has a price yet sums to 0 |
| `Invoice.CountSession` | public/js/invoice-generator.js:95-110 | from a new ledger, after one AddItem per id (ids may repeat), the counter shows the number of calls and the items are the fresh records in call order |
| `Ledger.FirstIndex` | public/js/invoice-generator.js:176-177 | the lookup gives an index holding the id, with no earlier item holding it; it gives None exactly when no item holds the id |
| `Ledger.RemoveAt` | public/js/invoice-generator.js:192-193 | splicing out index k shortens the list by one, keeps the items before k in place, shifts those after k down by one in their order, and removes exactly that one entry from the multiset of items |
| `Ledger.StepQuantity` | public/js/invoice-generator.js:141-146 | a quantity of at least 1 stays at least 1; the quantity rises exactly on the add button, falls exactly on the subtract button from 2 upwards, and changes by at most one |
| `Ledger.AddThenSubRestores` | public/js/invoice-generator.js:141-146 | an add step followed by a subtract step gives back any quantity of at least 1 |
| `Ledger.SubtotalConcat` | public/js/invoice-generator.js:74-80 | the sum of line totals over two lists joined together is the sum of their two sums |
| `Ledger.SubtotalAppend` | public/js/invoice-generator.js:74-80 | appending an item adds exactly its line total to the sum |
| `Ledger.SubtotalSplit` | public/js/invoice-generator.js:74-80 | the sum is the sum before index k, plus item k's line total, plus the sum after k |
| `Ledger.SubtotalRemoveAt` | public/js/invoice-generator.js:191-196 | removing the entry at k lowers the sum by exactly that entry's line total |
| `Ledger.SubtotalReplace` | public/js/invoice-generator.js:176-179 | replacing the entry at k changes the sum by the new line total minus the old one |
| `Ledger.SubtotalNonNegative` | public/js/invoice-generator.js:72-80 | with non-negative prices (or null) and quantities of at least 1, the sum of line totals is never negative |
| `Ledger.FindsOwnItem` | public/js/invoice-generator.js:161-163 | with distinct ids, looking up item i's own id finds index i |
| `Ledger.AppendFreshKeepsDistinct` | public/js/invoice-generator.js:95-101 | appending an item whose id is not yet present keeps all ids distinct |
| `Ledger.RemoveDropsDistinctId` | public/js/invoice-generator.js:191-193 | with distinct ids, removing the first match leaves no item with that id and the ids stay distinct |
| `Ledger.RemoveTakesOnlyFirstOfDuplicates` | public/js/invoice-generator.js:192-193 | when two items share an id, removal by that id takes the earlier one and the later one becomes the first match |
| `Ledger.SetQuantityKeepsPositive` | public/js/invoice-generator.js:176-177 | writing a quantity of at least 1 into one item keeps every quantity at least 1 |
| `PriceKeys.Accepts` | public/js/invoice-generator.js:151-160 | a keystroke is let through if and only if it is a numeral, the space bar, backspace, the left or right arrow, or the point key (shifted or not) while the text has no point |
| `PriceKeys.AtMostOnePoint` | public/js/invoice-generator.js:152-156 | from a price text with at most one point, any keystroke (let through and applied at any caret position, or prevented) leaves at most one point |
| `PriceKeys.RejectedLeavesText` | public/js/invoice-generator.js:155-159 | a prevented keystroke leaves the text unchanged, and only another key, or a point when the text already has one, is prevented |
| `Invoice.InvoiceGenerator.constructor` | public/js/invoice-generator.js:17-20 | a new ledger has no items, remove mode off and a tax percentage of 4 |
| `Invoice.InvoiceGenerator.UpdateTotal` | public/js/invoice-generator.js:71-84 | total price is the sum of price × quantity over all items minus the discount; total taxes is taxPercentage percent of that post-discount amount |
| `Invoice.InvoiceGenerator.UpdateItemTotal` | public/js/invoice-generator.js:183-188 | for an id present, gives the line total of the first item with that id and the refreshed totals; gives None exactly when no item has the id |
| `Invoice.InvoiceGenerator.AddItem` | public/js/invoice-generator.js:89-105 | appends exactly one record (the id, quantity 1, null name, price and description) after the unchanged earlier items; the count rises by one, remove mode ends off, the subtotal is unchanged, and quantities ≥ 1 and fresh-id distinctness are preserved |
| `Invoice.InvoiceGenerator.ToggleRemoveItems` | public/js/invoice-generator.js:200-201 | remove mode is flipped and nothing else may change |
| `Invoice.InvoiceGenerator.UpdateItemQuantity` | public/js/invoice-generator.js:176-177 | the first item with the id gets the given quantity and every other item and field is unchanged; with no such item nothing changes; the subtotal moves by the difference in that item's line total |
| `Invoice.InvoiceGenerator.QuantityClick` | public/js/invoice-generator.js:133-149 | a click off the buttons changes nothing; on a button, the first item with the id gets its quantity stepped by StepQuantity and nothing else changes; an absent id changes nothing; quantities ≥ 1 are preserved |
| `Invoice.InvoiceGenerator.PriceInput` | public/js/invoice-generator.js:161-165 | the first item with the id gets the new price and everything else is unchanged; with no such item nothing changes; the subtotal moves by the difference in that item's line total |
| `Invoice.InvoiceGenerator.RemoveItem` | public/js/invoice-generator.js:191-197 | with the id present, exactly the first matching entry is removed, the rest keep their order, the count drops by one and the subtotal drops by its line total; with the id absent the list is unchanged; distinct ids stay distinct and the id is then gone |
| `Invoice.InvoiceGenerator.ItemClick` | public/js/invoice-generator.js:167-171 | in remove mode, a click removes the first item with the clicked id as RemoveItem does; outside remove mode nothing changes; remove mode itself never changes |

## Left out

- DOM work is not modelled, because it is view plumbing with nothing to
  specify. This covers element lookups, templating the list-item HTML with
  `DOMParser`, `appendChild` and `.remove()`, CSS class toggling,
  `window.scrollTo` and writing text into the counters.
- The `FileReader` logo import (lines 56-67) is not modelled. It is
  asynchronous browser I/O.
- The placeholder-text focus and focusout handlers (lines 116-131) are not
  modelled. They only swap display text in the page and never touch the
  ledger state.
- `toFixed(2)` formatting is not modelled. It is floating-point rendering,
  and the model returns exact `real` totals instead.
- JavaScript coercions are not modelled:
  - the `==` comparison between string and number ids (ids are plain integers);
  - the string `textContent` stored as a price (the price handler receives
    the number the text denotes);
  - the string value of the discount input (a `real` parameter);
  - `isFinite(event.key)`. Keys are abstracted into these classes:
    - a numeral;
    - the space bar, which the filter lets through because `Number(" ")`
      is 0, and which types a space;
    - the point key (key code 190), which types '>' when shifted and is
      filtered like '.' in both cases;
    - backspace;
    - the left and right arrows;
    - any other key.

    So the numeric-keypad decimal key (code 110) counts as "any other key"
    and is prevented, as in the source.
- `PriceKeys.Edit` is the browser's default action for a keystroke that is
  let through. It models a collapsed caret only; typing over or deleting a
  selected range is not modelled. It is a reference model for
  `AtMostOnePoint`. Pasting and other edits that do not go through keydown
  are not modelled.
- PriceKeys.Accepts: judges a keystroke on its key class only. Key names
  other than numerals and a space that `isFinite` would also read as numbers
  are not modelled. A point typed into an empty price is let through, as in
  the source, even though the text "." alone is not a number.
- Invoice.InvoiceGenerator.PriceInput: takes the price as a number. It
  cannot represent a price text that is not a number, such as "." alone,
  "1 2" or ">", which the filter lets through. In the source
  such a text is stored as it is, `price * quantity` gives NaN, and both
  totals then show NaN. The model has no NaN.
- Id generation from `new Date().getTime()` is not modelled. The id is a
  parameter of `AddItem`.
- The exceptions thrown when a lookup finds no item are not modelled as
  exceptions. They are reported as `found == false`, `NotFound` or `None`,
  with the state unchanged.
- `updateItemTotal` and `updateTotal` are not modelled as side effects of
  `updateItemQuantity`, the price handler and `removeItem`. In the source
  those methods call them to refresh the display. In the model the caller
  calls `UpdateItemTotal` or `UpdateTotal` on the new state.
- `public/js/index.js` is not part of this model. It only toggles a CSS
  class for the mobile navigation.
