# Invoice generator — a Dafny model of the invoice form's state

The repository is a client-side invoice form for a home bakery. The only logic it has is
the state of the `InvoiceGenerator` component (`src/components/InvoiceGenerator.tsx`):

- an ordered table of line items `{id, description, quantity, price}`;
- a customer record `{name, address, phone}`;
- four independent payment flags `{cash, check, bit, bankTransfer}`;
- an invoice number and an optional invoice date.

The handlers add a row, remove a row by id, edit one field of a row by id, and set a
customer field, a payment flag, the number or the date. The total is the sum of
quantity × price over the rows.

This model splits that component into pure functions (`LineItems`, `InvoiceDetails`) and a
class (`InvoiceForm`), with `Option` in `Wrappers`:

- `LineItems` (`line_items.dfy`) holds the pure computations the handlers perform:
  - the spread that appends a row (`WithNewItem`);
  - the `filter` that removes one (`WithoutId`);
  - the `map` that edits one (`WithEdit`, `Apply`);
  - the `reduce` that totals them (`Fold`, `Total`, with `Sum` as an independent reference definition);
  - the `parseInt(..) || 0` and `parseFloat(..) || 0` coercions (`QuantityFromInput`, `PriceFromInput`).
- `InvoiceDetails` (`invoice_details.dfy`) holds the customer record, the payment flags
  and their single-field updates.
- `InvoiceForm` (`invoice_form.dfy`) holds the class `InvoiceGenerator`. It has one field
  per `useState` pair and one method per kind of handler. `SetCustomerField` stands for
  the three customer inputs, `SetPaymentFlag` for the four payment checkboxes, and
  `UpdateItem` for the shared `updateItem` helper that the row handlers call. The list,
  customer and flag methods assign the value the pure functions compute; the number and
  date methods store their argument. Its invariant `Valid()` says that row ids are unique.
  `Session` is a client that replays a use of the form and checks what the contracts
  promise.
- `Wrappers` (`wrappers.dfy`) holds `Option`. `None` stands for JavaScript's NaN from a
  failed parse, and for an unselected date.

The model follows the code, which has neither a row floor nor input clamping:

- The code has no minimum-row floor: the delete button is rendered on every row, so the
  last row can be removed. `Session` removes it.
- The code does not clamp numeric input. The `min="1"` and `min="0"` attributes of the
  quantity and price inputs (lines 222 and 231) only hint the browser's spinner; they do
  not constrain typed text. `parseInt(..) || 0` and `parseFloat(..) || 0` (lines 220 and
  229) only replace NaN (and 0, which is the same value) by 0. A negative quantity or
  price is stored as parsed.

Representation choices:

- Quantities are `int`. Prices and totals are exact `real`s.
- The fresh row id that the code takes from `Date.now()` is a parameter of `AddItem`. Its
  precondition is that no row already has that id.
- The creation moment `new Date()` is a parameter of the constructor.

## Model

| member | source | states |
|---|---|---|
| `LineItems.WithNewItem` | src/components/InvoiceGenerator.tsx:57-64 | adding a row gives one more row; the old rows come first, unchanged and in order; the new last row has the given id, an empty description, quantity 1 and price 0 |
| `LineItems.WithNewItemKeepsUnique` | src/components/InvoiceGenerator.tsx:57-64 | with a fresh id, adding a row keeps ids unique, and the new id is present |
| `LineItems.WithNewItemKeepsTotal` | src/components/InvoiceGenerator.tsx:57-64 | adding a row leaves the total unchanged (the new row contributes 1 × 0) |
| `LineItems.WithoutId` | src/components/InvoiceGenerator.tsx:66-68 | the result never grows; an item is in the result exactly when it was in the table and its id differs; the removed id is absent afterwards |
| `LineItems.WithoutIdConcat` | src/components/InvoiceGenerator.tsx:66-68 | removal distributes over concatenation, so kept rows stay in their original order |
| `LineItems.WithoutAbsentId` | src/components/InvoiceGenerator.tsx:66-68 | removing an id no row has leaves the table unchanged |
| `LineItems.WithoutPresentId` | src/components/InvoiceGenerator.tsx:66-68 | with unique ids, removing row k's id leaves exactly the rows before and after k, in order; the length drops by exactly one |
| `LineItems.WithoutPresentIdTotal` | src/components/InvoiceGenerator.tsx:66-68 | with unique ids, removing row k lowers the total by exactly that row's quantity × price |
| `LineItems.WithoutIdKeepsUnique` | src/components/InvoiceGenerator.tsx:66-68 | removing a row keeps ids unique |
| `LineItems.Apply` | src/components/InvoiceGenerator.tsx:72 | a field edit sets the edited field to the new value; the id and the other two fields are unchanged |
| `LineItems.WithEdit` | src/components/InvoiceGenerator.tsx:70-74 | editing by id keeps the length; each row whose id matches has the edit applied, and every other row is unchanged |
| `LineItems.WithEditKeepsIds` | src/components/InvoiceGenerator.tsx:70-74 | editing by id keeps every row's id at its position; unique ids stay unique; an unmatched id is a no-op |
| `LineItems.WithEditPresentId` | src/components/InvoiceGenerator.tsx:70-74 | with unique ids, editing row k's id replaces row k by the edited row and leaves the rows before and after it unchanged |
| `LineItems.WithEditPresentIdTotal` | src/components/InvoiceGenerator.tsx:70-74 | with unique ids, editing row k changes the total by the new amount minus the old amount of that row |
| `LineItems.DescriptionEditKeepsTotal` | src/components/InvoiceGenerator.tsx:209-213 | editing a description never changes the total, whatever the ids |
| `LineItems.FoldIsSum` | src/components/InvoiceGenerator.tsx:76-78 | the left fold of `reduce` from an accumulator equals the accumulator plus the sum of the row amounts |
| `LineItems.SumConcat` | src/components/InvoiceGenerator.tsx:76-78 | the sum of a concatenation of tables is the sum of their sums |
| `LineItems.SumAround` | src/components/InvoiceGenerator.tsx:76-78 | the sum splits into the rows before row k, row k's amount, and the rows after it |
| `LineItems.Fold` | src/components/InvoiceGenerator.tsx:77 | the left fold of `reduce`; what it computes is stated by `LineItems.FoldIsSum`: the accumulator plus the sum of quantity × price over the rows |
| `LineItems.Total` | src/components/InvoiceGenerator.tsx:76-78 | the total, a fold from 0, equals the sum of quantity × price over the rows, and is 0 for the empty table |
| `LineItems.InitialItems` | src/components/InvoiceGenerator.tsx:43-45 | the initial table (one default row with id "1") has unique ids, contains id "1" and totals 0 |
| `LineItems.QuantityFromInput` | src/components/InvoiceGenerator.tsx:220 | the quantity input falls back to 0: it stores 0 for NaN and otherwise the parsed integer unchanged, negatives included |
| `LineItems.PriceFromInput` | src/components/InvoiceGenerator.tsx:229 | the price input falls back to 0: it stores 0 for NaN and otherwise the parsed number unchanged, negatives included |
| `InvoiceDetails.WithField` | src/components/InvoiceGenerator.tsx:153-180 | setting one customer field gives it the new text and leaves the other two fields unchanged |
| `InvoiceDetails.WithFlag` | src/components/InvoiceGenerator.tsx:267-302 | setting one payment flag gives it the checkbox's state and leaves the other three flags unchanged |
| `InvoiceDetails.FlagRoundTrip` | src/components/InvoiceGenerator.tsx:267-302 | setting a flag and then setting it back to its old value restores the whole selection |
| `InvoiceDetails.InitialDetails` | src/components/InvoiceGenerator.tsx:37-52 | the form starts with all customer fields empty and all payment flags false |
| `InvoiceForm.InvoiceGenerator.CalculateTotal` | src/components/InvoiceGenerator.tsx:76-78 | the total of the current rows, recomputed on every call; what it equals is stated by `LineItems.Total`: the sum of quantity × price, 0 for the empty table |
| `InvoiceForm.InvoiceGenerator.constructor` | src/components/InvoiceGenerator.tsx:37-55 | the initial state: one default row, total 0, an empty customer, no payment flag set, an empty number, and today's date; ids are unique |
| `InvoiceForm.InvoiceGenerator.AddItem` | src/components/InvoiceGenerator.tsx:57-64 | given a fresh id, the method appends the default row and keeps ids unique; the total and all other state are unchanged |
| `InvoiceForm.InvoiceGenerator.RemoveItem` | src/components/InvoiceGenerator.tsx:66-68 | the method keeps the rows with other ids and keeps ids unique; an absent id is a no-op; a present row k is cut out and the total drops by that row's amount; nothing else changes; there is no floor on the row count |
| `InvoiceForm.InvoiceGenerator.UpdateItem` | src/components/InvoiceGenerator.tsx:70-74 | the method edits the matching row and keeps ids unique; an unmatched id is a no-op; a present row k is replaced and the total moves by its change in amount; a description edit keeps the total; nothing else changes |
| `InvoiceForm.InvoiceGenerator.OnDescriptionChange` | src/components/InvoiceGenerator.tsx:209-213 | the description input stores the text in the matching row and leaves the total unchanged |
| `InvoiceForm.InvoiceGenerator.OnQuantityChange` | src/components/InvoiceGenerator.tsx:217-223 | the quantity input stores the coerced parse result in the matching row |
| `InvoiceForm.InvoiceGenerator.OnPriceChange` | src/components/InvoiceGenerator.tsx:226-233 | the price input stores the coerced parse result in the matching row |
| `InvoiceForm.InvoiceGenerator.SetCustomerField` | src/components/InvoiceGenerator.tsx:153-180 | a customer input replaces that one field; the rows, flags, number and date are unchanged |
| `InvoiceForm.InvoiceGenerator.SetPaymentFlag` | src/components/InvoiceGenerator.tsx:267-302 | a payment checkbox replaces that one flag; the rows, customer, number and date are unchanged |
| `InvoiceForm.InvoiceGenerator.SetInvoiceNumber` | src/components/InvoiceGenerator.tsx:111-117 | the number input stores the text exactly as typed; all other state is unchanged |
| `InvoiceForm.InvoiceGenerator.SetInvoiceDate` | src/components/InvoiceGenerator.tsx:135-141 | the calendar stores the picked date, or no date; all other state is unchanged |

## Left out

- Rendering: the JSX, the CSS classes and the Hebrew labels are presentation only.
- `window.print()` (line 81) is a host-environment call. The "save as PDF" button (lines 317-320) has no handler in this code, so there is nothing to model for it.
- Date handling: `new Date()` (line 55) is a clock, so it is the constructor's `now` parameter. The `dd/MM/yyyy` formatting (line 131) and the calendar widget are library code. A date is an opaque value that the setter replaces.
- `Date.now().toString()` (line 59) is a clock read. It is `AddItem`'s `freshId` parameter, which must not already be present. The code itself does not guarantee freshness: two clicks within one millisecond would give two rows the same id.
- `AddItem`: its precondition (a fresh id) is what keeps ids unique. It is stated as a requirement on the caller, because the clock that provides it is not modelled.
- The string parsing inside `parseInt` and `parseFloat` is library code. Each parse result is an `Option`, with `None` for NaN.
- `PriceFromInput`: JavaScript numbers are IEEE doubles. Infinity from `parseFloat` and float rounding are not modelled. Prices and totals are exact reals.
- `QuantityFromInput`: `parseInt` also returns an IEEE double. It is not always exact above 2^53, and it is Infinity for a value of about 1.8 × 10^308 or more, which `|| 0` keeps. The model's quantity is an unbounded exact `int`, so it captures neither.
- Formatting with `toFixed(2)` (lines 236 and 257) is display and rounding, so it is not modelled.
- `updateItem` accepts any key of `InvoiceItem`, `id` included, with a value of type `string | number`. The model covers the three fields the handlers edit (`description`, `quantity`, `price`), each with its own type. No handler edits `id`.
- `onCheckedChange` receives a checkbox state. The cast `checked as boolean` is taken as a boolean, because the controlled checkbox never reports the indeterminate state.
- React batches state updates, and handlers read the state captured at render time. The model takes each handler as one sequential update of the current state.
- `src/components/PastryContactCard.tsx` and `src/pages/Index.tsx` are static markup and composition with no logic.
