# Smart Restaurant billing: a Dafny model

This project models the order-and-billing logic of the Smart Restaurant
Billing System, a single-page Streamlit script. The widgets are gone. What is
left is the session state they drive and the rules that act on it:

- **Catalog** (`catalog.dfy`): the static menu of six categories. It has the
  sidebar filter ("Veg Only", "Spicy Only") over the chosen category, and the
  three quick-add buttons. The filter loop is a method. It is proved equal to
  a reference function. Lemmas show that the result holds exactly the
  passing items, keeps menu order, is the whole category when no box is
  ticked, and that the two boxes compose.
- **Ledger** (`ledger.dfy`): order lines, the two ways a line is built
  ("Add to Order" and quick-add), and the aggregates shown beside the order.
  The aggregates are total items, subtotal, the unweighted average price and
  the per-category composition. The list `st.session_state.orders` is the
  class `OrderLedger`, with `Append` and `Pop`.
- **Billing** (`billing.dfy`): the discount panel (type, widget value,
  loyalty +5 points) and the live bill. The bill is the subtotal, a guarded
  percentage plus fixed discount, 18% GST on the discounted amount, and the
  final total. It uses exact `real` arithmetic.
- **Sales** (`sales.dfy`): bill records and the dashboard's two group-bys.
  These are revenue per date and bills per payment mode.
- **SessionState** (`session.dfy`): the class `Session` holding the
  session-state fields. It has one method per user action: add, quick-add,
  clear last, clear all, payment mode, discount, customer info, live bill,
  generate bill.

A bill record holds the ledger *object*, not a copy. This matches the Python
dictionary, which stores a reference to the list. "Clear Last Item" after
"Generate Bill" therefore changes the lines seen through the record. "Clear
All Orders" binds a new list, so the old record keeps its lines.
`SessionState.BillSharesOrderList` shows both effects. The recorded
`totalAmount` is a number fixed when the bill is generated.

The model follows the code as written:

- The percentage slider runs 0..50 (line 445). The fixed amount has minimum
  0 (line 448).
- A bill record holds the list object itself (line 473), not a copy (see
  above).
- The quantity range 1..20 is enforced by the widget (line 249). The append
  code (lines 255-265) does not check it, so it is a precondition.
- The discount guards `> 0` (lines 321 and 323) are kept. For every
  configuration the panel can produce, they give the same result as the
  unguarded formula (`Billing.DiscountAmount`).
- Tax is not clamped (line 328): a discount above the subtotal gives negative
  tax and a negative total (`Billing.LiveBill`).
- The payment and discount panels and "Generate Bill" exist only while the
  order is non-empty (lines 424 and 460), so those methods require a
  non-empty order.
- Every run rewrites the customer fields (lines 206-210) and, with a
  non-empty order, the payment mode (line 433; an untouched select box yields
  its first option, "💵 Cash"). The initial `None` and `{}` of lines 184-186
  are therefore never recorded: "Generate Bill" requires both to be set, and
  a caller does `SetCustomer` and `ChoosePaymentMode` before it.
- When the order becomes empty ("Clear All Orders", line 366, or a "Clear
  Last Item" that removes the last line, line 361), the rerun (lines 362 and
  367) skips the panels of lines 424-457; their widgets lose their
  state and come back at their defaults once the order has lines again. The
  clearing methods therefore unset the payment mode and set the discounts to
  {0, 0}, and `Session.Valid` keeps both at their defaults while the order is
  empty (`SessionState.ChoicesResetAfterEmptyOrder`).

Inputs that come from the environment are parameters. These are the
timestamps and dates from `datetime.now()`, and every widget value (chosen
category and item, quantity, instructions, discount type and value, loyalty
box, payment mode, notes, customer fields).

## Model

| member | source | states |
|---|---|---|
| Catalog.Menu | restaurant_management.py:141-179 | the menu literal: category labels are distinct and item names are distinct within a category, so the dictionaries are faithfully lists |
| Catalog.Find | restaurant_management.py:141-179 | the lookup succeeds exactly when some category has the label, and then yields the items of the first such category |
| Catalog.Lookup | restaurant_management.py:227 | `menu_items[category]`: None exactly when no category has the label, otherwise the items of the category with that label |
| Catalog.Passes | restaurant_management.py:228-231 | an item is skipped exactly when "Veg Only" is ticked and it is non-veg, or "Spicy Only" is ticked and it is not spicy; with no box ticked every item passes |
| Catalog.LookupAt | restaurant_management.py:227 | looking up a category's own label yields that category's items |
| Catalog.Filtered | restaurant_management.py:226-232 | the filter as a function: no longer than the category, and every item in it passes both active checkboxes |
| Catalog.FilterItems | restaurant_management.py:226-232 | the loop builds exactly the order-preserving filter of the category's items |
| Catalog.FilterMenu | restaurant_management.py:226-234 | an item is in the result iff the chosen category offers it and it passes both active checkboxes; the result is a subsequence of the category in menu order; empty is allowed |
| Catalog.FilteredMembers | restaurant_management.py:228-232 | membership in the filtered list iff membership in the category and passing veg-only and spicy-only |
| Catalog.FilteredKeepsOrder | restaurant_management.py:227-232 | the filtered list is a subsequence of the category's items |
| Catalog.NoFilterKeepsAll | restaurant_management.py:221-232 | with neither box ticked the whole category is kept |
| Catalog.FilterComposes | restaurant_management.py:228-231 | both boxes together equal veg-only then spicy-only |
| Catalog.PopularItems | restaurant_management.py:273-277 | the three quick-add buttons, with distinct item names (the button keys `quick_<item>` at line 280 are unique) |
| Catalog.PopularItemsOnMenu | restaurant_management.py:273-277 | each quick-add button names a menu item of its category at its shown price, not spicy, and veg exactly when it is not Butter Chicken |
| Ledger.MenuLine | restaurant_management.py:249-265 | the line made by "Add to Order": total = price * quantity, name, price and flags copied from the item, and well-formed when the quantity is in the widget's range 1..20 |
| Ledger.QuickLine | restaurant_management.py:281-291 | the line made by a quick-add button: well-formed, quantity 1, total = price, no instructions, not spicy |
| Ledger.QuickLineIsMenuLine | restaurant_management.py:279-291 | a quick-add line equals the menu line for the same menu item with quantity 1 and no instructions |
| Ledger.TotalItems | restaurant_management.py:315 | total items of well-formed lines lie between the number of lines and 20 times it |
| Ledger.Subtotal | restaurant_management.py:316 | the subtotal of well-formed lines is non-negative |
| Ledger.AveragePrice | restaurant_management.py:317 | the mean exists iff the order is non-empty (None for an empty order, on which the source never evaluates the mean, lines 301 and 383), and mean * number of lines = sum of unit prices |
| Ledger.CategoryQuantity | restaurant_management.py:413 | a category's quantity in a well-formed order is between 0 and the total items |
| Ledger.SubtotalIsPriceTimesQuantity | restaurant_management.py:316 | the subtotal (sum of line totals) equals the sum of price * quantity |
| Ledger.AggregatesAppend | restaurant_management.py:315-317 | appending a line adds its total, quantity and price to the respective sums and its quantity to its own category only |
| Ledger.AverageWithinPrices | restaurant_management.py:317 | the average price of a non-empty order lies between its lowest and highest unit price |
| Ledger.AverageIsUnweighted | restaurant_management.py:317 | the average is the mean over lines, not weighted by quantity (100 x 5 and 10 x 1 average to 55) |
| Ledger.CategoryComposition | restaurant_management.py:413 | the composition has exactly the categories present in the order as keys |
| Ledger.CategoryQuantityBounds | restaurant_management.py:413 | a category's quantity is positive iff the category is present in the order |
| Ledger.CompositionExample | restaurant_management.py:413 | lines A:2, A:1, B:3 compose into A: 3, B: 3 |
| Ledger.OrderLedger.constructor | restaurant_management.py:182-183 | a new list is empty |
| Ledger.OrderLedger.Append | restaurant_management.py:255 | the line is added at the end and nothing else changes |
| Ledger.OrderLedger.Pop | restaurant_management.py:361 | the last line is removed and returned; the prefix is kept |
| Ledger.OrderLedger.Statistics | restaurant_management.py:315-317 | total items, subtotal and average of the current lines; for a non-empty order the total is at least the line count, the subtotal is non-negative and the average exists; subtotal = sum of price * quantity |
| Billing.Selected | restaurant_management.py:442-451 | before loyalty at most one of percentage and fixed is non-zero, percentage in 0..50, fixed >= 0, and only the selected type's field can be non-zero |
| Billing.WithLoyalty | restaurant_management.py:454-457 | loyalty never touches the fixed amount, never lowers the percentage, and changes the configuration exactly when the box is ticked |
| Billing.LoyaltyAddsFive | restaurant_management.py:454-457 | loyalty adds exactly 5 points to the percentage and leaves the fixed amount alone |
| Billing.Configure | restaurant_management.py:442-457 | every configuration the panel produces has percentage in 0..55, fixed >= 0, and percentage 0 or 5 when fixed is non-zero |
| Billing.AttainableIsConfigured | restaurant_management.py:442-457 | conversely every such configuration is produced by some discount type, widget value and loyalty choice |
| Billing.LiveBill | restaurant_management.py:315-329 | the bill formula: subtotal = sum of line totals, tax = 18% of (subtotal - discount), final = (subtotal - discount) * 118/100, and tax < 0 iff final < 0 iff discount > subtotal (no clamping) |
| Billing.DiscountAmount | restaurant_management.py:320-324 | the guarded discount; for non-negative fields it equals pct% of the subtotal plus fixed |
| Billing.DiscountBounds | restaurant_management.py:320-324 | for an attainable configuration and a non-negative subtotal the discount is between 0 and 55% of the subtotal plus the fixed amount |
| Billing.LoyaltyDiscountsFivePercent | restaurant_management.py:321-322 | loyalty raises the discount by exactly 5% of the subtotal |
| Billing.NoDiscountBill | restaurant_management.py:320-329 | with no discount the discount is 0 and final = subtotal * 118/100 |
| Billing.EmptyBill | restaurant_management.py:320-329 | an empty order with no discount has subtotal, discount, tax and final all 0 |
| Billing.TenPercentExample | restaurant_management.py:320-329 | 100 x 2 and 50 x 1 at 10% give 250, 25, 40.5 and 265.5 |
| Billing.LoyaltyStackingExample | restaurant_management.py:444-457 | 10% plus loyalty is 15% and the discount is 15% of the subtotal |
| Sales.PaymentMethods | restaurant_management.py:432-433 | the four distinct payment options, the first ("💵 Cash") being the value of an untouched select box |
| Sales.DailyTotal | restaurant_management.py:541 | one date's revenue lies between 0 and the whole revenue when amounts are non-negative |
| Sales.PaymentCount | restaurant_management.py:549 | one mode's count is at most the number of bills |
| Sales.DailyTotals | restaurant_management.py:541 | the revenue-per-date map has exactly the dates of the history as keys |
| Sales.PaymentCounts | restaurant_management.py:549 | the count-per-mode map has exactly the recorded payment modes as keys |
| Sales.HistoryAppend | restaurant_management.py:479 | appending a bill adds its amount to its own date only, counts its mode once and adds its amount to the revenue |
| Sales.DailyTotalOutsideDates | restaurant_management.py:541 | a date without bills has revenue 0; if all bills share a date, that date has all the revenue |
| Sales.PaymentCountBounds | restaurant_management.py:549 | a mode's count is positive iff some bill used that mode |
| SessionState.Session.constructor | restaurant_management.py:181-191 | the initial state: empty order, no payment mode, no customer info, discounts 0 and 0, empty history |
| SessionState.Session.SetCustomer | restaurant_management.py:202-210 | customer info is replaced by the entered name, table (1..50) and phone |
| SessionState.Session.AddFromMenu | restaurant_management.py:254-265 | exactly one line is appended with total = price * quantity; earlier lines are unchanged; subtotal and item count grow by that line |
| SessionState.Session.QuickAdd | restaurant_management.py:279-291 | exactly one quick-add line (quantity 1, total = price) is appended; earlier lines are unchanged |
| SessionState.Session.ClearLastItem | restaurant_management.py:359-362 | a non-empty order loses only its last line with the prefix intact; an empty order stays empty; when the order ends up empty the payment mode is unset and the discounts are {0, 0} (the panels of lines 424-457 are skipped, so their widgets restart from their defaults), otherwise both are kept |
| SessionState.Session.ClearAllOrders | restaurant_management.py:366 | the order is a fresh empty list whatever it held; the previous list object keeps its lines; the payment mode is unset and the discounts are {0, 0} (panels of lines 424-457 skipped on the rerun) |
| SessionState.Session.ChoosePaymentMode | restaurant_management.py:432-433 | the payment mode becomes the chosen one of the four methods |
| SessionState.Session.ChooseDiscount | restaurant_management.py:442-457 | the configuration becomes the selected type's configuration plus loyalty |
| SessionState.Session.CurrentBill | restaurant_management.py:315-329 | the live bill of the current order: subtotal = sum of price * quantity >= 0, discount within its bounds, final = (subtotal - discount) * 118/100, final negative iff discount > subtotal |
| SessionState.Session.GenerateBill | restaurant_management.py:467-479 | with the customer fields (line 206) and the payment mode (line 433) already set, exactly one record is appended with the current list object, customer, payment mode and configuration, and total = the pre-discount subtotal; earlier records and the order are unchanged; that date's revenue grows by the subtotal and the chosen mode's count by one |
| SessionState.ChoicesResetAfterEmptyOrder | restaurant_management.py:424-457 | Card, 10% and loyalty chosen, the order cleared and refilled: the bill records "💵 Cash" and discount {0, 0} |
| SessionState.BillSharesOrderList | restaurant_management.py:473 | a bill's list sees a later "Clear Last Item" while its total stays; after "Clear All Orders" new lines do not reach it |

## Left out

- All Streamlit presentation: page setup, CSS, HTML cards, Plotly charts, DataFrame display, `st.rerun`, balloons. Widget values are method parameters instead.
- Timestamps and dates from `datetime.now()` are string parameters.
- The text export and download button (lines 486-523). This is string templating with float formatting. Its Discount line adds percentage points to the fixed amount, and its Tax line ignores the discount, so it does not match the live bill.
- The kitchen-printer message (lines 527-528) and the "View Analytics" flag (line 371). Both are UI flags without logic.
- Float rounding. The 0.18 rate, the percentage division and the mean are exact reals here, so results that floating point would round are exact in the model.
- The per-run order of the Streamlit script is not modelled. Every rerun re-executes the page from the top, and each handler here is a separate method called in the order the user acts. What is lost: in the run a discount widget triggers, the bill card (lines 320-329) reads `st.session_state.discounts` before the discount panel (lines 442-457) rewrites it. So that run shows discount, tax and final total for the previous configuration, and the next run shows the new one. In the model, `ChooseDiscount` followed by `CurrentBill` gives the updated bill at once. The other effect of the reruns is kept: a run with an empty order skips the panels of lines 424-457, so the payment, discount and loyalty widgets restart from their defaults, and the clearing methods reset the payment mode and discounts accordingly.
- The unused `table_number` session key (lines 192-193).
