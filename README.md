# Adega Nas Manha — bookkeeping rules of the point-of-sale front end

Adega Nas Manha is a drinks shop's point-of-sale web app. Staff open tabs
(comandas) for customers, add products to them from the catalogue, mark them
ready, notify the customer on WhatsApp and close them with a payment. Closing
writes entries to a cash ledger. The app also runs a quick-sale cart, a
cash-desk report for a period (revenue per payment method, cost, profit), a
stock screen with a product form and spreadsheet import, and a team screen
where an administrator switches the attendants' tabs on and off.

This project models those rules in Dafny and proves what they promise. The
files follow the app's structure:

- `types.dfy` (module `Types`) holds the records: roles, the attendant
  permission record, products, line items, orders, cash entries and tabs.
  Money is an integer number of cents.
- `app.dfy` (module `App`) holds access control and the store. The class
  `Store` holds the products, orders and cash ledger, with one method per
  handler that changes them. Each handler is also a pure function of the old
  tables, with lemmas for the invariants it keeps:
  - ids stay unique;
  - every order's total is the sum of its lines;
  - stock stays non-negative;
  - no handler cancels an order;
  - the ledger grows by exactly the amount paid.
- `sales.dfy` (`Sales`) holds the sales screen: quantity normalisation,
  opening a tab, adding to a tab, and the quick-sale cart. The cart merges
  rows by name, removes by position and has a total. It is the class
  `SalesPanel`, whose invariant is at most one cart row per name.
- `orders.dfy` (`Orders`) holds the order board:
  - the search and status filter;
  - the actions each status offers;
  - the one-payment closing payload;
  - the WhatsApp number and greeting.
- `cashier.dfy` (`Cashier`) holds the cash desk:
  - the inclusive period on the day part of a timestamp;
  - the metrics fold, also written as a loop;
  - the bucket priority;
  - cost and profit;
  - the `DD/MM/YYYY` date rendering.
- `admin.dfy` (`Admin`) holds the stock screen:
  - the form state (class `AdminForm`);
  - the save payload with its validation and number clean-up;
  - create versus update;
  - the spreadsheet row mapping and import loop.
- `team.dfy` (`Team`) holds permission toggling and the new-user check.
- `menu.dfy` (`Menu`) holds the catalogue search, the icon classifier and the
  stock badge.
- `js.dfy` (`Js`) holds the JavaScript string and number primitives the rules
  use, with their round trips:
  - `toLowerCase`, `includes`, `indexOf`, and `replace` of the first match;
  - the digit filter, `trim`, `split`/`join` and string `<=`;
  - `parseInt`, `Number`, `String` and `toFixed(2)`.
- `base.dfy` (`Base`) holds `Option`, an order-keeping `Filter` and the
  subsequence relation.

The model follows the code as written:
- Adding an item to a tab lowers the stock of every product alike, whatever
  its category, and refuses the add when the stock is below the quantity.
- The handler that adds items takes the quantity it is given; the sales
  screen is what turns an empty or invalid quantity into 1.
- The product form saves a product whatever its name, even one already in
  the catalogue.
- The import reads name, price, cost and quantity columns only.
- The quick sale is not wired to any handler (App.tsx:274), so only the cart
  side is modelled, as if a callback were given; as wired, checking out
  throws before the cart is emptied (see "## Left out").

## Model

| member | source | states |
|---|---|---|
| Types.TabOf | types.ts:58-65 | every permission flag opens a tab other than Team (`stock` opens the stock tab) |
| Types.KeyOf | types.ts:58-65 | Team is the only tab without a flag; every other tab's flag opens that tab |
| Types.FlagsMatchTabs | types.ts:12-18 | the five flags and the five non-Team tabs correspond one to one |
| Types.ItemsCostAppend | components/CashierSection.tsx:45-47 | appending a line adds its cost or 0 times its quantity to the order's cost |
| Types.ItemsCostConcat | components/CashierSection.tsx:45-47 | the cost of two lists of lines one after the other is the sum of their costs |
| Types.ItemsTotalConcat | components/SalesSection.tsx:42-44 | the price-times-quantity sum of two lists one after the other is the sum of the two sums |
| Types.ItemsTotalUpdate | components/SalesSection.tsx:42-44 | replacing one line changes the sum by exactly the difference between the two lines |
| Types.ItemsTotalAppend | App.tsx:170-171 | appending a line adds its price times quantity to the sum |
| Types.EntriesTotalConcat | components/CashierSection.tsx:34-35 | the value of two ledgers one after the other is the sum of their values |
| Types.ProductIndex | App.tsx:162 | `find` by id: the first product with the id, or -1 exactly when none has it |
| Types.OrderIndex | App.tsx:163 | the first order with the id, or -1 exactly when none has it |
| Types.FindOrder | App.tsx:163 | an order is found exactly when some order has the id, and it is the first order with that id, as `find` returns it |
| App.HasAccess | App.tsx:222-231 | an admin reaches every tab; any other role, or nobody signed in, reaches a tab exactly when it has a flag and that flag is on |
| App.TeamOnlyForAdmin | App.tsx:222-224 | Team is reachable exactly for the admin role |
| App.NavVisible | App.tsx:282-287 | the bottom-bar condition: a tab's own flag or the admin role, Team for the admin only (its agreement with `hasAccess` is `App.NavVisibleIffAccess`) |
| App.NavVisibleIffAccess | App.tsx:282-287 | a bottom-bar button is shown exactly when `hasAccess` grants its tab |
| App.SectionShown | App.tsx:273-278 | the render condition of each section: the active tab, and the admin role for Team or `hasAccess` for the others (see `App.SectionShownIff`) |
| App.SectionShownIff | App.tsx:273-278 | a section is rendered exactly when its tab is active and its button is shown |
| App.NewOrder | App.tsx:142-151 | a new order is open, has no items, total 0 and no payment, carries the given time, and its phone defaults to "" and its attendant to "Admin" when there is no e-mail |
| App.Snapshot | App.tsx:169 | the recorded line copies the product's name, price and cost with the quantity, and is worth price times quantity |
| App.WithItem | App.tsx:168-171 | the order gains exactly one line and the total moves by that line's price times quantity; id, customer, phone, attendant, time, status and payment are unchanged |
| App.WithItemCost | App.tsx:168-169 | adding a product to a tab raises the tab's cost by exactly the product's cost times the quantity |
| App.WithItemKeepsTotal | App.tsx:168-171 | adding a product keeps total = sum of the lines, keeps the earlier lines and appends exactly one |
| App.OpenIndex | App.tsx:55 | the position of the order with the id when that order is not closed; with unique ids, -1 exactly when no open order has the id |
| App.OpenLookup | App.tsx:163 | with unique ids, `find` in the app's open orders returns exactly the table's order with that id when it is not closed |
| App.Payments | App.tsx:189-195 | a payment-type string gives one payment of the order total, a list is used as given, anything else gives no payments |
| App.Describe | App.tsx:197 | a payment's text starts with its type and `: R$`, and the rest reads back through `Number` as its exact value |
| App.PaymentSummary | App.tsx:197 | no payments give the empty text; a single payment gives its own description |
| App.Descriptions | App.tsx:197 | one text per payment, in order |
| App.SinglePaymentSummary | App.tsx:192-197 | a type-name settlement has a one-item summary and pays exactly the order total |
| App.CashEntriesFor | App.tsx:198-203 | one ledger entry per payment, each with the order's customer, the payment's type and value, and the closing time |
| App.CashEntriesTotal | App.tsx:198-203 | the settlement's entries add up to the payments |
| App.Closed | App.tsx:206-210 | the order becomes `fechado` with the summary and the closing time; its id, customer, phone, attendant, lines and total are unchanged |
| App.MarkedReady | App.tsx:275 | the order with the id becomes `pronto`; every other order and the length are unchanged |
| App.Deleted | App.tsx:275 | exactly the orders without that id remain |
| App.AddItem | App.tsx:161-182 | nothing changes for a missing product or open order, or when stock is below the quantity; otherwise the order gains the snapshot line and price times quantity, and the stock drops by the quantity and stays non-negative |
| App.AddItemKeepsInvariants | App.tsx:168-175 | adding an item keeps ids unique, totals equal to the sum of lines and stock non-negative; an accepted add keeps the earlier lines and appends one |
| App.FinishOrder | App.tsx:184-220 | an unknown or closed id changes nothing; otherwise the order becomes `fechado` with the joined payment texts and the time, and one entry per payment is appended |
| App.FinishOrderKeepsInvariants | App.tsx:206-210 | finishing keeps ids unique and totals equal to the sum of lines |
| App.FinishOrderLedger | App.tsx:198-212 | the ledger grows by exactly the sum of the payments; for a type name, by exactly the order total |
| App.HandlersNeverCancel | types.ts:46 | opening, marking ready and deleting never produce a `cancelado` order |
| App.AddItemNeverCancels | App.tsx:174 | adding an item never produces a `cancelado` order |
| App.FinishOrderNeverCancels | App.tsx:206-210 | finishing never produces a `cancelado` order |
| App.Store.constructor | App.tsx:27-38 | empty tables, nobody signed in, and the default attendant permissions (menu, sales, orders) |
| App.Store.HandleCreateOrder | App.tsx:142-159 | the new open order is appended; ids stay unique and totals consistent |
| App.Store.HandleAddItemToOrder | App.tsx:161-182 | the tables become those of `AddItem`; an id missing from the open orders is refused; ids, totals and stock invariants are kept |
| App.Store.HandleFinishOrder | App.tsx:184-220 | the tables become those of `FinishOrder`; the order is found exactly when it is among the open orders; ids and totals are kept |
| App.Store.MarkReady | App.tsx:275 | the orders become `MarkedReady`; ids and totals are kept |
| App.Store.DeleteOrder | App.tsx:275 | the orders become `Deleted`, a subsequence of the old ones with unique ids |
| App.Store.UpdatePermissions | App.tsx:278 | the attendant permissions become the saved record |
| App.Store.SalesHistory | App.tsx:56 | the sales history handed to the sales and cash-desk screens: exactly the `fechado` orders of the table, in table order |
| App.SubsequenceUnique | App.tsx:275 | any subsequence of a table with unique ids has unique ids |
| Base.Filter | components/SalesSection.tsx:40 | `filter`: every element kept passes and is an element of the input, and every passing element of the input is kept |
| Base.FilterCounts | components/SalesSection.tsx:40 | each passing element is kept exactly as many times as it occurs, and no other element is kept; with `Base.FilterIsSubsequence` this fixes the result, duplicates included |
| Base.FilterIsSubsequence | components/SalesSection.tsx:40 | a filter keeps the input order |
| Sales.FinalQty | components/SalesSection.tsx:60 | the quantity is at least 1, is the parsed value when it is positive, and is 1 for NaN, 0 or a negative number |
| Sales.FinalQtyOfNumeral | components/SalesSection.tsx:54 | typing a positive whole number gives exactly that quantity |
| Sales.ActiveOrders | components/SalesSection.tsx:40 | exactly the orders that are not `fechado`, each as many times as it occurs in the input |
| Sales.ActiveOrdersOrder | components/SalesSection.tsx:40 | the active orders keep their order |
| Sales.CartIndexOf | components/SalesSection.tsx:61 | `findIndex` by name: the first row with the name, or -1 exactly when none has it |
| Sales.AddToCart | components/SalesSection.tsx:61-74 | merging keeps the length and appending adds one row; rows of other names are unchanged, and every row is an old row or carries the product's name |
| Sales.AddToCartEffect | components/SalesSection.tsx:61-74 | a name already in the cart raises only that row's quantity by the amount and keeps the length; a new name appends one row with the product's name, price and cost |
| Sales.AddToCartUnique | components/SalesSection.tsx:61-74 | the cart keeps at most one row per name |
| Sales.AddToCartHasName | components/SalesSection.tsx:61-74 | after adding, a row carries the product's name |
| Sales.CartTotal | components/SalesSection.tsx:42-44 | an empty cart totals 0 |
| Sales.AddToCartTotal | components/SalesSection.tsx:59-74 | the cart total grows by the quantity times the price of the row the product lands in: the price already in the cart when merging, the product's price for a new row |
| Sales.RemoveAt | components/SalesSection.tsx:80-82 | removing an index in range shortens the cart by one, any other index keeps its length |
| Sales.RemoveAtSlices | components/SalesSection.tsx:80-82 | removing index i drops exactly row i and keeps the rest in order; an index out of range changes nothing |
| Sales.SalesPanel.constructor | components/SalesSection.tsx:22-33 | empty fields and cart; the quantity box starts at the number 1, held as its text "1", which is what `toString` shows and `parseInt` reads back as 1 |
| Sales.SalesPanel.Listed | components/SalesSection.tsx:36-38 | exactly the products whose name matches the product search; all of them when the search is empty |
| Sales.SalesPanel.HandleCreate | components/SalesSection.tsx:46-50 | an empty name is refused with nothing changed; otherwise the name and the phone's digits are passed on and both fields are cleared |
| Sales.SalesPanel.HandleAddItemToComanda | components/SalesSection.tsx:52-57 | nothing without a chosen order and product; otherwise the parsed order id, the product and a quantity of at least 1 are passed on and the quantity, selection and search are reset |
| Sales.SalesPanel.HandleAddToCart | components/SalesSection.tsx:59-78 | the cart becomes `AddToCart` with the normalised quantity and keeps one row per name; the quantity, selection and search are reset |
| Sales.SalesPanel.RemoveFromCart | components/SalesSection.tsx:80-82 | the row at the index is dropped and the others kept in order; an index out of range changes nothing; one row per name is kept |
| Sales.SalesPanel.HandleFinalizeQuickSale | components/SalesSection.tsx:84-88 | the cart, its total and the payment type are passed on; the cart is emptied and the modal closed |
| Orders.FilteredOrders | components/OrdersSection.tsx:18-24 | exactly the orders whose lower-cased customer contains the lower-cased search and whose status matches the filter, or any status for `todos`, each as many times as it occurs in the input |
| Orders.FilteredOrdersOrder | components/OrdersSection.tsx:18-24 | the board keeps the order of its input |
| Orders.ShowAll | components/OrdersSection.tsx:20-21 | an empty search with `todos` lists every order |
| Orders.ActionsFor | components/OrdersSection.tsx:126-156 | print always; mark ready exactly for `aberto`; notify and close exactly for `pronto`; delete exactly for `fechado` |
| Orders.CancelledOnlyPrints | components/OrdersSection.tsx:126-156 | a `cancelado` order offers only print |
| Orders.NoDeleteOnOpenOrders | components/OrdersSection.tsx:152-156 | the board is given only open orders, so the `fechado` filter lists nothing and no card offers delete |
| Orders.ConfirmClosing | components/OrdersSection.tsx:56-62 | an unknown id sends nothing; otherwise the id and a one-payment list of the order's total are sent |
| Orders.ConfirmClosingSettlesTotal | components/OrdersSection.tsx:56-62 | closing from the board settles exactly as the type name alone would, paying exactly the order total |
| Orders.BoardClosingDeclaredForma | components/OrdersSection.tsx:87-97 | closing with one of the Pix, Cartão or Dinheiro buttons writes only entries of a declared method |
| Orders.WhatsAppTarget | components/OrdersSection.tsx:36-53 | refused exactly when the phone is shorter than 10 characters; otherwise the number is digits only, prefixed with 55 exactly when there are at most 11 digits |
| Orders.WhatsAppTargetOfDigits | components/OrdersSection.tsx:38-53 | a stored 10- or 11-digit number gets the 55 prefix, a longer one is used as is |
| Orders.Greeting | components/OrdersSection.tsx:39-40 | `Bom dia` before 12, `Boa tarde` from 12 to before 18, `Boa noite` from 18 |
| Cashier.DatePart | components/CashierSection.tsx:22 | the day part is the prefix of the timestamp before its first `T`, or the whole timestamp when it has none |
| Cashier.IsInRange | components/CashierSection.tsx:20-24 | an empty timestamp is never in range; otherwise its day part lies between the bounds, both included (see the two lemmas below) |
| Cashier.InRangeOrdersBounds | components/CashierSection.tsx:20-24 | something in range implies start <= end, so a reversed range holds nothing |
| Cashier.OneDayOnly | components/CashierSection.tsx:20-24 | the one-day range of a day admits only timestamps whose day part is that day |
| Cashier.SameDayInRange | components/CashierSection.tsx:20-24 | a timestamp `day` + `T` + time is in the one-day range of its day |
| Cashier.FilteredEntries | components/CashierSection.tsx:28 | exactly the entries whose timestamp is in range, each as many times as it occurs in the input, so two identical payments both count |
| Cashier.FilteredSales | components/CashierSection.tsx:31 | exactly the orders of the given sales history whose timestamp is in range, each as many times as it occurs in the input; App passes `Store.SalesHistory`, the closed orders |
| Cashier.FilteredEntriesProperties | components/CashierSection.tsx:23-28 | the period's entries keep the ledger order, and a reversed period has none |
| Cashier.BucketOf | components/CashierSection.tsx:36-39 | the bucket of the lower-cased method: pix first, then cartão/cartao, then dinheiro, otherwise none |
| Cashier.DeclaredFormaBucketed | components/CashierSection.tsx:36-39 | each declared method lands in its own bucket: `Pix` in pix, `Cartão` in card, `Dinheiro` in cash |
| Cashier.Tally | components/CashierSection.tsx:34-41 | one entry adds its value to the revenue and to exactly its bucket, or to no bucket |
| Cashier.MetricsOf | components/CashierSection.tsx:34-41 | the metrics `reduce` as a fold of `Tally` from zero; its sums are stated by `Cashier.RevenueSplit` |
| Cashier.Summarize | components/CashierSection.tsx:34-41 | the running-total loop computes the left fold of `Tally` over the entries |
| Cashier.RevenueSplit | components/CashierSection.tsx:34-41 | revenue is the sum of the entries, and it is the buckets plus the entries no bucket takes |
| Cashier.BucketsWithinRevenue | components/CashierSection.tsx:36-39 | with no negative values the buckets never exceed the revenue; when every method names a bucket they add up to it |
| Cashier.SaleCost | components/CashierSection.tsx:45-47 | an order with no items costs 0 |
| Cashier.TotalCost | components/CashierSection.tsx:44-49 | the cost `reduce` over the period's orders, stated by `Cashier.TotalCostAppend` and `Cashier.TotalCostConcat` |
| Cashier.TotalCostAppend | components/CashierSection.tsx:44-49 | appending an order adds its cost; an order with no items adds nothing |
| Cashier.TotalCostConcat | components/CashierSection.tsx:44-49 | the cost of two lists of orders one after the other is the sum of their costs, so the fold is the sum over the orders in any grouping |
| Cashier.Summary | components/CashierSection.tsx:26-57 | the period's entries, their metrics, revenue = sum of the entries, cost of the period's closed orders, profit = revenue - cost |
| Cashier.FormatDate | components/CashierSection.tsx:73 | the empty string stays empty |
| Cashier.FormatDateParts | components/CashierSection.tsx:72-76 | `Y-M-D` becomes `D/M/Y` |
| Admin.OrZero | components/AdminSection.tsx:52 | `x || 0` on a number is always a number, and keeps a number |
| Admin.PayloadId | components/AdminSection.tsx:62-64 | the id is sent exactly when it is set and not blank, and then as it is |
| Admin.DecimalField | components/AdminSection.tsx:51-52 | text without a comma is read by `Number` as it is; otherwise its first comma is read as a decimal point |
| Admin.SavePayload | components/AdminSection.tsx:46-64 | refused exactly when the trimmed name or the price text is empty; otherwise the trimmed name, the price read after the comma clean-up, the cost read or 0, and the parsed whole quantity or 0 |
| Admin.SaveRefusesBlankName | components/AdminSection.tsx:47 | a name of white space only, any of the characters `trim` removes, is refused |
| Admin.SaveCreatesOrUpdates | components/AdminSection.tsx:62-64 | a saved payload is an update of a non-blank editing id, or a create when there is none |
| Admin.DecimalFieldOfPrinted | components/AdminSection.tsx:51-52 | a printed amount has no comma and reads back as itself |
| Admin.SaveUnchangedEdit | components/AdminSection.tsx:30-64 | opening a product with a trimmed, non-empty name and saving it untouched sends the same product back |
| Admin.AdminForm.constructor | components/AdminSection.tsx:14-20 | the form starts hidden and empty |
| Admin.AdminForm.Listed | components/AdminSection.tsx:26-28 | exactly the products whose name matches the search; all of them when the search is empty |
| Admin.AdminForm.HandleEdit | components/AdminSection.tsx:30-38 | the form shows the product's id, name and printed numbers |
| Admin.AdminForm.HandleCancel | components/AdminSection.tsx:40-44 | no editing id, the form hidden, the four fields empty |
| Admin.AdminForm.HandleSaveProduct | components/AdminSection.tsx:46-73 | the payload is `SavePayload` of the form; a refused form stays as it was; a saved one is reset |
| Admin.Fallback | components/AdminSection.tsx:96-99 | the first truthy column, then the second, then 0 |
| Admin.RowPayload | components/AdminSection.tsx:95-100 | a row gives a create (no id) with the trimmed `nome`/`Nome`, and price, cost and quantity from their columns in priority order |
| Admin.RowPayloadDefaults | components/AdminSection.tsx:97-99 | a missing price, cost or quantity column gives 0 |
| Admin.ImportRows | components/AdminSection.tsx:93-102 | the loop issues the upserts of `ImportPayloads`, in row order |
| Admin.ImportPayloadsShape | components/AdminSection.tsx:93-101 | exactly one upsert per named row, every one without an id |
| Admin.ImportPayloadsAppend | components/AdminSection.tsx:93-102 | importing two sheets in turn issues the upserts of each in turn |
| Admin.ImportSkipsNameless | components/AdminSection.tsx:94 | rows without a name issue nothing |
| Team.Toggled | components/TeamSection.tsx:19 | the toggled flag is negated and the other four are unchanged |
| Team.ToggleTwice | components/TeamSection.tsx:19 | toggling the same flag twice gives back the original record |
| Team.ToggleCommutes | components/TeamSection.tsx:19 | toggles of two flags can be done in either order |
| Team.ToggleChangesOneTab | components/TeamSection.tsx:18-21 | an attendant's access flips for the toggled flag's tab and for no other tab |
| Team.TogglePermission | components/TeamSection.tsx:18-21 | one permission update, carrying the toggled record |
| Team.EmptyNewUserForm | components/TeamSection.tsx:13-15 | the new-user form starts with no e-mail, no password and the attendant role |
| Team.CreateNewUser | components/TeamSection.tsx:23-35 | refused exactly when the e-mail is empty or the password has fewer than 6 characters; otherwise the sign-up carries the e-mail, password and role as typed |
| Team.AfterSignUp | components/TeamSection.tsx:38 | a successful sign-up clears the e-mail and password and keeps the role |
| Team.NoSignUpFromClearedForm | components/TeamSection.tsx:25-38 | submitting again after a successful sign-up, or submitting the untouched form, requests no account |
| Menu.FilteredProducts | components/MenuSection.tsx:13-15 | exactly the products whose lower-cased name contains the lower-cased search, each as many times as it occurs in the input |
| Menu.FilteredProductsOrder | components/MenuSection.tsx:13-15 | the list keeps the catalogue order |
| Menu.EmptySearchListsAll | components/MenuSection.tsx:14 | an empty search lists every product |
| Menu.CategoryIcon | components/MenuSection.tsx:17-23 | wine if the name has `vinho`, else beer for `cerveja`, else energy for `energético`/`energetico` |
| Menu.CategoryIconDefault | components/MenuSection.tsx:17-23 | the glass icon exactly when no keyword occurs |
| Menu.CategoryIconIgnoresCase | components/MenuSection.tsx:18 | the icon does not depend on the case of the name |
| Menu.StockBadge | components/MenuSection.tsx:55-56 | "Em estoque" exactly when the quantity is positive, "Esgotado" otherwise |
| Js.Lower | components/MenuSection.tsx:14 | `toLowerCase` keeps the length and lower-cases each character |
| Js.ContainsIff | components/MenuSection.tsx:14 | `includes` holds exactly when the term occurs at some position |
| Js.ContainsEmpty | components/OrdersSection.tsx:20 | every text includes the empty term |
| Js.IndexOf | components/CashierSection.tsx:22 | the first position of the character, or -1 exactly when it is absent |
| Js.ReplaceFirst | components/AdminSection.tsx:51-52 | only the first occurrence of the character is replaced |
| Js.ReplaceFirstCount | components/AdminSection.tsx:51-52 | replacing the first comma removes exactly one comma, when there is one |
| Js.Digits | components/SalesSection.tsx:48 | the digit filter keeps a subsequence made of digits only, and keeps every digit of the input as many times as it occurs |
| Js.DigitsOfDigits | components/OrdersSection.tsx:38 | a string of digits is unchanged by the digit filter |
| Js.TrimEmptyIff | components/AdminSection.tsx:47 | the trimmed name is empty exactly when the name is all white space: tab, vertical tab, form feed, U+FEFF, the Zs space separators and the line terminators |
| Js.JoinSplit | components/CashierSection.tsx:74 | joining a split gives back the string |
| Js.SplitJoin | components/CashierSection.tsx:74 | splitting a join of separator-free pieces gives back the pieces |
| Js.LexLeTransitive | components/CashierSection.tsx:23 | string `<=` is transitive |
| Js.LexLeAntisymmetric | components/CashierSection.tsx:23 | string `<=` both ways means equal |
| Js.LexLeReflexive | components/CashierSection.tsx:23 | every string is `<=` itself |
| Js.NatToStringValue | components/AdminSection.tsx:35 | the printed numeral of a natural number reads back as it |
| Js.ParseIntRoundTrip | components/AdminSection.tsx:53 | `parseInt` reads back what `String` prints for an integer |
| Js.ParseToFixed2 | App.tsx:197 | `Number` reads back what `toFixed(2)` prints |
| Js.ParseNumberToString | components/AdminSection.tsx:33-34 | `Number` reads back what `toString` prints for an amount |

## Left out

- Supabase is not modelled: its reads, writes and authentication, `fetchData`/`fetchPermissions` and the `signUp` call. Each write is modelled as the change it makes to the store's tables, and a re-fetch as reading the open and closed views again. The 50-row limits of the fetches are not modelled.
- Async ordering is not modelled: the two independent writes of adding an item or finishing an order, and re-fetch races. Each handler is modelled as one atomic step.
- The clock is not modelled. The timestamp, the hour of the greeting and the new order's id are parameters. This also covers `todayStr`, `handleThisMonth` and locale formatting.
- Spreadsheet reading and writing is not modelled, nor are the export report and the template. A sheet is a sequence of rows, each a map from column name to a text or number cell; boolean cells are not modelled.
- Floating point is not modelled. Amounts are exact hundredths, and `Number` reads at most two fraction digits. Exponents, hexadecimal, `Infinity` and longer fractions are not modelled.
- `toLowerCase` covers ASCII and the Latin-1 capitals only. Strings are sequences of characters, not UTF-16 code units, so the password's `length` on the team screen counts characters.
- Browser side effects are not modelled: alerts, notifications and their timers, the print window's HTML, the WhatsApp message text and URL encoding, `window.open` and `window.scrollTo`.
- Rendering is not modelled beyond the visibility conditions, the actions per status, the icon and the badge. The closing-modal state (`closingOrderId`, `closingOrder`) is also not modelled.
- `handleUpsertProduct` and `handleDeleteProduct` are network writes followed by a re-fetch, so they are not modelled. The stock screen's save and import are modelled up to the payloads they send.
- The quick sale's `onQuickSale` is not wired in App.tsx:274, so what it would do with the sale is not modelled.
- Sales.SalesPanel.HandleFinalizeQuickSale: the model assumes the screen is given an `onQuickSale` callback that returns, as its props declare (SalesSection.tsx:14). As App.tsx:274 wires the screen, no callback is passed, so the call at SalesSection.tsx:85 throws a TypeError before the cart is emptied (line 86) and the modal closed (line 87). The model does not capture that, in the app as wired, the cart stays full and the modal stays open.
- Stock is a whole number in the model (`Product.qtd` is an integer), as the form's `parseInt` guarantees. The import sends `Number(...)` of the quantity column (AdminSection.tsx:99), which can be fractional, such as 2.5; the model keeps that value in the payload (`ProductPayload.qtd`) and does not model a table row holding it.
- Closing a tab from the sales screen's payment modal (SalesSection.tsx:120) is the `TypeName` input of `FinishOrder`; the modal itself is not modelled.
- The quantity key: the item built at App.tsx:169 spells its quantity key `qty`, while the type (types.ts:33) and its readers (CashierSection.tsx:46, OrdersSection.tsx:29) use `qtd`. The model has one quantity field, so it does not capture that those readers find no quantity on items added to a tab. In the app as written, `(item.custo || 0) * item.qtd` is then NaN for every such item, and the `|| 0` at CashierSection.tsx:47 makes that order's cost 0, so for tabs closed through App.tsx the cash desk's cost is 0 and its profit equals its revenue; the print window (OrdersSection.tsx:29) shows an `undefined` quantity. `Cashier.Summary` states the cost the code evidently intends, over the `qtd` field.
- The ledger entry's `id` (types.ts:51) is not modelled: the handler never sets it (the database assigns it) and no rule reads it.
- The sales history's fetch orders it by date, newest first, and keeps 50 rows (App.tsx:56); `Store.SalesHistory` keeps table order and every closed order.
- The ledger's payment method `forma` is a string, because the handler stores whatever payment type it is given. `IsDeclaredForma` states the three declared methods, and `Orders.BoardClosingDeclaredForma` proves that the board's buttons only write those.
- Sales.SalesPanel.HandleAddToCart: the source raises the quantity in place on the row object it shares with the previous cart (SalesSection.tsx:65). The model replaces the row in a new sequence, so that aliasing is not captured.
