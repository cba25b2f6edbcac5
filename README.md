# Point-of-sale ledger, cart and stock bookkeeping

A Dafny model of the core of a small Django point-of-sale application for a shop
that sells on cash and on credit (`pos/views.py`, `pos/models.py`):

- **Ledger** (`ledger.dfy`): the sale, payment and sale-line records. It also holds
  the debt formula of a client: the totals of its CREDIT sales minus its payments.
  The formula is used by `Client.balance`, by the dashboard's "pending debt"
  figure and by the public "check my debt" page.
- **Cart** (`cart.dfy`): the cart kept in the user's session. It is a dictionary
  from the posted product id to a line (id, name, price, quantity). The model
  covers `get_cart_data`, `add_to_cart`, `update_cart_item` and `clear_cart`, and
  checkout's own recomputation of the total.
- **Statement** (`statement.dfy`): the client account statement. The CREDIT sales
  and the payments are merged into one timeline. The timeline is sorted by date
  with a stable sort, and every event is posted with its debit, its credit and the
  running balance. For the PDF export, the timeline is then cut to the "active
  cycle" after the last settled balance. The source writes this computation out
  three times; the model has one `BuildStatement`, used by the three views.
- **Store** (`store.dfy`): the database as the class `Shop`, with checkout, sale
  editing and stock intake. Each view is one atomic method:
  - checkout turns the cart into a sale, with one line per cart line, and draws
    the stock down (the corrected checkout; the code as written fails on `note=`,
    see Findings);
  - adding a product to an existing sale and the increment, decrement and remove
    actions on a sale line move units between the line and the stock, and
    recompute the sale total from the lines;
  - `add_stock` and `add_product` bring units in;
  - `add_client` may open an account with an opening-balance sale.

  The predicate `Consistent` states what the database keeps:
  - every id is below its counter;
  - every foreign key resolves;
  - units are conserved: for each product, stock plus the units on sale lines
    equals the units that ever came in;
  - every sale total is the sum of its lines' subtotals.

  What each request does to the tables is stated once, as a predicate from the
  old tables to the new ones (`AddProductSpec`, `AddStockSpec`, `AddClientSpec`,
  `CheckoutSpec`, `AddProductToSaleSpec`, `UpdateSaleItemSpec`). For every
  operation, a `*Keeps` lemma proves that the new tables it allows are
  `Consistent` again. Each method of `Shop` promises its predicate. Its
  `*Consistently` twin runs it and applies those lemmas. The twin promises the
  same predicate and, in addition, that a `Consistent` database before the
  request gives a `Consistent` one after it.

Money is counted in whole cents (`int`), so Django's two-place decimals are exact.
Dates are integers that only need to be ordered. The database lookups that a view
makes (the product named by a posted id, the first line of a sale for a product,
the client found by phone) are parameters of the model. The preconditions say what
the lookup returned.

Two behaviours of the code are easy to misread, and the model follows the code:

- **The PDF cut keeps a fully settled history.** A comment in the cut
  (`pos/views.py:571-575`) expects that a client whose balance is back to zero
  may get an empty list. The code does not do that. The cut only happens when the
  last settled point comes before the final event (`pos/views.py:562`). When the
  final balance is itself settled, nothing is cut and the full timeline is shown.
  The model has this behaviour, and `Statement.ActiveCycleCases` states it. A
  non-empty timeline is cut to nothing only for a client who has overpaid by two
  cents or more.
- **A balance within one cent counts as settled.** The "zero" test compares a
  two-place decimal with the float `0.01` (`pos/views.py:558`). That float is a
  hair above one cent, so balances of -1, 0 and +1 cent all count as settled
  (`Statement.Settled`). For the same reason `current_debt > 0.01` means more
  than one cent.

## Model

| member | source | states |
|---|---|---|
| Ledger.NewSale | pos/models.py:42-46 | a sale row created without a method, total or paid flag is a CASH sale, so it is outside the credit ledger |
| Ledger.NewSaleOutsideLedger | pos/models.py:44-46 | such a sale has total 0, is marked paid and leaves any client's debt unchanged |
| Ledger.CreditTotalAppend | pos/models.py:33 | the CREDIT-sales sum is additive over a split of the sales |
| Ledger.PaidTotalAppend | pos/models.py:34 | the payments sum is additive over a split of the payments |
| Ledger.NoHistoryNoDebt | pos/models.py:31-35 | with no sales and no payments, both aggregates fall back to 0 and the debt is 0 |
| Ledger.BalanceAfterSale | pos/models.py:31-35 | a new sale raises the debt by its total exactly when it is a CREDIT sale, and otherwise leaves the debt unchanged |
| Ledger.BalanceAfterPayment | pos/models.py:31-35 | a payment lowers the debt by its amount, whatever sale it is linked to (the link at pos/models.py:62 plays no part) |
| Ledger.BalanceAdditive | pos/models.py:31-35 | the debt of two histories together is the sum of their debts |
| Ledger.DebtPendingIsSumOfBalances | pos/views.py:36-40 | the dashboard's pending debt over the whole shop is the sum of the debts of its clients, less the payments whose client column is NULL (pos/models.py:63), which no client's debt counts |
| Ledger.CheckDebt | pos/views.py:410-432 | a debt is shown exactly when a client was found, and it is that client's balance (pos/views.py:419-421) |
| Cart.EmptyCart | pos/views.py:265-267 | the empty cart totals 0 and holds no units of any product |
| Cart.TotalAfterAdd | pos/views.py:227-228 | adding q units to an existing line raises the cart total by q times that line's price |
| Cart.TotalAfterInsert | pos/views.py:229-235 | a new line raises the total by its quantity times its price |
| Cart.TotalAfterDelete | pos/views.py:255-258 | deleting a line lowers the total by that line's value |
| Cart.UpdateEffectOnTotal | pos/views.py:250-258 | increment adds one price, decrement takes one off, and delete takes off the whole line; other lines are never touched |
| Cart.GetCartData | pos/views.py:13-23 | the loop's total is the cart total; the rows follow an order of the cart's keys that visits each key exactly once, and the row of each key is its line with subtotal quantity times price |
| Cart.SumCart | pos/views.py:283 | checkout's recomputed total equals the cart total |
| Cart.Session.constructor | pos/views.py:212 | a session with no cart starts from the empty dictionary |
| Cart.Session.AddToCart | pos/views.py:211-240 | a missing id gives status 400 and changes nothing. Otherwise an unparsable quantity counts as 1; the quantity is added to an existing line, or a new line is created from the product. The page shows the new total |
| Cart.Session.UpdateCartItem | pos/views.py:243-262 | each action's effect, including delete-on-zero for decrement. An unknown id or action leaves the cart unchanged. The page shows the new total |
| Cart.Session.ClearCart | pos/views.py:265-267 | the cart becomes empty and the page shows total 0 |
| Statement.NatToString | pos/views.py:89 | the sale number in the reference is a non-empty string of decimal digits |
| Statement.NatToStringValue | pos/views.py:89 | read back as a decimal number, the digits give the sale id again |
| Statement.SaleRefsDistinct | pos/views.py:89 | two different sale ids never give the same "Factura #" reference |
| Statement.CreditEntries | pos/views.py:84-92 | only CREDIT sales become timeline events, each a SALE event |
| Statement.PaymentEntries | pos/views.py:95-103 | every payment becomes exactly one PAYMENT event, in order |
| Statement.InsertPos | pos/views.py:106 | the insertion point places the event after every event of an earlier or equal date and before every later one |
| Statement.InsertSorted | pos/views.py:106 | inserting into a date-ordered timeline keeps it ordered |
| Statement.SortByDateSorted | pos/views.py:106 | the sorted timeline is ordered by date and has the same length |
| Statement.SortByDatePermutes | pos/views.py:106 | sorting neither loses nor invents events (it is a permutation) |
| Statement.SortByDateStable | pos/views.py:106 | the sort is stable: events of the same date keep their relative order |
| Statement.SortKeepsSalesFirst | pos/views.py:84-106 | because the sales are appended before the payments, on equal dates a sale is posted before a payment |
| Statement.SortKeepsSignedSum | pos/views.py:106-121 | sorting does not change the sum of the debits minus the credits |
| Statement.WalkPosts | pos/views.py:108-122 | the i-th posted balance is the sum of debits minus credits of events 0..i |
| Statement.CreditEntriesSum | pos/views.py:75-92 | the SALE events add up to the total of CREDIT sales |
| Statement.PaymentEntriesSum | pos/views.py:77-103 | the PAYMENT events add up to the total paid |
| Statement.CreditEntriesExact | pos/views.py:84-92 | an event is a SALE event exactly when it comes from a CREDIT sale of the client |
| Statement.TimelineSum | pos/views.py:75-106 | the timeline has one event per CREDIT sale and payment, and its signed sum is the client's debt |
| Statement.WalkLast | pos/views.py:108-122 | the last running balance is the signed sum of the whole timeline |
| Statement.LastBalanceIsDebt | pos/views.py:70-122 | the current debt is the client balance. The timeline is empty exactly when there are no CREDIT sales and no payments; otherwise its last running balance equals the current debt |
| Statement.TimelineShape | pos/views.py:81-106 | the timeline is a permutation of the CREDIT-sale and payment events: it holds exactly those events, is ordered by date, puts sales first on equal dates, and keeps each date's events in their listing order |
| Statement.LastSettled | pos/views.py:555-559 | the cutoff is the last index whose balance is within one cent of zero, or -1 when there is none |
| Statement.ActiveCycleIsSuffix | pos/views.py:562-575 | the cut keeps a suffix of the timeline with its balances as they were; when it cuts, no settled point is left |
| Statement.ActiveCycleCases | pos/views.py:555-575 | with no settled point, or a settled final balance, the full timeline is kept; an empty result needs a debt of -2 cents or less; with a debt above one cent, the events after the cutoff are kept |
| Statement.CollectEntries | pos/views.py:81-103 | the loops build the CREDIT-sale events followed by the payment events |
| Statement.PostBalances | pos/views.py:108-122 | the loop posts each event with its debit, its credit and the running balance |
| Statement.BuildStatement | pos/views.py:70-122 | the statement's totals, its debt (the client balance) and its timeline, whose last balance is the debt |
| Statement.ActiveCycle | pos/views.py:555-575 | the cutoff scan and the slice return the active cycle, a suffix of the timeline |
| Statement.ClientStatement | pos/views.py:70-132 | the private statement page shows the built statement |
| Statement.ClientPublicStatement | pos/views.py:134-174 | the public page shows the same statement, marked public |
| Statement.ClientStatementPdf | pos/views.py:501-575 | the PDF has the same totals and debt, and its timeline is the active cycle of the full one |
| Store.AddLineSums | pos/views.py:742-749 | a new sale line adds its units to its product's count and its subtotal to its sale's total, and nothing to any other |
| Store.SetQuantitySums | pos/views.py:777-792 | a new quantity changes the product's count and the sale's total by the difference, and nothing else |
| Store.SubtotalChange | pos/models.py:57-59 | a new quantity changes a line's subtotal by the difference times the stored price |
| Store.DropLineSums | pos/views.py:793-804 | a deleted line takes its units and its subtotal off, and nothing else |
| Store.ConservedNewProduct | pos/views.py:328-342 | a new product enters with its initial stock as its supply |
| Store.ConservedRestock | pos/views.py:651-660 | stock added raises the supply by as much |
| Store.ConservedAddLine | pos/views.py:742-753 | a line sold from stock moves its units from the stock to the line |
| Store.ConservedAddOpening | pos/views.py:366-388 | the opening-balance line never draws stock, so the supply grows by its quantity |
| Store.ConservedSetQuantity | pos/views.py:777-792 | incrementing or decrementing a line moves the difference between the line and the stock |
| Store.ConservedDropLine | pos/views.py:793-804 | deleting a line gives all its units back to the stock |
| Store.ConservedCheckout | pos/views.py:310-320 | checkout lowers each product's stock by exactly the units its new lines hold |
| Store.TotalsNewSale | pos/models.py:45 | a new sale with no lines keeps every total matching its lines exactly when it starts at total 0 |
| Store.TotalsAddLine | pos/views.py:736-757 | after a new line, the recomputed total is the old total plus the line's subtotal, and all totals match their lines |
| Store.TotalsSetQuantity | pos/views.py:777-808 | after a new quantity, the recomputed total moves by the difference times the price, and all totals match |
| Store.TotalsDropLine | pos/views.py:793-808 | after a delete, the recomputed total loses the line's subtotal, and all totals match |
| Store.TotalsOpeningSale | pos/views.py:375-388 | the opening sale is written with its total already equal to its single line |
| Store.TotalsCheckout | pos/views.py:283-320 | the new sale's total is the value of its new lines, and no other sale gains a line |
| Store.LinkedNewProduct | pos/views.py:335-340 | a new product is named by no line yet, and every reference still resolves |
| Store.LinkedNewSale | pos/views.py:375-381 | a new sale of an existing client has no line yet, and every reference still resolves |
| Store.LinkedCheckout | pos/views.py:301-320 | the new sale and its lines refer to an existing client, that sale and existing products |
| Store.SumSaleLines | pos/views.py:756 | the loop recomputes a sale total as the sum of the subtotals of that sale's lines |
| Store.SoldUnits | pos/views.py:310-320 | after the loop, each product's units on sale lines have grown by its units in the cart |
| Store.SoldValue | pos/views.py:310-320 | after the loop, the new sale's lines are worth the cart total, and no other sale changes |
| Store.SoldStock | pos/views.py:310-320 | after the loop, each product's stock has dropped by its units in the cart (two keys may name one product) |
| Store.SellCart | pos/views.py:310-320 | the loop takes the cart's keys one by one, each exactly once, writes the j-th as a line of the sale under the fresh id nextItem + j, and draws its units from its product's stock (CartSold) |
| Store.CartSoldEffects | pos/views.py:310-320 | whatever the order of the keys, every earlier line stays, the new ids hold lines of the sale each made from a cart line, each product's stock drops by its units in the cart, the sale gains the cart's value and no other sale changes |
| Store.CartSoldLines | pos/views.py:310-320 | the new lines, id by id: an order of the cart's keys, each key exactly once, the j-th key's line under nextItem + j |
| Store.NewProductKeeps | pos/views.py:328-342 | add_product keeps the database Consistent |
| Store.RestockKeeps | pos/views.py:651-665 | add_stock keeps the database Consistent |
| Store.NewClientKeeps | pos/views.py:358-363 | a new client keeps the database Consistent |
| Store.OpeningSaleKeeps | pos/views.py:366-388 | the opening-balance sale and its line keep the database Consistent |
| Store.OpeningKeeps | pos/views.py:366-388 | the opening sale, with its quantity-1 line on the "SALDO ANTERIOR" product that was found or just created, keeps the database Consistent, the supply gaining one unit of that product |
| Store.CheckoutKeeps | pos/views.py:270-326 | checkout keeps the database Consistent, with the supply unchanged |
| Store.SetQuantityKeeps | pos/views.py:777-792 | incrementing or decrementing a line, with the stock move and the recomputed total, keeps the database Consistent |
| Store.AddLineKeeps | pos/views.py:742-757 | adding a line to a sale, with the stock move and the recomputed total, keeps the database Consistent |
| Store.BumpLineKeeps | pos/views.py:738-741 | one more unit on an existing line, drawn from its product's stock, with the recomputed total, keeps the database Consistent |
| Store.UnbumpLineKeeps | pos/views.py:786-792 | one unit less on a line, given back to its product's stock, with the recomputed total, keeps the database Consistent |
| Store.AddToSaleKeeps | pos/views.py:736-757 | one more unit of a product on a sale, on its first line of that product or on a new line, keeps the database Consistent |
| Store.DropLineKeeps | pos/views.py:793-808 | deleting a line, with the stock returned and the recomputed total, keeps the database Consistent |
| Store.RecomputeKeeps | pos/views.py:806-808 | recomputing a total from unchanged lines leaves a Consistent database as it was |
| Store.UpdateSaleItemKeeps | pos/views.py:770-818 | every action of update_sale_item, the unknown ones included, keeps the database Consistent |
| Store.Shop.AddProduct | pos/views.py:328-342 | a new product under a fresh id, with nothing else changed; a barcode another product already holds (the empty text included, but not a missing one) fails the unique column of pos/models.py:12 and changes nothing |
| Store.Shop.AddStock | pos/views.py:651-665 | a positive integer is added to the stock. Zero or less, or unparsable text, changes nothing and reports the error |
| Store.Shop.AddClient | pos/views.py:346-391 | a new client under a fresh id. An unparsable or non-positive debt adds nothing else. A positive debt adds an unpaid CREDIT sale of 100 times the debt in cents, with one line of quantity 1 on the "SALDO ANTERIOR" product, creating that product with barcode "SYS-DEBT" when missing. Two products of that name fail the lookup (MultipleObjectsReturned), and a missing one whose barcode another product holds fails the insert (IntegrityError); either way the client row stays and nothing else is written |
| Store.Shop.CheckoutAsWritten | pos/views.py:270-308 | an empty cart or a missing client is rejected; otherwise creating the sale with `note` fails before anything is written |
| Store.Shop.Checkout | pos/views.py:270-326 | the corrected checkout. An empty cart or a missing client changes nothing. Otherwise a new sale with total = cart total and paid = (method is CASH), one line per cart line, the stock drawn down by the cart, and the cart emptied |
| Store.Shop.AddProductToSale | pos/views.py:728-767 | one more unit on the first matching line, or a new line at the current price; the stock drops by one and the total is recomputed from the lines |
| Store.Shop.UpdateSaleItem | pos/views.py:770-818 | increment, decrement (delete at quantity 1 or less) and remove, each with its stock move; any other action moves nothing; the total is recomputed |
| Store.Shop.AddProductConsistently | pos/views.py:328-342 | the same new product table and outcome as AddProduct (AddProductSpec), the other tables unchanged; a Consistent database stays Consistent, the supply growing by the new product's stock only when it was added |
| Store.Shop.AddStockConsistently | pos/views.py:651-665 | the same stock change and outcome as AddStock (AddStockSpec), the other tables unchanged; a Consistent database stays Consistent, the supply growing by the quantity only when it was added |
| Store.Shop.AddClientConsistently | pos/views.py:346-391 | the same new client, outcome, opening sale and line as AddClient (AddClientSpec); a Consistent database stays Consistent on every path, failed lookups included; the supply is unchanged unless the opening sale is written, and then gains exactly one unit of its line's product |
| Store.Shop.CheckoutConsistently | pos/views.py:270-326 | the same outcome, new sale, sold lines, stock and emptied cart as Checkout (CheckoutSpec); a Consistent database stays Consistent with the supply unchanged |
| Store.Shop.AddProductToSaleConsistently | pos/views.py:728-767 | the same line, stock and total changes as AddProductToSale (AddProductToSaleSpec); a Consistent database stays Consistent with the supply unchanged |
| Store.Shop.UpdateSaleItemConsistently | pos/views.py:770-818 | the same effect of each action as UpdateSaleItem (UpdateSaleItemSpec); a Consistent database stays Consistent with the supply unchanged |

## Left out

- HTTP, templates, messages, redirects, login and the PDF rendering are not modelled. Each view returns only the data its page shows.
- Store.Shop.AddStock: a POST without a `quantity` field makes `int(None)` raise TypeError (`pos/views.py:655`), which the `except ValueError` at `pos/views.py:662` does not catch, so the view fails with a server error rather than reporting the invalid quantity. The model's `None` stands only for text that is not an integer. Nothing is written on that path either way.
- The ORM is not modelled. Queries become maps and sequences, and the rows a lookup returns are parameters. `get_object_or_404` failing is outside the model: the preconditions say the row exists.
- Dates are plain integers. Parsing `created_at` and `timezone.now()` are not modelled; the date is a parameter.
- Money is whole cents. `DecimalField` precision limits (`max_digits`) and overflow are not modelled.
- Concurrency is not modelled. Each request is one atomic step, while the source saves row by row without a transaction. Within the preconditions above, the one partial write that a single request can leave, the client row of add_client when the opening balance fails, is modelled. A cart product missing at checkout (`pos/views.py:311`) would leave the sale and the earlier lines written; the preconditions exclude it.
- Dictionary iteration order is not modelled. The cart is a map, and the order in which its keys are visited is left open.
- Cart.GetCartData: the rows are one per key of the cart, but which order of the keys they follow is left open.
- Store.SellCart: the new lines are one per key of the cart, but which key gets which fresh id is left open, because it follows dictionary order.
- Store.Shop.Checkout: the same as SellCart: which cart key gets which line id is left open.
- Store.Shop.AddProduct: the posted name, price and stock are taken as present and already converted to integers. A missing name or a malformed price or stock makes the insert fail in the database layer; that path is not modelled.
- Cart.Session.UpdateCartItem: a missing `product_id` arrives in the source as the text "None". It is modelled as the empty id, which matches no cart key in either case.
- The Shop class keeps only the id counters as its invariant. Consistency of the tables (references, conservation of units, totals) is proved by the `*Keeps` lemmas and carried through each request by the `*Consistently` methods, not as part of the class invariant.
- report_analytics, the dashboard's sales figures, searches, edit views, add_payment and the invoice page are outside the modelled core. A payment's effect on the debt is `Ledger.BalanceAfterPayment`.
- `last_sales` on the public debt page (the five latest sales) is not modelled.

## Findings

| source | as written | input that shows it | evidently intended | confidence | as-written member | corrected member |
|---|---|---|---|---|---|---|
| pos/views.py:301-308 | checkout creates the sale with a `note=` keyword, but the Sale table (pos/models.py:37-46) has no `note` column, so Django rejects the call before any row is written | any non-empty cart with a client selected | record the sale with the columns it has (or store the note in a column that exists), then write its lines and draw the stock | not executed; follows from the field list of the model | Store.Shop.CheckoutAsWritten | Store.Shop.Checkout |
