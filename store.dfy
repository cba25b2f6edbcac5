/** The stock and sale bookkeeping of pos/views.py: checkout turns the session
    cart into a sale, sale editing moves units between a sale line and the
    product's stock, and stock can be added. The database tables are the maps
    of class Shop; every request runs as one atomic step. */
module Store {
  import opened Sums
  import opened Ledger
  import Cart

  datatype CheckoutOutcome = Rejected | Recorded(saleId: nat) | Crashed(unexpectedField: string)

  datatype StockOutcome = StockAdded | NotPositive | NotANumber

  datatype ProductOutcome = ProductAdded(id: nat) | BarcodeTaken

  /** What add_client did about the opening debt: nothing, a new sale, or an
      exception raised by the product lookup (the client row stays written). */
  datatype OpeningOutcome = NoOpening | Opened(saleId: nat) | OpeningFailed(error: string)

  const MULTIPLE_OBJECTS: string := "MultipleObjectsReturned"
  const INTEGRITY_ERROR: string := "IntegrityError"

  /** The name of the product that carries opening balances. */
  const OPENING_BALANCE: string := "SALDO ANTERIOR"

  /** The columns of the Sale table (pos/models.py); creating a row with any other
      keyword fails. */
  const SALE_COLUMNS: set<string> := {"id", "client", "date", "payment_method", "total", "is_paid"}

  /** The keywords checkout passes when it creates the sale. */
  const CHECKOUT_KEYWORDS: set<string> := {"client", "payment_method", "total", "is_paid", "date", "note"}

  /** The barcode the "SALDO ANTERIOR" product is created with. */
  const DEBT_BARCODE: string := "SYS-DEBT"

  /** A barcode, when present, that some product already holds. */
  predicate BarcodeInUse(products: map<nat, Product>, barcode: Option<string>) {
    barcode.Some? && exists p :: p in products && products[p].barcode == barcode
  }

  /** The supply with one more unit of product `p`, which may be new. */
  function OneMore(supply: map<nat, int>, p: nat): map<nat, int> {
    supply[p := (if p in supply then supply[p] else 0) + 1]
  }

  /** OneMore written out for a product already supplied and for a new one. */
  lemma OneMoreOf(supply: map<nat, int>, p: nat)
    ensures p in supply ==> OneMore(supply, p) == supply[p := supply[p] + 1]
    ensures p !in supply ==> OneMore(supply, p) == supply[p := 0][p := supply[p := 0][p] + 1]
  {
  }

  /** The products named "SALDO ANTERIOR". */
  function OpeningProducts(products: map<nat, Product>): set<nat> {
    set p | p in products && products[p].name == OPENING_BALANCE
  }

  /** A set of one element holds nothing else. */
  lemma OnlyMember(s: set<nat>, x: nat)
    requires |s| == 1 && x in s
    ensures s == {x}
  {
    assert |s - {x}| == 0;
  }

  function ItemUnits(p: nat): SaleItem -> int {
    (it: SaleItem) => if it.product == p then it.quantity else 0
  }

  function ItemValue(s: nat): SaleItem -> int {
    (it: SaleItem) => if it.sale == s then Subtotal(it) else 0
  }

  /** Units of product `p` held in sale lines. */
  ghost function UnitsSold(items: map<nat, SaleItem>, p: nat): int {
    SumOver(items, ItemUnits(p))
  }

  /** The sum of the subtotals of the lines of sale `s`. */
  ghost function SaleTotal(items: map<nat, SaleItem>, s: nat): int {
    SumOver(items, ItemValue(s))
  }

  /** The line a cart line becomes in sale `s`. */
  function ItemOf(s: nat, line: Cart.CartLine): SaleItem {
    SaleItem(s, line.id, line.quantity, line.price)
  }

  /** A product no line names has sold nothing; a sale no line belongs to totals 0. */
  lemma NoLinesOfProduct(items: map<nat, SaleItem>, p: nat)
    requires forall i :: i in items ==> items[i].product != p
    ensures UnitsSold(items, p) == 0
  {
    SumOverZero(items, ItemUnits(p));
  }

  lemma NoLinesOfSale(items: map<nat, SaleItem>, s: nat)
    requires forall i :: i in items ==> items[i].sale != s
    ensures SaleTotal(items, s) == 0
  {
    SumOverZero(items, ItemValue(s));
  }

  /** Units are conserved: whatever of a product's supply is not in stock is held in
      sale lines. */
  ghost predicate Conserved(products: map<nat, Product>, items: map<nat, SaleItem>, supply: map<nat, int>) {
    && supply.Keys == products.Keys
    && forall p :: p in products ==> products[p].stock + UnitsSold(items, p) == supply[p]
  }

  /** Every sale total is the sum of the subtotals of its lines. */
  ghost predicate TotalsMatch(sales: map<nat, Sale>, items: map<nat, SaleItem>) {
    forall s :: s in sales ==> sales[s].total == SaleTotal(items, s)
  }

  /** Every id is below its table's counter, so the counter is a fresh id. */
  ghost predicate IdsIssued(clients: set<nat>, products: map<nat, Product>, sales: map<nat, Sale>,
                            items: map<nat, SaleItem>, nextClient: nat, nextProduct: nat, nextSale: nat, nextItem: nat)
  {
    && (forall c :: c in clients ==> c < nextClient)
    && (forall p :: p in products ==> p < nextProduct)
    && (forall s :: s in sales ==> s < nextSale)
    && (forall i :: i in items ==> i < nextItem)
  }

  /** Every reference resolves (the foreign keys of pos/models.py): a sale is stored
      under its own id and its client exists, a line's sale and product exist. */
  ghost predicate Linked(clients: set<nat>, products: map<nat, Product>, sales: map<nat, Sale>, items: map<nat, SaleItem>) {
    && (forall s :: s in sales ==> sales[s].id == s && sales[s].client in clients)
    && (forall i :: i in items ==> items[i].sale in sales && items[i].product in products)
  }

  function WithStock(products: map<nat, Product>, p: nat, stock: int): map<nat, Product>
    requires p in products
  {
    products[p := products[p].(stock := stock)]
  }

  function WithTotal(sales: map<nat, Sale>, s: nat, total: int): map<nat, Sale>
    requires s in sales
  {
    sales[s := sales[s].(total := total)]
  }

  lemma LinkedNewClient(clients: set<nat>, products: map<nat, Product>, sales: map<nat, Sale>,
                        items: map<nat, SaleItem>, c: nat)
    requires Linked(clients, products, sales, items)
    ensures Linked(clients + {c}, products, sales, items)
  {
  }

  /** A new product is named by no line yet. */
  lemma LinkedNewProduct(clients: set<nat>, products: map<nat, Product>, sales: map<nat, Sale>,
                         items: map<nat, SaleItem>, np: nat, product: Product)
    requires Linked(clients, products, sales, items) && np !in products
    ensures Linked(clients, products[np := product], sales, items)
    ensures forall i :: i in items ==> items[i].product != np
  {
  }

  /** A new sale of an existing client has no line yet. */
  lemma LinkedNewSale(clients: set<nat>, products: map<nat, Product>, sales: map<nat, Sale>,
                      items: map<nat, SaleItem>, sale: Sale)
    requires Linked(clients, products, sales, items) && sale.id !in sales && sale.client in clients
    ensures Linked(clients, products, sales[sale.id := sale], items)
    ensures forall i :: i in items ==> items[i].sale != sale.id
  {
  }

  lemma LinkedAddLine(clients: set<nat>, products: map<nat, Product>, sales: map<nat, Sale>,
                      items: map<nat, SaleItem>, ni: nat, it: SaleItem)
    requires Linked(clients, products, sales, items) && it.sale in sales && it.product in products
    ensures Linked(clients, products, sales, items[ni := it])
  {
  }

  /** New stock or a new total changes no reference. */
  lemma LinkedWithStockAndTotal(clients: set<nat>, products: map<nat, Product>, sales: map<nat, Sale>,
                                items: map<nat, SaleItem>, p: nat, stock: int, s: nat, total: int)
    requires Linked(clients, products, sales, items) && p in products && s in sales
    ensures Linked(clients, WithStock(products, p, stock), sales, items)
    ensures Linked(clients, products, WithTotal(sales, s, total), items)
    ensures Linked(clients, WithStock(products, p, stock), WithTotal(sales, s, total), items)
  {
  }

  lemma LinkedSetQuantity(clients: set<nat>, products: map<nat, Product>, sales: map<nat, Sale>,
                          items: map<nat, SaleItem>, id: nat, q: int)
    requires Linked(clients, products, sales, items) && id in items
    ensures Linked(clients, products, sales, items[id := items[id].(quantity := q)])
  {
  }

  lemma LinkedDropLine(clients: set<nat>, products: map<nat, Product>, sales: map<nat, Sale>,
                       items: map<nat, SaleItem>, id: nat)
    requires Linked(clients, products, sales, items)
    ensures Linked(clients, products, sales, items - {id})
  {
  }

  /** Checkout: the new sale belongs to an existing client and every new line
      belongs to it and names a product of the cart. */
  lemma LinkedCheckout(clients: set<nat>, products: map<nat, Product>, sales: map<nat, Sale>, items: map<nat, SaleItem>,
                       products': map<nat, Product>, items': map<nat, SaleItem>, sale: Sale, cart: map<string, Cart.CartLine>)
    requires Linked(clients, products, sales, items) && sale.id !in sales && sale.client in clients
    requires products'.Keys == products.Keys && forall k :: k in cart ==> cart[k].id in products
    requires forall i :: i in items ==> i in items' && items'[i] == items[i]
    requires forall i :: i in items' && i !in items ==> exists k :: k in cart && items'[i] == ItemOf(sale.id, cart[k])
    ensures Linked(clients, products', sales[sale.id := sale], items')
  {
    forall i | i in items'
      ensures items'[i].sale in sales[sale.id := sale] && items'[i].product in products'
    {
      if i !in items {
        var k :| k in cart && items'[i] == ItemOf(sale.id, cart[k]);
      }
    }
  }

  /** A new line adds its units to its product's count and its subtotal to its sale's
      total, and nothing to any other. */
  lemma AddLineSums(items: map<nat, SaleItem>, ni: nat, it: SaleItem)
    requires ni !in items
    ensures forall p :: UnitsSold(items[ni := it], p) == UnitsSold(items, p) + (if it.product == p then it.quantity else 0)
    ensures forall s :: SaleTotal(items[ni := it], s) == SaleTotal(items, s) + (if it.sale == s then Subtotal(it) else 0)
  {
    forall p ensures UnitsSold(items[ni := it], p) == UnitsSold(items, p) + (if it.product == p then it.quantity else 0) {
      SumOverAdd(items, ni, it, ItemUnits(p));
    }
    forall s ensures SaleTotal(items[ni := it], s) == SaleTotal(items, s) + (if it.sale == s then Subtotal(it) else 0) {
      SumOverAdd(items, ni, it, ItemValue(s));
    }
  }

  /** A new quantity on a line changes its product's count and its sale's total by
      the difference, and nothing else. */
  lemma SetQuantitySums(items: map<nat, SaleItem>, id: nat, q: int)
    requires id in items
    ensures var it := items[id];
      && (forall p :: UnitsSold(items[id := it.(quantity := q)], p)
                      == UnitsSold(items, p) + (if it.product == p then q - it.quantity else 0))
      && (forall s :: SaleTotal(items[id := it.(quantity := q)], s)
                      == SaleTotal(items, s) + (if it.sale == s then (q - it.quantity) * it.price else 0))
  {
    var it := items[id];
    forall p ensures UnitsSold(items[id := it.(quantity := q)], p)
                     == UnitsSold(items, p) + (if it.product == p then q - it.quantity else 0) {
      SumOverUpdate(items, id, it.(quantity := q), ItemUnits(p));
    }
    forall s ensures SaleTotal(items[id := it.(quantity := q)], s)
                     == SaleTotal(items, s) + (if it.sale == s then (q - it.quantity) * it.price else 0) {
      SetQuantityTotal(items, id, q, s);
    }
  }

  lemma SetQuantityTotal(items: map<nat, SaleItem>, id: nat, q: int, s: nat)
    requires id in items
    ensures var it := items[id];
      SaleTotal(items[id := it.(quantity := q)], s)
        == SaleTotal(items, s) + (if it.sale == s then (q - it.quantity) * it.price else 0)
  {
    var it := items[id];
    SubtotalChange(it, q);
    SumOverUpdate(items, id, it.(quantity := q), ItemValue(s));
  }

  lemma SubtotalChange(it: SaleItem, q: int)
    ensures Subtotal(it.(quantity := q)) == Subtotal(it) + (q - it.quantity) * it.price
  {
    assert (q - it.quantity) * it.price == q * it.price - it.quantity * it.price;
  }

  /** A deleted line takes its units off its product's count and its subtotal off its
      sale's total, and nothing else. */
  lemma DropLineSums(items: map<nat, SaleItem>, id: nat)
    requires id in items
    ensures var it := items[id];
      && (forall p :: UnitsSold(items - {id}, p) == UnitsSold(items, p) - (if it.product == p then it.quantity else 0))
      && (forall s :: SaleTotal(items - {id}, s) == SaleTotal(items, s) - (if it.sale == s then Subtotal(it) else 0))
  {
    var it := items[id];
    forall p ensures UnitsSold(items - {id}, p) == UnitsSold(items, p) - (if it.product == p then it.quantity else 0) {
      SumOverRemove(items, id, ItemUnits(p));
    }
    forall s ensures SaleTotal(items - {id}, s) == SaleTotal(items, s) - (if it.sale == s then Subtotal(it) else 0) {
      SumOverRemove(items, id, ItemValue(s));
    }
  }

  /** A new product enters with its initial stock as its supply. */
  lemma ConservedNewProduct(products: map<nat, Product>, items: map<nat, SaleItem>, supply: map<nat, int>, np: nat, product: Product)
    requires Conserved(products, items, supply) && np !in products
    requires forall i :: i in items ==> items[i].product != np
    ensures Conserved(products[np := product], items, supply[np := product.stock])
  {
    NoLinesOfProduct(items, np);
  }

  /** Stock received raises the supply by as much. */
  lemma ConservedRestock(products: map<nat, Product>, items: map<nat, SaleItem>, supply: map<nat, int>, p: nat, q: int)
    requires Conserved(products, items, supply) && p in products
    ensures Conserved(WithStock(products, p, products[p].stock + q), items, supply[p := supply[p] + q])
  {
  }

  /** A sold line takes its units out of stock. */
  lemma ConservedAddLine(products: map<nat, Product>, items: map<nat, SaleItem>, supply: map<nat, int>, ni: nat, it: SaleItem)
    requires Conserved(products, items, supply) && ni !in items && it.product in products
    ensures Conserved(WithStock(products, it.product, products[it.product].stock - it.quantity), items[ni := it], supply)
  {
    AddLineSums(items, ni, it);
  }

  /** An opening-balance line holds units that never left the stock: the supply grows
      instead. */
  lemma ConservedAddOpening(products: map<nat, Product>, items: map<nat, SaleItem>, supply: map<nat, int>, ni: nat, it: SaleItem)
    requires Conserved(products, items, supply) && ni !in items && it.product in products
    ensures Conserved(products, items[ni := it], supply[it.product := supply[it.product] + it.quantity])
  {
    AddLineSums(items, ni, it);
  }

  /** A new quantity moves the difference between the line and the stock. */
  lemma ConservedSetQuantity(products: map<nat, Product>, items: map<nat, SaleItem>, supply: map<nat, int>, id: nat, q: int)
    requires Conserved(products, items, supply) && id in items && items[id].product in products
    ensures var it := items[id];
      Conserved(WithStock(products, it.product, products[it.product].stock - (q - it.quantity)),
                items[id := it.(quantity := q)], supply)
  {
    SetQuantitySums(items, id, q);
  }

  /** A deleted line gives all its units back to stock. */
  lemma ConservedDropLine(products: map<nat, Product>, items: map<nat, SaleItem>, supply: map<nat, int>, id: nat)
    requires Conserved(products, items, supply) && id in items && items[id].product in products
    ensures var it := items[id];
      Conserved(WithStock(products, it.product, products[it.product].stock + it.quantity), items - {id}, supply)
  {
    DropLineSums(items, id);
  }

  /** Checkout: each product's stock drops by exactly the units its new lines hold. */
  lemma ConservedCheckout(products: map<nat, Product>, items: map<nat, SaleItem>, supply: map<nat, int>,
                          products': map<nat, Product>, items': map<nat, SaleItem>, cart: map<string, Cart.CartLine>)
    requires Conserved(products, items, supply) && products'.Keys == products.Keys
    requires forall p :: p in products ==> products'[p].stock == products[p].stock - Cart.CartUnits(cart, p)
    requires forall p :: UnitsSold(items', p) == UnitsSold(items, p) + Cart.CartUnits(cart, p)
    ensures Conserved(products', items', supply)
  {
  }

  /** A new sale starts with no lines, so its total must start at 0: the totals
      still match their lines exactly when it does. */
  lemma TotalsNewSale(sales: map<nat, Sale>, items: map<nat, SaleItem>, sale: Sale)
    requires TotalsMatch(sales, items)
    requires forall i :: i in items ==> items[i].sale != sale.id
    ensures TotalsMatch(sales[sale.id := sale], items) <==> sale.total == 0
  {
    NoLinesOfSale(items, sale.id);
  }

  /** Recomputing the total after adding a line: the sale gains the line's subtotal. */
  lemma TotalsAddLine(sales: map<nat, Sale>, items: map<nat, SaleItem>, ni: nat, it: SaleItem)
    requires TotalsMatch(sales, items) && ni !in items && it.sale in sales
    ensures SaleTotal(items[ni := it], it.sale) == sales[it.sale].total + Subtotal(it)
    ensures TotalsMatch(WithTotal(sales, it.sale, SaleTotal(items[ni := it], it.sale)), items[ni := it])
  {
    AddLineSums(items, ni, it);
  }

  /** Recomputing the total after a new quantity: the sale changes by the difference
      times the line's price. */
  lemma TotalsSetQuantity(sales: map<nat, Sale>, items: map<nat, SaleItem>, id: nat, q: int)
    requires TotalsMatch(sales, items) && id in items && items[id].sale in sales
    ensures var it := items[id];
      && SaleTotal(items[id := it.(quantity := q)], it.sale) == sales[it.sale].total + (q - it.quantity) * it.price
      && TotalsMatch(WithTotal(sales, it.sale, SaleTotal(items[id := it.(quantity := q)], it.sale)),
                     items[id := it.(quantity := q)])
  {
    SetQuantitySums(items, id, q);
  }

  /** Recomputing the total after deleting a line: the sale loses the line's subtotal. */
  lemma TotalsDropLine(sales: map<nat, Sale>, items: map<nat, SaleItem>, id: nat)
    requires TotalsMatch(sales, items) && id in items && items[id].sale in sales
    ensures var it := items[id];
      && SaleTotal(items - {id}, it.sale) == sales[it.sale].total - Subtotal(it)
      && TotalsMatch(WithTotal(sales, it.sale, SaleTotal(items - {id}, it.sale)), items - {id})
  {
    DropLineSums(items, id);
  }

  /** The opening-balance sale is written with its total already set to the value of
      its single line. */
  lemma TotalsOpeningSale(sales: map<nat, Sale>, items: map<nat, SaleItem>, sale: Sale, ni: nat, it: SaleItem)
    requires TotalsMatch(sales, items) && ni !in items && sale.id !in sales
    requires forall i :: i in items ==> items[i].sale != sale.id
    requires it.sale == sale.id && sale.total == Subtotal(it)
    ensures TotalsMatch(sales[sale.id := sale], items[ni := it])
  {
    TotalsNewSale(sales, items, sale.(total := 0));
    TotalsAddLine(sales[sale.id := sale.(total := 0)], items, ni, it);
    assert WithTotal(sales[sale.id := sale.(total := 0)], sale.id, SaleTotal(items[ni := it], sale.id))
        == sales[sale.id := sale];
  }

  /** Checkout: the new sale had no lines before and its total is the value of the
      lines it gains; no other sale gains a line. */
  lemma TotalsCheckout(sales: map<nat, Sale>, items: map<nat, SaleItem>, items': map<nat, SaleItem>, sale: Sale)
    requires TotalsMatch(sales, items)
    requires forall i :: i in items ==> items[i].sale != sale.id
    requires SaleTotal(items', sale.id) == SaleTotal(items, sale.id) + sale.total
    requires forall s :: s != sale.id ==> SaleTotal(items', s) == SaleTotal(items, s)
    ensures TotalsMatch(sales[sale.id := sale], items')
  {
    NoLinesOfSale(items, sale.id);
  }

  /** `existing` is what `sale.items.filter(product=product).first()` yields: the line
      of that sale and product with the smallest id, or nothing. */
  ghost predicate FirstLineOf(items: map<nat, SaleItem>, s: nat, p: nat, existing: Option<nat>) {
    match existing
    case None => forall i :: i in items ==> !(items[i].sale == s && items[i].product == p)
    case Some(e) =>
      && e in items && items[e].sale == s && items[e].product == p
      && forall i :: i in items && items[i].sale == s && items[i].product == p ==> e <= i
  }

  /** `sum(item.subtotal for item in sale.items.all())`: the sum of the subtotals of
      the lines of sale `s`. */
  method SumSaleLines(items: map<nat, SaleItem>, s: nat) returns (total: int)
    ensures total == SaleTotal(items, s)
  {
    total := 0;
    var rest := items;
    while rest != map[]
      invariant total + SaleTotal(rest, s) == SaleTotal(items, s)
      decreases |rest|
    {
      var i :| i in rest;
      if rest[i].sale == s {
        total := total + Subtotal(rest[i]);
      }
      SumOverRemove(rest, i, ItemValue(s));
      rest := rest - {i};
    }
    NoLinesOfSale(rest, s);
  }

  /** The lines checkout has written after taking the cart lines `lines`, in that
      order, under ids from `ni` on. */
  ghost function Placed(items: map<nat, SaleItem>, ni: nat, s: nat, lines: seq<Cart.CartLine>): map<nat, SaleItem>
    decreases |lines|
  {
    if |lines| == 0 then items
    else
      var n := |lines| - 1;
      Placed(items, ni, s, lines[..n])[ni + n := ItemOf(s, lines[n])]
  }

  /** The products after the stock of each of `lines` has been drawn down. */
  ghost function Drawn(products: map<nat, Product>, lines: seq<Cart.CartLine>): map<nat, Product>
    decreases |lines|
  {
    if |lines| == 0 then products
    else
      var line, d := lines[|lines| - 1], Drawn(products, lines[..|lines| - 1]);
      if line.id in d then WithStock(d, line.id, d[line.id].stock - line.quantity) else d
  }

  /** The sum of `f` over a sequence of cart lines. */
  ghost function SeqSum(lines: seq<Cart.CartLine>, f: Cart.CartLine -> int): int
    decreases |lines|
  {
    if |lines| == 0 then 0
    else SeqSum(lines[..|lines| - 1], f) + f(lines[|lines| - 1])
  }

  /** The cart lines whose keys have not been taken. */
  function Untaken(cart: map<string, Cart.CartLine>, taken: seq<string>): map<string, Cart.CartLine> {
    map k | k in cart && k !in taken :: cart[k]
  }

  /** A measure of sale lines seen through the line a cart line becomes in sale `s`. */
  function Via(s: nat, g: SaleItem -> int): Cart.CartLine -> int {
    (line: Cart.CartLine) => g(ItemOf(s, line))
  }

  /** `lines` are the cart lines at the distinct keys `taken`, in order. */
  ghost predicate TakenFrom(cart: map<string, Cart.CartLine>, taken: seq<string>, lines: seq<Cart.CartLine>) {
    && |lines| == |taken|
    && (forall j :: 0 <= j < |taken| ==> taken[j] in cart && lines[j] == cart[taken[j]])
    && (forall j, j' :: 0 <= j < j' < |taken| ==> taken[j] != taken[j'])
  }

  /** Every key of the cart has been taken. */
  ghost predicate AllTaken(cart: map<string, Cart.CartLine>, taken: seq<string>, lines: seq<Cart.CartLine>) {
    TakenFrom(cart, taken, lines) && Untaken(cart, taken) == map[]
  }

  /** Taking one more key of the cart. */
  lemma TakenFromLast(cart: map<string, Cart.CartLine>, taken: seq<string>, lines: seq<Cart.CartLine>)
    requires TakenFrom(cart, taken, lines) && |taken| != 0
    ensures TakenFrom(cart, taken[..|taken| - 1], lines[..|lines| - 1])
    ensures var k := taken[|taken| - 1];
      && k in cart && k !in Untaken(cart, taken) && lines[|lines| - 1] == cart[k]
      && Untaken(cart, taken[..|taken| - 1]) == Untaken(cart, taken)[k := cart[k]]
  {
    var n := |taken| - 1;
    assert taken[n] !in taken[..n];
  }

  /** Taking a key not yet taken extends the record of the keys taken. */
  lemma TakenFromNext(cart: map<string, Cart.CartLine>, taken: seq<string>, lines: seq<Cart.CartLine>, key: string)
    requires TakenFrom(cart, taken, lines) && key in Untaken(cart, taken)
    ensures TakenFrom(cart, taken + [key], lines + [cart[key]])
    ensures Untaken(cart, taken + [key]) == Untaken(cart, taken) - {key}
    ensures |Untaken(cart, taken) - {key}| == |Untaken(cart, taken)| - 1
  {
  }

  /** Taking distinct keys splits the cart's sum into the taken part and the rest. */
  lemma {:induction false} SeqSumSplit(cart: map<string, Cart.CartLine>, taken: seq<string>, lines: seq<Cart.CartLine>,
                                       f: Cart.CartLine -> int)
    requires TakenFrom(cart, taken, lines)
    ensures SumOver(cart, f) == SeqSum(lines, f) + SumOver(Untaken(cart, taken), f)
    decreases |taken|
  {
    if |taken| == 0 {
      assert Untaken(cart, taken) == cart;
    } else {
      var n := |taken| - 1;
      TakenFromLast(cart, taken, lines);
      SeqSumSplit(cart, taken[..n], lines[..n], f);
      SeqSumSplitStep(cart, taken, lines, f);
    }
  }

  /** The step of SeqSumSplit: moving the last key taken from the rest to the taken part. */
  lemma SeqSumSplitStep(cart: map<string, Cart.CartLine>, taken: seq<string>, lines: seq<Cart.CartLine>,
                        f: Cart.CartLine -> int)
    requires TakenFrom(cart, taken, lines) && |taken| != 0
    requires SumOver(cart, f) == SeqSum(lines[..|lines| - 1], f) + SumOver(Untaken(cart, taken[..|taken| - 1]), f)
    ensures SumOver(cart, f) == SeqSum(lines, f) + SumOver(Untaken(cart, taken), f)
  {
    var n := |taken| - 1;
    var k, rest := taken[n], Untaken(cart, taken);
    assert k !in rest && Untaken(cart, taken[..n]) == rest[k := cart[k]] && lines[n] == cart[k] by {
      TakenFromLast(cart, taken, lines);
    }
    SumOverAdd(rest, k, cart[k], f);
  }

  /** The lines written occupy exactly the ids from `ni` on, one per cart line. */
  lemma {:induction false} PlacedKeys(items: map<nat, SaleItem>, ni: nat, s: nat, lines: seq<Cart.CartLine>)
    requires forall i :: i in items ==> i < ni
    ensures forall i :: i in Placed(items, ni, s, lines) ==> i in items || ni <= i < ni + |lines|
    ensures forall i :: i in items ==> i in Placed(items, ni, s, lines)
    ensures forall i :: ni <= i < ni + |lines| ==> i in Placed(items, ni, s, lines)
    decreases |lines|
  {
    if |lines| != 0 {
      var n := |lines| - 1;
      PlacedKeys(items, ni, s, lines[..n]);
      assert ni + n !in Placed(items, ni, s, lines[..n]);
    }
  }

  /** The lines written leave every earlier line as it was. */
  lemma {:induction false} PlacedKeeps(items: map<nat, SaleItem>, ni: nat, s: nat, lines: seq<Cart.CartLine>, i: nat)
    requires i in items && i < ni
    ensures i in Placed(items, ni, s, lines) && Placed(items, ni, s, lines)[i] == items[i]
    decreases |lines|
  {
    if |lines| != 0 {
      PlacedKeeps(items, ni, s, lines[..|lines| - 1], i);
    }
  }

  /** The line under id `ni + j` is the line the `j`-th cart line becomes. */
  lemma {:induction false} PlacedLine(items: map<nat, SaleItem>, ni: nat, s: nat, lines: seq<Cart.CartLine>, j: nat)
    requires j < |lines|
    ensures ni + j in Placed(items, ni, s, lines)
    ensures Placed(items, ni, s, lines)[ni + j] == ItemOf(s, lines[j])
    decreases |lines|
  {
    var n := |lines| - 1;
    if j < n {
      PlacedLine(items, ni, s, lines[..n], j);
      assert lines[..n][j] == lines[j];
    }
  }

  /** The next id is still free after the lines written. */
  lemma PlacedFresh(items: map<nat, SaleItem>, ni: nat, s: nat, lines: seq<Cart.CartLine>)
    requires forall i :: i in items ==> i < ni
    ensures ni + |lines| !in Placed(items, ni, s, lines)
  {
    PlacedKeys(items, ni, s, lines);
  }

  /** Writing one more line adds its measure. */
  lemma PlacedAppend(items: map<nat, SaleItem>, ni: nat, s: nat, pre: seq<Cart.CartLine>, line: Cart.CartLine,
                     g: SaleItem -> int)
    requires forall i :: i in items ==> i < ni
    ensures SumOver(Placed(items, ni, s, pre + [line]), g)
         == SumOver(Placed(items, ni, s, pre), g) + g(ItemOf(s, line))
  {
    var before, it := Placed(items, ni, s, pre), ItemOf(s, line);
    PlaceStep(items, ni, s, pre, line);
    assert SumOver(before[ni + |pre| := it], g) == SumOver(before, g) + g(it) by {
      PlacedFresh(items, ni, s, pre);
      SumOverAdd<nat, SaleItem>(before, ni + |pre|, it, g);
    }
  }

  /** The sum of a measure over the lines written is the old sum plus the measure of
      the sale line each cart line becomes. */
  lemma {:induction false} PlacedSum(items: map<nat, SaleItem>, ni: nat, s: nat, lines: seq<Cart.CartLine>,
                                     g: SaleItem -> int)
    requires forall i :: i in items ==> i < ni
    ensures SumOver(Placed(items, ni, s, lines), g) == SumOver(items, g) + SeqSum(lines, Via(s, g))
    decreases |lines|
  {
    if |lines| != 0 {
      var n := |lines| - 1;
      assert lines == lines[..n] + [lines[n]];
      PlacedAppend(items, ni, s, lines[..n], lines[n], g);
      PlacedSum(items, ni, s, lines[..n], g);
      assert Via(s, g)(lines[n]) == g(ItemOf(s, lines[n]));
    }
  }

  /** Drawing stock keeps the products. */
  lemma {:induction false} DrawnKeys(products: map<nat, Product>, lines: seq<Cart.CartLine>)
    ensures Drawn(products, lines).Keys == products.Keys
    decreases |lines|
  {
    if |lines| != 0 {
      DrawnKeys(products, lines[..|lines| - 1]);
    }
  }

  /** Each product's stock has dropped by its units on the lines. */
  lemma {:induction false} DrawnStock(products: map<nat, Product>, lines: seq<Cart.CartLine>, p: nat)
    requires p in products
    ensures p in Drawn(products, lines)
    ensures Drawn(products, lines)[p] == products[p].(stock := products[p].stock - SeqSum(lines, Cart.UnitsOf(p)))
    decreases |lines|
  {
    if |lines| != 0 {
      DrawnStock(products, lines[..|lines| - 1], p);
    }
  }

  /** A sale line of product `p` holds the units of `p` its cart line holds; its
      subtotal counts towards its own sale only. */
  lemma ViaMeasures(s: nat, line: Cart.CartLine, p: nat, s': nat)
    ensures Via(s, ItemUnits(p))(line) == Cart.UnitsOf(p)(line)
    ensures Via(s, ItemValue(s'))(line) == (if s' == s then Cart.LineValue()(line) else 0)
  {
    assert Via(s, ItemUnits(p))(line) == ItemUnits(p)(ItemOf(s, line));
    assert Via(s, ItemValue(s'))(line) == ItemValue(s')(ItemOf(s, line));
  }

  /** Once every key is taken, the units of each product on the lines written are
      the units of it in the cart. */
  lemma SoldUnits(items: map<nat, SaleItem>, ni: nat, s: nat, cart: map<string, Cart.CartLine>,
                  taken: seq<string>, lines: seq<Cart.CartLine>, p: nat)
    requires AllTaken(cart, taken, lines) && forall i :: i in items ==> i < ni
    ensures UnitsSold(Placed(items, ni, s, lines), p) == UnitsSold(items, p) + Cart.CartUnits(cart, p)
  {
    var f := Via(s, ItemUnits(p));
    PlacedSum(items, ni, s, lines, ItemUnits(p));
    SeqSumSplit(cart, taken, lines, f);
    assert SumOver(cart, f) == Cart.CartUnits(cart, p) by {
      forall k | k in cart ensures f(cart[k]) == Cart.UnitsOf(p)(cart[k]) {
        ViaMeasures(s, cart[k], p, s);
      }
      SumOverCongruent(cart, f, Cart.UnitsOf(p));
    }
  }

  /** Once every key is taken, the lines written add the cart's value to sale `s`
      and nothing to any other sale. */
  lemma SoldValue(items: map<nat, SaleItem>, ni: nat, s: nat, cart: map<string, Cart.CartLine>,
                  taken: seq<string>, lines: seq<Cart.CartLine>, s': nat)
    requires AllTaken(cart, taken, lines) && forall i :: i in items ==> i < ni
    ensures SaleTotal(Placed(items, ni, s, lines), s')
         == SaleTotal(items, s') + (if s' == s then Cart.CartTotal(cart) else 0)
  {
    var f := Via(s, ItemValue(s'));
    PlacedSum(items, ni, s, lines, ItemValue(s'));
    SeqSumSplit(cart, taken, lines, f);
    assert SumOver(cart, f) == (if s' == s then Cart.CartTotal(cart) else 0) by {
      forall k | k in cart ensures f(cart[k]) == (if s' == s then Cart.LineValue()(cart[k]) else 0) {
        ViaMeasures(s, cart[k], 0, s');
      }
      if s' == s {
        SumOverCongruent(cart, f, Cart.LineValue());
      } else {
        SumOverZero(cart, f);
      }
    }
  }

  /** Once every key is taken, each product's stock has dropped by its units in the cart. */
  lemma SoldStock(products: map<nat, Product>, cart: map<string, Cart.CartLine>, taken: seq<string>,
                  lines: seq<Cart.CartLine>, p: nat)
    requires AllTaken(cart, taken, lines) && p in products
    ensures p in Drawn(products, lines)
    ensures Drawn(products, lines)[p] == products[p].(stock := products[p].stock - Cart.CartUnits(cart, p))
  {
    DrawnStock(products, lines, p);
    SeqSumSplit(cart, taken, lines, Cart.UnitsOf(p));
  }

  /** What the loop of checkout has done once every key of the cart is taken. */
  lemma SoldAll(items: map<nat, SaleItem>, nextItem: nat, saleId: nat,
                cart: map<string, Cart.CartLine>, taken: seq<string>, lines: seq<Cart.CartLine>,
                items': map<nat, SaleItem>)
    requires AllTaken(cart, taken, lines) && |lines| == |cart| && forall i :: i in items ==> i < nextItem
    requires items' == Placed(items, nextItem, saleId, lines)
    ensures forall i :: i in items' ==> i < nextItem + |lines|
    ensures forall p :: UnitsSold(items', p) == UnitsSold(items, p) + Cart.CartUnits(cart, p)
    ensures SaleTotal(items', saleId) == SaleTotal(items, saleId) + Cart.CartTotal(cart)
    ensures forall s :: s != saleId ==> SaleTotal(items', s) == SaleTotal(items, s)
    ensures forall i :: i in items ==> i in items' && items'[i] == items[i]
    ensures forall i :: i in items' && i !in items ==> exists k :: k in cart && items'[i] == ItemOf(saleId, cart[k])
    ensures forall i :: nextItem <= i < nextItem + |cart| ==> i in items'
  {
    PlacedKeys(items, nextItem, saleId, lines);
    forall i | i in items
      ensures i in items' && items'[i] == items[i]
    {
      PlacedKeeps(items, nextItem, saleId, lines, i);
    }
    forall i | i in items' && i !in items
      ensures exists k :: k in cart && items'[i] == ItemOf(saleId, cart[k])
    {
      PlacedLine(items, nextItem, saleId, lines, i - nextItem);
      assert taken[i - nextItem] in cart;
    }
    forall p ensures UnitsSold(items', p) == UnitsSold(items, p) + Cart.CartUnits(cart, p) {
      SoldUnits(items, nextItem, saleId, cart, taken, lines, p);
    }
    forall s ensures SaleTotal(items', s) == SaleTotal(items, s) + (if s == saleId then Cart.CartTotal(cart) else 0) {
      SoldValue(items, nextItem, saleId, cart, taken, lines, s);
    }
  }

  /** Once every key is taken, the stock has dropped by what the cart holds. */
  lemma DrawnAll(products: map<nat, Product>, cart: map<string, Cart.CartLine>, taken: seq<string>,
                 lines: seq<Cart.CartLine>)
    requires AllTaken(cart, taken, lines)
    ensures StockDrawn(products, cart, Drawn(products, lines))
  {
    forall p | p in products
      ensures p in Drawn(products, lines)
      ensures Drawn(products, lines)[p] == products[p].(stock := products[p].stock - Cart.CartUnits(cart, p))
    {
      SoldStock(products, cart, taken, lines, p);
    }
    DrawnKeys(products, lines);
  }

  /** One more cart line written. */
  lemma PlaceStep(items: map<nat, SaleItem>, nextItem: nat, saleId: nat, lines: seq<Cart.CartLine>, line: Cart.CartLine)
    ensures Placed(items, nextItem, saleId, lines + [line])
         == Placed(items, nextItem, saleId, lines)[nextItem + |lines| := ItemOf(saleId, line)]
  {
    var l := lines + [line];
    assert l[..|l| - 1] == lines;
  }

  /** One more cart line drawn from stock. */
  lemma DrawStep(products: map<nat, Product>, lines: seq<Cart.CartLine>, line: Cart.CartLine)
    requires line.id in products
    ensures var d := Drawn(products, lines);
      line.id in d && Drawn(products, lines + [line]) == WithStock(d, line.id, d[line.id].stock - line.quantity)
  {
    var l := lines + [line];
    assert l[..|l| - 1] == lines;
    DrawnKeys(products, lines);
  }

  /** Each product's stock lowered by the units of it the cart holds. */
  ghost predicate StockDrawn(products: map<nat, Product>, cart: map<string, Cart.CartLine>, products': map<nat, Product>) {
    && products'.Keys == products.Keys
    && forall p :: p in products ==> products'[p] == products[p].(stock := products[p].stock - Cart.CartUnits(cart, p))
  }

  /** Writing the cart as sale `saleId`: the keys of the cart are taken one by one,
      each exactly once, in some order; the `j`-th becomes a line of the sale under
      the fresh id `nextItem + j` and its units are drawn from its product's stock. */
  ghost predicate CartSold(products: map<nat, Product>, items: map<nat, SaleItem>, nextItem: nat, saleId: nat,
                           cart: map<string, Cart.CartLine>,
                           products': map<nat, Product>, items': map<nat, SaleItem>, nextItem': nat)
  {
    && nextItem' == nextItem + |cart|
    && exists taken, lines :: && AllTaken(cart, taken, lines) && |lines| == |cart|
                              && items' == Placed(items, nextItem, saleId, lines)
                              && products' == Drawn(products, lines)
  }

  /** What selling a cart does to the tables, whatever the order: every earlier line
      stays, the new ids hold new lines of the sale, each naming a cart line, each
      product's stock drops by the units the cart holds of it, and the sale gains
      exactly the value of the cart while no other sale changes. */
  lemma CartSoldEffects(products: map<nat, Product>, items: map<nat, SaleItem>, nextItem: nat, saleId: nat,
                        cart: map<string, Cart.CartLine>,
                        products': map<nat, Product>, items': map<nat, SaleItem>, nextItem': nat)
    requires CartSold(products, items, nextItem, saleId, cart, products', items', nextItem')
    requires forall i :: i in items ==> i < nextItem
    ensures forall i :: i in items' ==> i < nextItem' || i in items
    ensures forall i :: nextItem <= i < nextItem' ==> i in items' && i !in items
    ensures forall i :: i in items ==> i in items' && items'[i] == items[i]
    ensures forall i :: i in items' && i !in items ==> exists k :: k in cart && items'[i] == ItemOf(saleId, cart[k])
    ensures StockDrawn(products, cart, products')
    ensures forall p :: UnitsSold(items', p) == UnitsSold(items, p) + Cart.CartUnits(cart, p)
    ensures SaleTotal(items', saleId) == SaleTotal(items, saleId) + Cart.CartTotal(cart)
    ensures forall s :: s != saleId ==> SaleTotal(items', s) == SaleTotal(items, s)
  {
    var taken, lines :| && AllTaken(cart, taken, lines) && |lines| == |cart|
                        && items' == Placed(items, nextItem, saleId, lines)
                        && products' == Drawn(products, lines);
    SoldAll(items, nextItem, saleId, cart, taken, lines, items');
    DrawnAll(products, cart, taken, lines);
  }

  /** The new lines of a sold cart, id by id: the keys of the cart in some order,
      each exactly once, the `j`-th written under `nextItem + j`. */
  lemma CartSoldLines(products: map<nat, Product>, items: map<nat, SaleItem>, nextItem: nat, saleId: nat,
                      cart: map<string, Cart.CartLine>,
                      products': map<nat, Product>, items': map<nat, SaleItem>, nextItem': nat)
    returns (keys: seq<string>)
    requires CartSold(products, items, nextItem, saleId, cart, products', items', nextItem')
    ensures |keys| == |cart|
    ensures forall k :: k in cart <==> k in keys
    ensures forall j, j' :: 0 <= j < j' < |keys| ==> keys[j] != keys[j']
    ensures forall j :: 0 <= j < |keys| ==>
      keys[j] in cart && nextItem + j in items' && items'[nextItem + j] == ItemOf(saleId, cart[keys[j]])
  {
    var taken, lines :| && AllTaken(cart, taken, lines) && |lines| == |cart|
                        && items' == Placed(items, nextItem, saleId, lines)
                        && products' == Drawn(products, lines);
    keys := taken;
    assert forall k :: k in cart ==> k in keys || k in Untaken(cart, taken);
    forall j | 0 <= j < |keys|
      ensures keys[j] in cart && nextItem + j in items' && items'[nextItem + j] == ItemOf(saleId, cart[keys[j]])
    {
      PlacedLine(items, nextItem, saleId, lines, j);
    }
  }

  /** One turn of the checkout loop: the next key taken, its line written and its
      units drawn. */
  lemma SellStep(products: map<nat, Product>, items: map<nat, SaleItem>, nextItem: nat, saleId: nat,
                 cart: map<string, Cart.CartLine>, taken: seq<string>, lines: seq<Cart.CartLine>, key: string)
    requires TakenFrom(cart, taken, lines) && key in Untaken(cart, taken) && cart[key].id in products
    ensures Untaken(cart, taken)[key] == cart[key]
    ensures TakenFrom(cart, taken + [key], lines + [cart[key]])
    ensures Untaken(cart, taken + [key]) == Untaken(cart, taken) - {key}
    ensures |Untaken(cart, taken) - {key}| == |Untaken(cart, taken)| - 1
    ensures Placed(items, nextItem, saleId, lines + [cart[key]])
         == Placed(items, nextItem, saleId, lines)[nextItem + |lines| := ItemOf(saleId, cart[key])]
    ensures var d := Drawn(products, lines);
      cart[key].id in d && Drawn(products, lines + [cart[key]]) == WithStock(d, cart[key].id, d[cart[key].id].stock - cart[key].quantity)
  {
    TakenFromNext(cart, taken, lines, key);
    PlaceStep(items, nextItem, saleId, lines, cart[key]);
    DrawStep(products, lines, cart[key]);
  }

  /** The loop of checkout over the cart: one line of sale `saleId` per cart line,
      under fresh ids from `nextItem` on, each taking its units out of its product's
      stock. */
  method SellCart(products: map<nat, Product>, items: map<nat, SaleItem>, nextItem: nat,
                  saleId: nat, cart: map<string, Cart.CartLine>)
    returns (products': map<nat, Product>, items': map<nat, SaleItem>, nextItem': nat)
    requires forall i :: i in items ==> i < nextItem
    requires forall k :: k in cart ==> cart[k].id in products
    ensures CartSold(products, items, nextItem, saleId, cart, products', items', nextItem')
    ensures products'.Keys == products.Keys && forall i :: i in items' ==> i < nextItem'
  {
    products', items', nextItem' := products, items, nextItem;
    var rest := cart;
    ghost var taken: seq<string>, lines: seq<Cart.CartLine> := [], [];
    while rest != map[]
      invariant TakenFrom(cart, taken, lines)
      invariant rest == Untaken(cart, taken) && |rest| + |taken| == |cart|
      invariant items' == Placed(items, nextItem, saleId, lines)
      invariant products' == Drawn(products, lines)
      invariant nextItem' == nextItem + |lines|
      decreases |rest|
    {
      var key :| key in rest;
      var line := rest[key];
      SellStep(products, items, nextItem, saleId, cart, taken, lines, key);
      items' := items'[nextItem' := ItemOf(saleId, line)];
      nextItem' := nextItem' + 1;
      products' := WithStock(products', line.id, products'[line.id].stock - line.quantity);
      rest := rest - {key};
      taken, lines := taken + [key], lines + [line];
    }
    PlacedKeys(items, nextItem, saleId, lines);
    DrawnKeys(products, lines);
    assert AllTaken(cart, taken, lines);
  }

  /** The database is consistent: the counters are ahead of the ids, every reference
      resolves, every unit of supply is either in stock or on a sale line, and every
      sale total is the sum of its lines. */
  ghost predicate Consistent(clients: set<nat>, products: map<nat, Product>, sales: map<nat, Sale>,
                             items: map<nat, SaleItem>, supply: map<nat, int>,
                             nextClient: nat, nextProduct: nat, nextSale: nat, nextItem: nat)
  {
    && IdsIssued(clients, products, sales, items, nextClient, nextProduct, nextSale, nextItem)
    && Linked(clients, products, sales, items)
    && Conserved(products, items, supply)
    && TotalsMatch(sales, items)
  }

  /** add_product keeps the database consistent; the product's initial stock is its
      supply. */
  lemma NewProductKeeps(clients: set<nat>, products: map<nat, Product>, sales: map<nat, Sale>,
                        items: map<nat, SaleItem>, supply: map<nat, int>,
                        nextClient: nat, nextProduct: nat, nextSale: nat, nextItem: nat, product: Product)
    requires Consistent(clients, products, sales, items, supply, nextClient, nextProduct, nextSale, nextItem)
    ensures Consistent(clients, products[nextProduct := product], sales, items, supply[nextProduct := product.stock],
                       nextClient, nextProduct + 1, nextSale, nextItem)
  {
    LinkedNewProduct(clients, products, sales, items, nextProduct, product);
    ConservedNewProduct(products, items, supply, nextProduct, product);
  }

  /** add_stock keeps the database consistent; the units added join the supply. */
  lemma RestockKeeps(clients: set<nat>, products: map<nat, Product>, sales: map<nat, Sale>,
                     items: map<nat, SaleItem>, supply: map<nat, int>,
                     nextClient: nat, nextProduct: nat, nextSale: nat, nextItem: nat, p: nat, q: int)
    requires Consistent(clients, products, sales, items, supply, nextClient, nextProduct, nextSale, nextItem)
    requires p in products
    ensures Consistent(clients, WithStock(products, p, products[p].stock + q), sales, items, supply[p := supply[p] + q],
                       nextClient, nextProduct, nextSale, nextItem)
  {
    ConservedRestock(products, items, supply, p, q);
  }

  /** A new client keeps the database consistent. */
  lemma NewClientKeeps(clients: set<nat>, products: map<nat, Product>, sales: map<nat, Sale>,
                       items: map<nat, SaleItem>, supply: map<nat, int>,
                       nextClient: nat, nextProduct: nat, nextSale: nat, nextItem: nat)
    requires Consistent(clients, products, sales, items, supply, nextClient, nextProduct, nextSale, nextItem)
    ensures Consistent(clients + {nextClient}, products, sales, items, supply, nextClient + 1, nextProduct, nextSale, nextItem)
  {
    LinkedNewClient(clients, products, sales, items, nextClient);
  }

  /** The opening-balance sale of add_client, with its single line, keeps the database
      consistent; the unit on the line never left the stock, so it joins the supply. */
  lemma OpeningSaleKeeps(clients: set<nat>, products: map<nat, Product>, sales: map<nat, Sale>,
                         items: map<nat, SaleItem>, supply: map<nat, int>,
                         nextClient: nat, nextProduct: nat, nextSale: nat, nextItem: nat, sale: Sale, line: SaleItem)
    requires Consistent(clients, products, sales, items, supply, nextClient, nextProduct, nextSale, nextItem)
    requires sale.id == nextSale && sale.client in clients
    requires line.sale == nextSale && line.product in products && sale.total == Subtotal(line)
    ensures Consistent(clients, products, sales[nextSale := sale], items[nextItem := line],
                       supply[line.product := supply[line.product] + line.quantity],
                       nextClient, nextProduct, nextSale + 1, nextItem + 1)
  {
    LinkedNewSale(clients, products, sales, items, sale);
    LinkedAddLine(clients, products, sales[nextSale := sale], items, nextItem, line);
    ConservedAddOpening(products, items, supply, nextItem, line);
    TotalsOpeningSale(sales, items, sale, nextItem, line);
  }

  /** The opening balance of add_client, on the "SALDO ANTERIOR" product found or
      created, keeps the database consistent with one more unit of that product's
      supply. */
  lemma OpeningKeeps(clients: set<nat>, products: map<nat, Product>, sales: map<nat, Sale>,
                     items: map<nat, SaleItem>, supply: map<nat, int>,
                     nextClient: nat, nextProduct: nat, nextSale: nat, nextItem: nat, sale: Sale, line: SaleItem,
                     products': map<nat, Product>, nextProduct': nat)
    requires Consistent(clients, products, sales, items, supply, nextClient, nextProduct, nextSale, nextItem)
    requires sale.id == nextSale && sale.client in clients
    requires line.sale == nextSale && line.quantity == 1 && sale.total == Subtotal(line)
    requires || (products' == products && nextProduct' == nextProduct && line.product in products)
             || (&& products' == products[nextProduct := Product(OPENING_BALANCE, Some(DEBT_BARCODE), 0, 0)]
                 && nextProduct' == nextProduct + 1 && line.product == nextProduct)
    ensures Consistent(clients, products', sales[nextSale := sale], items[nextItem := line],
                       OneMore(supply, line.product), nextClient, nextProduct', nextSale + 1, nextItem + 1)
  {
    OneMoreOf(supply, line.product);
    if products' == products && nextProduct' == nextProduct && line.product in products {
      OpeningSaleKeeps(clients, products, sales, items, supply, nextClient, nextProduct, nextSale, nextItem, sale, line);
    } else {
      var debtProduct := Product(OPENING_BALANCE, Some(DEBT_BARCODE), 0, 0);
      assert nextProduct !in products && nextProduct !in supply;
      NewProductKeeps(clients, products, sales, items, supply, nextClient, nextProduct, nextSale, nextItem, debtProduct);
      OpeningSaleKeeps(clients, products', sales, items, supply[nextProduct := 0], nextClient, nextProduct + 1,
                       nextSale, nextItem, sale, line);
    }
  }

  /** checkout keeps the database consistent: the new sale belongs to an existing
      client, its lines take their units out of stock, and its total is the value of
      the cart. The supply does not change. */
  lemma CheckoutKeeps(clients: set<nat>, products: map<nat, Product>, sales: map<nat, Sale>,
                      items: map<nat, SaleItem>, supply: map<nat, int>,
                      nextClient: nat, nextProduct: nat, nextSale: nat, nextItem: nat, sale: Sale,
                      cart: map<string, Cart.CartLine>,
                      products': map<nat, Product>, items': map<nat, SaleItem>, nextItem': nat)
    requires Consistent(clients, products, sales, items, supply, nextClient, nextProduct, nextSale, nextItem)
    requires sale.id == nextSale && sale.client in clients && sale.total == Cart.CartTotal(cart)
    requires forall k :: k in cart ==> cart[k].id in products
    requires CartSold(products, items, nextItem, nextSale, cart, products', items', nextItem')
    ensures Consistent(clients, products', sales[nextSale := sale], items', supply,
                       nextClient, nextProduct, nextSale + 1, nextItem')
  {
    CartSoldEffects(products, items, nextItem, nextSale, cart, products', items', nextItem');
    LinkedCheckout(clients, products, sales, items, products', items', sale, cart);
    ConservedCheckout(products, items, supply, products', items', cart);
    TotalsCheckout(sales, items, items', sale);
  }

  /** A new quantity on a line, the difference moved to or from stock and the sale
      total recomputed, keeps the database consistent. */
  lemma SetQuantityKeeps(clients: set<nat>, products: map<nat, Product>, sales: map<nat, Sale>,
                         items: map<nat, SaleItem>, supply: map<nat, int>,
                         nextClient: nat, nextProduct: nat, nextSale: nat, nextItem: nat, id: nat, q: int,
                         products': map<nat, Product>, sales': map<nat, Sale>, items': map<nat, SaleItem>)
    requires Consistent(clients, products, sales, items, supply, nextClient, nextProduct, nextSale, nextItem)
    requires id in items && items' == items[id := items[id].(quantity := q)]
    requires products' == WithStock(products, items[id].product, products[items[id].product].stock - (q - items[id].quantity))
    requires sales' == WithTotal(sales, items[id].sale, SaleTotal(items', items[id].sale))
    ensures Consistent(clients, products', sales', items', supply, nextClient, nextProduct, nextSale, nextItem)
  {
    var it := items[id];
    assert Linked(clients, products', sales', items') by {
      LinkedSetQuantity(clients, products, sales, items, id, q);
      LinkedWithStockAndTotal(clients, products, sales, items', it.product,
                              products[it.product].stock - (q - it.quantity), it.sale, SaleTotal(items', it.sale));
    }
    assert Conserved(products', items', supply) by {
      ConservedSetQuantity(products, items, supply, id, q);
    }
    assert TotalsMatch(sales', items') by {
      TotalsSetQuantity(sales, items, id, q);
    }
  }

  /** A new line, its units taken from stock and the sale total recomputed, keeps the
      database consistent. */
  lemma AddLineKeeps(clients: set<nat>, products: map<nat, Product>, sales: map<nat, Sale>,
                     items: map<nat, SaleItem>, supply: map<nat, int>,
                     nextClient: nat, nextProduct: nat, nextSale: nat, nextItem: nat, it: SaleItem,
                     products': map<nat, Product>, sales': map<nat, Sale>, items': map<nat, SaleItem>)
    requires Consistent(clients, products, sales, items, supply, nextClient, nextProduct, nextSale, nextItem)
    requires it.sale in sales && it.product in products && items' == items[nextItem := it]
    requires products' == WithStock(products, it.product, products[it.product].stock - it.quantity)
    requires sales' == WithTotal(sales, it.sale, SaleTotal(items', it.sale))
    ensures Consistent(clients, products', sales', items', supply, nextClient, nextProduct, nextSale, nextItem + 1)
  {
    assert Linked(clients, products', sales', items') by {
      LinkedAddLine(clients, products, sales, items, nextItem, it);
      LinkedWithStockAndTotal(clients, products, sales, items', it.product,
                              products[it.product].stock - it.quantity, it.sale, SaleTotal(items', it.sale));
    }
    assert Conserved(products', items', supply) by {
      ConservedAddLine(products, items, supply, nextItem, it);
    }
    assert TotalsMatch(sales', items') by {
      TotalsAddLine(sales, items, nextItem, it);
    }
  }

  /** One more unit on an existing line, drawn from its product's stock, keeps the
      database consistent. */
  lemma BumpLineKeeps(clients: set<nat>, products: map<nat, Product>, sales: map<nat, Sale>,
                      items: map<nat, SaleItem>, supply: map<nat, int>,
                      nextClient: nat, nextProduct: nat, nextSale: nat, nextItem: nat, e: nat,
                      products': map<nat, Product>, sales': map<nat, Sale>, items': map<nat, SaleItem>)
    requires Consistent(clients, products, sales, items, supply, nextClient, nextProduct, nextSale, nextItem)
    requires e in items && items[e].sale in sales && items[e].product in products
    requires products' == products[items[e].product := products[items[e].product].(stock := products[items[e].product].stock - 1)]
    requires items' == items[e := items[e].(quantity := items[e].quantity + 1)]
    requires sales' == sales[items[e].sale := sales[items[e].sale].(total := SaleTotal(items', items[e].sale))]
    ensures Consistent(clients, products', sales', items', supply, nextClient, nextProduct, nextSale, nextItem)
  {
    var q := items[e].quantity + 1;
    assert products' == WithStock(products, items[e].product, products[items[e].product].stock - (q - items[e].quantity));
    SetQuantityKeeps(clients, products, sales, items, supply, nextClient, nextProduct, nextSale, nextItem,
                     e, q, products', sales', items');
  }

  /** One unit less on a line, given back to its product's stock, keeps the
      database consistent. */
  lemma UnbumpLineKeeps(clients: set<nat>, products: map<nat, Product>, sales: map<nat, Sale>,
                        items: map<nat, SaleItem>, supply: map<nat, int>,
                        nextClient: nat, nextProduct: nat, nextSale: nat, nextItem: nat, e: nat,
                        products': map<nat, Product>, sales': map<nat, Sale>, items': map<nat, SaleItem>)
    requires Consistent(clients, products, sales, items, supply, nextClient, nextProduct, nextSale, nextItem)
    requires e in items && items[e].sale in sales && items[e].product in products
    requires products' == products[items[e].product := products[items[e].product].(stock := products[items[e].product].stock + 1)]
    requires items' == items[e := items[e].(quantity := items[e].quantity - 1)]
    requires sales' == sales[items[e].sale := sales[items[e].sale].(total := SaleTotal(items', items[e].sale))]
    ensures Consistent(clients, products', sales', items', supply, nextClient, nextProduct, nextSale, nextItem)
  {
    var q := items[e].quantity - 1;
    assert products' == WithStock(products, items[e].product, products[items[e].product].stock - (q - items[e].quantity));
    SetQuantityKeeps(clients, products, sales, items, supply, nextClient, nextProduct, nextSale, nextItem,
                     e, q, products', sales', items');
  }

  /** One more unit of a product on a sale, on the sale's first line of that product
      or on a new line after the last, keeps the database consistent. */
  lemma AddToSaleKeeps(clients: set<nat>, products: map<nat, Product>, sales: map<nat, Sale>,
                       items: map<nat, SaleItem>, supply: map<nat, int>,
                       nextClient: nat, nextProduct: nat, nextSale: nat, nextItem: nat,
                       saleId: nat, productId: nat, existing: Option<nat>,
                       products': map<nat, Product>, sales': map<nat, Sale>, items': map<nat, SaleItem>, nextItem': nat)
    requires Consistent(clients, products, sales, items, supply, nextClient, nextProduct, nextSale, nextItem)
    requires saleId in sales && productId in products && FirstLineOf(items, saleId, productId, existing)
    requires products' == products[productId := products[productId].(stock := products[productId].stock - 1)]
    requires existing.Some? ==>
      var e := existing.value;
      items' == items[e := items[e].(quantity := items[e].quantity + 1)] && nextItem' == nextItem
    requires existing.None? ==>
      items' == items[nextItem := SaleItem(saleId, productId, 1, products[productId].price)] && nextItem' == nextItem + 1
    requires sales' == sales[saleId := sales[saleId].(total := SaleTotal(items', saleId))]
    ensures Consistent(clients, products', sales', items', supply, nextClient, nextProduct, nextSale, nextItem')
  {
    if existing.Some? {
      BumpLineKeeps(clients, products, sales, items, supply, nextClient, nextProduct, nextSale, nextItem,
                    existing.value, products', sales', items');
    } else {
      AddLineKeeps(clients, products, sales, items, supply, nextClient, nextProduct, nextSale, nextItem,
                   SaleItem(saleId, productId, 1, products[productId].price), products', sales', items');
    }
  }

  /** A deleted line, its units given back to stock and the sale total recomputed,
      keeps the database consistent. */
  lemma DropLineKeeps(clients: set<nat>, products: map<nat, Product>, sales: map<nat, Sale>,
                      items: map<nat, SaleItem>, supply: map<nat, int>,
                      nextClient: nat, nextProduct: nat, nextSale: nat, nextItem: nat, id: nat,
                      products': map<nat, Product>, sales': map<nat, Sale>, items': map<nat, SaleItem>)
    requires Consistent(clients, products, sales, items, supply, nextClient, nextProduct, nextSale, nextItem)
    requires id in items && items' == items - {id}
    requires products' == WithStock(products, items[id].product, products[items[id].product].stock + items[id].quantity)
    requires sales' == WithTotal(sales, items[id].sale, SaleTotal(items', items[id].sale))
    ensures Consistent(clients, products', sales', items', supply, nextClient, nextProduct, nextSale, nextItem)
  {
    var it := items[id];
    assert Linked(clients, products', sales', items') by {
      LinkedDropLine(clients, products, sales, items, id);
      LinkedWithStockAndTotal(clients, products, sales, items', it.product,
                              products[it.product].stock + it.quantity, it.sale, SaleTotal(items', it.sale));
    }
    assert Conserved(products', items', supply) by {
      ConservedDropLine(products, items, supply, id);
    }
    assert TotalsMatch(sales', items') by {
      TotalsDropLine(sales, items, id);
    }
  }

  /** Recomputing a total from unchanged lines leaves a consistent database as it was. */
  lemma RecomputeKeeps(clients: set<nat>, products: map<nat, Product>, sales: map<nat, Sale>,
                       items: map<nat, SaleItem>, supply: map<nat, int>,
                       nextClient: nat, nextProduct: nat, nextSale: nat, nextItem: nat, s: nat)
    requires Consistent(clients, products, sales, items, supply, nextClient, nextProduct, nextSale, nextItem)
    requires s in sales
    ensures WithTotal(sales, s, SaleTotal(items, s)) == sales
  {
  }

  /* What each request does to the tables, from the tables before (unprimed) to
     the tables after (primed). A method of Shop and its `*Consistently` twin both
     promise the same one. */

  /** add_product: a barcode some product already has makes the insert fail and
      changes nothing; otherwise the product is added under the next id. */
  ghost predicate AddProductSpec(products: map<nat, Product>, nextProduct: nat,
                                 name: string, barcode: Option<string>, price: int, stock: int,
                                 outcome: ProductOutcome, products': map<nat, Product>, nextProduct': nat)
  {
    && (BarcodeInUse(products, barcode) ==>
          outcome == BarcodeTaken && products' == products && nextProduct' == nextProduct)
    && (!BarcodeInUse(products, barcode) ==>
          && outcome == ProductAdded(nextProduct)
          && nextProduct !in products
          && products' == products[nextProduct := Product(name, barcode, price, stock)]
          && nextProduct' == nextProduct + 1)
  }

  /** add_stock: a positive whole quantity is added to the product's stock; text
      that is not an integer, and a quantity of zero or less, change nothing. */
  ghost predicate AddStockSpec(products: map<nat, Product>, productId: nat, quantity: Option<int>,
                               outcome: StockOutcome, products': map<nat, Product>)
    requires productId in products
  {
    && (quantity.None? ==> outcome == NotANumber && products' == products)
    && (quantity.Some? && quantity.value <= 0 ==> outcome == NotPositive && products' == products)
    && (quantity.Some? && quantity.value > 0 ==>
          && outcome == StockAdded
          && products' == products[productId := products[productId].(stock := products[productId].stock + quantity.value)])
  }

  /** add_client: the client is added under the next id whatever follows. A debt
      of zero or less (or none) adds nothing else. A positive debt looks up the
      "SALDO ANTERIOR" product by name: two of them fail the lookup, none with
      "SYS-DEBT" held by another product fails its creation, and either failure
      writes nothing more. Otherwise an unpaid CREDIT sale of 100 * debt cents is
      added with one line of quantity 1 on the product found or created. */
  ghost predicate AddClientSpec(clients: set<nat>, products: map<nat, Product>, sales: map<nat, Sale>,
                                items: map<nat, SaleItem>,
                                nextClient: nat, nextProduct: nat, nextSale: nat, nextItem: nat,
                                initialDebt: Option<int>, date: int, clientId: nat, opening: OpeningOutcome,
                                clients': set<nat>, products': map<nat, Product>, sales': map<nat, Sale>,
                                items': map<nat, SaleItem>,
                                nextClient': nat, nextProduct': nat, nextSale': nat, nextItem': nat)
  {
    var debt := if initialDebt.Some? then initialDebt.value else 0;
    var named := OpeningProducts(products);
    var creates := named == {} && !BarcodeInUse(products, Some(DEBT_BARCODE));
    && clientId == nextClient && clientId !in clients
    && clients' == clients + {clientId} && nextClient' == nextClient + 1
    && (debt <= 0 ==> opening == NoOpening)
    && (debt > 0 && |named| >= 2 ==> opening == OpeningFailed(MULTIPLE_OBJECTS))
    && (debt > 0 && named == {} && !creates ==> opening == OpeningFailed(INTEGRITY_ERROR))
    && (!opening.Opened? ==>
          && products' == products && sales' == sales && items' == items
          && nextProduct' == nextProduct && nextSale' == nextSale && nextItem' == nextItem)
    && (debt > 0 && (|named| == 1 || creates) ==>
          && opening == Opened(nextSale)
          && nextSale !in sales && nextItem !in items
          && sales' == sales[nextSale := Sale(nextSale, clientId, date, CREDIT, 100 * debt, false)]
          && nextSale' == nextSale + 1 && nextItem' == nextItem + 1
          && (creates ==>
                && nextProduct !in products
                && products' == products[nextProduct := Product(OPENING_BALANCE, Some(DEBT_BARCODE), 0, 0)]
                && nextProduct' == nextProduct + 1
                && items' == items[nextItem := SaleItem(nextSale, nextProduct, 1, 100 * debt)])
          && (forall p :: p in named ==>
                && products' == products && nextProduct' == nextProduct
                && items' == items[nextItem := SaleItem(nextSale, p, 1, 100 * debt)]))
  }

  /** checkout: an empty cart or no client changes nothing. Otherwise the sale is
      added under the next id, its total the cart total and paid exactly when the
      method is CASH, the cart is sold into it (CartSold) and the cart is emptied. */
  ghost predicate CheckoutSpec(products: map<nat, Product>, sales: map<nat, Sale>, items: map<nat, SaleItem>,
                               nextSale: nat, nextItem: nat, cart: map<string, Cart.CartLine>,
                               clientId: Option<nat>, paymentMethod: string, date: int, outcome: CheckoutOutcome,
                               products': map<nat, Product>, sales': map<nat, Sale>, items': map<nat, SaleItem>,
                               nextSale': nat, nextItem': nat, cart': map<string, Cart.CartLine>)
  {
    && (cart == map[] || clientId.None? ==>
          && outcome == Rejected && cart' == cart
          && products' == products && sales' == sales && items' == items
          && nextSale' == nextSale && nextItem' == nextItem)
    && (cart != map[] && clientId.Some? ==>
          && outcome == Recorded(nextSale)
          && nextSale !in sales
          && sales' == sales[nextSale := Sale(nextSale, clientId.value, date, paymentMethod,
                                              Cart.CartTotal(cart), paymentMethod == CASH)]
          && CartSold(products, items, nextItem, nextSale, cart, products', items', nextItem')
          && nextSale' == nextSale + 1
          && cart' == map[])
  }

  /** add_product_to_sale: one unit of the product comes out of its stock onto
      the sale's first line of that product, or onto a new line at the product's
      current price when there is none; the sale total is recomputed from the
      new lines. */
  ghost predicate AddProductToSaleSpec(products: map<nat, Product>, sales: map<nat, Sale>, items: map<nat, SaleItem>,
                                       nextItem: nat, saleId: nat, productId: nat, existing: Option<nat>,
                                       products': map<nat, Product>, sales': map<nat, Sale>,
                                       items': map<nat, SaleItem>, nextItem': nat)
    requires saleId in sales && productId in products
    requires existing.Some? ==> existing.value in items
  {
    && products' == products[productId := products[productId].(stock := products[productId].stock - 1)]
    && (existing.Some? ==>
          var e := existing.value;
          items' == items[e := items[e].(quantity := items[e].quantity + 1)] && nextItem' == nextItem)
    && (existing.None? ==>
          && nextItem !in items
          && items' == items[nextItem := SaleItem(saleId, productId, 1, products[productId].price)]
          && nextItem' == nextItem + 1)
    && sales' == sales[saleId := sales[saleId].(total := SaleTotal(items', saleId))]
  }

  /** update_sale_item: "increment" moves a unit from the stock into the line,
      "decrement" moves one back (the whole line, deleting it, at quantity 1 or
      less), "remove" moves the whole line back and deletes it, and any other
      action moves nothing; the sale total is recomputed from the new lines. */
  ghost predicate UpdateSaleItemSpec(products: map<nat, Product>, sales: map<nat, Sale>, items: map<nat, SaleItem>,
                                     saleId: nat, itemId: nat, action: string,
                                     products': map<nat, Product>, sales': map<nat, Sale>,
                                     items': map<nat, SaleItem>)
    requires saleId in sales && itemId in items && items[itemId].product in products
  {
    var it := items[itemId];
    var p := it.product;
    && sales' == sales[saleId := sales[saleId].(total := SaleTotal(items', saleId))]
    && (action == "increment" ==>
          && items' == items[itemId := it.(quantity := it.quantity + 1)]
          && products' == products[p := products[p].(stock := products[p].stock - 1)])
    && (action == "decrement" && it.quantity > 1 ==>
          && items' == items[itemId := it.(quantity := it.quantity - 1)]
          && products' == products[p := products[p].(stock := products[p].stock + 1)])
    && ((action == "decrement" && it.quantity <= 1) || action == "remove" ==>
          && items' == items - {itemId}
          && products' == products[p := products[p].(stock := products[p].stock + it.quantity)])
    && (action != "increment" && action != "decrement" && action != "remove" ==>
          items' == items && products' == products)
  }

  /** Every action of update_sale_item keeps the database consistent. */
  lemma UpdateSaleItemKeeps(clients: set<nat>, products: map<nat, Product>, sales: map<nat, Sale>,
                            items: map<nat, SaleItem>, supply: map<nat, int>,
                            nextClient: nat, nextProduct: nat, nextSale: nat, nextItem: nat,
                            saleId: nat, itemId: nat, action: string,
                            products': map<nat, Product>, sales': map<nat, Sale>, items': map<nat, SaleItem>)
    requires Consistent(clients, products, sales, items, supply, nextClient, nextProduct, nextSale, nextItem)
    requires saleId in sales && itemId in items && items[itemId].sale == saleId && items[itemId].product in products
    requires UpdateSaleItemSpec(products, sales, items, saleId, itemId, action, products', sales', items')
    ensures Consistent(clients, products', sales', items', supply, nextClient, nextProduct, nextSale, nextItem)
  {
    var it := items[itemId];
    if action == "increment" {
      BumpLineKeeps(clients, products, sales, items, supply, nextClient, nextProduct, nextSale, nextItem,
                    itemId, products', sales', items');
    } else if action == "decrement" && it.quantity > 1 {
      UnbumpLineKeeps(clients, products, sales, items, supply, nextClient, nextProduct, nextSale, nextItem,
                      itemId, products', sales', items');
    } else if action == "decrement" || action == "remove" {
      DropLineKeeps(clients, products, sales, items, supply, nextClient, nextProduct, nextSale, nextItem,
                    itemId, products', sales', items');
    } else {
      RecomputeKeeps(clients, products, sales, items, supply, nextClient, nextProduct, nextSale, nextItem, saleId);
    }
  }

  /** The database of the shop: clients, products, sales and their lines, and the
      counters that hand out fresh ids. The class keeps the counters ahead of the
      ids. Each method's contract gives the new tables exactly, and the lemma named
      in its comment shows that those tables are Consistent again when the old ones
      were; the `*Consistently` methods at the end put the two together. */
  class Shop {
    var clients: set<nat>
    var products: map<nat, Product>
    var sales: map<nat, Sale>
    var items: map<nat, SaleItem>
    var nextClient: nat
    var nextProduct: nat
    var nextSale: nat
    var nextItem: nat

    ghost predicate Valid()
      reads this
    {
      IdsIssued(clients, products, sales, items, nextClient, nextProduct, nextSale, nextItem)
    }

    constructor ()
      ensures Valid()
      ensures clients == {} && products == map[] && sales == map[] && items == map[]
      ensures nextClient == 0 && nextProduct == 0 && nextSale == 0 && nextItem == 0
    {
      clients, products, sales, items := {}, map[], map[], map[];
      nextClient, nextProduct, nextSale, nextItem := 0, 0, 0, 0;
    }

    /** add_product: a new product with the posted name, barcode, price and stock.
        The barcode column is unique, so a barcode some product already has makes
        the insert fail and nothing changes (consistency kept: NewProductKeeps). */
    method AddProduct(name: string, barcode: Option<string>, price: int, stock: int)
      returns (outcome: ProductOutcome)
      requires Valid()
      modifies this
      ensures Valid()
      ensures AddProductSpec(old(products), old(nextProduct), name, barcode, price, stock, outcome, products, nextProduct)
      ensures clients == old(clients) && sales == old(sales) && items == old(items)
      ensures nextClient == old(nextClient) && nextSale == old(nextSale) && nextItem == old(nextItem)
    {
      if BarcodeInUse(products, barcode) {
        return BarcodeTaken;
      }
      var id := nextProduct;
      products := products[id := Product(name, barcode, price, stock)];
      nextProduct := nextProduct + 1;
      outcome := ProductAdded(id);
    }

    /** add_stock: a positive whole quantity is added to the stock; anything else
        changes nothing. `quantity` is None when the posted text is not an integer
        (consistency kept: RestockKeeps). */
    method AddStock(productId: nat, quantity: Option<int>) returns (outcome: StockOutcome)
      requires Valid() && productId in products
      modifies this
      ensures Valid()
      ensures AddStockSpec(old(products), productId, quantity, outcome, products)
      ensures clients == old(clients) && sales == old(sales) && items == old(items)
      ensures nextClient == old(nextClient) && nextProduct == old(nextProduct)
      ensures nextSale == old(nextSale) && nextItem == old(nextItem)
    {
      if quantity.None? {
        return NotANumber;
      }
      if quantity.value > 0 {
        products := WithStock(products, productId, products[productId].stock + quantity.value);
        outcome := StockAdded;
      } else {
        outcome := NotPositive;
      }
    }

    /** add_client: a new client; a positive opening debt, posted in whole currency
        units, becomes an unpaid CREDIT sale of one "SALDO ANTERIOR" line. The debt
        is None when the posted text is not an integer, and counts as 0 then. The
        product is looked up by name and created, with barcode "SYS-DEBT", when no
        product has that name: two products of that name, or a missing one whose
        barcode another product holds, make the lookup fail after the client row
        was written (consistency kept: NewClientKeeps, OpeningKeeps). */
    method AddClient(initialDebt: Option<int>, date: int) returns (clientId: nat, opening: OpeningOutcome)
      requires Valid()
      modifies this
      ensures Valid()
      ensures AddClientSpec(old(clients), old(products), old(sales), old(items),
                            old(nextClient), old(nextProduct), old(nextSale), old(nextItem),
                            initialDebt, date, clientId, opening,
                            clients, products, sales, items, nextClient, nextProduct, nextSale, nextItem)
    {
      var debt := 0;
      if initialDebt.Some? {
        debt := initialDebt.value;
      }
      clientId := nextClient;
      clients := clients + {clientId};
      nextClient := nextClient + 1;
      opening := NoOpening;
      if debt > 0 {
        var named := OpeningProducts(products);
        if |named| >= 2 {
          opening := OpeningFailed(MULTIPLE_OBJECTS);
        } else if named == {} && BarcodeInUse(products, Some(DEBT_BARCODE)) {
          opening := OpeningFailed(INTEGRITY_ERROR);
        } else {
          var p: nat;
          if |named| == 1 {
            p :| p in named;
            OnlyMember(named, p);
          } else {
            p := nextProduct;
            products := products[p := Product(OPENING_BALANCE, Some(DEBT_BARCODE), 0, 0)];
            nextProduct := nextProduct + 1;
          }
          var saleId := nextSale;
          sales := sales[saleId := Sale(saleId, clientId, date, CREDIT, 100 * debt, false)];
          nextSale := nextSale + 1;
          items := items[nextItem := SaleItem(saleId, p, 1, 100 * debt)];
          nextItem := nextItem + 1;
          opening := Opened(saleId);
        }
      }
    }

    /** checkout as the source writes it: the sale row is created with a `note`
        keyword the Sale table does not have, so the request fails before anything
        is written whenever the cart is non-empty and a client is chosen. */
    method CheckoutAsWritten(session: Cart.Session, clientId: Option<nat>, paymentMethod: string, date: int)
      returns (outcome: CheckoutOutcome)
      requires Valid()
      requires clientId.Some? ==> clientId.value in clients
      ensures session.cart == map[] || clientId.None? ==> outcome == Rejected
      ensures session.cart != map[] && clientId.Some? ==> outcome == Crashed("note")
    {
      if session.cart == map[] || clientId.None? {
        return Rejected;
      }
      var unexpected := CHECKOUT_KEYWORDS - SALE_COLUMNS;
      assert unexpected == {"note"};
      outcome := Crashed("note");
    }

    /** checkout, with the sale row created from the columns it has: the cart becomes
        a sale of one line per cart line, each product's stock drops by the units the
        cart holds of it, and the cart is emptied. An empty cart or a missing client
        changes nothing (consistency kept: CheckoutKeeps). */
    method Checkout(session: Cart.Session, clientId: Option<nat>, paymentMethod: string, date: int)
      returns (outcome: CheckoutOutcome)
      requires Valid()
      requires clientId.Some? ==> clientId.value in clients
      requires forall k :: k in session.cart ==> session.cart[k].id in products
      modifies this, session
      ensures Valid()
      ensures CheckoutSpec(old(products), old(sales), old(items), old(nextSale), old(nextItem), old(session.cart),
                           clientId, paymentMethod, date, outcome,
                           products, sales, items, nextSale, nextItem, session.cart)
      ensures clients == old(clients) && nextClient == old(nextClient) && nextProduct == old(nextProduct)
    {
      if session.cart == map[] || clientId.None? {
        return Rejected;
      }
      var cart := session.cart;
      var total := Cart.SumCart(cart);
      var saleId := nextSale;
      var products', items', nextItem' := SellCart(products, items, nextItem, saleId, cart);
      var sales' := sales[saleId := Sale(saleId, clientId.value, date, paymentMethod, total, paymentMethod == CASH)];
      assert IdsIssued(clients, products', sales', items', nextClient, nextProduct, nextSale + 1, nextItem');
      products, items, nextItem, sales, nextSale := products', items', nextItem', sales', nextSale + 1;
      session.cart := map[];
      outcome := Recorded(saleId);
    }

    /** add_product_to_sale: one more unit of the product on the sale, taken from
        stock; the line is created at the product's current price when the sale has
        none for that product. The sale total is recomputed from its lines
        (consistency kept: AddToSaleKeeps). */
    method AddProductToSale(saleId: nat, productId: nat, existing: Option<nat>)
      requires Valid() && saleId in sales && productId in products
      requires FirstLineOf(items, saleId, productId, existing)
      modifies this
      ensures Valid()
      ensures AddProductToSaleSpec(old(products), old(sales), old(items), old(nextItem), saleId, productId, existing,
                                   products, sales, items, nextItem)
      ensures clients == old(clients)
      ensures nextClient == old(nextClient) && nextProduct == old(nextProduct) && nextSale == old(nextSale)
    {
      var stock := products[productId].stock - 1;
      if existing.Some? {
        var e := existing.value;
        items := items[e := items[e].(quantity := items[e].quantity + 1)];
      } else {
        items := items[nextItem := SaleItem(saleId, productId, 1, products[productId].price)];
        nextItem := nextItem + 1;
      }
      products := WithStock(products, productId, stock);
      var total := SumSaleLines(items, saleId);
      sales := WithTotal(sales, saleId, total);
    }

    /** update_sale_item: "increment" takes a unit from stock into the line,
        "decrement" gives one back (the whole line, deleting it, when its quantity is
        at most 1), "remove" gives the whole line back and deletes it; any other
        action changes no line. The sale total is then recomputed from its lines
        (consistency kept: UpdateSaleItemKeeps). */
    method UpdateSaleItem(saleId: nat, itemId: nat, action: string)
      requires Valid() && saleId in sales && itemId in items && items[itemId].sale == saleId
      requires items[itemId].product in products
      modifies this
      ensures Valid()
      ensures UpdateSaleItemSpec(old(products), old(sales), old(items), saleId, itemId, action, products, sales, items)
      ensures clients == old(clients)
      ensures nextClient == old(nextClient) && nextProduct == old(nextProduct)
      ensures nextSale == old(nextSale) && nextItem == old(nextItem)
    {
      var item := items[itemId];
      var p := item.product;
      if action == "increment" {
        items := items[itemId := item.(quantity := item.quantity + 1)];
        products := WithStock(products, p, products[p].stock - 1);
      } else if action == "decrement" && item.quantity > 1 {
        items := items[itemId := item.(quantity := item.quantity - 1)];
        products := WithStock(products, p, products[p].stock + 1);
      } else if action == "decrement" || action == "remove" {
        products := WithStock(products, p, products[p].stock + item.quantity);
        items := items - {itemId};
      }
      var total := SumSaleLines(items, saleId);
      sales := WithTotal(sales, saleId, total);
    }

    /* Each request once more, from a consistent database to a consistent one.
       `supply` is how many units of each product have come into the shop before
       the request, `supply'` after it: only new products, restocking and opening
       balances bring units in, and no sale or sale edit changes it. */

    /** add_product keeps the database consistent. */
    method AddProductConsistently(name: string, barcode: Option<string>, price: int, stock: int,
                                  ghost supply: map<nat, int>)
      returns (outcome: ProductOutcome, ghost supply': map<nat, int>)
      requires Consistent(clients, products, sales, items, supply, nextClient, nextProduct, nextSale, nextItem)
      modifies this
      ensures Consistent(clients, products, sales, items, supply', nextClient, nextProduct, nextSale, nextItem)
      ensures AddProductSpec(old(products), old(nextProduct), name, barcode, price, stock, outcome, products, nextProduct)
      ensures clients == old(clients) && sales == old(sales) && items == old(items)
      ensures nextClient == old(nextClient) && nextSale == old(nextSale) && nextItem == old(nextItem)
      ensures supply' == if outcome.ProductAdded? then supply[outcome.id := stock] else supply
    {
      ghost var c, p, s, i := clients, products, sales, items;
      ghost var nc, np, ns, ni := nextClient, nextProduct, nextSale, nextItem;
      outcome := AddProduct(name, barcode, price, stock);
      supply' := supply;
      if outcome.ProductAdded? {
        NewProductKeeps(c, p, s, i, supply, nc, np, ns, ni, Product(name, barcode, price, stock));
        supply' := supply[np := stock];
      }
    }

    /** add_stock keeps the database consistent. */
    method AddStockConsistently(productId: nat, quantity: Option<int>, ghost supply: map<nat, int>)
      returns (outcome: StockOutcome, ghost supply': map<nat, int>)
      requires Consistent(clients, products, sales, items, supply, nextClient, nextProduct, nextSale, nextItem)
      requires productId in products
      modifies this
      ensures Consistent(clients, products, sales, items, supply', nextClient, nextProduct, nextSale, nextItem)
      ensures AddStockSpec(old(products), productId, quantity, outcome, products)
      ensures clients == old(clients) && sales == old(sales) && items == old(items)
      ensures nextClient == old(nextClient) && nextProduct == old(nextProduct)
      ensures nextSale == old(nextSale) && nextItem == old(nextItem)
      ensures outcome == StockAdded ==> quantity.Some? && supply' == supply[productId := supply[productId] + quantity.value]
      ensures outcome != StockAdded ==> supply' == supply
    {
      ghost var c, p, s, i := clients, products, sales, items;
      ghost var nc, np, ns, ni := nextClient, nextProduct, nextSale, nextItem;
      outcome := AddStock(productId, quantity);
      supply' := supply;
      if outcome == StockAdded {
        RestockKeeps(c, p, s, i, supply, nc, np, ns, ni, productId, quantity.value);
        supply' := supply[productId := supply[productId] + quantity.value];
      }
    }

    /** add_client keeps the database consistent, the opening line bringing one
        unit of "SALDO ANTERIOR" in. */
    method AddClientConsistently(initialDebt: Option<int>, date: int, ghost supply: map<nat, int>)
      returns (clientId: nat, opening: OpeningOutcome, ghost supply': map<nat, int>)
      requires Consistent(clients, products, sales, items, supply, nextClient, nextProduct, nextSale, nextItem)
      modifies this
      ensures Consistent(clients, products, sales, items, supply', nextClient, nextProduct, nextSale, nextItem)
      ensures AddClientSpec(old(clients), old(products), old(sales), old(items),
                            old(nextClient), old(nextProduct), old(nextSale), old(nextItem),
                            initialDebt, date, clientId, opening,
                            clients, products, sales, items, nextClient, nextProduct, nextSale, nextItem)
      ensures !opening.Opened? ==> supply' == supply
      ensures opening.Opened? ==>
        old(nextItem) in items && supply' == OneMore(supply, items[old(nextItem)].product)
    {
      ghost var c, p, s, i := clients, products, sales, items;
      ghost var nc, np, ns, ni := nextClient, nextProduct, nextSale, nextItem;
      clientId, opening := AddClient(initialDebt, date);
      NewClientKeeps(c, p, s, i, supply, nc, np, ns, ni);
      supply' := supply;
      if opening.Opened? {
        var debt := initialDebt.value;
        var sale := Sale(ns, nc, date, CREDIT, 100 * debt, false);
        var line := items[ni];
        assert clients == c + {nc} && nextClient == nc + 1 && sales == s[ns := sale];
        assert nextSale == ns + 1 && items == i[ni := line] && line.sale == ns && line.quantity == 1;
        assert Subtotal(line) == 100 * debt;
        if OpeningProducts(p) == {} {
          assert line.product == np;
        } else {
          var q :| q in OpeningProducts(p);
          assert q in p && line.product == q;
        }
        OpeningKeeps(c + {nc}, p, s, i, supply, nc + 1, np, ns, ni, sale, line, products, nextProduct);
        supply' := OneMore(supply, line.product);
      }
    }

    /** checkout keeps the database consistent, and the supply with it. */
    method CheckoutConsistently(session: Cart.Session, clientId: Option<nat>, paymentMethod: string, date: int,
                                ghost supply: map<nat, int>)
      returns (outcome: CheckoutOutcome)
      requires Consistent(clients, products, sales, items, supply, nextClient, nextProduct, nextSale, nextItem)
      requires clientId.Some? ==> clientId.value in clients
      requires forall k :: k in session.cart ==> session.cart[k].id in products
      modifies this, session
      ensures Consistent(clients, products, sales, items, supply, nextClient, nextProduct, nextSale, nextItem)
      ensures CheckoutSpec(old(products), old(sales), old(items), old(nextSale), old(nextItem), old(session.cart),
                           clientId, paymentMethod, date, outcome,
                           products, sales, items, nextSale, nextItem, session.cart)
      ensures clients == old(clients) && nextClient == old(nextClient) && nextProduct == old(nextProduct)
    {
      ghost var c, p, s, i := clients, products, sales, items;
      ghost var nc, np, ns, ni := nextClient, nextProduct, nextSale, nextItem;
      ghost var cart := session.cart;
      outcome := Checkout(session, clientId, paymentMethod, date);
      if outcome.Recorded? {
        CheckoutKeeps(c, p, s, i, supply, nc, np, ns, ni,
                      Sale(ns, clientId.value, date, paymentMethod, Cart.CartTotal(cart), paymentMethod == CASH),
                      cart, products, items, nextItem);
      }
    }

    /** add_product_to_sale keeps the database consistent, and the supply with it. */
    method AddProductToSaleConsistently(saleId: nat, productId: nat, existing: Option<nat>, ghost supply: map<nat, int>)
      requires Consistent(clients, products, sales, items, supply, nextClient, nextProduct, nextSale, nextItem)
      requires saleId in sales && productId in products
      requires FirstLineOf(items, saleId, productId, existing)
      modifies this
      ensures Consistent(clients, products, sales, items, supply, nextClient, nextProduct, nextSale, nextItem)
      ensures AddProductToSaleSpec(old(products), old(sales), old(items), old(nextItem), saleId, productId, existing,
                                   products, sales, items, nextItem)
      ensures clients == old(clients)
      ensures nextClient == old(nextClient) && nextProduct == old(nextProduct) && nextSale == old(nextSale)
    {
      ghost var c, p, s, i := clients, products, sales, items;
      ghost var nc, np, ns, ni := nextClient, nextProduct, nextSale, nextItem;
      AddProductToSale(saleId, productId, existing);
      AddToSaleKeeps(c, p, s, i, supply, nc, np, ns, ni, saleId, productId, existing, products, sales, items, nextItem);
    }

    /** update_sale_item keeps the database consistent, and the supply with it. */
    method UpdateSaleItemConsistently(saleId: nat, itemId: nat, action: string, ghost supply: map<nat, int>)
      requires Consistent(clients, products, sales, items, supply, nextClient, nextProduct, nextSale, nextItem)
      requires saleId in sales && itemId in items && items[itemId].sale == saleId
      requires items[itemId].product in products
      modifies this
      ensures Consistent(clients, products, sales, items, supply, nextClient, nextProduct, nextSale, nextItem)
      ensures UpdateSaleItemSpec(old(products), old(sales), old(items), saleId, itemId, action, products, sales, items)
      ensures clients == old(clients)
      ensures nextClient == old(nextClient) && nextProduct == old(nextProduct)
      ensures nextSale == old(nextSale) && nextItem == old(nextItem)
    {
      ghost var c, p, s, i := clients, products, sales, items;
      ghost var nc, np, ns, ni := nextClient, nextProduct, nextSale, nextItem;
      UpdateSaleItem(saleId, itemId, action);
      UpdateSaleItemKeeps(c, p, s, i, supply, nc, np, ns, ni, saleId, itemId, action, products, sales, items);
    }
  }
}
