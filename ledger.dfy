/** The records of the point-of-sale database (pos/models.py) and the debt
    formula defined on them. Money is held in integer cents: every amount
    field is a decimal with two places. Dates are opaque, totally ordered
    integers. */
module Ledger {
  import opened Sums

  const CASH: string := "CASH"
  const CREDIT: string := "CREDIT"

  /** A sale. `paymentMethod` is the text the checkout form posted; only "CREDIT"
      sales enter the debt ledger. */
  datatype Sale = Sale(id: nat, client: nat, date: int, paymentMethod: string, total: int, isPaid: bool)

  /** A payment, optionally linked to one sale. Its client column may be NULL: such
      a payment belongs to no client's history. */
  datatype Payment = Payment(id: nat, client: Option<nat>, sale: Option<nat>, date: int, amount: int, note: string)

  /** A product. `barcode` is None when the column is NULL; a barcode that is
      present, the empty text included, may belong to one product only. */
  datatype Product = Product(name: string, barcode: Option<string>, price: int, stock: int)

  /** A line of a sale: the unit price is the one stored at the moment of sale. */
  datatype SaleItem = SaleItem(sale: nat, product: nat, quantity: int, price: int)

  /** A sale row created with no explicit method, total or paid flag. */
  function NewSale(id: nat, client: nat, date: int): (s: Sale)
    ensures !IsCredit(s)
  {
    Sale(id, client, date, CASH, 0, true)
  }

  predicate IsCredit(s: Sale) {
    s.paymentMethod == CREDIT
  }

  /** Sum of the totals of the CREDIT sales (0 when there are none). */
  function CreditTotal(sales: seq<Sale>): int {
    if sales == [] then 0
    else CreditTotal(sales[..|sales| - 1]) + (if IsCredit(sales[|sales| - 1]) then sales[|sales| - 1].total else 0)
  }

  /** Sum of the payment amounts (0 when there are none). */
  function PaidTotal(payments: seq<Payment>): int {
    if payments == [] then 0
    else PaidTotal(payments[..|payments| - 1]) + payments[|payments| - 1].amount
  }

  /** Outstanding debt of a client, given its sales and its payments. */
  function Balance(sales: seq<Sale>, payments: seq<Payment>): int {
    CreditTotal(sales) - PaidTotal(payments)
  }

  /** Value of one sale line. */
  function Subtotal(item: SaleItem): int {
    item.quantity * item.price
  }

  lemma {:induction false} CreditTotalAppend(a: seq<Sale>, b: seq<Sale>)
    ensures CreditTotal(a + b) == CreditTotal(a) + CreditTotal(b)
    decreases |b|
  {
    if b != [] {
      var n := |b| - 1;
      assert (a + b)[..|a + b| - 1] == a + b[..n];
      CreditTotalAppend(a, b[..n]);
    } else {
      assert a + b == a;
    }
  }

  lemma {:induction false} PaidTotalAppend(a: seq<Payment>, b: seq<Payment>)
    ensures PaidTotal(a + b) == PaidTotal(a) + PaidTotal(b)
    decreases |b|
  {
    if b != [] {
      var n := |b| - 1;
      assert (a + b)[..|a + b| - 1] == a + b[..n];
      PaidTotalAppend(a, b[..n]);
    } else {
      assert a + b == a;
    }
  }

  /** A client with no sales and no payments owes nothing. */
  lemma NoHistoryNoDebt()
    ensures Balance([], []) == 0
  {
  }

  /** Only CREDIT sales count: a sale with any other method leaves the debt unchanged,
      a CREDIT sale raises it by its total. */
  lemma BalanceAfterSale(sales: seq<Sale>, payments: seq<Payment>, s: Sale)
    ensures Balance(sales + [s], payments) == Balance(sales, payments) + (if IsCredit(s) then s.total else 0)
  {
    CreditTotalAppend(sales, [s]);
    assert [s][..0] == [];
  }

  /** Every payment lowers the debt by its amount, whether or not it is linked to a sale. */
  lemma BalanceAfterPayment(sales: seq<Sale>, payments: seq<Payment>, p: Payment)
    ensures Balance(sales, payments + [p]) == Balance(sales, payments) - p.amount
    ensures forall link: Option<nat> ::
      Balance(sales, payments + [p.(sale := link)]) == Balance(sales, payments + [p])
  {
    PaidTotalAppend(payments, [p]);
    assert [p][..0] == [];
    forall link: Option<nat>
      ensures Balance(sales, payments + [p.(sale := link)]) == Balance(sales, payments + [p])
    {
      PaidTotalAppend(payments, [p.(sale := link)]);
      assert [p.(sale := link)][..0] == [];
    }
  }

  /** A freshly created sale row carries CASH, total 0 and is paid, so it does not
      change any client's debt. */
  lemma NewSaleOutsideLedger(sales: seq<Sale>, payments: seq<Payment>, id: nat, client: nat, date: int)
    ensures NewSale(id, client, date).total == 0 && NewSale(id, client, date).isPaid
    ensures Balance(sales + [NewSale(id, client, date)], payments) == Balance(sales, payments)
  {
    BalanceAfterSale(sales, payments, NewSale(id, client, date));
  }

  /** The debt of a union of histories is the sum of their debts; in particular the
      portfolio-wide debt is the sum of the debts of clients that partition it. */
  lemma BalanceAdditive(s1: seq<Sale>, s2: seq<Sale>, p1: seq<Payment>, p2: seq<Payment>)
    ensures Balance(s1 + s2, p1 + p2) == Balance(s1, p1) + Balance(s2, p2)
  {
    CreditTotalAppend(s1, s2);
    PaidTotalAppend(p1, p2);
  }

  /** The "pending debt" figure of the dashboard: all CREDIT sale totals of the shop
      minus all payments. */
  function DebtPending(allSales: seq<Sale>, allPayments: seq<Payment>): (d: int)
  {
    CreditTotal(allSales) - PaidTotal(allPayments)
  }

  /** The dashboard figure is the client debt formula applied to the whole shop: the
      sum of the debts of any split of the shop's records, less the payments that
      name no client, which no client's debt counts. The proof holds for any
      `unlinked`; its requires only records that these are the NULL-client payments. */
  lemma DebtPendingIsSumOfBalances(s1: seq<Sale>, s2: seq<Sale>, p1: seq<Payment>, p2: seq<Payment>,
                                   unlinked: seq<Payment>)
    requires forall p :: p in unlinked ==> p.client.None?
    ensures DebtPending(s1 + s2, p1 + p2 + unlinked) == Balance(s1, p1) + Balance(s2, p2) - PaidTotal(unlinked)
  {
    BalanceAdditive(s1, s2, p1, p2);
    PaidTotalAppend(p1 + p2, unlinked);
  }

  /** The public "check my debt" page: the client found by phone, if any, and its debt. */
  function CheckDebt(found: Option<(seq<Sale>, seq<Payment>)>): (r: Option<int>)
    ensures r.Some? <==> found.Some?
    ensures found.Some? ==> r.value == Balance(found.value.0, found.value.1)
  {
    match found
    case None => None
    case Some(history) => Some(CreditTotal(history.0) - PaidTotal(history.1))
  }
}
