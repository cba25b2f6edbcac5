/** The client account statement of pos/views.py: the CREDIT sales and the
    payments of one client merged into one timeline, ordered by date with a
    stable sort, each event tagged with its debit, its credit and the running
    balance; and, for the PDF export, the cut of that timeline to the
    "active cycle" after the last settled point.

    The same computation is written out three times in the source
    (client_statement, client_public_statement, client_statement_pdf); here it
    is BuildStatement, used by all three views. */
module Statement {
  import opened Ledger

  datatype Kind = SaleEvent | PaymentEvent

  /** An event before the balance walk: kind, date, amount, display reference and
      the id of the sale or payment it came from. */
  datatype Entry = Entry(kind: Kind, date: int, amount: int, ref: string, origin: nat)

  /** An event after the balance walk. */
  datatype Line = Line(entry: Entry, debit: int, credit: int, balance: int)

  /** What the statement pages show. */
  datatype Statement = Statement(timeline: seq<Line>, totalCredit: int, totalPaid: int, currentDebt: int)

  // ---------------------------------------------------------------------------
  // Events

  /** Decimal digits of a natural number. */
  function NatToString(n: nat): (s: string)
    ensures |s| >= 1
    ensures forall i :: 0 <= i < |s| ==> '0' <= s[i] <= '9'
    decreases n
  {
    if n < 10 then [Digit(n)] else NatToString(n / 10) + [Digit(n % 10)]
  }

  function Digit(d: nat): (c: char)
    requires d < 10
    ensures '0' <= c <= '9' && c as int - '0' as int == d
  {
    ('0' as int + d) as char
  }

  /** The number a string of decimal digits spells. */
  function DigitsValue(s: string): int
    decreases |s|
  {
    if s == [] then 0 else DigitsValue(s[..|s| - 1]) * 10 + (s[|s| - 1] as int - '0' as int)
  }

  /** The reference spells the number back: reading the digits gives `n`. */
  lemma {:induction false} NatToStringValue(n: nat)
    ensures DigitsValue(NatToString(n)) == n
    decreases n
  {
    var s := NatToString(n);
    if n < 10 {
      assert s[..0] == [];
    } else {
      NatToStringValue(n / 10);
      assert s[..|s| - 1] == NatToString(n / 10);
    }
  }

  /** Distinct sales get distinct references. */
  lemma SaleRefsDistinct(a: nat, b: nat)
    requires a != b
    ensures "Factura #" + NatToString(a) != "Factura #" + NatToString(b)
  {
    NatToStringValue(a);
    NatToStringValue(b);
    assert ("Factura #" + NatToString(a))[9..] == NatToString(a);
    assert ("Factura #" + NatToString(b))[9..] == NatToString(b);
  }

  function SaleEntry(s: Sale): Entry {
    Entry(SaleEvent, s.date, s.total, "Factura #" + NatToString(s.id), s.id)
  }

  /** A payment is shown by its note, or "Abono" when the note is empty. */
  function PaymentEntry(p: Payment): Entry {
    Entry(PaymentEvent, p.date, p.amount, if p.note == "" then "Abono" else p.note, p.id)
  }

  /** The events of the CREDIT sales, in query order. */
  function CreditEntries(sales: seq<Sale>): (r: seq<Entry>)
    ensures forall e :: e in r ==> e.kind == SaleEvent
  {
    if sales == [] then []
    else CreditEntries(sales[..|sales| - 1])
         + (if IsCredit(sales[|sales| - 1]) then [SaleEntry(sales[|sales| - 1])] else [])
  }

  /** The events of the payments, in query order. */
  function PaymentEntries(payments: seq<Payment>): (r: seq<Entry>)
    ensures |r| == |payments|
    ensures forall i :: 0 <= i < |r| ==> r[i] == PaymentEntry(payments[i])
  {
    if payments == [] then []
    else PaymentEntries(payments[..|payments| - 1]) + [PaymentEntry(payments[|payments| - 1])]
  }

  /** A SALE adds its amount to the balance, a PAYMENT subtracts it. */
  function Signed(e: Entry): int {
    if e.kind == SaleEvent then e.amount else -e.amount
  }

  function SignedSum(s: seq<Entry>): int {
    if s == [] then 0 else SignedSum(s[..|s| - 1]) + Signed(s[|s| - 1])
  }

  // ---------------------------------------------------------------------------
  // Stable sort by date (Python's list.sort with a date key)

  ghost predicate SortedByDate(s: seq<Entry>) {
    forall i, j :: 0 <= i < j < |s| ==> s[i].date <= s[j].date
  }

  /** Where `x` goes in `t`: after every element whose date is not later than its own. */
  function InsertPos(t: seq<Entry>, x: Entry): (m: nat)
    ensures m <= |t|
    ensures forall j :: m <= j < |t| ==> t[j].date > x.date
    ensures m > 0 ==> t[m - 1].date <= x.date
  {
    if t == [] then 0
    else if t[|t| - 1].date <= x.date then |t|
    else InsertPos(t[..|t| - 1], x)
  }

  function InsertByDate(t: seq<Entry>, x: Entry): seq<Entry> {
    var m := InsertPos(t, x);
    t[..m] + [x] + t[m..]
  }

  /** Insertion sort taking the input from left to right; an element is placed after
      every earlier element of equal date, which makes the sort stable. */
  function SortByDate(s: seq<Entry>): seq<Entry> {
    if s == [] then []
    else InsertByDate(SortByDate(s[..|s| - 1]), s[|s| - 1])
  }

  /** Inserting at InsertPos keeps a date-ordered sequence ordered. */
  lemma InsertSorted(t: seq<Entry>, x: Entry)
    requires SortedByDate(t)
    ensures SortedByDate(InsertByDate(t, x))
    ensures |InsertByDate(t, x)| == |t| + 1
  {
    var m := InsertPos(t, x);
    var r := t[..m] + [x] + t[m..];
    assert forall i :: 0 <= i < m ==> r[i] == t[i];
    assert r[m] == x;
    assert forall i :: m < i < |r| ==> r[i] == t[i - 1];
    forall i, j | 0 <= i < j < |r| ensures r[i].date <= r[j].date {
      if j < m {
      } else if j == m {
        assert t[i].date <= t[m - 1].date;
      } else if i == m {
      } else if i < m {
        assert t[i].date <= t[j - 1].date;
      }
    }
  }

  lemma {:induction false} SortByDateSorted(s: seq<Entry>)
    ensures SortedByDate(SortByDate(s))
    ensures |SortByDate(s)| == |s|
  {
    if s != [] {
      SortByDateSorted(s[..|s| - 1]);
      InsertSorted(SortByDate(s[..|s| - 1]), s[|s| - 1]);
    }
  }

  lemma InsertPermutes(t: seq<Entry>, x: Entry)
    ensures multiset(InsertByDate(t, x)) == multiset(t) + multiset{x}
  {
    var m := InsertPos(t, x);
    assert t == t[..m] + t[m..];
  }

  lemma {:induction false} SortByDatePermutes(s: seq<Entry>)
    ensures multiset(SortByDate(s)) == multiset(s)
  {
    if s != [] {
      var p, x := s[..|s| - 1], s[|s| - 1];
      SortByDatePermutes(p);
      InsertPermutes(SortByDate(p), x);
      assert s == p + [x];
    }
  }

  /** The events of `s` that carry date `d`, in order. */
  function WithDate(s: seq<Entry>, d: int): seq<Entry> {
    if s == [] then []
    else WithDate(s[..|s| - 1], d) + (if s[|s| - 1].date == d then [s[|s| - 1]] else [])
  }

  lemma {:induction false} WithDateAppend(a: seq<Entry>, b: seq<Entry>, d: int)
    ensures WithDate(a + b, d) == WithDate(a, d) + WithDate(b, d)
    decreases |b|
  {
    if b == [] {
      assert a + b == a;
    } else {
      assert (a + b)[..|a + b| - 1] == a + b[..|b| - 1];
      WithDateAppend(a, b[..|b| - 1], d);
    }
  }

  lemma {:induction false} WithDateNone(s: seq<Entry>, d: int)
    requires forall j :: 0 <= j < |s| ==> s[j].date != d
    ensures WithDate(s, d) == []
  {
    if s != [] {
      WithDateNone(s[..|s| - 1], d);
    }
  }

  lemma WithDateSingle(x: Entry, d: int)
    ensures WithDate([x], d) == (if x.date == d then [x] else [])
  {
    assert [x][..0] == [];
    assert WithDate([], d) == [];
  }

  lemma InsertWithDate(t: seq<Entry>, x: Entry, d: int)
    ensures WithDate(InsertByDate(t, x), d) == WithDate(t, d) + (if x.date == d then [x] else [])
  {
    var m := InsertPos(t, x);
    var a, b := t[..m], t[m..];
    var wa, wx, wb := WithDate(a, d), WithDate([x], d), WithDate(b, d);
    assert InsertByDate(t, x) == a + [x] + b;
    assert WithDate(a + [x] + b, d) == wa + wx + wb by {
      WithDateAppend(a, [x], d);
      WithDateAppend(a + [x], b, d);
    }
    assert WithDate(t, d) == wa + wb by {
      assert t == a + b;
      WithDateAppend(a, b, d);
    }
    assert wx == (if x.date == d then [x] else []) by {
      WithDateSingle(x, d);
    }
    if x.date == d {
      assert wb == [] by {
        WithDateNone(b, d);
      }
    }
  }

  /** Stability: for every date, the events of that date keep their input order. */
  lemma {:induction false} SortByDateStable(s: seq<Entry>, d: int)
    ensures WithDate(SortByDate(s), d) == WithDate(s, d)
  {
    if s != [] {
      var p, x := s[..|s| - 1], s[|s| - 1];
      SortByDateStable(p, d);
      InsertWithDate(SortByDate(p), x, d);
    }
  }

  /** No PAYMENT stands before a SALE: the order in which the builder appends events. */
  ghost predicate SalesThenPayments(s: seq<Entry>) {
    forall i, j :: 0 <= i < j < |s| ==> !(s[i].kind == PaymentEvent && s[j].kind == SaleEvent)
  }

  /** Among events of equal date, every SALE precedes every PAYMENT. */
  ghost predicate SalesFirstOnTies(s: seq<Entry>) {
    forall i, j :: 0 <= i < j < |s| && s[i].date == s[j].date ==>
      !(s[i].kind == PaymentEvent && s[j].kind == SaleEvent)
  }

  lemma InsertKeepsSalesFirst(t: seq<Entry>, x: Entry)
    requires SalesFirstOnTies(t)
    requires x.kind == SaleEvent ==> forall i :: 0 <= i < |t| ==> t[i].kind == SaleEvent
    ensures SalesFirstOnTies(InsertByDate(t, x))
  {
    var m := InsertPos(t, x);
    var r := t[..m] + [x] + t[m..];
    forall i, j | 0 <= i < j < |r| && r[i].date == r[j].date
      ensures !(r[i].kind == PaymentEvent && r[j].kind == SaleEvent)
    {
      if j < m {
        assert r[i] == t[i] && r[j] == t[j];
      } else if j == m {
        assert r[i] == t[i] && r[j] == x;
      } else if i < m {
        assert r[i] == t[i] && r[j] == t[j - 1];
      } else if i == m {
        assert false;
      } else {
        assert r[i] == t[i - 1] && r[j] == t[j - 1];
      }
    }
  }

  lemma {:induction false} SortKeepsSalesFirst(s: seq<Entry>)
    requires SalesThenPayments(s)
    ensures SalesFirstOnTies(SortByDate(s))
  {
    if s != [] {
      var p, x := s[..|s| - 1], s[|s| - 1];
      assert SalesThenPayments(p);
      SortKeepsSalesFirst(p);
      var t := SortByDate(p);
      if x.kind == SaleEvent {
        SortByDatePermutes(p);
        forall i | 0 <= i < |t| ensures t[i].kind == SaleEvent {
          assert t[i] in multiset(p);
          var k :| 0 <= k < |p| && p[k] == t[i];
          assert s[k] == p[k];
        }
      }
      InsertKeepsSalesFirst(t, x);
    }
  }

  lemma {:induction false} SignedSumAppend(a: seq<Entry>, b: seq<Entry>)
    ensures SignedSum(a + b) == SignedSum(a) + SignedSum(b)
    decreases |b|
  {
    if b == [] {
      assert a + b == a;
    } else {
      assert (a + b)[..|a + b| - 1] == a + b[..|b| - 1];
      SignedSumAppend(a, b[..|b| - 1]);
    }
  }

  lemma InsertSignedSum(t: seq<Entry>, x: Entry)
    ensures SignedSum(InsertByDate(t, x)) == SignedSum(t) + Signed(x)
  {
    var m := InsertPos(t, x);
    SignedSumAppend(t[..m] + [x], t[m..]);
    SignedSumAppend(t[..m], [x]);
    SignedSumAppend(t[..m], t[m..]);
    assert t[..m] + t[m..] == t;
    assert [x][..0] == [];
  }

  /** Sorting does not change the signed total. */
  lemma {:induction false} SortKeepsSignedSum(s: seq<Entry>)
    ensures SignedSum(SortByDate(s)) == SignedSum(s)
  {
    if s != [] {
      var p, x := s[..|s| - 1], s[|s| - 1];
      SortKeepsSignedSum(p);
      InsertSignedSum(SortByDate(p), x);
    }
  }

  // ---------------------------------------------------------------------------
  // The timeline

  /** The merged, date-ordered events of one client. */
  function Timeline(sales: seq<Sale>, payments: seq<Payment>): seq<Entry> {
    SortByDate(CreditEntries(sales) + PaymentEntries(payments))
  }

  /** The balance walk over ordered events: each event gets its debit, its credit and
      the signed sum of all events up to and including it. */
  function Walk(t: seq<Entry>): (lines: seq<Line>)
    ensures |lines| == |t|
    ensures forall i :: 0 <= i < |t| ==>
      lines[i].entry == t[i] && lines[i].balance == SignedSum(t[..i + 1])
  {
    if t == [] then []
    else
      var n := |t| - 1;
      assert t[..n + 1] == t;
      assert forall k :: 0 < k <= n ==> t[..n][..k] == t[..k];
      Walk(t[..n]) + [Posted(t[n], SignedSum(t))]
  }

  lemma {:induction false} WalkPosts(t: seq<Entry>, i: nat)
    requires i < |t|
    ensures Walk(t)[i] == Posted(t[i], SignedSum(t[..i + 1]))
  {
    var n := |t| - 1;
    if i < n {
      WalkPosts(t[..n], i);
      assert t[..n][..i + 1] == t[..i + 1];
    } else {
      assert t[..i + 1] == t;
    }
  }

  function Posted(e: Entry, balance: int): Line {
    if e.kind == SaleEvent then Line(e, e.amount, 0, balance)
    else Line(e, 0, e.amount, balance)
  }

  /** The statement of one client, as the three statement views compute it. */
  function StatementOf(sales: seq<Sale>, payments: seq<Payment>): Statement {
    Statement(Walk(Timeline(sales, payments)), CreditTotal(sales), PaidTotal(payments),
              CreditTotal(sales) - PaidTotal(payments))
  }

  lemma {:induction false} CreditEntriesSum(sales: seq<Sale>)
    ensures SignedSum(CreditEntries(sales)) == CreditTotal(sales)
  {
    if sales != [] {
      var p, s := sales[..|sales| - 1], sales[|sales| - 1];
      CreditEntriesSum(p);
      SignedSumAppend(CreditEntries(p), if IsCredit(s) then [SaleEntry(s)] else []);
      assert [SaleEntry(s)][..0] == [];
    }
  }

  lemma {:induction false} PaymentEntriesSum(payments: seq<Payment>)
    ensures SignedSum(PaymentEntries(payments)) == -PaidTotal(payments)
  {
    if payments != [] {
      var p, x := payments[..|payments| - 1], payments[|payments| - 1];
      PaymentEntriesSum(p);
      SignedSumAppend(PaymentEntries(p), [PaymentEntry(x)]);
      assert [PaymentEntry(x)][..0] == [];
    }
  }

  /** The last running balance is the client's debt; a client with no events shows an
      empty timeline and owes nothing. */
  lemma LastBalanceIsDebt(sales: seq<Sale>, payments: seq<Payment>)
    ensures var st := StatementOf(sales, payments);
      && st.currentDebt == Balance(sales, payments)
      && (st.timeline == [] <==> CreditEntries(sales) == [] && payments == [])
      && (st.timeline != [] ==> st.timeline[|st.timeline| - 1].balance == st.currentDebt)
  {
    var t := Timeline(sales, payments);
    TimelineSum(sales, payments);
    if t != [] {
      WalkLast(t);
    }
  }

  /** The timeline holds one event per CREDIT sale and per payment, and its signed
      total is the client's debt. */
  lemma TimelineSum(sales: seq<Sale>, payments: seq<Payment>)
    ensures |Timeline(sales, payments)| == |CreditEntries(sales)| + |payments|
    ensures SignedSum(Timeline(sales, payments)) == Balance(sales, payments)
  {
    var ce, pe := CreditEntries(sales), PaymentEntries(payments);
    SortByDateSorted(ce + pe);
    SortKeepsSignedSum(ce + pe);
    SignedSumAppend(ce, pe);
    CreditEntriesSum(sales);
    PaymentEntriesSum(payments);
  }

  /** The balance of the last line is the signed total of all events. */
  lemma WalkLast(t: seq<Entry>)
    requires t != []
    ensures Walk(t)[|t| - 1].balance == SignedSum(t)
  {
    assert t[..|t|] == t;
  }

  /** A sale event enters the timeline exactly when it is the event of a CREDIT sale,
      a payment event exactly when it is the event of a payment of the client. */
  lemma {:induction false} CreditEntriesExact(sales: seq<Sale>, e: Entry)
    ensures e in CreditEntries(sales) <==> exists s :: s in sales && IsCredit(s) && e == SaleEntry(s)
  {
    if sales != [] {
      var p, x := sales[..|sales| - 1], sales[|sales| - 1];
      CreditEntriesExact(p, e);
      assert sales == p + [x];
      if e in CreditEntries(sales) && !(e in CreditEntries(p)) {
        assert IsCredit(x) && e == SaleEntry(x);
      }
      if exists s :: s in sales && IsCredit(s) && e == SaleEntry(s) {
        var s :| s in sales && IsCredit(s) && e == SaleEntry(s);
        if s != x {
          assert s in p;
        }
      }
    }
  }

  /** The timeline holds exactly the events of the client's CREDIT sales and of its
      payments (each as often as it occurs), ordered by date, and among events of
      equal date every sale precedes every payment, each group in query order. */
  lemma TimelineShape(sales: seq<Sale>, payments: seq<Payment>)
    ensures var t := Timeline(sales, payments);
      && multiset(t) == multiset(CreditEntries(sales)) + multiset(PaymentEntries(payments))
      && (forall e :: e in t <==>
            (exists s :: s in sales && IsCredit(s) && e == SaleEntry(s))
            || (exists p :: p in payments && e == PaymentEntry(p)))
      && SortedByDate(t)
      && SalesFirstOnTies(t)
      && (forall d :: WithDate(t, d) == WithDate(CreditEntries(sales), d) + WithDate(PaymentEntries(payments), d))
  {
    var ce, pe := CreditEntries(sales), PaymentEntries(payments);
    var merged := ce + pe;
    var t := SortByDate(merged);
    SortByDatePermutes(merged);
    SortByDateSorted(merged);
    forall e ensures e in t <==>
      (exists s :: s in sales && IsCredit(s) && e == SaleEntry(s))
      || (exists p :: p in payments && e == PaymentEntry(p))
    {
      assert e in t <==> e in multiset(t);
      assert e in merged <==> e in ce || e in pe;
      CreditEntriesExact(sales, e);
      if e in pe {
        var i :| 0 <= i < |pe| && pe[i] == e;
        assert payments[i] in payments;
      }
      if exists p :: p in payments && e == PaymentEntry(p) {
        var p :| p in payments && e == PaymentEntry(p);
        var i :| 0 <= i < |payments| && payments[i] == p;
        assert pe[i] == e;
      }
    }
    forall i, j | 0 <= i < j < |merged|
      ensures !(merged[i].kind == PaymentEvent && merged[j].kind == SaleEvent)
    {
      if j < |ce| {
        assert merged[j] in ce;
      } else {
        assert merged[j] == pe[j - |ce|] == PaymentEntry(payments[j - |ce|]);
      }
    }
    SortKeepsSalesFirst(merged);
    forall d ensures WithDate(t, d) == WithDate(ce, d) + WithDate(pe, d) {
      SortByDateStable(merged, d);
      WithDateAppend(ce, pe, d);
    }
  }

  // ---------------------------------------------------------------------------
  // The active-cycle cut of the PDF export

  /** The zero test of the PDF export: Python compares the two-place decimal with the
      float 0.01 exactly, and that float lies a hair above one cent, so a balance of
      -1, 0 or +1 cent passes. */
  predicate Settled(balance: int) {
    -1 <= balance <= 1
  }

  /** The last index whose balance is settled, or -1 when there is none. */
  function LastSettled(lines: seq<Line>): (k: int)
    ensures -1 <= k < |lines|
    ensures k >= 0 ==> Settled(lines[k].balance)
    ensures forall j :: k < j < |lines| ==> !Settled(lines[j].balance)
  {
    if lines == [] then -1
    else if Settled(lines[|lines| - 1].balance) then |lines| - 1
    else LastSettled(lines[..|lines| - 1])
  }

  /** The timeline printed in the PDF, given the full timeline and the current debt. */
  function ActiveCycleOf(lines: seq<Line>, currentDebt: int): seq<Line> {
    var k := LastSettled(lines);
    if k != -1 && k < |lines| - 1 then
      (if currentDebt > 1 then lines[k + 1..] else [])
    else lines
  }

  /** The cut keeps a suffix of the timeline with its balances as they were; when it
      removes anything, what is left holds no settled point. */
  lemma ActiveCycleIsSuffix(lines: seq<Line>, currentDebt: int)
    ensures var r := ActiveCycleOf(lines, currentDebt);
      && |r| <= |lines|
      && r == lines[|lines| - |r|..]
      && (r != lines ==> forall i :: 0 <= i < |r| ==> !Settled(r[i].balance))
  {
    var k := LastSettled(lines);
    var r := ActiveCycleOf(lines, currentDebt);
    if r != lines && r != [] {
      forall i | 0 <= i < |r| ensures !Settled(r[i].balance) {
        assert r[i] == lines[k + 1 + i];
      }
    }
  }

  /** In a statement the cut returns the empty list only for a client whose debt is
      negative by two cents or more, that is, an overpaid client; a client whose last
      event leaves a settled balance keeps the full history. */
  lemma ActiveCycleCases(sales: seq<Sale>, payments: seq<Payment>)
    ensures var st := StatementOf(sales, payments);
      var k := LastSettled(st.timeline);
      var r := ActiveCycleOf(st.timeline, st.currentDebt);
      && (k == -1 ==> r == st.timeline)
      && (st.timeline != [] && Settled(Balance(sales, payments)) ==> r == st.timeline)
      && (r == [] && st.timeline != [] ==> Balance(sales, payments) <= -2)
      && (0 <= k < |st.timeline| - 1 && Balance(sales, payments) > 1 ==> r == st.timeline[k + 1..])
  {
    LastBalanceIsDebt(sales, payments);
  }

  // ---------------------------------------------------------------------------
  // The imperative builder, as the views run it

  /** The timeline before sorting: the CREDIT sales appended first, then the payments. */
  method CollectEntries(sales: seq<Sale>, payments: seq<Payment>) returns (timeline: seq<Entry>)
    ensures timeline == CreditEntries(sales) + PaymentEntries(payments)
  {
    timeline := [];
    var i := 0;
    while i < |sales|
      invariant 0 <= i <= |sales|
      invariant timeline == CreditEntries(sales[..i])
    {
      assert sales[..i + 1][..i] == sales[..i];
      if IsCredit(sales[i]) {
        timeline := timeline + [SaleEntry(sales[i])];
      }
      i := i + 1;
    }
    assert sales[..i] == sales;
    var j := 0;
    while j < |payments|
      invariant 0 <= j <= |payments|
      invariant timeline == CreditEntries(sales) + PaymentEntries(payments[..j])
    {
      assert payments[..j + 1][..j] == payments[..j];
      timeline := timeline + [PaymentEntry(payments[j])];
      j := j + 1;
    }
    assert payments[..j] == payments;
  }

  /** The running-balance loop: writes debit, credit and balance into every event. */
  method PostBalances(timeline: seq<Entry>) returns (lines: seq<Line>)
    ensures lines == Walk(timeline)
    ensures |lines| == |timeline|
    ensures forall i :: 0 <= i < |lines| ==>
      && lines[i].entry == timeline[i]
      && lines[i].balance == SignedSum(timeline[..i + 1])
      && (timeline[i].kind == SaleEvent ==> lines[i].debit == timeline[i].amount && lines[i].credit == 0)
      && (timeline[i].kind == PaymentEvent ==> lines[i].debit == 0 && lines[i].credit == timeline[i].amount)
  {
    var runningBalance := 0;
    lines := [];
    var i := 0;
    while i < |timeline|
      invariant 0 <= i <= |timeline|
      invariant runningBalance == SignedSum(timeline[..i])
      invariant lines == Walk(timeline[..i])
    {
      var event := timeline[i];
      ghost var done := timeline[..i + 1];
      assert done[..i] == timeline[..i] && done[i] == event;
      if event.kind == SaleEvent {
        runningBalance := runningBalance + event.amount;
        lines := lines + [Line(event, event.amount, 0, runningBalance)];
      } else {
        runningBalance := runningBalance - event.amount;
        lines := lines + [Line(event, 0, event.amount, runningBalance)];
      }
      assert runningBalance == SignedSum(done);
      i := i + 1;
    }
    assert timeline[..i] == timeline;
    forall i | 0 <= i < |lines|
      ensures (timeline[i].kind == SaleEvent ==> lines[i].debit == timeline[i].amount && lines[i].credit == 0)
      ensures (timeline[i].kind == PaymentEvent ==> lines[i].debit == 0 && lines[i].credit == timeline[i].amount)
    {
      WalkPosts(timeline, i);
    }
  }

  /** The statement of the signed-in statement page (and, unchanged, of the public one). */
  method BuildStatement(sales: seq<Sale>, payments: seq<Payment>) returns (st: Statement)
    ensures st == StatementOf(sales, payments)
    ensures st.currentDebt == Balance(sales, payments)
    ensures st.timeline != [] ==> st.timeline[|st.timeline| - 1].balance == st.currentDebt
  {
    var totalCredit := CreditTotal(sales);
    var totalPaid := PaidTotal(payments);
    var currentDebt := totalCredit - totalPaid;
    var timeline := CollectEntries(sales, payments);
    timeline := SortByDate(timeline);
    var lines := PostBalances(timeline);
    assert lines == Walk(timeline);
    st := Statement(lines, totalCredit, totalPaid, currentDebt);
    LastBalanceIsDebt(sales, payments);
  }

  /** The scan for the last settled balance, then the cut. */
  method ActiveCycle(lines: seq<Line>, currentDebt: int) returns (r: seq<Line>)
    ensures r == ActiveCycleOf(lines, currentDebt)
    ensures |r| <= |lines| && r == lines[|lines| - |r|..]
  {
    var cutoffIndex := -1;
    var i := 0;
    while i < |lines|
      invariant 0 <= i <= |lines|
      invariant cutoffIndex == LastSettled(lines[..i])
    {
      assert lines[..i + 1][..i] == lines[..i];
      if Settled(lines[i].balance) {
        cutoffIndex := i;
      }
      i := i + 1;
    }
    assert lines[..i] == lines;
    r := lines;
    if cutoffIndex != -1 && cutoffIndex < |lines| - 1 {
      if currentDebt > 1 {
        r := lines[cutoffIndex + 1..];
      } else {
        r := [];
      }
    }
    ActiveCycleIsSuffix(lines, currentDebt);
  }

  datatype StatementPage = StatementPage(statement: Statement, isPublic: bool)

  /** The statement page for signed-in users. */
  method ClientStatement(sales: seq<Sale>, payments: seq<Payment>) returns (page: StatementPage)
    ensures page.statement == StatementOf(sales, payments) && !page.isPublic
  {
    var st := BuildStatement(sales, payments);
    page := StatementPage(st, false);
  }

  /** The public statement page: the same statement, marked public. */
  method ClientPublicStatement(sales: seq<Sale>, payments: seq<Payment>) returns (page: StatementPage)
    ensures page.statement == StatementOf(sales, payments) && page.isPublic
  {
    var st := BuildStatement(sales, payments);
    page := StatementPage(st, true);
  }

  /** The PDF statement: the same totals, the timeline cut to the active cycle. */
  method ClientStatementPdf(sales: seq<Sale>, payments: seq<Payment>) returns (st: Statement)
    ensures var full := StatementOf(sales, payments);
      && st.totalCredit == full.totalCredit && st.totalPaid == full.totalPaid
      && st.currentDebt == Balance(sales, payments)
      && st.timeline == ActiveCycleOf(full.timeline, full.currentDebt)
      && (st.timeline == [] && full.timeline != [] ==> st.currentDebt <= -2)
  {
    var full := BuildStatement(sales, payments);
    var cut := ActiveCycle(full.timeline, full.currentDebt);
    st := full.(timeline := cut);
    ActiveCycleCases(sales, payments);
  }
}
