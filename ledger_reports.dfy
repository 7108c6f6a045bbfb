/** The four ledger reports of the tour backend: earnings and collections,
    accumulated per currency by loops over a query result, and the debtor
    and creditor lists, filtered from the company's cari accounts. */
module LedgerReports {
  import opened Common
  import opened CariLedger

  /** The store's `{"$gte": from, "$lte": to}` on a date string. */
  predicate InRange(d: string, from: string, to: string) {
    StrLe(from, d) && StrLe(d, to)
  }

  // ---------------------------------------------------------------------
  // Earnings
  // ---------------------------------------------------------------------

  /** The earnings query on reservations: the company's completed
      reservations dated within the range, in natural order. */
  function CompletedInRange(rs: seq<Reservation>, company: Id, from: string, to: string): seq<Reservation> {
    Filter(rs, (r: Reservation) => r.company == company && InRange(r.date, from, to) && r.status == "completed")
  }

  /** The earnings query on extra sales: the company's sales dated within
      the range. */
  function SalesInRange(ss: seq<ExtraSale>, company: Id, from: string, to: string): seq<ExtraSale> {
    Filter(ss, (s: ExtraSale) => s.company == company && InRange(s.date, from, to))
  }

  /** A sale's stored purchase price is a number, not `null`. */
  predicate Priced(s: ExtraSale) {
    s.purchasePrice.Some?
  }

  predicate AllPriced(ss: seq<ExtraSale>) {
    forall s | s in ss :: Priced(s)
  }

  /** `s["sale_price"] - s.get("purchase_price", 0)` on a priced sale. */
  function Profit(s: ExtraSale): int
    requires Priced(s)
  {
    s.salePrice - s.purchasePrice.value
  }

  /** Reference definition: the total price of the reservations in one currency. */
  function PriceTotal(rs: seq<Reservation>, c: Currency): int {
    if rs == [] then 0
    else (if rs[0].currency == c then rs[0].price else 0) + PriceTotal(rs[1..], c)
  }

  /** Reference definition: the total profit of the sales in one currency. */
  function ProfitTotal(ss: seq<ExtraSale>, c: Currency): int
    requires AllPriced(ss)
  {
    if ss == [] then 0
    else (if ss[0].currency == c then Profit(ss[0]) else 0) + ProfitTotal(ss[1..], c)
  }

  lemma {:induction false} PriceTotalAppend(rs: seq<Reservation>, r: Reservation, c: Currency)
    ensures PriceTotal(rs + [r], c) == PriceTotal(rs, c) + (if r.currency == c then r.price else 0)
  {
    if rs == [] {
      assert [] + [r] == [r];
    } else {
      assert (rs + [r])[1..] == rs[1..] + [r];
      PriceTotalAppend(rs[1..], r, c);
    }
  }

  lemma {:induction false} ProfitTotalAppend(ss: seq<ExtraSale>, s: ExtraSale, c: Currency)
    requires AllPriced(ss + [s])
    ensures AllPriced(ss) && Priced(s)
    ensures ProfitTotal(ss + [s], c) == ProfitTotal(ss, c) + (if s.currency == c then Profit(s) else 0)
  {
    assert s == (ss + [s])[|ss|];
    assert forall x | x in ss :: x in ss + [s];
    if ss == [] {
      assert [] + [s] == [s];
    } else {
      assert (ss + [s])[1..] == ss[1..] + [s];
      ProfitTotalAppend(ss[1..], s, c);
    }
  }

  /** The answer of `get_earnings_report`: the per-currency totals and the
      two counts, or the server error of the `TypeError` that a `null`
      purchase price raises in the profit subtraction. */
  datatype EarningsAnswer = Earnings(earnings: Balances, reservationsCount: nat, salesCount: nat) | ServerError

  /** The reservation loop of the earnings report: each price is added to
      its currency's total. */
  method AddPrices(rs: seq<Reservation>) returns (earnings: Balances)
    ensures forall c: Currency :: earnings.Get(c) == PriceTotal(rs, c)
  {
    earnings := ZeroBalances;
    var i := 0;
    while i < |rs|
      invariant 0 <= i <= |rs|
      invariant forall c: Currency :: earnings.Get(c) == PriceTotal(rs[..i], c)
    {
      forall c: Currency {
        PriceTotalAppend(rs[..i], rs[i], c);
      }
      assert rs[..i + 1] == rs[..i] + [rs[i]];
      earnings := earnings.Inc(rs[i].currency, rs[i].price);
      i := i + 1;
    }
    assert rs[..|rs|] == rs;
  }

  /** The extra-sale loop of the earnings report: each profit is added to
      its currency's total, and the loop stops at the first sale whose
      purchase price is `null`. */
  method AddProfits(start: Balances, ss: seq<ExtraSale>) returns (ok: bool, earnings: Balances)
    ensures ok <==> AllPriced(ss)
    ensures ok ==> forall c: Currency :: earnings.Get(c) == start.Get(c) + ProfitTotal(ss, c)
  {
    earnings := start;
    var j := 0;
    while j < |ss|
      invariant 0 <= j <= |ss|
      invariant AllPriced(ss[..j])
      invariant forall c: Currency :: earnings.Get(c) == start.Get(c) + ProfitTotal(ss[..j], c)
    {
      if !Priced(ss[j]) {
        assert ss[j] in ss;
        return false, earnings;
      }
      assert ss[..j + 1] == ss[..j] + [ss[j]];
      forall c: Currency {
        ProfitTotalAppend(ss[..j], ss[j], c);
      }
      earnings := earnings.Inc(ss[j].currency, Profit(ss[j]));
      j := j + 1;
    }
    assert ss[..|ss|] == ss;
    ok := true;
  }

  /** `get_earnings_report`: for each currency, the prices of the company's
      completed reservations in range plus the profits of its extra sales in
      range, together with the two counts.  It fails exactly when a sale in
      range was stored with a `null` purchase price. */
  method EarningsReport(allReservations: seq<Reservation>, allSales: seq<ExtraSale>, company: Id, from: string, to: string)
    returns (answer: EarningsAnswer)
    ensures answer.ServerError? <==> !AllPriced(SalesInRange(allSales, company, from, to))
    ensures answer.Earnings? ==> forall c: Currency :: (answer.earnings.Get(c) ==
      PriceTotal(CompletedInRange(allReservations, company, from, to), c) +
      ProfitTotal(SalesInRange(allSales, company, from, to), c))
    ensures answer.Earnings? ==> answer.reservationsCount == |CompletedInRange(allReservations, company, from, to)|
    ensures answer.Earnings? ==> answer.salesCount == |SalesInRange(allSales, company, from, to)|
  {
    var rs := CompletedInRange(allReservations, company, from, to);
    var ss := SalesInRange(allSales, company, from, to);
    var earnings := AddPrices(rs);
    var ok;
    ok, earnings := AddProfits(earnings, ss);
    if !ok {
      return ServerError;
    }
    answer := Earnings(earnings, |rs|, |ss|);
  }

  /** An extra sale created with `purchase_price: null` (what the sales form
      sends when its optional purchase-price field is cleared) is stored
      without a price, and every earnings report whose range covers its date
      then fails. */
  lemma NullPurchasePriceBreaksEarnings(b: Books, company: Id, saleId: Id, txId: Id, inp: SaleInput,
                                        ss: seq<ExtraSale>, from: string, to: string)
    requires inp.cari in b.caris && inp.purchasePrice.Null? && InRange(inp.date, from, to)
    requires CreateExtraSaleSpec(b, company, saleId, txId, inp).0.sales[saleId] in ss
    ensures !Priced(CreateExtraSaleSpec(b, company, saleId, txId, inp).0.sales[saleId])
    ensures !AllPriced(SalesInRange(ss, company, from, to))
  {
    var s := CreateExtraSaleSpec(b, company, saleId, txId, inp).0.sales[saleId];
    assert s.company == company && s.date == inp.date;
    assert s in SalesInRange(ss, company, from, to);
  }

  // ---------------------------------------------------------------------
  // Collections
  // ---------------------------------------------------------------------

  /** The collections query: the company's `payment` transactions dated in range. */
  function PaymentsInRange(txs: seq<Transaction>, company: Id, from: string, to: string): seq<Transaction> {
    Filter(txs, (t: Transaction) => t.company == company && t.kind == "payment" && InRange(t.date, from, to))
  }

  function AmountTotal(txs: seq<Transaction>, c: Currency): int {
    if txs == [] then 0
    else (if txs[0].currency == c then txs[0].amount else 0) + AmountTotal(txs[1..], c)
  }

  lemma {:induction false} AmountTotalAppend(txs: seq<Transaction>, t: Transaction, c: Currency)
    ensures AmountTotal(txs + [t], c) == AmountTotal(txs, c) + (if t.currency == c then t.amount else 0)
  {
    if txs == [] {
      assert [] + [t] == [t];
    } else {
      assert (txs + [t])[1..] == txs[1..] + [t];
      AmountTotalAppend(txs[1..], t, c);
    }
  }

  /** `get_collections_report`: the amounts of the payments in range, summed
      per currency, returned together with those payments. */
  method CollectionsReport(allTxs: seq<Transaction>, company: Id, from: string, to: string)
    returns (collections: Balances, payments: seq<Transaction>)
    ensures payments == PaymentsInRange(allTxs, company, from, to)
    ensures forall c: Currency :: collections.Get(c) == AmountTotal(payments, c)
  {
    payments := PaymentsInRange(allTxs, company, from, to);
    collections := ZeroBalances;
    var i := 0;
    while i < |payments|
      invariant 0 <= i <= |payments|
      invariant forall c: Currency :: collections.Get(c) == AmountTotal(payments[..i], c)
    {
      forall c: Currency {
        AmountTotalAppend(payments[..i], payments[i], c);
      }
      assert payments[..i + 1] == payments[..i] + [payments[i]];
      collections := collections.Inc(payments[i].currency, payments[i].amount);
      i := i + 1;
    }
    assert payments[..|payments|] == payments;
  }

  // ---------------------------------------------------------------------
  // Debtors and creditors
  // ---------------------------------------------------------------------

  predicate IsDebtor(c: Cari) {
    c.balances.eur > 0 || c.balances.usd > 0 || c.balances.tl > 0
  }

  predicate IsCreditor(c: Cari) {
    c.balances.eur < 0 || c.balances.usd < 0 || c.balances.tl < 0
  }

  /** `get_debtors_report`: `cs` is what the query by the caller's
      `company_id` returns, so every account in it is the company's. */
  function Debtors(cs: seq<Cari>): (r: seq<Cari>)
    ensures forall c :: c in r <==> c in cs && exists cur: Currency :: c.balances.Get(cur) > 0
    ensures Subseq(r, cs)
  {
    var r := Filter(cs, IsDebtor);
    assert forall c: Cari :: IsDebtor(c) <==> exists cur: Currency :: c.balances.Get(cur) > 0 by {
      forall c: Cari ensures IsDebtor(c) ==> exists cur: Currency :: c.balances.Get(cur) > 0 {
        if c.balances.eur > 0 { assert c.balances.Get(EUR) > 0; }
        else if c.balances.usd > 0 { assert c.balances.Get(USD) > 0; }
        else if c.balances.tl > 0 { assert c.balances.Get(TRY) > 0; }
      }
    }
    r
  }

  /** `get_creditors_report`: `cs` is what the query by the caller's
      `company_id` returns, so every account in it is the company's. */
  function Creditors(cs: seq<Cari>): (r: seq<Cari>)
    ensures forall c :: c in r <==> c in cs && exists cur: Currency :: c.balances.Get(cur) < 0
    ensures Subseq(r, cs)
  {
    var r := Filter(cs, IsCreditor);
    assert forall c: Cari :: IsCreditor(c) <==> exists cur: Currency :: c.balances.Get(cur) < 0 by {
      forall c: Cari ensures IsCreditor(c) ==> exists cur: Currency :: c.balances.Get(cur) < 0 {
        if c.balances.eur < 0 { assert c.balances.Get(EUR) < 0; }
        else if c.balances.usd < 0 { assert c.balances.Get(USD) < 0; }
        else if c.balances.tl < 0 { assert c.balances.Get(TRY) < 0; }
      }
    }
    r
  }

  /** A settled cari (every balance 0) is in neither list; a cari that owes
      in one currency and is owed in another is in both. */
  lemma DebtorsAndCreditorsOverlap(cs: seq<Cari>, c: Cari)
    requires c in cs
    ensures c.balances == ZeroBalances ==> c !in Debtors(cs) && c !in Creditors(cs)
    ensures c.balances.eur > 0 && c.balances.usd < 0 ==> c in Debtors(cs) && c in Creditors(cs)
  {
    if c.balances.eur > 0 && c.balances.usd < 0 {
      assert c.balances.Get(EUR) > 0 && c.balances.Get(USD) < 0;
    }
    if c.balances == ZeroBalances {
      assert forall cur: Currency :: c.balances.Get(cur) == 0;
    }
  }
}
