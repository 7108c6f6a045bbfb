/** The cari ledger of the tour backend.

    A cari account holds one balance per currency.  Every reservation, extra
    sale, service purchase and manual transaction writes one row into the
    transaction collection and moves exactly one balance field of one cari by
    that row's signed amount.  The central property is the ledger invariant
    `Valid`: every cari balance equals the sum of the signed amounts of its
    transactions, and every stored reservation and extra sale is carried by
    its linked debit row.  Every handler keeps it except two that write
    balances straight from the request body: the raw field overwrite of
    `update_cari_account`, and `create_cari_account` when the body carries an
    opening balance other than the account's transaction sum. */
module CariLedger {
  import opened Common

  type Id = string

  /** The currencies that have a balance field (`balance_eur`, `balance_usd`,
      `balance_try`). */
  datatype Currency = EUR | USD | TRY

  /** The three balance fields of a cari account, in minor units. */
  datatype Balances = Balances(eur: int, usd: int, tl: int) {
    function Get(c: Currency): int {
      match c
      case EUR => eur
      case USD => usd
      case TRY => tl
    }

    /** `$inc` of the one field that the currency selects. */
    function Inc(c: Currency, d: int): (r: Balances)
      ensures r.Get(c) == Get(c) + d
      ensures forall o: Currency | o != c :: r.Get(o) == Get(o)
    {
      match c
      case EUR => this.(eur := eur + d)
      case USD => this.(usd := usd + d)
      case TRY => this.(tl := tl + d)
    }
  }

  const ZeroBalances := Balances(0, 0, 0)

  datatype Cari = Cari(company: Id, name: string, balances: Balances)

  datatype Transaction = Transaction(
    id: Id,
    company: Id,
    cari: Id,
    kind: string,
    amount: int,
    currency: Currency,
    refId: Option<Id>,
    refType: Option<string>,
    date: string)

  datatype Reservation = Reservation(
    company: Id, cari: Id, date: string, price: int, currency: Currency, status: string)

  datatype ExtraSale = ExtraSale(
    company: Id, cari: Id, date: string, salePrice: int, purchasePrice: Option<int>, currency: Currency)

  datatype ServicePurchase = ServicePurchase(
    company: Id, supplier: Id, date: string, amount: int, currency: Currency)

  /** The four collections the ledger handlers write. */
  datatype Books = Books(
    caris: map<Id, Cari>,
    txs: seq<Transaction>,
    reservations: map<Id, Reservation>,
    sales: map<Id, ExtraSale>,
    purchases: map<Id, ServicePurchase>)

  /** A handler completes, answers 404 with a detail message, or fails with
      a server error because the request body does not validate. */
  datatype Outcome = Done | NotFound(detail: string) | Invalid(detail: string)

  const ReservationRef := "reservation"
  const SaleRef := "extra_sale"
  const PurchaseRef := "service_purchase"

  // ---------------------------------------------------------------------
  // Signed amounts and the balance half of the invariant
  // ---------------------------------------------------------------------

  /** The change a transaction makes to its cari's balance: payments and
      credits lower it, every other type (debit, refund, anything else)
      raises it. */
  function Delta(t: Transaction): int {
    if t.kind == "payment" || t.kind == "credit" then -t.amount else t.amount
  }

  function Contribution(t: Transaction, c: Id, cur: Currency): int {
    if t.cari == c && t.currency == cur then Delta(t) else 0
  }

  /** Sum of the signed amounts of the transactions of cari `c` in `cur`. */
  function Sum(txs: seq<Transaction>, c: Id, cur: Currency): int {
    if txs == [] then 0 else Contribution(txs[0], c, cur) + Sum(txs[1..], c, cur)
  }

  predicate BalancesMatch(caris: map<Id, Cari>, txs: seq<Transaction>) {
    forall c, cur | c in caris :: caris[c].balances.Get(cur) == Sum(txs, c, cur)
  }

  /** `update_one({"id": id}, {"$inc": {balance_<cur>: d}})`: a no-op when no
      cari has that id. */
  function IncCari(caris: map<Id, Cari>, id: Id, cur: Currency, d: int): (r: map<Id, Cari>)
    ensures r.Keys == caris.Keys
    ensures forall c {:trigger r[c]} | c in caris ::
      r[c].company == caris[c].company && r[c].name == caris[c].name &&
      r[c].balances == if c == id then caris[c].balances.Inc(cur, d) else caris[c].balances
  {
    if id in caris then caris[id := caris[id].(balances := caris[id].balances.Inc(cur, d))] else caris
  }

  function RemoveAt(s: seq<Transaction>, j: nat): (r: seq<Transaction>)
    requires j < |s|
    ensures |r| == |s| - 1
    ensures forall k | 0 <= k < |r| :: r[k] == if k < j then s[k] else s[k + 1]
  {
    s[..j] + s[j + 1..]
  }

  lemma {:induction false} SumAppend(txs: seq<Transaction>, t: Transaction, c: Id, cur: Currency)
    ensures Sum(txs + [t], c, cur) == Sum(txs, c, cur) + Contribution(t, c, cur)
  {
    if txs == [] {
      assert [] + [t] == [t];
      assert [t][1..] == [];
    } else {
      assert (txs + [t])[1..] == txs[1..] + [t];
      SumAppend(txs[1..], t, c, cur);
    }
  }

  lemma {:induction false} SumRemoveAt(txs: seq<Transaction>, j: nat, c: Id, cur: Currency)
    requires j < |txs|
    ensures Sum(RemoveAt(txs, j), c, cur) == Sum(txs, c, cur) - Contribution(txs[j], c, cur)
  {
    var r := RemoveAt(txs, j);
    if j == 0 {
      assert r == txs[1..];
    } else {
      assert r[0] == txs[0];
      assert r[1..] == RemoveAt(txs[1..], j - 1);
      SumRemoveAt(txs[1..], j - 1, c, cur);
    }
  }

  lemma {:induction false} SumReplace(txs: seq<Transaction>, j: nat, t: Transaction, c: Id, cur: Currency)
    requires j < |txs|
    ensures Sum(txs[j := t], c, cur) == Sum(txs, c, cur) - Contribution(txs[j], c, cur) + Contribution(t, c, cur)
  {
    if j == 0 {
      assert txs[0 := t][1..] == txs[1..];
    } else {
      assert txs[j := t][1..] == txs[1..][j - 1 := t];
      SumReplace(txs[1..], j - 1, t, c, cur);
    }
  }

  lemma {:induction false} SumUnreferenced(txs: seq<Transaction>, c: Id, cur: Currency)
    requires forall k | 0 <= k < |txs| :: txs[k].cari != c
    ensures Sum(txs, c, cur) == 0
  {
    if txs != [] {
      SumUnreferenced(txs[1..], c, cur);
    }
  }

  lemma MatchAfterAppend(caris: map<Id, Cari>, txs: seq<Transaction>, t: Transaction)
    requires BalancesMatch(caris, txs)
    ensures BalancesMatch(IncCari(caris, t.cari, t.currency, Delta(t)), txs + [t])
  {
    forall c, cur | c in caris {
      SumAppend(txs, t, c, cur);
    }
  }

  lemma MatchAfterRemove(caris: map<Id, Cari>, txs: seq<Transaction>, j: nat)
    requires BalancesMatch(caris, txs) && j < |txs|
    ensures BalancesMatch(IncCari(caris, txs[j].cari, txs[j].currency, -Delta(txs[j])), RemoveAt(txs, j))
  {
    forall c, cur | c in caris {
      SumRemoveAt(txs, j, c, cur);
    }
  }

  lemma MatchAfterReplace(caris: map<Id, Cari>, txs: seq<Transaction>, j: nat, t: Transaction)
    requires BalancesMatch(caris, txs) && j < |txs|
    ensures BalancesMatch(
      IncCari(IncCari(caris, txs[j].cari, txs[j].currency, -Delta(txs[j])), t.cari, t.currency, Delta(t)),
      txs[j := t])
  {
    forall c, cur | c in caris {
      SumReplace(txs, j, t, c, cur);
    }
  }

  // ---------------------------------------------------------------------
  // Linked transactions and the link half of the invariant
  // ---------------------------------------------------------------------

  predicate Refers(t: Transaction, id: Id, rt: string) {
    t.refId == Some(id) && t.refType == Some(rt)
  }

  /** The row `update_one`/`delete_one` with filter
      `{"reference_id": id, "reference_type": rt}` acts on: the first match in
      insertion order. */
  function FindRef(txs: seq<Transaction>, id: Id, rt: string): (r: Option<nat>)
    ensures r.Some? ==> r.value < |txs| && Refers(txs[r.value], id, rt)
    ensures r.Some? ==> forall k | 0 <= k < r.value :: !Refers(txs[k], id, rt)
    ensures r.None? ==> forall k | 0 <= k < |txs| :: !Refers(txs[k], id, rt)
  {
    if txs == [] then None
    else if Refers(txs[0], id, rt) then Some(0)
    else match FindRef(txs[1..], id, rt)
      case None => None
      case Some(i) => Some(i + 1)
  }

  /** What a linked debit row must carry for its document. */
  datatype Link = Link(cari: Id, amount: int, currency: Currency)

  predicate Carries(t: Transaction, l: Link) {
    t.kind == "debit" && t.cari == l.cari && t.amount == l.amount && t.currency == l.currency
  }

  predicate LinkedTo(txs: seq<Transaction>, id: Id, rt: string, l: Link) {
    var k := FindRef(txs, id, rt);
    k.Some? && Carries(txs[k.value], l)
  }

  predicate AllLinked(txs: seq<Transaction>, links: map<Id, Link>, rt: string) {
    forall id | id in links :: LinkedTo(txs, id, rt, links[id])
  }

  function ReservationLinks(rs: map<Id, Reservation>): map<Id, Link> {
    map id | id in rs :: Link(rs[id].cari, rs[id].price, rs[id].currency)
  }

  function SaleLinks(ss: map<Id, ExtraSale>): map<Id, Link> {
    map id | id in ss :: Link(ss[id].cari, ss[id].salePrice, ss[id].currency)
  }

  lemma ReservationLinksUpdate(rs: map<Id, Reservation>, id: Id, x: Reservation)
    ensures ReservationLinks(rs[id := x]) == ReservationLinks(rs)[id := Link(x.cari, x.price, x.currency)]
  {
  }

  lemma ReservationLinksRemove(rs: map<Id, Reservation>, id: Id)
    ensures ReservationLinks(rs - {id}) == ReservationLinks(rs) - {id}
  {
  }

  lemma SaleLinksUpdate(ss: map<Id, ExtraSale>, id: Id, x: ExtraSale)
    ensures SaleLinks(ss[id := x]) == SaleLinks(ss)[id := Link(x.cari, x.salePrice, x.currency)]
  {
  }

  lemma SaleLinksRemove(ss: map<Id, ExtraSale>, id: Id)
    ensures SaleLinks(ss - {id}) == SaleLinks(ss) - {id}
  {
  }

  /** The ledger invariant. */
  predicate Valid(b: Books) {
    && BalancesMatch(b.caris, b.txs)
    && AllLinked(b.txs, ReservationLinks(b.reservations), ReservationRef)
    && AllLinked(b.txs, SaleLinks(b.sales), SaleRef)
  }

  /** No transaction refers to `id`: what a fresh uuid guarantees. */
  predicate Unreferenced(txs: seq<Transaction>, id: Id) {
    forall k | 0 <= k < |txs| :: txs[k].refId != Some(id)
  }

  lemma {:induction false} FindRefAppend(txs: seq<Transaction>, t: Transaction, id: Id, rt: string)
    ensures FindRef(txs + [t], id, rt) ==
      if FindRef(txs, id, rt).Some? then FindRef(txs, id, rt)
      else if Refers(t, id, rt) then Some(|txs|)
      else None
  {
    if txs == [] {
      assert [] + [t] == [t];
    } else {
      assert (txs + [t])[0] == txs[0];
      assert (txs + [t])[1..] == txs[1..] + [t];
      if !Refers(txs[0], id, rt) {
        FindRefAppend(txs[1..], t, id, rt);
      }
    }
  }

  /** Past a first row that does not refer to the document, the search
      continues one row further on. */
  lemma FindRefTail(txs: seq<Transaction>, id: Id, rt: string)
    requires txs != [] && !Refers(txs[0], id, rt)
    ensures FindRef(txs, id, rt) == match FindRef(txs[1..], id, rt)
      case None => None
      case Some(i) => Some(i + 1)
  {
  }

  /** Taking out a row that does not refer to the document moves the found
      position back by one when it lay past that row. */
  lemma {:induction false} FindRefSkip(a: seq<Transaction>, x: Transaction, b: seq<Transaction>, id: Id, rt: string)
    requires !Refers(x, id, rt)
    ensures FindRef(a + b, id, rt) ==
      match FindRef(a + [x] + b, id, rt)
      case None => None
      case Some(k) => Some(if k < |a| then k else k - 1)
  {
    if a == [] {
      assert a + b == b && a + [x] + b == [x] + b && ([x] + b)[1..] == b;
      FindRefTail([x] + b, id, rt);
    } else {
      assert (a + b)[0] == a[0] && (a + [x] + b)[0] == a[0];
      assert (a + b)[1..] == a[1..] + b && (a + [x] + b)[1..] == a[1..] + [x] + b;
      FindRefSkip(a[1..], x, b, id, rt);
      if !Refers(a[0], id, rt) {
        FindRefTail(a + b, id, rt);
        FindRefTail(a + [x] + b, id, rt);
      }
    }
  }

  lemma FindRefRemove(txs: seq<Transaction>, j: nat, id: Id, rt: string)
    requires j < |txs| && !Refers(txs[j], id, rt)
    ensures FindRef(RemoveAt(txs, j), id, rt) ==
      match FindRef(txs, id, rt)
      case None => None
      case Some(k) => Some(if k < j then k else k - 1)
  {
    assert txs == txs[..j] + [txs[j]] + txs[j + 1..];
    FindRefSkip(txs[..j], txs[j], txs[j + 1..], id, rt);
  }

  lemma {:induction false} FindRefReplace(txs: seq<Transaction>, j: nat, t: Transaction, id: Id, rt: string)
    requires j < |txs| && t.refId == txs[j].refId && t.refType == txs[j].refType
    ensures FindRef(txs[j := t], id, rt) == FindRef(txs, id, rt)
  {
    var s := txs[j := t];
    if j == 0 {
      assert s[1..] == txs[1..];
    } else {
      assert s[0] == txs[0];
      assert s[1..] == txs[1..][j - 1 := t];
      FindRefReplace(txs[1..], j - 1, t, id, rt);
    }
  }

  lemma LinksAfterAppend(txs: seq<Transaction>, t: Transaction, links: map<Id, Link>, rt: string)
    requires AllLinked(txs, links, rt)
    ensures AllLinked(txs + [t], links, rt)
  {
    forall id | id in links ensures LinkedTo(txs + [t], id, rt, links[id]) {
      FindRefAppend(txs, t, id, rt);
      var k := FindRef(txs, id, rt).value;
      assert (txs + [t])[k] == txs[k];
    }
  }

  lemma LinksAfterAppendNew(txs: seq<Transaction>, t: Transaction, links: map<Id, Link>, rt: string, id: Id, l: Link)
    requires AllLinked(txs, links, rt)
    requires Unreferenced(txs, id) && Refers(t, id, rt) && Carries(t, l)
    ensures AllLinked(txs + [t], links[id := l], rt)
  {
    LinksAfterAppend(txs, t, links, rt);
    FindRefAppend(txs, t, id, rt);
    assert FindRef(txs, id, rt).None?;
  }

  lemma LinksAfterRemove(txs: seq<Transaction>, j: nat, links: map<Id, Link>, rt: string)
    requires AllLinked(txs, links, rt) && j < |txs|
    requires forall id | id in links :: !Refers(txs[j], id, rt)
    ensures AllLinked(RemoveAt(txs, j), links, rt)
  {
    var s := RemoveAt(txs, j);
    forall id | id in links ensures LinkedTo(s, id, rt, links[id]) {
      assert LinkedTo(txs, id, rt, links[id]);
      var k := FindRef(txs, id, rt).value;
      FindRefRemove(txs, j, id, rt);
      var k1 := if k < j then k else k - 1;
      assert FindRef(s, id, rt) == Some(k1);
      assert s[k1] == txs[k];
    }
  }

  /** Rewriting a row whose reference is not one of `links` keeps every link. */
  lemma LinksAfterReplaceOther(txs: seq<Transaction>, j: nat, t: Transaction, links: map<Id, Link>, rt: string)
    requires AllLinked(txs, links, rt) && j < |txs|
    requires t.refId == txs[j].refId && t.refType == txs[j].refType
    requires forall id | id in links :: !Refers(txs[j], id, rt)
    ensures AllLinked(txs[j := t], links, rt)
  {
    forall id | id in links ensures LinkedTo(txs[j := t], id, rt, links[id]) {
      FindRefReplace(txs, j, t, id, rt);
    }
  }

  /** Rewriting the linked row of `id` so that it carries `l` relinks `id` to `l`. */
  lemma LinksAfterRelink(txs: seq<Transaction>, j: nat, t: Transaction, links: map<Id, Link>, rt: string, id: Id, l: Link)
    requires AllLinked(txs, links, rt)
    requires FindRef(txs, id, rt) == Some(j)
    requires t.refId == txs[j].refId && t.refType == txs[j].refType && Carries(t, l)
    ensures AllLinked(txs[j := t], links[id := l], rt)
  {
    var relinked := links[id := l];
    forall x | x in relinked ensures LinkedTo(txs[j := t], x, rt, relinked[x]) {
      FindRefReplace(txs, j, t, x, rt);
    }
  }

  // ---------------------------------------------------------------------
  // Cari accounts
  // ---------------------------------------------------------------------

  /** A fresh cari id: unused, and not the cari of any transaction. */
  predicate FreshCari(b: Books, id: Id) {
    id !in b.caris && forall k | 0 <= k < |b.txs| :: b.txs[k].cari != id
  }

  /** The body of `create_cari_account` as far as the ledger is concerned:
      the required name (None when absent or `null`) and the three balance
      fields, each defaulting to 0 and refusing `null`. */
  datatype CariInput = CariInput(name: Option<string>, eur: Field<int>, usd: Field<int>, tl: Field<int>)

  /** The body builds a `CariAccount`; otherwise validation raises. */
  predicate ValidCariInput(d: CariInput) {
    d.name.Some? && !d.eur.Null? && !d.usd.Null? && !d.tl.Null?
  }

  /** The balances the new account is stored with. */
  function Opening(d: CariInput): (r: Balances)
    requires ValidCariInput(d)
    ensures r.eur == d.eur.Get(0) && r.usd == d.usd.Get(0) && r.tl == d.tl.Get(0)
  {
    Balances(d.eur.Get(0), d.usd.Get(0), d.tl.Get(0))
  }

  /** The message of the validation error `CariAccount` raises. */
  const InvalidCari := "validation error for CariAccount"

  /** `create_cari_account`: `CariAccount(company_id=..., **data)` then
      `insert_one`.  `id` is the id the account is stored under: the body's
      own `id` when it sends one, a new uuid otherwise. */
  function CreateCariSpec(b: Books, company: Id, id: Id, d: CariInput): (r: (Books, Outcome))
    requires id !in b.caris
    ensures r.1 == Done <==> ValidCariInput(d)
    ensures r.1 != Done ==> r.1 == Invalid(InvalidCari) && r.0 == b
    ensures r.1 == Done ==>
      && r.0.caris.Keys == b.caris.Keys + {id}
      && r.0.caris[id].company == company && r.0.caris[id].name == d.name.value
      && (forall cur :: r.0.caris[id].balances.Get(cur) == Opening(d).Get(cur))
      && (forall c | c in b.caris :: r.0.caris[c] == b.caris[c])
    ensures r.0.txs == b.txs && r.0.reservations == b.reservations && r.0.sales == b.sales && r.0.purchases == b.purchases
  {
    if ValidCariInput(d) then
      (b.(caris := b.caris[id := Cari(company, d.name.value, Opening(d))]), Done)
    else
      (b, Invalid(InvalidCari))
  }

  /** Every opening balance the body gives equals the account's transaction
      sum, which is 0 for an id no transaction names. */
  predicate OpeningAgrees(d: CariInput, txs: seq<Transaction>, id: Id)
    requires ValidCariInput(d)
  {
    forall cur :: Opening(d).Get(cur) == Sum(txs, id, cur)
  }

  /** A body without balances, or with zero ones, keeps the invariant for a
      fresh id. */
  lemma CreateCariKeepsValid(b: Books, company: Id, id: Id, d: CariInput)
    requires Valid(b) && FreshCari(b, id)
    requires ValidCariInput(d) ==> Opening(d) == ZeroBalances
    ensures Valid(CreateCariSpec(b, company, id, d).0)
  {
    forall cur {
      SumUnreferenced(b.txs, id, cur);
    }
    CreateCariValidIff(b, company, id, d);
  }

  /** The create keeps the invariant exactly when the body is refused or
      every opening balance equals the account's transaction sum: a body
      with a non-zero `balance_*` for a fresh id breaks it. */
  lemma CreateCariValidIff(b: Books, company: Id, id: Id, d: CariInput)
    requires Valid(b) && id !in b.caris
    ensures Valid(CreateCariSpec(b, company, id, d).0) <==> !ValidCariInput(d) || OpeningAgrees(d, b.txs, id)
  {
    var r := CreateCariSpec(b, company, id, d).0;
    if ValidCariInput(d) {
      if OpeningAgrees(d, b.txs, id) {
        assert BalancesMatch(r.caris, r.txs);
      } else {
        var cur :| Opening(d).Get(cur) != Sum(b.txs, id, cur);
        assert r.caris[id].balances.Get(cur) != Sum(r.txs, id, cur);
      }
    }
  }

  /** The body of `update_cari_account`: arbitrary fields, balance fields
      included, written with `$set`. */
  datatype CariPatch = CariPatch(
    name: Option<string>, eur: Option<int>, usd: Option<int>, tl: Option<int>)

  function Patched(c: Cari, p: CariPatch, company: Id): Cari {
    Cari(company, p.name.GetOr(c.name),
      Balances(p.eur.GetOr(c.balances.eur), p.usd.GetOr(c.balances.usd), p.tl.GetOr(c.balances.tl)))
  }

  function UpdateCariSpec(b: Books, company: Id, id: Id, p: CariPatch): (r: (Books, Outcome))
    ensures r.1 == Done <==> id in b.caris && b.caris[id].company == company
    ensures r.1 != Done ==> r.0 == b
    ensures r.0.txs == b.txs && r.0.caris.Keys == b.caris.Keys
    ensures r.0.reservations == b.reservations && r.0.sales == b.sales && r.0.purchases == b.purchases
  {
    if id in b.caris && b.caris[id].company == company then
      (b.(caris := b.caris[id := Patched(b.caris[id], p, company)]), Done)
    else
      (b, NotFound("Cari account not found"))
  }

  /** Every balance that the patch sets equals the cari's transaction sum. */
  predicate PatchAgrees(p: CariPatch, txs: seq<Transaction>, id: Id) {
    && (p.eur.Some? ==> p.eur.value == Sum(txs, id, EUR))
    && (p.usd.Some? ==> p.usd.value == Sum(txs, id, USD))
    && (p.tl.Some? ==> p.tl.value == Sum(txs, id, TRY))
  }

  /** The raw `$set` keeps the ledger invariant exactly when every balance it
      writes already equals the transaction sum; any other value breaks it. */
  lemma UpdateCariValidIff(b: Books, company: Id, id: Id, p: CariPatch)
    requires Valid(b) && id in b.caris && b.caris[id].company == company
    ensures Valid(UpdateCariSpec(b, company, id, p).0) <==> PatchAgrees(p, b.txs, id)
  {
    var r := UpdateCariSpec(b, company, id, p).0;
    var nb := r.caris[id].balances;
    assert nb.Get(EUR) == p.eur.GetOr(b.caris[id].balances.eur);
    assert nb.Get(USD) == p.usd.GetOr(b.caris[id].balances.usd);
    assert nb.Get(TRY) == p.tl.GetOr(b.caris[id].balances.tl);
    assert b.caris[id].balances.Get(EUR) == Sum(b.txs, id, EUR);
    assert b.caris[id].balances.Get(USD) == Sum(b.txs, id, USD);
    assert b.caris[id].balances.Get(TRY) == Sum(b.txs, id, TRY);
    if PatchAgrees(p, b.txs, id) {
      forall c, cur | c in r.caris ensures r.caris[c].balances.Get(cur) == Sum(r.txs, c, cur) {
        if c == id {
          match cur
          case EUR =>
          case USD =>
          case TRY =>
        }
      }
    }
  }

  function DeleteCariSpec(b: Books, company: Id, id: Id): (r: (Books, Outcome))
    ensures r.1 == Done <==> id in b.caris && b.caris[id].company == company
    ensures r.1 == Done ==> r.0.caris.Keys == b.caris.Keys - {id}
    ensures r.1 != Done ==> r.0 == b
    ensures r.0.txs == b.txs && r.0.reservations == b.reservations && r.0.sales == b.sales && r.0.purchases == b.purchases
  {
    if id in b.caris && b.caris[id].company == company then
      (b.(caris := b.caris - {id}), Done)
    else
      (b, NotFound("Cari account not found"))
  }

  // ---------------------------------------------------------------------
  // Reservations
  // ---------------------------------------------------------------------

  datatype ReservationInput = ReservationInput(cari: Id, date: string, price: int, currency: Currency)

  /** The fields of an update body that the ledger reads or writes. */
  datatype ReservationPatch = ReservationPatch(
    cari: Option<Id>, date: Option<string>, price: Option<int>, currency: Option<Currency>, status: Option<string>)

  /** A fresh document id: no document and no transaction uses it. */
  predicate FreshDoc<T>(docs: map<Id, T>, txs: seq<Transaction>, id: Id) {
    id !in docs && Unreferenced(txs, id)
  }

  function CreateReservationSpec(b: Books, company: Id, resId: Id, txId: Id, inp: ReservationInput): (r: (Books, Outcome))
    ensures r.1 == Done <==> inp.cari in b.caris
    ensures r.1 != Done ==> r.0 == b
    ensures r.1 == Done ==>
      && r.0.reservations == b.reservations[resId := Reservation(company, inp.cari, inp.date, inp.price, inp.currency, "confirmed")]
      && r.0.sales == b.sales && r.0.purchases == b.purchases
      && |r.0.txs| == |b.txs| + 1 && r.0.txs[..|b.txs|] == b.txs
      && var t := r.0.txs[|b.txs|];
         t.kind == "debit" && t.cari == inp.cari && t.amount == inp.price && t.currency == inp.currency
         && Refers(t, resId, ReservationRef)
    ensures r.1 == Done ==> r.0.caris.Keys == b.caris.Keys && forall c, cur | c in b.caris ::
      r.0.caris[c].balances.Get(cur) ==
        b.caris[c].balances.Get(cur) + (if c == inp.cari && cur == inp.currency then inp.price else 0)
  {
    if inp.cari !in b.caris then
      (b, NotFound("Cari account not found"))
    else
      var res := Reservation(company, inp.cari, inp.date, inp.price, inp.currency, "confirmed");
      var t := Transaction(txId, company, inp.cari, "debit", inp.price, inp.currency,
        Some(resId), Some(ReservationRef), inp.date);
      (b.(reservations := b.reservations[resId := res],
          txs := b.txs + [t],
          caris := IncCari(b.caris, inp.cari, inp.currency, inp.price)), Done)
  }

  lemma CreateReservationKeepsValid(b: Books, company: Id, resId: Id, txId: Id, inp: ReservationInput)
    requires Valid(b) && FreshDoc(b.reservations, b.txs, resId)
    ensures Valid(CreateReservationSpec(b, company, resId, txId, inp).0)
  {
    if inp.cari in b.caris {
      var r := CreateReservationSpec(b, company, resId, txId, inp).0;
      var t := r.txs[|b.txs|];
      assert r.txs == b.txs + [t];
      MatchAfterAppend(b.caris, b.txs, t);
      ReservationLinksUpdate(b.reservations, resId, r.reservations[resId]);
      LinksAfterAppendNew(b.txs, t, ReservationLinks(b.reservations), ReservationRef, resId,
        Link(inp.cari, inp.price, inp.currency));
      LinksAfterAppend(b.txs, t, SaleLinks(b.sales), SaleRef);
    }
  }

  /** `$set` of the update body on the stored reservation. */
  function PatchReservation(r: Reservation, p: ReservationPatch): Reservation {
    Reservation(r.company, p.cari.GetOr(r.cari), p.date.GetOr(r.date), p.price.GetOr(r.price),
      p.currency.GetOr(r.currency), p.status.GetOr(r.status))
  }

  /** The linked row at `k`, if any, rewritten with a new cari, amount and currency. */
  function Rewrite(txs: seq<Transaction>, k: Option<nat>, cari: Id, amount: int, cur: Currency): (r: seq<Transaction>)
    ensures |r| == |txs|
  {
    if k.Some? && k.value < |txs| then
      txs[k.value := txs[k.value].(cari := cari, amount := amount, currency := cur)]
    else txs
  }

  /** `update_reservation` as written: when price or currency changes, the
      balance and the linked row move, but always on the reservation's OLD
      cari, even when the body also changes `cari_id`. */
  function UpdateReservationAsWrittenSpec(b: Books, company: Id, id: Id, p: ReservationPatch): (r: (Books, Outcome))
    ensures r.1 == Done <==> id in b.reservations && b.reservations[id].company == company
    ensures r.1 != Done ==> r.0 == b
    ensures r.1 == Done ==> r.0.reservations == b.reservations[id := PatchReservation(b.reservations[id], p)]
    ensures r.1 == Done ==> r.0.sales == b.sales && r.0.purchases == b.purchases
  {
    if !(id in b.reservations && b.reservations[id].company == company) then
      (b, NotFound("Reservation not found"))
    else
      var old_ := b.reservations[id];
      var newPrice := p.price.GetOr(old_.price);
      var newCur := p.currency.GetOr(old_.currency);
      var moved := (p.price.Some? || p.currency.Some?) && (old_.price != newPrice || old_.currency != newCur);
      var caris := if moved then
          IncCari(IncCari(b.caris, old_.cari, old_.currency, -old_.price), old_.cari, newCur, newPrice)
        else b.caris;
      var txs := if moved then
          match FindRef(b.txs, id, ReservationRef)
          case Some(k) => b.txs[k := b.txs[k].(amount := newPrice, currency := newCur)]
          case None => b.txs
        else b.txs;
      (b.(caris := caris, txs := txs, reservations := b.reservations[id := PatchReservation(old_, p)]), Done)
  }

  /** `update_reservation` with the cari move the edit form allows: when the
      cari, the price or the currency changes, the old cari gives back the
      old price in the old currency, the new cari is charged the new price in
      the new currency, and the linked row moves with it. */
  function UpdateReservationSpec(b: Books, company: Id, id: Id, p: ReservationPatch): (r: (Books, Outcome))
    ensures r.1 == Done <==> id in b.reservations && b.reservations[id].company == company
    ensures r.1 != Done ==> r.0 == b
    ensures r.1 == Done ==> r.0.reservations == b.reservations[id := PatchReservation(b.reservations[id], p)]
    ensures r.1 == Done ==> r.0.caris.Keys == b.caris.Keys && |r.0.txs| == |b.txs|
    ensures r.1 == Done ==> r.0.sales == b.sales && r.0.purchases == b.purchases
  {
    if !(id in b.reservations && b.reservations[id].company == company) then
      (b, NotFound("Reservation not found"))
    else
      var old_ := b.reservations[id];
      var new_ := PatchReservation(old_, p);
      if new_.cari != old_.cari || new_.price != old_.price || new_.currency != old_.currency then
        (Moved(b, id, new_), Done)
      else
        (b.(reservations := b.reservations[id := new_]), Done)
  }

  /** Two `$inc`s: `fromAmt` taken off `from` in `fromCur`, then `toAmt`
      added to `to` in `toCur`. Every other balance stays as it was. */
  lemma ShiftEffect(caris: map<Id, Cari>, from: Id, fromCur: Currency, fromAmt: int, to: Id, toCur: Currency, toAmt: int)
    ensures var m := IncCari(IncCari(caris, from, fromCur, -fromAmt), to, toCur, toAmt);
      && m.Keys == caris.Keys
      && forall c, cur | c in caris :: m[c].balances.Get(cur) == caris[c].balances.Get(cur)
           - (if c == from && cur == fromCur then fromAmt else 0) + (if c == to && cur == toCur then toAmt else 0)
  {
    var m1 := IncCari(caris, from, fromCur, -fromAmt);
    var m := IncCari(m1, to, toCur, toAmt);
    forall c, cur | c in caris
      ensures m[c].balances.Get(cur) == caris[c].balances.Get(cur)
        - (if c == from && cur == fromCur then fromAmt else 0) + (if c == to && cur == toCur then toAmt else 0)
    {
      assert m1[c].balances.Get(cur) == caris[c].balances.Get(cur) - (if c == from && cur == fromCur then fromAmt else 0);
    }
  }

  /** The books after reservation `id` is rewritten to `x`, its old price
      given back to its old cari and the linked row moved to `x`. */
  function Moved(b: Books, id: Id, x: Reservation): Books
    requires id in b.reservations
  {
    b.(caris := MovedCaris(b.caris, b.reservations[id], x),
       txs := MovedRows(b.txs, id, x),
       reservations := b.reservations[id := x])
  }

  /** The old cari gives back the old price, the new cari is charged the new one. */
  function MovedCaris(caris: map<Id, Cari>, old_: Reservation, x: Reservation): map<Id, Cari> {
    IncCari(IncCari(caris, old_.cari, old_.currency, -old_.price), x.cari, x.currency, x.price)
  }

  /** The reservation's linked row, rewritten to the new cari, price and currency. */
  function MovedRows(txs: seq<Transaction>, id: Id, x: Reservation): seq<Transaction> {
    Rewrite(txs, FindRef(txs, id, ReservationRef), x.cari, x.price, x.currency)
  }

  /** The linked row of a reservation in valid books, and the row `Moved`
      writes in its place. */
  lemma MovedRow(b: Books, id: Id, x: Reservation) returns (j: nat, t: Transaction)
    requires Valid(b) && id in b.reservations
    ensures FindRef(b.txs, id, ReservationRef) == Some(j) && j < |b.txs|
    ensures Carries(b.txs[j], Link(b.reservations[id].cari, b.reservations[id].price, b.reservations[id].currency))
    ensures t == b.txs[j].(cari := x.cari, amount := x.price, currency := x.currency)
    ensures Moved(b, id, x).txs == b.txs[j := t]
  {
    var links := ReservationLinks(b.reservations);
    assert LinkedTo(b.txs, id, ReservationRef, links[id]);
    j := FindRef(b.txs, id, ReservationRef).value;
    t := b.txs[j].(cari := x.cari, amount := x.price, currency := x.currency);
  }

  lemma MovedKeepsValid(b: Books, id: Id, x: Reservation)
    requires Valid(b) && id in b.reservations
    ensures Valid(Moved(b, id, x))
  {
    var m := Moved(b, id, x);
    var j, t := MovedRow(b, id, x);
    assert Delta(b.txs[j]) == b.reservations[id].price && Delta(t) == x.price;
    MatchAfterReplace(b.caris, b.txs, j, t);
    assert BalancesMatch(m.caris, m.txs);
    ReservationLinksUpdate(b.reservations, id, x);
    LinksAfterRelink(b.txs, j, t, ReservationLinks(b.reservations), ReservationRef, id, Link(x.cari, x.price, x.currency));
    assert AllLinked(m.txs, ReservationLinks(m.reservations), ReservationRef);
    assert b.txs[j].refType == Some(ReservationRef) != Some(SaleRef);
    LinksAfterReplaceOther(b.txs, j, t, SaleLinks(b.sales), SaleRef);
    assert AllLinked(m.txs, SaleLinks(m.sales), SaleRef);
  }

  lemma UpdateReservationKeepsValid(b: Books, company: Id, id: Id, p: ReservationPatch)
    requires Valid(b)
    ensures Valid(UpdateReservationSpec(b, company, id, p).0)
  {
    if id in b.reservations && b.reservations[id].company == company {
      var old_ := b.reservations[id];
      var new_ := PatchReservation(old_, p);
      if new_.cari != old_.cari || new_.price != old_.price || new_.currency != old_.currency {
        assert UpdateReservationSpec(b, company, id, p).0 == Moved(b, id, new_);
        MovedKeepsValid(b, id, new_);
      } else {
        var links := ReservationLinks(b.reservations);
        ReservationLinksUpdate(b.reservations, id, new_);
        assert links[id := Link(new_.cari, new_.price, new_.currency)] == links;
      }
    }
  }

  /** Both versions agree whenever the update keeps the reservation's cari. */
  lemma UpdateReservationAgreesWhenCariKept(b: Books, company: Id, id: Id, p: ReservationPatch)
    requires Valid(b)
    requires id in b.reservations ==> p.cari.None? || p.cari == Some(b.reservations[id].cari)
    ensures UpdateReservationSpec(b, company, id, p) == UpdateReservationAsWrittenSpec(b, company, id, p)
  {
    if id in b.reservations && b.reservations[id].company == company {
      var links := ReservationLinks(b.reservations);
      assert LinkedTo(b.txs, id, ReservationRef, links[id]);
      AgreeWhenCariKept(b, company, id, p);
    }
  }

  /** The comparison itself, given only that the reservation's linked row
      is on its cari. */
  lemma AgreeWhenCariKept(b: Books, company: Id, id: Id, p: ReservationPatch)
    requires id in b.reservations && b.reservations[id].company == company
    requires p.cari.None? || p.cari == Some(b.reservations[id].cari)
    requires var k := FindRef(b.txs, id, ReservationRef); k.Some? && b.txs[k.value].cari == b.reservations[id].cari
    ensures UpdateReservationSpec(b, company, id, p) == UpdateReservationAsWrittenSpec(b, company, id, p)
  {
    var old_ := b.reservations[id];
    var new_ := PatchReservation(old_, p);
    if new_.price != old_.price || new_.currency != old_.currency {
      AgreeWhenPriceMoves(b, company, id, p);
    } else {
      var aw := UpdateReservationAsWrittenSpec(b, company, id, p).0;
      assert aw == b.(reservations := b.reservations[id := new_]);
      assert UpdateReservationSpec(b, company, id, p) == (aw, Done);
    }
  }

  lemma AgreeWhenPriceMoves(b: Books, company: Id, id: Id, p: ReservationPatch)
    requires id in b.reservations && b.reservations[id].company == company
    requires p.cari.None? || p.cari == Some(b.reservations[id].cari)
    requires var k := FindRef(b.txs, id, ReservationRef); k.Some? && b.txs[k.value].cari == b.reservations[id].cari
    requires var x := PatchReservation(b.reservations[id], p);
      x.price != b.reservations[id].price || x.currency != b.reservations[id].currency
    ensures UpdateReservationSpec(b, company, id, p) == UpdateReservationAsWrittenSpec(b, company, id, p)
  {
    var old_ := b.reservations[id];
    var new_ := PatchReservation(old_, p);
    var aw := UpdateReservationAsWrittenSpec(b, company, id, p).0;
    assert aw.txs == MovedRows(b.txs, id, new_);
    MovedCarisInPlace(b.caris, old_, p.currency.GetOr(old_.currency), p.price.GetOr(old_.price), new_);
    assert aw == Moved(b, id, new_);
    var r1 := UpdateReservationSpec(b, company, id, p);
    var r2 := UpdateReservationAsWrittenSpec(b, company, id, p);
    assert r1.0 == Moved(b, id, new_) && r1.1 == Done;
    assert r2.0 == aw && r2.1 == Done;
  }



  /** What `update_reservation` writes as the source has it. When the price
      or the currency changes, the reservation's old cari gives back the old
      price in the old currency and is charged the new price in the new
      currency, and the linked row takes the new amount and currency while
      keeping its cari. Otherwise balances and rows are untouched. */
  lemma UpdateReservationAsWrittenEffect(b: Books, company: Id, id: Id, p: ReservationPatch)
    requires id in b.reservations && b.reservations[id].company == company
    ensures var r := UpdateReservationAsWrittenSpec(b, company, id, p).0;
      var o := b.reservations[id];
      var x := PatchReservation(o, p);
      if x.price != o.price || x.currency != o.currency then
        && r.caris.Keys == b.caris.Keys
        && (forall c, cur | c in b.caris :: r.caris[c].balances.Get(cur) ==
              b.caris[c].balances.Get(cur) - (if c == o.cari && cur == o.currency then o.price else 0)
                                           + (if c == o.cari && cur == x.currency then x.price else 0))
        && r.txs == (match FindRef(b.txs, id, ReservationRef)
             case Some(k) => b.txs[k := b.txs[k].(amount := x.price, currency := x.currency)]
             case None => b.txs)
      else r.caris == b.caris && r.txs == b.txs
  {
    var o := b.reservations[id];
    var x := PatchReservation(o, p);
    var r := UpdateReservationAsWrittenSpec(b, company, id, p).0;
    if x.price != o.price || x.currency != o.currency {
      ShiftEffect(b.caris, o.cari, o.currency, o.price, o.cari, x.currency, x.price);
    } else {
      assert r == b.(reservations := b.reservations[id := x]);
    }
  }

  /** What the corrected update writes. When the cari, the price or the
      currency changes, the old cari gives back the old price in the old
      currency, the new cari is charged the new price in the new currency,
      and the linked row moves to the new cari, amount and currency.
      Otherwise balances and rows are untouched. */
  lemma UpdateReservationEffect(b: Books, company: Id, id: Id, p: ReservationPatch)
    requires id in b.reservations && b.reservations[id].company == company
    ensures var r := UpdateReservationSpec(b, company, id, p).0;
      var o := b.reservations[id];
      var x := PatchReservation(o, p);
      if x.cari != o.cari || x.price != o.price || x.currency != o.currency then
        && (forall c, cur | c in b.caris :: r.caris[c].balances.Get(cur) ==
              b.caris[c].balances.Get(cur) - (if c == o.cari && cur == o.currency then o.price else 0)
                                           + (if c == x.cari && cur == x.currency then x.price else 0))
        && r.txs == (match FindRef(b.txs, id, ReservationRef)
             case Some(k) => b.txs[k := b.txs[k].(cari := x.cari, amount := x.price, currency := x.currency)]
             case None => b.txs)
      else r.caris == b.caris && r.txs == b.txs
  {
    var o := b.reservations[id];
    var x := PatchReservation(o, p);
    var r := UpdateReservationSpec(b, company, id, p).0;
    if x.cari != o.cari || x.price != o.price || x.currency != o.currency {
      assert r == Moved(b, id, x);
      ShiftEffect(b.caris, o.cari, o.currency, o.price, x.cari, x.currency, x.price);
      assert r.txs == Rewrite(b.txs, FindRef(b.txs, id, ReservationRef), x.cari, x.price, x.currency);
    } else {
      assert r == b.(reservations := b.reservations[id := x]);
    }
  }

  /** As written, an update that changes only the cari leaves the balance and
      the linked row on the old cari while the reservation names the new one;
      the later delete then takes the price off the new cari, and the old
      cari keeps a balance that no transaction explains. */
  /** The books of that trace: two caris of one company, a 100 EUR
      reservation on A, the update that names B, and the delete. */
  const TraceInput := ReservationInput("A", "2024-05-01", 100, EUR)
  const TraceMove := ReservationPatch(Some("B"), None, None, None, None)
  const TraceRow := Transaction("t", "co", "A", "debit", 100, EUR, Some("r"), Some(ReservationRef), "2024-05-01")
  const TraceStart := Books(map["A" := Cari("co", "a", ZeroBalances), "B" := Cari("co", "b", ZeroBalances)],
                            [], map[], map[], map[])
  const TraceBooked := Books(map["A" := Cari("co", "a", Balances(100, 0, 0)), "B" := Cari("co", "b", ZeroBalances)],
                             [TraceRow], map["r" := Reservation("co", "A", "2024-05-01", 100, EUR, "confirmed")], map[], map[])
  const TraceMoved := TraceBooked.(reservations := map["r" := Reservation("co", "B", "2024-05-01", 100, EUR, "confirmed")])
  const TraceDeleted := Books(map["A" := Cari("co", "a", Balances(100, 0, 0)), "B" := Cari("co", "b", Balances(-100, 0, 0))],
                              [], map[], map[], map[])

  lemma TraceBooking()
    ensures CreateReservationSpec(TraceStart, "co", "r", "t", TraceInput) == (TraceBooked, Done)
  {
    assert ZeroBalances.Inc(EUR, 100) == Balances(100, 0, 0);
    assert IncCari(TraceStart.caris, "A", EUR, 100) == TraceBooked.caris;
    assert TraceStart.txs + [TraceRow] == TraceBooked.txs;
    assert TraceStart.reservations["r" := Reservation("co", "A", "2024-05-01", 100, EUR, "confirmed")]
        == TraceBooked.reservations;
  }

  lemma TraceUpdate()
    ensures UpdateReservationAsWrittenSpec(TraceBooked, "co", "r", TraceMove) == (TraceMoved, Done)
  {
    var x := Reservation("co", "B", "2024-05-01", 100, EUR, "confirmed");
    assert PatchReservation(TraceBooked.reservations["r"], TraceMove) == x;
    assert TraceBooked.reservations["r" := x] == TraceMoved.reservations;
  }

  lemma TraceDelete()
    ensures DeleteReservationSpec(TraceMoved, "co", "r") == (TraceDeleted, Done)
  {
    assert FindRef(TraceMoved.txs, "r", ReservationRef) == Some(0);
    assert RemoveAt(TraceMoved.txs, 0) == [];
    assert ZeroBalances.Inc(EUR, -100) == Balances(-100, 0, 0);
    assert IncCari(TraceMoved.caris, "B", EUR, -100) == TraceDeleted.caris;
    assert TraceMoved.reservations - {"r"} == map[];
  }

  lemma {:induction false} UpdateReservationAsWrittenBreaksLedger()
    ensures CreateReservationSpec(TraceStart, "co", "r", "t", TraceInput) == (TraceBooked, Done)
    ensures UpdateReservationAsWrittenSpec(TraceBooked, "co", "r", TraceMove) == (TraceMoved, Done)
    ensures DeleteReservationSpec(TraceMoved, "co", "r") == (TraceDeleted, Done)
    ensures Valid(TraceStart) && Valid(TraceBooked) && !Valid(TraceMoved) && !Valid(TraceDeleted)
    ensures TraceDeleted.caris["A"].balances.eur == 100 && Sum(TraceDeleted.txs, "A", EUR) == 0
    ensures TraceDeleted.caris["B"].balances.eur == -100
  {
    TraceBooking();
    TraceUpdate();
    TraceDelete();
    assert Valid(TraceStart);
    CreateReservationKeepsValid(TraceStart, "co", "r", "t", TraceInput);
    assert FindRef(TraceMoved.txs, "r", ReservationRef) == Some(0);
    assert !LinkedTo(TraceMoved.txs, "r", ReservationRef, ReservationLinks(TraceMoved.reservations)["r"]);
    assert TraceDeleted.caris["A"].balances.Get(EUR) != Sum(TraceDeleted.txs, "A", EUR);
  }


  function DeleteReservationSpec(b: Books, company: Id, id: Id): (r: (Books, Outcome))
    ensures r.1 == Done <==> id in b.reservations && b.reservations[id].company == company
    ensures r.1 != Done ==> r.0 == b
    ensures r.1 == Done ==> r.0.reservations == b.reservations - {id}
    ensures r.1 == Done ==> r.0.sales == b.sales && r.0.purchases == b.purchases
    ensures r.1 == Done ==> r.0.caris.Keys == b.caris.Keys && forall c, cur | c in b.caris ::
      var res := b.reservations[id];
      r.0.caris[c].balances.Get(cur) ==
        b.caris[c].balances.Get(cur) - (if c == res.cari && cur == res.currency then res.price else 0)
  {
    if !(id in b.reservations && b.reservations[id].company == company) then
      (b, NotFound("Reservation not found"))
    else
      var res := b.reservations[id];
      var k := FindRef(b.txs, id, ReservationRef);
      (b.(caris := IncCari(b.caris, res.cari, res.currency, -res.price),
          txs := if k.Some? then RemoveAt(b.txs, k.value) else b.txs,
          reservations := b.reservations - {id}), Done)
  }

  /** `delete_one` on the transactions removes the first row that refers to
      the reservation, if there is one. */
  lemma DeleteReservationRows(b: Books, company: Id, id: Id)
    requires id in b.reservations && b.reservations[id].company == company
    ensures DeleteReservationSpec(b, company, id).0.txs == match FindRef(b.txs, id, ReservationRef)
      case Some(k) => RemoveAt(b.txs, k)
      case None => b.txs
  {
  }

  /** In valid books the row `delete_one` removes is the reservation's own
      debit, carrying its cari, price and currency. */
  lemma DeleteReservationRemovesItsRow(b: Books, company: Id, id: Id)
    requires Valid(b) && id in b.reservations && b.reservations[id].company == company
    ensures var res := b.reservations[id];
      var k := FindRef(b.txs, id, ReservationRef);
      && k.Some?
      && Carries(b.txs[k.value], Link(res.cari, res.price, res.currency))
      && DeleteReservationSpec(b, company, id).0.txs == RemoveAt(b.txs, k.value)
  {
    assert LinkedTo(b.txs, id, ReservationRef, ReservationLinks(b.reservations)[id]);
  }

  lemma DeleteReservationKeepsValid(b: Books, company: Id, id: Id)
    requires Valid(b)
    ensures Valid(DeleteReservationSpec(b, company, id).0)
  {
    if id in b.reservations && b.reservations[id].company == company {
      var r := DeleteReservationSpec(b, company, id).0;
      var links := ReservationLinks(b.reservations);
      assert LinkedTo(b.txs, id, ReservationRef, links[id]);
      var j := FindRef(b.txs, id, ReservationRef).value;
      assert r.txs == RemoveAt(b.txs, j);
      MatchAfterRemove(b.caris, b.txs, j);
      ReservationLinksRemove(b.reservations, id);
      LinksAfterRemove(b.txs, j, links - {id}, ReservationRef);
      LinksAfterRemove(b.txs, j, SaleLinks(b.sales), SaleRef);
    }
  }

  /** Editing the price from A to B and back to A restores every balance and
      the transaction collection. */
  lemma PriceRoundTripRestoresBooks(b: Books, company: Id, id: Id, other: int)
    requires Valid(b) && id in b.reservations && b.reservations[id].company == company
    ensures
      var a := b.reservations[id].price;
      var b1 := UpdateReservationSpec(b, company, id, ReservationPatch(None, None, Some(other), None, None)).0;
      var b2 := UpdateReservationSpec(b1, company, id, ReservationPatch(None, None, Some(a), None, None)).0;
      b2.caris == b.caris && b2.txs == b.txs && b2.reservations == b.reservations
  {
    var res := b.reservations[id];
    var a := res.price;
    var pB := ReservationPatch(None, None, Some(other), None, None);
    var pA := ReservationPatch(None, None, Some(a), None, None);
    var b1 := UpdateReservationSpec(b, company, id, pB).0;
    var b2 := UpdateReservationSpec(b1, company, id, pA).0;
    var x := res.(price := other);
    if other != a {
      assert PatchReservation(res, pB) == x && b1 == Moved(b, id, x);
      assert PatchReservation(x, pA) == res && b2 == Moved(b1, id, res);
      MovedBack(b, id, x);
    } else {
      assert PatchReservation(res, pB) == res;
      assert b1.reservations == b.reservations[id := res] == b.reservations;
      assert b1 == b;
    }
  }

  /** Moving a reservation to another price on the same cari and currency,
      and back, restores the books. */
  lemma MovedBack(b: Books, id: Id, x: Reservation)
    requires Valid(b) && id in b.reservations
    requires x.cari == b.reservations[id].cari && x.currency == b.reservations[id].currency
    ensures Moved(Moved(b, id, x), id, b.reservations[id]) == b
  {
    var res := b.reservations[id];
    var b1 := Moved(b, id, x);
    var b2 := Moved(b1, id, res);
    var j, t := MovedRow(b, id, x);
    FindRefReplace(b.txs, j, t, id, ReservationRef);
    assert b2.txs == b.txs[j := t][j := b.txs[j]] == b.txs;
    MovedBackCaris(b, id, x);
    assert b2.reservations == b.reservations[id := x][id := res] == b.reservations;
  }

  lemma MovedBackCaris(b: Books, id: Id, x: Reservation)
    requires id in b.reservations
    requires x.cari == b.reservations[id].cari && x.currency == b.reservations[id].currency
    ensures Moved(Moved(b, id, x), id, b.reservations[id]).caris == b.caris
  {
    var res := b.reservations[id];
    var m1 := Moved(b, id, x);
    assert m1.reservations[id] == x;
    assert Moved(m1, id, res).caris == MovedCaris(MovedCaris(b.caris, res, x), x, res);
    IncRoundTrip(b.caris, res, x);
  }

  /** Reverting and re-charging on the old cari is the move to a reservation
      that keeps that cari. */
  lemma MovedCarisInPlace(caris: map<Id, Cari>, o: Reservation, cur: Currency, price: int, y: Reservation)
    requires y.cari == o.cari && y.currency == cur && y.price == price
    ensures IncCari(IncCari(caris, o.cari, o.currency, -o.price), o.cari, cur, price) == MovedCaris(caris, o, y)
  {
  }

  /** Taking the old price off, charging another on the same cari and
      currency, and reversing that restores every cari. */
  lemma IncRoundTrip(caris: map<Id, Cari>, res: Reservation, x: Reservation)
    requires x.cari == res.cari && x.currency == res.currency
    ensures MovedCaris(MovedCaris(caris, res, x), x, res) == caris
  {
    var c, cur, a, o := res.cari, res.currency, res.price, x.price;
    var m := MovedCaris(caris, res, x);
    var r := MovedCaris(m, x, res);
    assert r.Keys == caris.Keys;
    forall k | k in caris ensures r[k] == caris[k] {
      if k == c {
        var b := caris[k].balances;
        assert m[k].balances == b.Inc(cur, -a).Inc(cur, o);
        assert r[k].balances == m[k].balances.Inc(cur, -o).Inc(cur, a);
        match cur
        case EUR =>
        case USD =>
        case TRY =>
      }
    }
  }






  // ---------------------------------------------------------------------
  // Manual transactions, extra sales and service purchases
  // ---------------------------------------------------------------------

  datatype TransactionInput = TransactionInput(
    cari: Id, kind: string, amount: int, currency: Currency,
    refId: Option<Id>, refType: Option<string>, date: string)

  /** `create_transaction`: no lookup of the cari; the row is inserted and the
      cari's field for the currency is lowered by the amount for `payment` and
      `credit` and raised by it for every other type. */
  function CreateTransactionSpec(b: Books, company: Id, txId: Id, inp: TransactionInput): (r: Books)
    ensures |r.txs| == |b.txs| + 1 && r.txs[..|b.txs|] == b.txs
    ensures r.txs[|b.txs|] == Transaction(txId, company, inp.cari, inp.kind, inp.amount, inp.currency, inp.refId, inp.refType, inp.date)
    ensures r.reservations == b.reservations && r.sales == b.sales && r.purchases == b.purchases
    ensures r.caris.Keys == b.caris.Keys && forall c, cur | c in b.caris ::
      r.caris[c].balances.Get(cur) == b.caris[c].balances.Get(cur) +
        (if c != inp.cari || cur != inp.currency then 0
         else if inp.kind == "payment" || inp.kind == "credit" then -inp.amount
         else inp.amount)
  {
    var t := Transaction(txId, company, inp.cari, inp.kind, inp.amount, inp.currency, inp.refId, inp.refType, inp.date);
    b.(txs := b.txs + [t], caris := IncCari(b.caris, inp.cari, inp.currency, Delta(t)))
  }

  lemma CreateTransactionKeepsValid(b: Books, company: Id, txId: Id, inp: TransactionInput)
    requires Valid(b)
    ensures Valid(CreateTransactionSpec(b, company, txId, inp))
  {
    var r := CreateTransactionSpec(b, company, txId, inp);
    var t := r.txs[|b.txs|];
    assert r.txs == b.txs + [t];
    MatchAfterAppend(b.caris, b.txs, t);
    LinksAfterAppend(b.txs, t, ReservationLinks(b.reservations), ReservationRef);
    LinksAfterAppend(b.txs, t, SaleLinks(b.sales), SaleRef);
  }

  /** The body of `create_extra_sale`; the currency defaults to EUR.  The
      purchase price is optional with default 0: an absent key stores 0 and
      an explicit `null` stores None. */
  datatype SaleInput = SaleInput(
    cari: Id, date: string, salePrice: int, purchasePrice: Field<int>, currency: Option<Currency>)

  /** `create_extra_sale`.  `saleId` is the id the sale is stored under: the
      body's own `id` when it sends one (`**data` overrides the default), a
      new uuid otherwise. */
  function CreateExtraSaleSpec(b: Books, company: Id, saleId: Id, txId: Id, inp: SaleInput): (r: (Books, Outcome))
    ensures r.1 == Done <==> inp.cari in b.caris
    ensures r.1 != Done ==> r.0 == b
    ensures r.1 == Done ==>
      && r.0.sales == b.sales[saleId := ExtraSale(company, inp.cari, inp.date, inp.salePrice,
                                                 inp.purchasePrice.Stored(0), inp.currency.GetOr(EUR))]
      && (r.0.sales[saleId].purchasePrice.None? <==> inp.purchasePrice.Null?)
      && r.0.reservations == b.reservations && r.0.purchases == b.purchases
      && |r.0.txs| == |b.txs| + 1 && r.0.txs[..|b.txs|] == b.txs
      && var t := r.0.txs[|b.txs|];
         t.kind == "debit" && t.cari == inp.cari && t.amount == inp.salePrice
         && t.currency == inp.currency.GetOr(EUR) && Refers(t, saleId, SaleRef)
    ensures r.1 == Done ==> r.0.caris.Keys == b.caris.Keys && forall c, cur | c in b.caris ::
      r.0.caris[c].balances.Get(cur) == b.caris[c].balances.Get(cur) +
        (if c == inp.cari && cur == inp.currency.GetOr(EUR) then inp.salePrice else 0)
  {
    if inp.cari !in b.caris then
      (b, NotFound("Cari account not found"))
    else
      var cur := inp.currency.GetOr(EUR);
      var sale := ExtraSale(company, inp.cari, inp.date, inp.salePrice, inp.purchasePrice.Stored(0), cur);
      var t := Transaction(txId, company, inp.cari, "debit", inp.salePrice, cur, Some(saleId), Some(SaleRef), inp.date);
      (b.(sales := b.sales[saleId := sale],
          txs := b.txs + [t],
          caris := IncCari(b.caris, inp.cari, cur, inp.salePrice)), Done)
  }

  lemma CreateExtraSaleKeepsValid(b: Books, company: Id, saleId: Id, txId: Id, inp: SaleInput)
    requires Valid(b) && FreshDoc(b.sales, b.txs, saleId)
    ensures Valid(CreateExtraSaleSpec(b, company, saleId, txId, inp).0)
  {
    if inp.cari in b.caris {
      var r := CreateExtraSaleSpec(b, company, saleId, txId, inp).0;
      var t := r.txs[|b.txs|];
      var l := Link(inp.cari, inp.salePrice, inp.currency.GetOr(EUR));
      assert r.txs == b.txs + [t];
      MatchAfterAppend(b.caris, b.txs, t);
      SaleLinksUpdate(b.sales, saleId, r.sales[saleId]);
      LinksAfterAppendNew(b.txs, t, SaleLinks(b.sales), SaleRef, saleId, l);
      LinksAfterAppend(b.txs, t, ReservationLinks(b.reservations), ReservationRef);
    }
  }

  function DeleteExtraSaleSpec(b: Books, company: Id, id: Id): (r: (Books, Outcome))
    ensures r.1 == Done <==> id in b.sales && b.sales[id].company == company
    ensures r.1 != Done ==> r.0 == b
    ensures r.1 == Done ==> r.0.sales == b.sales - {id}
    ensures r.1 == Done ==> r.0.reservations == b.reservations && r.0.purchases == b.purchases
    ensures r.1 == Done ==> r.0.caris.Keys == b.caris.Keys && forall c, cur | c in b.caris ::
      var s := b.sales[id];
      r.0.caris[c].balances.Get(cur) ==
        b.caris[c].balances.Get(cur) - (if c == s.cari && cur == s.currency then s.salePrice else 0)
  {
    if !(id in b.sales && b.sales[id].company == company) then
      (b, NotFound("Extra sale not found"))
    else
      var s := b.sales[id];
      var k := FindRef(b.txs, id, SaleRef);
      (b.(caris := IncCari(b.caris, s.cari, s.currency, -s.salePrice),
          txs := if k.Some? then RemoveAt(b.txs, k.value) else b.txs,
          sales := b.sales - {id}), Done)
  }

  /** `delete_one` on the transactions removes the first row that refers to
      the sale, if there is one. */
  lemma DeleteExtraSaleRows(b: Books, company: Id, id: Id)
    requires id in b.sales && b.sales[id].company == company
    ensures DeleteExtraSaleSpec(b, company, id).0.txs == match FindRef(b.txs, id, SaleRef)
      case Some(k) => RemoveAt(b.txs, k)
      case None => b.txs
  {
  }

  /** In valid books the row `delete_one` removes is the sale's own debit,
      carrying its cari, sale price and currency. */
  lemma DeleteExtraSaleRemovesItsRow(b: Books, company: Id, id: Id)
    requires Valid(b) && id in b.sales && b.sales[id].company == company
    ensures var s := b.sales[id];
      var k := FindRef(b.txs, id, SaleRef);
      && k.Some?
      && Carries(b.txs[k.value], Link(s.cari, s.salePrice, s.currency))
      && DeleteExtraSaleSpec(b, company, id).0.txs == RemoveAt(b.txs, k.value)
  {
    assert LinkedTo(b.txs, id, SaleRef, SaleLinks(b.sales)[id]);
  }

  lemma DeleteExtraSaleKeepsValid(b: Books, company: Id, id: Id)
    requires Valid(b)
    ensures Valid(DeleteExtraSaleSpec(b, company, id).0)
  {
    if id in b.sales && b.sales[id].company == company {
      var r := DeleteExtraSaleSpec(b, company, id).0;
      var links := SaleLinks(b.sales);
      assert LinkedTo(b.txs, id, SaleRef, links[id]);
      var j := FindRef(b.txs, id, SaleRef).value;
      assert r.txs == RemoveAt(b.txs, j);
      MatchAfterRemove(b.caris, b.txs, j);
      SaleLinksRemove(b.sales, id);
      LinksAfterRemove(b.txs, j, links - {id}, SaleRef);
      LinksAfterRemove(b.txs, j, ReservationLinks(b.reservations), ReservationRef);
    }
  }

  /** The body of `create_service_purchase`; the currency defaults to EUR. */
  datatype PurchaseInput = PurchaseInput(supplier: Id, date: string, amount: int, currency: Option<Currency>)

  function CreateServicePurchaseSpec(b: Books, company: Id, purchaseId: Id, txId: Id, inp: PurchaseInput): (r: (Books, Outcome))
    ensures r.1 == Done <==> inp.supplier in b.caris
    ensures r.1 != Done ==> r.0 == b
    ensures r.1 == Done ==>
      && r.0.purchases == b.purchases[purchaseId := ServicePurchase(company, inp.supplier, inp.date, inp.amount,
                                                                  inp.currency.GetOr(EUR))]
      && r.0.reservations == b.reservations && r.0.sales == b.sales
      && |r.0.txs| == |b.txs| + 1 && r.0.txs[..|b.txs|] == b.txs
      && var t := r.0.txs[|b.txs|];
         t.kind == "credit" && t.cari == inp.supplier && t.amount == inp.amount
         && t.currency == inp.currency.GetOr(EUR) && Refers(t, purchaseId, PurchaseRef)
    ensures r.1 == Done ==> r.0.caris.Keys == b.caris.Keys && forall c, cur | c in b.caris ::
      r.0.caris[c].balances.Get(cur) == b.caris[c].balances.Get(cur) -
        (if c == inp.supplier && cur == inp.currency.GetOr(EUR) then inp.amount else 0)
  {
    if inp.supplier !in b.caris then
      (b, NotFound("Supplier not found"))
    else
      var cur := inp.currency.GetOr(EUR);
      var pur := ServicePurchase(company, inp.supplier, inp.date, inp.amount, cur);
      var t := Transaction(txId, company, inp.supplier, "credit", inp.amount, cur,
        Some(purchaseId), Some(PurchaseRef), inp.date);
      (b.(purchases := b.purchases[purchaseId := pur],
          txs := b.txs + [t],
          caris := IncCari(b.caris, inp.supplier, cur, -inp.amount)), Done)
  }

  lemma CreateServicePurchaseKeepsValid(b: Books, company: Id, purchaseId: Id, txId: Id, inp: PurchaseInput)
    requires Valid(b)
    ensures Valid(CreateServicePurchaseSpec(b, company, purchaseId, txId, inp).0)
  {
    if inp.supplier in b.caris {
      var r := CreateServicePurchaseSpec(b, company, purchaseId, txId, inp).0;
      var t := r.txs[|b.txs|];
      assert r.txs == b.txs + [t];
      MatchAfterAppend(b.caris, b.txs, t);
      LinksAfterAppend(b.txs, t, ReservationLinks(b.reservations), ReservationRef);
      LinksAfterAppend(b.txs, t, SaleLinks(b.sales), SaleRef);
    }
  }

  // ---------------------------------------------------------------------
  // The stateful ledger
  // ---------------------------------------------------------------------

  /** The four collections as the handlers see them, each handler doing its
      writes in the source's order. */
  class Ledger {
    var caris: map<Id, Cari>
    var txs: seq<Transaction>
    var reservations: map<Id, Reservation>
    var sales: map<Id, ExtraSale>
    var purchases: map<Id, ServicePurchase>

    function State(): Books
      reads this
    {
      Books(caris, txs, reservations, sales, purchases)
    }

    constructor ()
      ensures State() == Books(map[], [], map[], map[], map[])
      ensures Valid(State())
    {
      caris, txs, reservations, sales, purchases := map[], [], map[], map[], map[];
    }

    method CreateCariAccount(company: Id, id: Id, d: CariInput) returns (out: Outcome)
      requires id !in caris
      modifies this
      ensures (State(), out) == CreateCariSpec(old(State()), company, id, d)
      ensures old(Valid(State())) ==> (Valid(State()) <==> !ValidCariInput(d) || OpeningAgrees(d, old(txs), id))
    {
      if !ValidCariInput(d) {
        return Invalid(InvalidCari);
      }
      caris := caris[id := Cari(company, d.name.value, Opening(d))];
      out := Done;
      if Valid(old(State())) {
        CreateCariValidIff(old(State()), company, id, d);
      }
    }

    method UpdateCariAccount(company: Id, id: Id, p: CariPatch) returns (out: Outcome)
      modifies this
      ensures (State(), out) == UpdateCariSpec(old(State()), company, id, p)
    {
      if id in caris && caris[id].company == company {
        caris := caris[id := Patched(caris[id], p, company)];
        out := Done;
      } else {
        out := NotFound("Cari account not found");
      }
    }

    method DeleteCariAccount(company: Id, id: Id) returns (out: Outcome)
      modifies this
      ensures (State(), out) == DeleteCariSpec(old(State()), company, id)
      ensures old(Valid(State())) ==> Valid(State())
    {
      if id in caris && caris[id].company == company {
        caris := caris - {id};
        out := Done;
      } else {
        out := NotFound("Cari account not found");
      }
    }

    method CreateReservation(company: Id, resId: Id, txId: Id, inp: ReservationInput) returns (out: Outcome)
      requires FreshDoc(reservations, txs, resId)
      modifies this
      ensures (State(), out) == CreateReservationSpec(old(State()), company, resId, txId, inp)
      ensures old(Valid(State())) ==> Valid(State())
    {
      if inp.cari !in caris {
        return NotFound("Cari account not found");
      }
      reservations := reservations[resId := Reservation(company, inp.cari, inp.date, inp.price, inp.currency, "confirmed")];
      txs := txs + [Transaction(txId, company, inp.cari, "debit", inp.price, inp.currency,
        Some(resId), Some(ReservationRef), inp.date)];
      caris := IncCari(caris, inp.cari, inp.currency, inp.price);
      out := Done;
      if Valid(old(State())) {
        CreateReservationKeepsValid(old(State()), company, resId, txId, inp);
      }
    }

    method UpdateReservation(company: Id, id: Id, p: ReservationPatch) returns (out: Outcome)
      modifies this
      ensures (State(), out) == UpdateReservationSpec(old(State()), company, id, p)
      ensures old(Valid(State())) ==> Valid(State())
    {
      if !(id in reservations && reservations[id].company == company) {
        return NotFound("Reservation not found");
      }
      ghost var b := State();
      var existing := reservations[id];
      var updated := PatchReservation(existing, p);
      var newCaris, newTxs := caris, txs;
      if updated.cari != existing.cari || updated.price != existing.price || updated.currency != existing.currency {
        newCaris := IncCari(caris, existing.cari, existing.currency, -existing.price);
        newCaris := IncCari(newCaris, updated.cari, updated.currency, updated.price);
        newTxs := Rewrite(txs, FindRef(txs, id, ReservationRef), updated.cari, updated.price, updated.currency);
        assert b.(caris := newCaris, txs := newTxs, reservations := b.reservations[id := updated]) == Moved(b, id, updated);
      }
      ghost var after := b.(caris := newCaris, txs := newTxs, reservations := b.reservations[id := updated]);
      assert UpdateReservationSpec(b, company, id, p) == (after, Done);
      if Valid(b) {
        UpdateReservationKeepsValid(b, company, id, p);
      }
      caris, txs, reservations := newCaris, newTxs, reservations[id := updated];
      out := Done;
      assert State() == after;
    }

    method DeleteReservation(company: Id, id: Id) returns (out: Outcome)
      modifies this
      ensures (State(), out) == DeleteReservationSpec(old(State()), company, id)
      ensures old(Valid(State())) ==> Valid(State())
    {
      if !(id in reservations && reservations[id].company == company) {
        return NotFound("Reservation not found");
      }
      var res := reservations[id];
      caris := IncCari(caris, res.cari, res.currency, -res.price);
      var k := FindRef(txs, id, ReservationRef);
      if k.Some? {
        txs := RemoveAt(txs, k.value);
      }
      reservations := reservations - {id};
      out := Done;
      if Valid(old(State())) {
        DeleteReservationKeepsValid(old(State()), company, id);
      }
    }

    method CreateTransaction(company: Id, txId: Id, inp: TransactionInput)
      modifies this
      ensures State() == CreateTransactionSpec(old(State()), company, txId, inp)
      ensures old(Valid(State())) ==> Valid(State())
    {
      txs := txs + [Transaction(txId, company, inp.cari, inp.kind, inp.amount, inp.currency,
        inp.refId, inp.refType, inp.date)];
      if inp.kind == "payment" {
        caris := IncCari(caris, inp.cari, inp.currency, -inp.amount);
      } else if inp.kind == "credit" {
        caris := IncCari(caris, inp.cari, inp.currency, -inp.amount);
      } else {
        caris := IncCari(caris, inp.cari, inp.currency, inp.amount);
      }
      if Valid(old(State())) {
        CreateTransactionKeepsValid(old(State()), company, txId, inp);
      }
    }

    method CreateExtraSale(company: Id, saleId: Id, txId: Id, inp: SaleInput) returns (out: Outcome)
      requires FreshDoc(sales, txs, saleId)
      modifies this
      ensures (State(), out) == CreateExtraSaleSpec(old(State()), company, saleId, txId, inp)
      ensures old(Valid(State())) ==> Valid(State())
    {
      if inp.cari !in caris {
        return NotFound("Cari account not found");
      }
      var cur := inp.currency.GetOr(EUR);
      sales := sales[saleId := ExtraSale(company, inp.cari, inp.date, inp.salePrice, inp.purchasePrice.Stored(0), cur)];
      txs := txs + [Transaction(txId, company, inp.cari, "debit", inp.salePrice, cur,
        Some(saleId), Some(SaleRef), inp.date)];
      caris := IncCari(caris, inp.cari, cur, inp.salePrice);
      out := Done;
      if Valid(old(State())) {
        CreateExtraSaleKeepsValid(old(State()), company, saleId, txId, inp);
      }
    }

    method DeleteExtraSale(company: Id, id: Id) returns (out: Outcome)
      modifies this
      ensures (State(), out) == DeleteExtraSaleSpec(old(State()), company, id)
      ensures old(Valid(State())) ==> Valid(State())
    {
      if !(id in sales && sales[id].company == company) {
        return NotFound("Extra sale not found");
      }
      var s := sales[id];
      caris := IncCari(caris, s.cari, s.currency, -s.salePrice);
      var k := FindRef(txs, id, SaleRef);
      if k.Some? {
        txs := RemoveAt(txs, k.value);
      }
      sales := sales - {id};
      out := Done;
      if Valid(old(State())) {
        DeleteExtraSaleKeepsValid(old(State()), company, id);
      }
    }

    method CreateServicePurchase(company: Id, purchaseId: Id, txId: Id, inp: PurchaseInput) returns (out: Outcome)
      modifies this
      ensures (State(), out) == CreateServicePurchaseSpec(old(State()), company, purchaseId, txId, inp)
      ensures old(Valid(State())) ==> Valid(State())
    {
      if inp.supplier !in caris {
        return NotFound("Supplier not found");
      }
      var cur := inp.currency.GetOr(EUR);
      purchases := purchases[purchaseId := ServicePurchase(company, inp.supplier, inp.date, inp.amount, cur)];
      txs := txs + [Transaction(txId, company, inp.supplier, "credit", inp.amount, cur,
        Some(purchaseId), Some(PurchaseRef), inp.date)];
      caris := IncCari(caris, inp.supplier, cur, -inp.amount);
      out := Done;
      if Valid(old(State())) {
        CreateServicePurchaseKeepsValid(old(State()), company, purchaseId, txId, inp);
      }
    }
  }
}
