/** What every ledger operation keeps, and how much one posting may move. */
module LedgerInvariant {
  import opened Common
  import opened Features
  import opened IdList
  import opened Combinations
  import opened Ledger
  import Bundler

  ghost predicate InvoiceOk(inv: Invoice) {
    && CommaFree(inv.id)
    && 0 <= inv.amountPaid <= inv.amount
    && (inv.status == Paid ==> inv.amountPaid == inv.amount)
  }

  ghost predicate IdsDistinct(invoices: seq<Invoice>) {
    forall i, j :: 0 <= i < j < |invoices| ==> invoices[i].id != invoices[j].id
  }

  ghost predicate InvoicesOk(invoices: seq<Invoice>) {
    IdsDistinct(invoices) && forall i :: 0 <= i < |invoices| ==> InvoiceOk(invoices[i])
  }

  /** The credit a posting offers to each row. */
  function Offer(ids: seq<string>, wireAmount: int, isBundle: bool): Invoice -> int {
    (inv: Invoice) => if inv.id in ids then Credit(inv, wireAmount, isBundle) else 0
  }

  /** A bundle may exceed its wire by the bundler's tolerance of 1.00; a single may not. */
  function Slack(isBundle: bool): int {
    if isBundle then Bundler.DEFAULT_TOLERANCE else 0
  }

  /** What posting `ids` for a wire offers in total stays within the wire and its slack. */
  ghost predicate Covered(invoices: seq<Invoice>, ids: seq<string>, wireAmount: int, isBundle: bool) {
    wireAmount > 0 && Sum(invoices, Offer(ids, wireAmount, isBundle)) <= wireAmount + Slack(isBundle)
  }

  /** A stored candidate belongs to a stored wire and is covered by it. */
  ghost predicate CandidateOk(l: LedgerState, c: Candidate) {
    c.wireId in l.wires && Covered(l.invoices, Split(c.invoiceIds), l.wires[c.wireId].amount, c.isBundle)
  }

  ghost predicate Inv(l: LedgerState) {
    && InvoicesOk(l.invoices)
    && forall i :: 0 <= i < |l.candidates| ==> CandidateOk(l, l.candidates[i])
  }

  // ---- Posting ------------------------------------------------------------------------

  /** What one operation may do to an invoice: identity and amount stay, payments only grow and
      never pass the amount, and PAID is never undone. */
  ghost predicate LaterInvoice(a: Invoice, b: Invoice) {
    && a.id == b.id && a.payer == b.payer && a.amount == b.amount && a.dueDate == b.dueDate
    && a.amountPaid <= b.amountPaid <= b.amount
    && (a.status == Paid ==> b.status == Paid && b.amountPaid == a.amountPaid)
  }

  ghost predicate LaterInvoices(a: seq<Invoice>, b: seq<Invoice>) {
    |a| == |b| && forall i :: 0 <= i < |a| ==> LaterInvoice(a[i], b[i])
  }

  function PaidOf(): Invoice -> int {
    (inv: Invoice) => inv.amountPaid
  }

  function TotalPaid(invoices: seq<Invoice>): int {
    Sum(invoices, PaidOf())
  }

  lemma {:induction false} SumAdd<T>(rows: seq<T>, f: T -> int, g: T -> int, h: T -> int)
    requires forall i :: 0 <= i < |rows| ==> h(rows[i]) == f(rows[i]) + g(rows[i])
    ensures Sum(rows, h) == Sum(rows, f) + Sum(rows, g)
  {
    if rows != [] {
      SumAdd(rows[..|rows| - 1], f, g, h);
    }
  }

  /** A posted row is PAID exactly when it is fully paid, and PARTIAL otherwise. */
  lemma CreditedRow(inv: Invoice, wireAmount: int, isBundle: bool)
    requires InvoiceOk(inv) && wireAmount > 0
    ensures var after := Credited(inv, wireAmount, isBundle);
            && InvoiceOk(after) && LaterInvoice(inv, after)
            && (after.status == Paid <==> after.amountPaid == after.amount)
            && (after.status == Partial <==> after.amountPaid < after.amount)
            && after.amountPaid - inv.amountPaid <= Credit(inv, wireAmount, isBundle)
            && (isBundle ==> after.amountPaid == after.amount)
            && (!isBundle && wireAmount <= inv.amount - inv.amountPaid ==> after.amountPaid == inv.amountPaid + wireAmount)
            && (!isBundle && wireAmount > inv.amount - inv.amountPaid ==> after.amountPaid == inv.amount)
  {
  }

  lemma PostedRows(invoices: seq<Invoice>, ids: seq<string>, wireAmount: int, isBundle: bool)
    requires InvoicesOk(invoices) && wireAmount > 0
    ensures var after := Posted(invoices, ids, wireAmount, isBundle);
            && InvoicesOk(after) && LaterInvoices(invoices, after)
            && forall i :: 0 <= i < |after| ==>
                 if after[i].id in ids then (after[i].status == Paid <==> after[i].amountPaid == after[i].amount)
                                            && (after[i].status == Paid || after[i].status == Partial)
                 else after[i] == invoices[i]
  {
    forall i | 0 <= i < |invoices| ensures InvoiceOk(Credited(invoices[i], wireAmount, isBundle))
                                           && LaterInvoice(invoices[i], Credited(invoices[i], wireAmount, isBundle)) {
      CreditedRow(invoices[i], wireAmount, isBundle);
    }
  }

  /** A covered posting moves at most the wire amount and its slack, and moves nothing back. */
  lemma PostingGrowth(invoices: seq<Invoice>, ids: seq<string>, wireAmount: int, isBundle: bool)
    requires InvoicesOk(invoices) && Covered(invoices, ids, wireAmount, isBundle)
    ensures var growth := TotalPaid(Posted(invoices, ids, wireAmount, isBundle)) - TotalPaid(invoices);
            0 <= growth <= wireAmount + Slack(isBundle)
  {
    var after := Posted(invoices, ids, wireAmount, isBundle);
    var offer := Offer(ids, wireAmount, isBundle);
    var both := (inv: Invoice) => PaidOf()(inv) + offer(inv);
    SumAdd(invoices, PaidOf(), offer, both);
    forall i | 0 <= i < |invoices| ensures PaidOf()(invoices[i]) <= PaidOf()(after[i]) <= both(invoices[i]) {
      CreditedRow(invoices[i], wireAmount, isBundle);
    }
    SumMonotone(invoices, after, PaidOf(), PaidOf());
    SumMonotone(after, invoices, PaidOf(), both);
  }

  /** Offers depend only on ids and amounts, which no operation changes. */
  lemma CoveredLater(a: seq<Invoice>, b: seq<Invoice>, ids: seq<string>, wireAmount: int, isBundle: bool)
    requires LaterInvoices(a, b) && Covered(a, ids, wireAmount, isBundle)
    ensures Covered(b, ids, wireAmount, isBundle)
  {
    var offer := Offer(ids, wireAmount, isBundle);
    forall i | 0 <= i < |a| ensures offer(a[i]) == offer(b[i]) {
      assert LaterInvoice(a[i], b[i]);
    }
    SumCongruent(a, b, offer, offer);
  }

  // ---- Where cover comes from ---------------------------------------------------------

  lemma {:induction false} AbsentOffersNothing(invoices: seq<Invoice>, ids: seq<string>, wireAmount: int, isBundle: bool)
    requires forall i :: 0 <= i < |invoices| ==> invoices[i].id !in ids
    ensures Sum(invoices, Offer(ids, wireAmount, isBundle)) == 0
  {
    if invoices != [] {
      AbsentOffersNothing(invoices[..|invoices| - 1], ids, wireAmount, isBundle);
    }
  }

  /** One id is offered one credit, whichever row carries it. */
  lemma {:induction false} OneIdOneOffer(invoices: seq<Invoice>, k: nat, wireAmount: int, isBundle: bool)
    requires IdsDistinct(invoices) && k < |invoices|
    ensures Sum(invoices, Offer([invoices[k].id], wireAmount, isBundle)) == Credit(invoices[k], wireAmount, isBundle)
  {
    var n := |invoices| - 1;
    var ids := [invoices[k].id];
    if k == n {
      AbsentOffersNothing(invoices[..n], ids, wireAmount, isBundle);
    } else {
      OneIdOneOffer(invoices[..n], k, wireAmount, isBundle);
      assert invoices[n].id != invoices[k].id;
    }
  }

  /** The entry names an invoice and quotes its amount. */
  ghost predicate Quoted(invoices: seq<Invoice>, e: Bundler.Entry) {
    exists i :: 0 <= i < |invoices| && invoices[i].id == e.0 && invoices[i].amount == e.1
  }

  ghost predicate Listed(invoices: seq<Invoice>, pool: seq<Bundler.Entry>) {
    forall j :: 0 <= j < |pool| ==> Quoted(invoices, pool[j])
  }

  ghost predicate PoolDistinct(pool: seq<Bundler.Entry>) {
    forall i, j :: 0 <= i < j < |pool| ==> pool[i].0 != pool[j].0
  }

  /** The bundler's total is what crediting every member in full offers. */
  lemma {:induction false} BundleOffersTotal(invoices: seq<Invoice>, pool: seq<Bundler.Entry>, c: Combo, wireAmount: int)
    requires IdsDistinct(invoices) && Listed(invoices, pool) && PoolDistinct(pool)
    requires Increasing(c, 0, |pool|)
    ensures Sum(invoices, Offer(Bundler.Ids(pool, c), wireAmount, true)) == Bundler.Total(pool, c)
  {
    if c == [] {
      AbsentOffersNothing(invoices, [], wireAmount, true);
    } else {
      var front, x := c[..|c| - 1], c[|c| - 1];
      BundleOffersTotal(invoices, pool, front, wireAmount);
      var ids, id := Bundler.Ids(pool, front), pool[x].0;
      assert Bundler.Ids(pool, c) == ids + [id];
      forall j | 0 <= j < |ids| ensures ids[j] != id {
        assert front[j] < x;
      }
      assert Quoted(invoices, pool[x]);
      var i :| 0 <= i < |invoices| && invoices[i].id == id && invoices[i].amount == pool[x].1;
      OneIdOneOffer(invoices, i, wireAmount, true);
      SumAdd(invoices, Offer(ids, wireAmount, true), Offer([id], wireAmount, true), Offer(ids + [id], wireAmount, true));
    }
  }

  // ---- Rows the service works from ----------------------------------------------------

  lemma {:induction false} FilterKeepsDistinct(invoices: seq<Invoice>, p: Invoice -> bool)
    requires IdsDistinct(invoices)
    ensures IdsDistinct(Filter(invoices, p))
  {
    if invoices != [] {
      var n := |invoices| - 1;
      FilterKeepsDistinct(invoices[..n], p);
      FilterMembers(invoices[..n], p);
      var r := Filter(invoices[..n], p);
      forall i | 0 <= i < |r| ensures r[i].id != invoices[n].id {
        assert r[i] in r;
      }
    }
  }

  /** Some open invoice in scope has this id and amount. */
  ghost predicate Backed(invoices: seq<Invoice>, payer: Option<string>, e: Bundler.Entry) {
    exists i :: 0 <= i < |invoices| && invoices[i].id == e.0 && invoices[i].amount == e.1
                && IsOpenRow(invoices[i]) && OfScope(payer)(invoices[i])
  }

  /** The bundler's input: distinct entries, each an open invoice in scope with its amount. */
  lemma BundlePool(invoices: seq<Invoice>, payer: Option<string>)
    requires IdsDistinct(invoices)
    ensures var pool := Bundler.Pool(Entries(BundleRows(invoices, payer)));
            && Listed(invoices, pool) && PoolDistinct(pool)
            && forall j :: 0 <= j < |pool| ==> Backed(invoices, payer, pool[j])
  {
    var rows := BundleRows(invoices, payer);
    FilterKeepsDistinct(invoices, IsOpenRow);
    FilterKeepsDistinct(OpenRows(invoices), OfScope(payer));
    FilterMembers(invoices, IsOpenRow);
    FilterMembers(OpenRows(invoices), OfScope(payer));
    var pool := Bundler.Pool(Entries(rows));
    forall j | 0 <= j < |pool| ensures Backed(invoices, payer, pool[j]) {
      assert rows[j] in rows;
      assert rows[j] in invoices;
      var i :| 0 <= i < |invoices| && invoices[i] == rows[j];
    }
    BackedIsListed(invoices, payer, pool);
  }

  lemma BackedIsListed(invoices: seq<Invoice>, payer: Option<string>, pool: seq<Bundler.Entry>)
    requires forall j :: 0 <= j < |pool| ==> Backed(invoices, payer, pool[j])
    ensures Listed(invoices, pool)
  {
    forall j | 0 <= j < |pool| ensures Quoted(invoices, pool[j]) {
      assert Backed(invoices, payer, pool[j]);
    }
  }
}
