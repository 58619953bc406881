/** Which invoices are plausible single matches for a wire. Amounts in cents, dates in days. */
module Features {
  import opened Common

  datatype WireView = WireView(wireId: string, amount: int, receivedOn: int, memo: string, sender: string)

  datatype InvoiceView = InvoiceView(invoiceId: string, payer: string, amount: int, dueDate: int)

  const AMOUNT_TOLERANCE := 0.5
  const DAYS_TOLERANCE := 60

  predicate InScope(payer: Option<string>, inv: InvoiceView) {
    payer.Some? ==> inv.payer == payer.value
  }

  /** Positive amount, and amount and date within the tolerances. */
  predicate Within(wire: WireView, inv: InvoiceView, relative: real, days: int) {
    && inv.amount > 0
    && Abs(wire.amount - inv.amount) as real / inv.amount as real <= relative
    && Abs(wire.receivedOn - inv.dueDate) <= days
  }

  /** The service's tolerances: relative difference at most one half, at most 60 days apart. */
  predicate Plausible(wire: WireView, inv: InvoiceView) {
    Within(wire, inv, AMOUNT_TOLERANCE, DAYS_TOLERANCE)
  }

  function IsWithin(wire: WireView, payer: Option<string>, relative: real, days: int): InvoiceView -> bool {
    (inv: InvoiceView) => InScope(payer, inv) && Within(wire, inv, relative, days)
  }

  function IsCandidate(wire: WireView, payer: Option<string>): InvoiceView -> bool {
    IsWithin(wire, payer, AMOUNT_TOLERANCE, DAYS_TOLERANCE)
  }

  function Candidates(wire: WireView, invoices: seq<InvoiceView>, payer: Option<string>): seq<InvoiceView> {
    Filter(invoices, IsCandidate(wire, payer))
  }

  method CandidatesForWire(wire: WireView, invoices: seq<InvoiceView>, payer: Option<string>,
                           relative: real, days: int)
    returns (out: seq<InvoiceView>)
    ensures out == Filter(invoices, IsWithin(wire, payer, relative, days))
  {
    out := [];
    for n := 0 to |invoices|
      invariant out == Filter(invoices[..n], IsWithin(wire, payer, relative, days))
    {
      var inv := invoices[n];
      FilterSingle(invoices[..n], inv, IsWithin(wire, payer, relative, days));
      assert invoices[..n + 1] == invoices[..n] + [inv];
      if payer.Some? && inv.payer != payer.value {
        continue;
      }
      if inv.amount <= 0 {
        continue;
      }
      var rel := Abs(wire.amount - inv.amount) as real / inv.amount as real;
      if rel > relative {
        continue;
      }
      var apart := wire.receivedOn - inv.dueDate;
      if Abs(apart) > days {
        continue;
      }
      out := out + [inv];
    }
    assert invoices[..|invoices|] == invoices;
  }

  lemma HalfOf(d: real, a: real)
    requires a > 0.0 && d / a <= 0.5
    ensures 2.0 * d <= a
  {
    assert d == (d / a) * a;
    assert (d / a) * a <= 0.5 * a;
  }

  /** The amount window alone forces the wire to be at least half the invoice, so positive. */
  lemma PlausibleWireIsPositive(wire: WireView, inv: InvoiceView)
    requires Plausible(wire, inv)
    ensures wire.amount > 0 && inv.amount <= 2 * wire.amount && 2 * wire.amount <= 3 * inv.amount
  {
    var gap := Abs(wire.amount - inv.amount);
    HalfOf(gap as real, inv.amount as real);
    assert (2 * gap) as real == 2.0 * gap as real;
    assert 2 * gap <= inv.amount;
  }
}
