/**
 * The sidebar's global filter: an inclusive payment-date range on the paid
 * table only, then membership in the selected counterparties and RMs on both
 * tables. Each step re-selects the current table with a boolean mask.
 */
module Filters {
  import opened Records
  import opened Masks

  /** The date picker's value: while one end is still being chosen no date filter applies. */
  datatype DateRange = Incomplete | Span(start: Timestamp, end: Timestamp)

  function DateMask(range: DateRange): (m: Mask)
    ensures forall r :: Holds(m, r) <==>
      (range.Span? ==> r.paymentDate.Some? && range.start <= r.paymentDate.value <= range.end)
  {
    match range
    case Incomplete => Everything
    case Span(start, end) => PaidBetween(start, end)
  }

  /** `correspondente.isin(...) & numero_rm.isin(...)`. */
  function Selection(counterparties: set<string>, rms: set<string>): (m: Mask)
    ensures forall r :: Holds(m, r) <==> r.counterparty in counterparties && r.rm in rms
  {
    Both(CounterpartyIn(counterparties), RmIn(rms))
  }

  /** Everything the filter asks of a paid row. */
  function PaidFilter(range: DateRange, counterparties: set<string>, rms: set<string>): Mask {
    Both(DateMask(range), Selection(counterparties, rms))
  }

  /** `df[mask]`: one pass over the table keeping the rows the mask holds for. */
  method ApplyMask(rows: seq<Invoice>, m: Mask) returns (kept: seq<Invoice>)
    ensures kept == Where(rows, m)
  {
    kept := [];
    var i := 0;
    while i < |rows|
      invariant i <= |rows|
      invariant kept == Where(rows[..i], m)
    {
      assert rows[..i + 1] == rows[..i] + [rows[i]];
      WhereSnoc(rows[..i], rows[i], m);
      if Holds(m, rows[i]) {
        kept := kept + [rows[i]];
      }
      i := i + 1;
    }
    assert rows[..i] == rows;
  }

  /**
   * The filter block: copy both tables, narrow the paid one to the date range
   * when both ends are set, then narrow both to the selected counterparties and RMs.
   */
  method FilterTables(paid: seq<Invoice>, pending: seq<Invoice>, range: DateRange,
                      counterparties: set<string>, rms: set<string>)
    returns (paidFiltered: seq<Invoice>, pendingFiltered: seq<Invoice>)
    ensures paidFiltered == Where(paid, PaidFilter(range, counterparties, rms))
    ensures pendingFiltered == Where(pending, Selection(counterparties, rms))
  {
    var selection := Selection(counterparties, rms);
    paidFiltered, pendingFiltered := paid, pending;
    if range.Span? {
      paidFiltered := ApplyMask(paidFiltered, PaidBetween(range.start, range.end));
    } else {
      WhereKeepsAll(paid, Everything);
    }
    paidFiltered := ApplyMask(paidFiltered, selection);
    pendingFiltered := ApplyMask(pendingFiltered, selection);
    WhereTwice(paid, DateMask(range), selection);
  }

  /** Filtering already filtered tables with the same choices changes nothing. */
  lemma FilterIdempotent(paid: seq<Invoice>, pending: seq<Invoice>, range: DateRange,
                         counterparties: set<string>, rms: set<string>)
    ensures var m := PaidFilter(range, counterparties, rms);
      Where(Where(paid, m), m) == Where(paid, m)
    ensures var s := Selection(counterparties, rms);
      Where(Where(pending, s), s) == Where(pending, s)
  {
    WhereIdempotent(paid, PaidFilter(range, counterparties, rms));
    WhereIdempotent(pending, Selection(counterparties, rms));
  }

  /** Selecting no counterparty, or no RM, shows nothing in either table. */
  lemma {:induction false} EmptySelectionShowsNothing(paid: seq<Invoice>, pending: seq<Invoice>, range: DateRange,
                                                      counterparties: set<string>, rms: set<string>)
    requires counterparties == {} || rms == {}
    ensures Where(paid, PaidFilter(range, counterparties, rms)) == []
    ensures Where(pending, Selection(counterparties, rms)) == []
  {
    WhereKeepsNone(paid, PaidFilter(range, counterparties, rms));
    WhereKeepsNone(pending, Selection(counterparties, rms));
  }

  /**
   * With both ends chosen, a paid row survives exactly when it has a payment
   * date inside the range, both ends included, and its counterparty and RM are selected.
   */
  lemma FilteredPaidWithinRange(paid: seq<Invoice>, start: Timestamp, end: Timestamp,
                                                  counterparties: set<string>, rms: set<string>)
    ensures forall r :: r in Where(paid, PaidFilter(Span(start, end), counterparties, rms)) <==>
      r in paid && r.paymentDate.Some? && start <= r.paymentDate.value <= end
        && r.counterparty in counterparties && r.rm in rms
  {
  }
}
