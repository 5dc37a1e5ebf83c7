/**
 * The boolean masks the dashboard builds over its tables (`df[cond]`,
 * `cond1 & cond2`, `isin`, `between`, `status == ...`) and `Where`, the
 * order-preserving selection of the rows a mask keeps.
 */
module Masks {
  import opened Records

  datatype Mask =
    | Everything
    | HasStatus(status: Status)
    | PaidBetween(start: Timestamp, end: Timestamp)
    | CounterpartyIn(names: set<string>)
    | RmIn(rms: set<string>)
    | Both(left: Mask, right: Mask)

  /** Whether row `r` passes mask `m`; `between` is inclusive and false on a missing date. */
  predicate Holds(m: Mask, r: Invoice) {
    match m
    case Everything => true
    case HasStatus(s) => r.status == s
    case PaidBetween(start, end) => r.paymentDate.Some? && start <= r.paymentDate.value <= end
    case CounterpartyIn(names) => r.counterparty in names
    case RmIn(rms) => r.rm in rms
    case Both(left, right) => Holds(left, r) && Holds(right, r)
  }

  /** `rows[mask]`: the rows `m` keeps, in their original order. */
  function Where(rows: seq<Invoice>, m: Mask): (kept: seq<Invoice>)
    ensures |kept| <= |rows|
    ensures forall r {:trigger r in kept} :: r in kept <==> r in rows && Holds(m, r)
  {
    if rows == [] then []
    else
      var init, last := rows[..|rows| - 1], rows[|rows| - 1];
      assert rows == init + [last];
      if Holds(m, last) then Where(init, m) + [last] else Where(init, m)
  }

  /** Appending one row to a table appends it to the selection exactly when the mask keeps it. */
  lemma WhereSnoc(rows: seq<Invoice>, r: Invoice, m: Mask)
    ensures Where(rows + [r], m) == if Holds(m, r) then Where(rows, m) + [r] else Where(rows, m)
  {
    assert (rows + [r])[..|rows|] == rows;
  }

  /** Masking distributes over concatenation, so relative order is kept. */
  lemma {:induction false} WhereConcat(a: seq<Invoice>, b: seq<Invoice>, m: Mask)
    ensures Where(a + b, m) == Where(a, m) + Where(b, m)
  {
    if b != [] {
      var init, last := b[..|b| - 1], b[|b| - 1];
      assert (a + b)[..|a + b| - 1] == a + init;
      assert (a + b)[|a + b| - 1] == last;
      WhereConcat(a, init, m);
      if Holds(m, last) {
        assert Where(a, m) + (Where(init, m) + [last]) == (Where(a, m) + Where(init, m)) + [last];
      }
    } else {
      assert a + b == a;
    }
  }

  /** A mask every row passes keeps the table as it is. */
  lemma {:induction false} WhereKeepsAll(rows: seq<Invoice>, m: Mask)
    requires forall r :: r in rows ==> Holds(m, r)
    ensures Where(rows, m) == rows
  {
    if rows != [] {
      var init, last := rows[..|rows| - 1], rows[|rows| - 1];
      assert rows == init + [last];
      assert last in rows;
      forall r | r in init ensures Holds(m, r) {
        assert r in rows;
      }
      WhereKeepsAll(init, m);
      WhereSnoc(init, last, m);
    }
  }

  /** A mask no row passes keeps nothing. */
  lemma {:induction false} WhereKeepsNone(rows: seq<Invoice>, m: Mask)
    requires forall r :: r in rows ==> !Holds(m, r)
    ensures Where(rows, m) == []
  {
    if rows != [] {
      var init, last := rows[..|rows| - 1], rows[|rows| - 1];
      assert rows == init + [last];
      assert last in rows;
      forall r | r in init ensures !Holds(m, r) {
        assert r in rows;
      }
      WhereKeepsNone(init, m);
      WhereSnoc(init, last, m);
    }
  }

  /** Masking twice in a row equals masking once with the conjunction. */
  lemma {:induction false} WhereTwice(rows: seq<Invoice>, a: Mask, b: Mask)
    ensures Where(Where(rows, a), b) == Where(rows, Both(a, b))
  {
    if rows != [] {
      var init, last := rows[..|rows| - 1], rows[|rows| - 1];
      WhereTwice(init, a, b);
      if Holds(a, last) {
        var w := Where(init, a) + [last];
        assert w[..|w| - 1] == Where(init, a);
      }
    }
  }

  /** Applying the same mask again changes nothing. */
  lemma WhereIdempotent(rows: seq<Invoice>, m: Mask)
    ensures Where(Where(rows, m), m) == Where(rows, m)
  {
    WhereKeepsAll(Where(rows, m), m);
  }

  /** A table split by status: each row lands in exactly one part. */
  lemma {:induction false} StatusPartition(rows: seq<Invoice>)
    ensures |Where(rows, HasStatus(Paid))| + |Where(rows, HasStatus(Pending))| == |rows|
    ensures multiset(Where(rows, HasStatus(Paid))) + multiset(Where(rows, HasStatus(Pending)))
            == multiset(rows)
  {
    if rows != [] {
      var init, last := rows[..|rows| - 1], rows[|rows| - 1];
      StatusPartition(init);
      assert rows == init + [last];
      assert multiset(rows) == multiset(init) + multiset{last};
      WhereSnoc(init, last, HasStatus(Paid));
      WhereSnoc(init, last, HasStatus(Pending));
      if last.status == Paid {
        assert multiset(Where(rows, HasStatus(Paid))) == multiset(Where(init, HasStatus(Paid))) + multiset{last};
      } else {
        assert multiset(Where(rows, HasStatus(Pending))) == multiset(Where(init, HasStatus(Pending))) + multiset{last};
      }
    }
  }
}
