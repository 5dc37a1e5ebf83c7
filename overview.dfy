/**
 * The overview page (`display_visao_geral`): the four KPIs over the filtered
 * paid table and the per-counterparty composition chart.
 */
module Overview {
  import opened Wrappers
  import opened Records
  import opened Orders
  import opened Grouping

  /** `idxmax` on `valor_total_pago`: the first row holding the largest total. */
  function FirstMaxIndex(rows: seq<Invoice>): (j: nat)
    requires |rows| > 0
    ensures j < |rows|
    ensures forall i :: 0 <= i < |rows| ==> rows[i].totalPaid <= rows[j].totalPaid
    ensures forall i :: 0 <= i < j ==> rows[i].totalPaid < rows[j].totalPaid
  {
    if |rows| == 1 then 0
    else
      var j := FirstMaxIndex(rows[..|rows| - 1]);
      if rows[|rows| - 1].totalPaid > rows[j].totalPaid then |rows| - 1 else j
  }

  /** `top` is a key with the largest grouped sum of totals; ties go to the first key in sorted order. */
  ghost predicate IsTopKey(rows: seq<Invoice>, keyOf: Invoice -> string, top: string) {
    && (exists r :: r in rows && keyOf(r) == top)
    && forall r :: r in rows ==>
      var mine, best := SumWhere(rows, keyOf, keyOf(r), TotalPaidOf), SumWhere(rows, keyOf, top, TotalPaidOf);
      mine < best || (mine == best && (keyOf(r) == top || StrLess(top, keyOf(r))))
  }

  /** `groupby(key)['valor_total_pago'].sum().idxmax()`. */
  function TopKey(rows: seq<Invoice>, keyOf: Invoice -> string): (top: string)
    requires |rows| > 0
    ensures IsTopKey(rows, keyOf, top)
  {
    var groups := Groups(rows, keyOf, TotalPaidOf);
    assert rows[0] in rows;
    var ranked := Rank(groups, StrLess);
    StrLessIsStrictTotal();
    RankRanked(groups, StrLess);
    var first := ranked[0];
    assert first in multiset(groups);
    CountWhereWitness(rows, keyOf, first.key);
    assert forall r :: r in rows ==>
      var mine, best := SumWhere(rows, keyOf, keyOf(r), TotalPaidOf), first.sum;
      mine < best || (mine == best && (keyOf(r) == first.key || StrLess(first.key, keyOf(r)))) by {
      forall r | r in rows
        ensures var mine, best := SumWhere(rows, keyOf, keyOf(r), TotalPaidOf), first.sum;
          mine < best || (mine == best && (keyOf(r) == first.key || StrLess(first.key, keyOf(r))))
      {
        var b :| b in groups && b.key == keyOf(r);
        assert b in multiset(ranked);
        var j :| 0 <= j < |ranked| && ranked[j] == b;
        if j > 0 {
          assert !Before(ranked[j], ranked[0], StrLess);
        }
      }
    }
    first.key
  }

  /** The four KPI cards. */
  datatype Kpis = Kpis(totalPaid: real, largest: Option<Invoice>, topRm: string, topCounterparty: string)

  /** The KPIs, with the placeholders the page shows when no paid row is left. */
  function OverviewKpis(paid: seq<Invoice>): (k: Kpis)
    ensures paid == [] ==> k == Kpis(0.0, None, "N/A", "N/A")
    ensures paid != [] ==> k.largest.Some? && k.largest.value in paid
  {
    if paid == [] then Kpis(0.0, None, "N/A", "N/A")
    else Kpis(Sum(paid, TotalPaidOf), Some(paid[FirstMaxIndex(paid)]), TopKey(paid, RmOf), TopKey(paid, CounterpartyOf))
  }

  /**
   * With paid rows: the total is the column sum, the largest invoice is the
   * first row with the maximal total, and the RM and counterparty cards name
   * keys with the largest grouped sum (ties: the first key in sorted order).
   */
  lemma OverviewKpisCorrect(paid: seq<Invoice>)
    requires paid != []
    ensures var k := OverviewKpis(paid);
      && k.totalPaid == Sum(paid, TotalPaidOf)
      && k.largest.Some?
      && (exists j :: 0 <= j < |paid| && paid[j] == k.largest.value
            && (forall i :: 0 <= i < |paid| ==> paid[i].totalPaid <= paid[j].totalPaid)
            && (forall i :: 0 <= i < j ==> paid[i].totalPaid < paid[j].totalPaid))
      && IsTopKey(paid, RmOf, k.topRm)
      && IsTopKey(paid, CounterpartyOf, k.topCounterparty)
  {
    var j := FirstMaxIndex(paid);
    assert paid[j] == OverviewKpis(paid).largest.value;
  }

  /** The charted components of one counterparty, in the legend's order. */
  datatype Parts = Parts(principal: real, iof: real, irrf: real, cide: real, contractFee: real) {
    /** `sum(axis=1)`: the bar's full length. */
    function Total(): real {
      principal + iof + irrf + cide + contractFee
    }
  }

  /** The counterparty's row of `groupby('correspondente')[components].sum()`. */
  function PartsOf(rows: seq<Invoice>, counterparty: string): Parts {
    Parts(SumWhere(rows, CounterpartyOf, counterparty, PrincipalOf),
          SumWhere(rows, CounterpartyOf, counterparty, IofOf),
          SumWhere(rows, CounterpartyOf, counterparty, IrrfOf),
          SumWhere(rows, CounterpartyOf, counterparty, CideOf),
          SumWhere(rows, CounterpartyOf, counterparty, ContractFeeOf))
  }

  /** Summing components per group and then across equals summing each row's components. */
  lemma {:induction false} PartsAddUp(rows: seq<Invoice>, counterparty: string)
    ensures PartsOf(rows, counterparty).Total() == SumWhere(rows, CounterpartyOf, counterparty, ComponentTotalOf)
  {
    if rows != [] {
      PartsAddUp(rows[..|rows| - 1], counterparty);
    }
  }

  /** On loaded rows the component total is `valor_total_pago`, so both groupings agree. */
  lemma {:induction false} ComponentTotalIsTotalPaid(rows: seq<Invoice>, keyOf: Invoice -> string, k: string)
    requires forall r :: r in rows ==> WellFormed(r)
    ensures SumWhere(rows, keyOf, k, ComponentTotalOf) == SumWhere(rows, keyOf, k, TotalPaidOf)
  {
    if rows != [] {
      var init := rows[..|rows| - 1];
      assert rows[|rows| - 1] in rows;
      forall r | r in init ensures WellFormed(r) {
        assert r in rows;
      }
      ComponentTotalIsTotalPaid(init, keyOf, k);
    }
  }

  /** One bar of the composition chart. */
  datatype CompositionRow = CompositionRow(counterparty: string, parts: Parts, total: real)

  /** How many counterparties the chart shows unless "show all" is ticked. */
  const ChartLimit: nat := 20

  /** The ranked buckets the chart draws. */
  function ChartBuckets(paid: seq<Invoice>, showAll: bool): seq<Bucket<string>> {
    var groups := Groups(paid, CounterpartyOf, ComponentTotalOf);
    TopN(groups, if showAll then |groups| else ChartLimit, StrLess)
  }

  /** The composition chart: `nlargest(top_n, 'total')` over the per-counterparty component sums. */
  function Composition(paid: seq<Invoice>, showAll: bool): (chart: seq<CompositionRow>)
    ensures chart == [] <==> paid == []
    ensures !showAll ==> |chart| <= ChartLimit
  {
    GroupsEmpty(paid, CounterpartyOf, ComponentTotalOf);
    var top := ChartBuckets(paid, showAll);
    seq(|top|, i requires 0 <= i < |top| => CompositionRow(top[i].key, PartsOf(paid, top[i].key), top[i].sum))
  }

  /** Bars drawn from a ranked prefix with distinct keys come in non-increasing total, one per counterparty. */
  lemma BarsFollowRanking(top: seq<Bucket<string>>, chart: seq<CompositionRow>)
    requires |chart| == |top|
    requires forall i :: 0 <= i < |top| ==> chart[i].counterparty == top[i].key && chart[i].total == top[i].sum
    requires Ranked(top, StrLess) && KeysDistinct(top)
    ensures forall i, j :: 0 <= i < j < |chart| ==>
      chart[j].total <= chart[i].total && chart[i].counterparty != chart[j].counterparty
  {
    forall i, j | 0 <= i < j < |chart|
      ensures chart[j].total <= chart[i].total && chart[i].counterparty != chart[j].counterparty
    {
      assert !Before(top[j], top[i], StrLess);
    }
  }

  /**
   * The chart shows min(N, #counterparties) distinct counterparties (N = 20, or
   * all of them when "show all" is ticked), in non-increasing total.
   */
  lemma CompositionShape(paid: seq<Invoice>, showAll: bool)
    ensures var chart := Composition(paid, showAll);
      var groups := Groups(paid, CounterpartyOf, ComponentTotalOf);
      && |chart| == (if showAll || |groups| <= ChartLimit then |groups| else ChartLimit)
      && (forall i, j :: 0 <= i < j < |chart| ==>
            chart[j].total <= chart[i].total && chart[i].counterparty != chart[j].counterparty)
  {
    var chart := Composition(paid, showAll);
    var groups := Groups(paid, CounterpartyOf, ComponentTotalOf);
    var n := if showAll then |groups| else ChartLimit;
    var top := ChartBuckets(paid, showAll);
    StrLessIsStrictTotal();
    TopNKeepsLargest(groups, n, StrLess);
    RankKeysDistinct(groups, StrLess);
    var ranked := Rank(groups, StrLess);
    assert top == ranked[..|top|];
    assert KeysDistinct(top) by {
      forall i, j | 0 <= i < j < |top| ensures top[i].key != top[j].key {
        assert top[i] == ranked[i] && top[j] == ranked[j];
      }
    }
    BarsFollowRanking(top, chart);
  }

  /**
   * Each bar belongs to a counterparty with paid rows; its five segments are
   * that counterparty's sums of each component, and they add up to its total.
   */
  lemma CompositionBars(paid: seq<Invoice>, showAll: bool)
    ensures var chart := Composition(paid, showAll);
      forall i :: 0 <= i < |chart| ==>
        var c := chart[i].counterparty;
        && chart[i].parts == Parts(SumWhere(paid, CounterpartyOf, c, PrincipalOf),
                                   SumWhere(paid, CounterpartyOf, c, IofOf),
                                   SumWhere(paid, CounterpartyOf, c, IrrfOf),
                                   SumWhere(paid, CounterpartyOf, c, CideOf),
                                   SumWhere(paid, CounterpartyOf, c, ContractFeeOf))
        && chart[i].parts.Total() == chart[i].total
        && chart[i].total == SumWhere(paid, CounterpartyOf, c, ComponentTotalOf)
        && exists r :: r in paid && r.counterparty == c
  {
    var chart := Composition(paid, showAll);
    var groups := Groups(paid, CounterpartyOf, ComponentTotalOf);
    var n := if showAll then |groups| else ChartLimit;
    var top := ChartBuckets(paid, showAll);
    StrLessIsStrictTotal();
    TopNKeepsLargest(groups, n, StrLess);
    forall i | 0 <= i < |chart|
      ensures chart[i].parts.Total() == chart[i].total
      ensures chart[i].total == SumWhere(paid, CounterpartyOf, chart[i].counterparty, ComponentTotalOf)
      ensures exists r :: r in paid && r.counterparty == chart[i].counterparty
    {
      assert top[i] in multiset(groups);
      CountWhereWitness(paid, CounterpartyOf, top[i].key);
      PartsAddUp(paid, top[i].key);
    }
  }

  /** A bucket whose key no bar carries is no larger than any bar of a ranking prefix. */
  lemma LeftOutIsSmaller(groups: seq<Bucket<string>>, top: seq<Bucket<string>>, chart: seq<CompositionRow>,
                         b: Bucket<string>)
    requires |chart| == |top|
    requires forall i :: 0 <= i < |top| ==> chart[i].counterparty == top[i].key && chart[i].total == top[i].sum
    requires forall x, y :: x in groups && x !in top && y in top ==> !Before(x, y, StrLess)
    requires b in groups && forall j :: 0 <= j < |chart| ==> chart[j].counterparty != b.key
    ensures forall i :: 0 <= i < |chart| ==> b.sum <= chart[i].total
  {
    assert b !in top;
    forall i | 0 <= i < |chart| ensures b.sum <= chart[i].total {
      assert top[i] in top;
      assert !Before(b, top[i], StrLess);
    }
  }

  /** A counterparty left off the chart paid no more than any counterparty shown. */
  lemma CompositionOmitsSmallest(paid: seq<Invoice>, showAll: bool)
    ensures var chart := Composition(paid, showAll);
      forall r :: r in paid && (forall j :: 0 <= j < |chart| ==> chart[j].counterparty != r.counterparty) ==>
        forall i :: 0 <= i < |chart| ==>
          SumWhere(paid, CounterpartyOf, r.counterparty, ComponentTotalOf) <= chart[i].total
  {
    var chart := Composition(paid, showAll);
    var groups := Groups(paid, CounterpartyOf, ComponentTotalOf);
    var n := if showAll then |groups| else ChartLimit;
    var top := ChartBuckets(paid, showAll);
    StrLessIsStrictTotal();
    TopNKeepsLargest(groups, n, StrLess);
    forall r | r in paid && (forall j :: 0 <= j < |chart| ==> chart[j].counterparty != r.counterparty)
      ensures forall i :: 0 <= i < |chart| ==>
        SumWhere(paid, CounterpartyOf, r.counterparty, ComponentTotalOf) <= chart[i].total
    {
      var b :| b in groups && b.key == r.counterparty;
      LeftOutIsSmaller(groups, top, chart, b);
    }
  }
}
