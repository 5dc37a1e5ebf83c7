/**
 * The counterparties page (`display_correspondentes`): the ranking table, the
 * top-10 share chart and the pending breakdown per counterparty and currency.
 */
module Counterparties {
  import opened Records
  import opened Orders
  import opened Grouping
  import opened Overview

  /** `groupby('correspondente')['valor_total_pago'].sum().sort_values(ascending=False)`. */
  function Ranking(paid: seq<Invoice>): (ranking: seq<Bucket<string>>)
    ensures multiset(ranking) == multiset(Groups(paid, CounterpartyOf, TotalPaidOf))
    ensures ranking == [] <==> paid == []
  {
    GroupsEmpty(paid, CounterpartyOf, TotalPaidOf);
    Rank(Groups(paid, CounterpartyOf, TotalPaidOf), StrLess)
  }

  /**
   * The ranking lists every counterparty of the paid rows once, with the sum
   * of its totals, largest first; its column adds up to the overview's total.
   */
  lemma RankingCorrect(paid: seq<Invoice>)
    ensures var ranking := Ranking(paid);
      && KeysDistinct(ranking)
      && (forall r :: r in paid ==> exists b :: b in ranking && b.key == r.counterparty)
      && (forall b :: b in ranking ==>
            b.sum == SumWhere(paid, CounterpartyOf, b.key, TotalPaidOf) && b.count > 0)
      && (forall i, j :: 0 <= i < j < |ranking| ==> ranking[j].sum <= ranking[i].sum)
      && TotalOf(ranking) == Sum(paid, TotalPaidOf) == OverviewKpis(paid).totalPaid
  {
    var groups := Groups(paid, CounterpartyOf, TotalPaidOf);
    var ranking := Ranking(paid);
    StrLessIsStrictTotal();
    RankRanked(groups, StrLess);
    RankedSumsDescend(ranking, StrLess);
    RankKeysDistinct(groups, StrLess);
    GroupsConserve(paid, CounterpartyOf, TotalPaidOf);
    RankTotals(groups, StrLess);
    forall r | r in paid ensures exists b :: b in ranking && b.key == r.counterparty {
      var b :| b in groups && b.key == r.counterparty;
      assert b in multiset(ranking);
    }
    forall b | b in ranking
      ensures b.sum == SumWhere(paid, CounterpartyOf, b.key, TotalPaidOf) && b.count > 0
    {
      assert b in multiset(groups);
    }
  }

  /** How many counterparties the share chart shows. */
  const ShareLimit: nat := 10

  /** `groupby('correspondente')['valor_total_pago'].sum().nlargest(10)`. */
  function TopShare(paid: seq<Invoice>): (top: seq<Bucket<string>>)
    ensures |top| <= ShareLimit
    ensures top == [] <==> paid == []
  {
    GroupsEmpty(paid, CounterpartyOf, TotalPaidOf);
    TopN(Groups(paid, CounterpartyOf, TotalPaidOf), ShareLimit, StrLess)
  }

  /**
   * The share chart holds min(10, #counterparties) slices, one per distinct
   * counterparty with paid rows, each with that counterparty's summed totals;
   * no counterparty left out paid more than one shown.
   */
  lemma TopShareCorrect(paid: seq<Invoice>)
    ensures var top := TopShare(paid);
      var groups := Groups(paid, CounterpartyOf, TotalPaidOf);
      && |top| == (if |groups| <= ShareLimit then |groups| else ShareLimit)
      && KeysDistinct(top)
      && (forall b :: b in top ==> exists r :: r in paid && r.counterparty == b.key)
      && (forall b :: b in top ==> b.sum == SumWhere(paid, CounterpartyOf, b.key, TotalPaidOf))
      && (forall r :: r in paid && (forall t :: t in top ==> t.key != r.counterparty) ==>
            forall t :: t in top ==> SumWhere(paid, CounterpartyOf, r.counterparty, TotalPaidOf) <= t.sum)
  {
    var groups := Groups(paid, CounterpartyOf, TotalPaidOf);
    var top := TopShare(paid);
    StrLessIsStrictTotal();
    TopNKeepsLargest(groups, ShareLimit, StrLess);
    RankKeysDistinct(groups, StrLess);
    var ranked := Rank(groups, StrLess);
    assert top == ranked[..|top|];
    assert KeysDistinct(top) by {
      forall i, j | 0 <= i < j < |top| ensures top[i].key != top[j].key {
        assert top[i] == ranked[i] && top[j] == ranked[j];
      }
    }
    forall b | b in top
      ensures b.sum == SumWhere(paid, CounterpartyOf, b.key, TotalPaidOf)
      ensures exists r :: r in paid && r.counterparty == b.key
    {
      assert b in multiset(groups);
      CountWhereWitness(paid, CounterpartyOf, b.key);
    }
    forall r | r in paid && (forall t :: t in top ==> t.key != r.counterparty)
      ensures forall t :: t in top ==> SumWhere(paid, CounterpartyOf, r.counterparty, TotalPaidOf) <= t.sum
    {
      var b :| b in groups && b.key == r.counterparty;
      TopNOmitsSmaller(groups, ShareLimit, StrLess, b);
    }
  }

  /**
   * `groupby(['correspondente', 'moeda'])['valor_moeda_origem'].agg(['count', 'sum'])`
   * sorted by the sum, largest first.
   */
  function PendingBreakdown(pending: seq<Invoice>): (lines: seq<Bucket<(string, string)>>)
    ensures multiset(lines) == multiset(Groups(pending, CounterpartyCurrencyOf, ForeignAmountOf))
    ensures lines == [] <==> pending == []
  {
    GroupsEmpty(pending, CounterpartyCurrencyOf, ForeignAmountOf);
    Rank(Groups(pending, CounterpartyCurrencyOf, ForeignAmountOf), PairLess)
  }

  /**
   * One line per (counterparty, currency) pair of the pending rows, counting
   * and summing that pair's rows in the original currency, largest sum first;
   * the counts add up to the number of pending rows and the sums to their
   * total foreign amount.
   */
  lemma PendingBreakdownCorrect(pending: seq<Invoice>)
    ensures var lines := PendingBreakdown(pending);
      && KeysDistinct(lines)
      && (forall r :: r in pending ==> exists b :: b in lines && b.key == (r.counterparty, r.currency))
      && (forall b :: b in lines ==>
            && b.count == CountWhere(pending, CounterpartyCurrencyOf, b.key)
            && b.count > 0
            && b.sum == SumWhere(pending, CounterpartyCurrencyOf, b.key, ForeignAmountOf))
      && (forall i, j :: 0 <= i < j < |lines| ==> lines[j].sum <= lines[i].sum)
      && CountOf(lines) == |pending|
      && TotalOf(lines) == Sum(pending, ForeignAmountOf)
  {
    var groups := Groups(pending, CounterpartyCurrencyOf, ForeignAmountOf);
    var lines := PendingBreakdown(pending);
    PairLessIsStrictTotal();
    RankRanked(groups, PairLess);
    RankedSumsDescend(lines, PairLess);
    RankKeysDistinct(groups, PairLess);
    GroupsConserve(pending, CounterpartyCurrencyOf, ForeignAmountOf);
    RankTotals(groups, PairLess);
    forall r | r in pending ensures exists b :: b in lines && b.key == (r.counterparty, r.currency) {
      var b :| b in groups && b.key == CounterpartyCurrencyOf(r);
      assert b in multiset(lines);
    }
    forall b | b in lines
      ensures b.count == CountWhere(pending, CounterpartyCurrencyOf, b.key)
      ensures b.count > 0
      ensures b.sum == SumWhere(pending, CounterpartyCurrencyOf, b.key, ForeignAmountOf)
    {
      assert b in multiset(groups);
    }
  }
}
