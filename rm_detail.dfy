/**
 * The RM detail page (`display_rm_detalhado`): the RM selector's options and
 * default, the rows of the selected RMs, and the composition of their paid part.
 */
module RmDetail {
  import opened Wrappers
  import opened Records
  import opened Orders
  import opened Masks
  import opened Grouping
  import opened Overview

  ghost predicate StrictlySorted(ss: seq<string>) {
    forall i, j :: 0 <= i < j < |ss| ==> StrLess(ss[i], ss[j])
  }

  /** Adds `s` to a strictly sorted list, keeping it strictly sorted and free of repeats. */
  function InsertSorted(s: string, ss: seq<string>): (ts: seq<string>)
    requires StrictlySorted(ss)
    ensures StrictlySorted(ts)
    ensures forall t :: t in ts <==> t == s || t in ss
  {
    if ss == [] then [s]
    else if s == ss[0] then ss
    else if StrLess(s, ss[0]) then
      assert forall j :: 0 < j < |ss| ==> StrLess(s, ss[j]) by {
        forall j | 0 < j < |ss| ensures StrLess(s, ss[j]) {
          StrLessTransitive(s, ss[0], ss[j]);
        }
      }
      [s] + ss
    else
      var rest := InsertSorted(s, ss[1..]);
      StrLessConnected(s, ss[0]);
      assert forall t :: t in rest ==> StrLess(ss[0], t) by {
        forall t | t in rest ensures StrLess(ss[0], t) {
          if t != s {
            var j :| 0 <= j < |ss[1..]| && ss[1..][j] == t;
            assert ss[j + 1] == t;
          }
        }
      }
      var ts := [ss[0]] + rest;
      assert forall j :: 0 < j < |ts| ==> ts[j] in rest;
      ts
  }

  /**
   * The distinct values of a text column in Python's string order, as
   * `sorted(col.unique())` lists them and as `groupby(col)` orders its groups.
   */
  function SortedKeys(rows: seq<Invoice>, keyOf: Invoice -> string): (ks: seq<string>)
    ensures StrictlySorted(ks)
    ensures forall s :: s in ks <==> exists r :: r in rows && keyOf(r) == s
  {
    if rows == [] then []
    else
      var init, last := rows[..|rows| - 1], rows[|rows| - 1];
      assert rows == init + [last];
      InsertSorted(keyOf(last), SortedKeys(init, keyOf))
  }

  /** `sorted(df_completo['numero_rm'].unique())`: the RM selector's options. */
  function RmOptions(rows: seq<Invoice>): (opts: seq<string>)
    ensures StrictlySorted(opts)
    ensures forall s :: s in opts <==> exists r :: r in rows && r.rm == s
  {
    SortedKeys(rows, RmOf)
  }

  predicate AllDigits(s: string) {
    forall i :: 0 <= i < |s| ==> '0' <= s[i] <= '9'
  }

  /** `str.isdigit()` on ASCII text: non-empty and nothing but decimal digits. */
  predicate IsDigits(s: string) {
    |s| > 0 && AllDigits(s)
  }

  function DigitOf(c: char): nat
    requires '0' <= c <= '9'
  {
    c as int - '0' as int
  }

  function DigitChar(d: nat): char
    requires d < 10
  {
    (d + '0' as int) as char
  }

  /** `int(s)` on a string of decimal digits. */
  function DigitsValue(s: string): nat
    requires AllDigits(s)
  {
    if s == [] then 0 else 10 * DigitsValue(s[..|s| - 1]) + DigitOf(s[|s| - 1])
  }

  /** Digits as `str(n)` writes them: no leading zero unless the number is zero. */
  predicate Canonical(s: string) {
    IsDigits(s) && (|s| == 1 || s[0] != '0')
  }

  /** `str(n)`: the decimal digits of `n`. */
  function NatToString(n: nat): (s: string)
    ensures Canonical(s)
    ensures n > 0 ==> s[0] != '0'
  {
    if n < 10 then [DigitChar(n)] else NatToString(n / 10) + [DigitChar(n % 10)]
  }

  /** `int(str(n)) == n`. */
  lemma {:induction false} NatToStringRoundTrip(n: nat)
    ensures DigitsValue(NatToString(n)) == n
  {
    if n >= 10 {
      var t := NatToString(n / 10);
      NatToStringRoundTrip(n / 10);
      assert (t + [DigitChar(n % 10)])[..|t|] == t;
    }
  }

  lemma {:induction false} LeadingDigitPositive(s: string)
    requires IsDigits(s) && s[0] != '0'
    ensures DigitsValue(s) >= 1
  {
    if |s| > 1 {
      LeadingDigitPositive(s[..|s| - 1]);
    }
  }

  /** `str(int(s)) == s` exactly when `s` carries no leading zero. */
  lemma {:induction false} CanonicalRoundTrip(s: string)
    requires Canonical(s)
    ensures NatToString(DigitsValue(s)) == s
  {
    if |s| > 1 {
      var init := s[..|s| - 1];
      LeadingDigitPositive(init);
      CanonicalRoundTrip(init);
      assert s == init + [s[|s| - 1]];
    } else {
      assert s == [s[0]];
    }
  }

  /** `[int(r) for r in ss if r.isdigit()]`. */
  function DigitValues(ss: seq<string>): (vs: seq<nat>)
    ensures forall v :: v in vs <==> exists s :: s in ss && IsDigits(s) && DigitsValue(s) == v
    ensures vs == [] <==> forall s :: s in ss ==> !IsDigits(s)
  {
    if ss == [] then []
    else
      var init, last := ss[..|ss| - 1], ss[|ss| - 1];
      assert ss == init + [last];
      var vs := DigitValues(init);
      if IsDigits(last) then vs + [DigitsValue(last)] else vs
  }

  /** `max(vs)`. */
  function MaxOf(vs: seq<nat>): (m: nat)
    requires |vs| > 0
    ensures m in vs
    ensures forall v :: v in vs ==> v <= m
  {
    if |vs| == 1 then vs[0]
    else
      var init, last := vs[..|vs| - 1], vs[|vs| - 1];
      var m := MaxOf(init);
      assert forall v :: v in vs ==> v in init || v == last by {
        assert vs == init + [last];
      }
      if last > m then last else m
  }

  /**
   * `b` is the option with the largest number among the all-digit options;
   * among options with that number, the first in sorted order.
   */
  ghost predicate LargestNumber(ss: seq<string>, b: string) {
    && b in ss
    && IsDigits(b)
    && forall s :: s in ss && IsDigits(s) ==>
      DigitsValue(s) < DigitsValue(b) || (DigitsValue(s) == DigitsValue(b) && (s == b || StrLess(b, s)))
  }

  /** The all-digit option with the largest number, if any option is all digits. */
  function BestDigitRm(ss: seq<string>): (b: Option<string>)
    ensures b.Some? <==> exists s :: s in ss && IsDigits(s)
    ensures b.Some? ==> LargestNumber(ss, b.value)
  {
    if ss == [] then None
    else
      var init, last := ss[..|ss| - 1], ss[|ss| - 1];
      assert ss == init + [last];
      var best := BestDigitRm(init);
      if !IsDigits(last) then best
      else if best.None? then Some(last)
      else
        var b := best.value;
        if DigitsValue(last) > DigitsValue(b) || (DigitsValue(last) == DigitsValue(b) && StrLess(last, b)) then
          assert forall s :: s in init && IsDigits(s) ==>
            DigitsValue(s) < DigitsValue(last) || (DigitsValue(s) == DigitsValue(last) && StrLess(last, s)) by {
            forall s | s in init && IsDigits(s)
              ensures DigitsValue(s) < DigitsValue(last) || (DigitsValue(s) == DigitsValue(last) && StrLess(last, s))
            {
              if DigitsValue(s) == DigitsValue(last) && s != b {
                StrLessTransitive(last, b, s);
              }
            }
          }
          Some(last)
        else if last == b then best
        else
          StrLessConnected(last, b);
          best
  }

  /** The default the page offers, as written: `str(max(numeric_rms))`, else the first option, else none. */
  function DefaultRmAsWritten(rows: seq<Invoice>): (d: Option<string>)
    ensures d.Some? <==> rows != []
  {
    var opts := RmOptions(rows);
    assert rows != [] ==> rows[0].rm in opts;
    var numeric := DigitValues(opts);
    if numeric != [] then Some(NatToString(MaxOf(numeric)))
    else if opts != [] then Some(opts[0])
    else None
  }

  /** The first option is the least RM of the rows. */
  lemma FirstOptionLeast(rows: seq<Invoice>)
    requires rows != []
    ensures RmOptions(rows) != []
    ensures forall r :: r in rows ==> r.rm == RmOptions(rows)[0] || StrLess(RmOptions(rows)[0], r.rm)
  {
    var opts := RmOptions(rows);
    assert rows[0].rm in opts;
    forall r | r in rows ensures r.rm == opts[0] || StrLess(opts[0], r.rm) {
      assert r.rm in opts;
      var i :| 0 <= i < |opts| && opts[i] == r.rm;
    }
  }

  /**
   * The default as intended: the RM holding the largest number, spelt as
   * `str` writes that number when such an option exists (as the code does),
   * otherwise the first option holding that number; else the first option;
   * else none. Unlike the code as written it is always one of the options.
   */
  function DefaultRm(rows: seq<Invoice>): (d: Option<string>)
    ensures d.Some? <==> rows != []
    ensures d.Some? ==> d.value in RmOptions(rows)
    ensures (exists r :: r in rows && IsDigits(r.rm)) ==>
      && d.Some? && IsDigits(d.value)
      && (forall r :: r in rows && IsDigits(r.rm) ==> DigitsValue(r.rm) <= DigitsValue(d.value))
      && (NatToString(DigitsValue(d.value)) in RmOptions(rows) ==> d.value == NatToString(DigitsValue(d.value)))
      && (NatToString(DigitsValue(d.value)) !in RmOptions(rows) ==> LargestNumber(RmOptions(rows), d.value))
    ensures d.Some? && (forall r :: r in rows ==> !IsDigits(r.rm)) ==>
      forall r :: r in rows ==> r.rm == d.value || StrLess(d.value, r.rm)
  {
    var opts := RmOptions(rows);
    assert rows != [] ==> rows[0].rm in opts;
    var best := BestDigitRm(opts);
    assert forall r :: r in rows ==> r.rm in opts;
    if best.Some? then
      var canon := NatToString(DigitsValue(best.value));
      if canon in opts then
        NatToStringRoundTrip(DigitsValue(best.value));
        Some(canon)
      else best
    else if opts != [] then
      FirstOptionLeast(rows);
      Some(opts[0])
    else None
  }

  /** A pending invoice whose RM carries a leading zero. */
  const LeadingZeroRow: Invoice :=
    Invoice(None, 0.0, "007", "Não informado", "N/A", 0.0, 0.0, 0.0, 0.0, "N/A", 0.0, Pending, 0.0)

  /** With the single RM "007" the code offers "7" as the default, which is not an option. */
  lemma DefaultRmAsWrittenLeavesOptions()
    ensures DefaultRmAsWritten([LeadingZeroRow]) == Some("7")
    ensures RmOptions([LeadingZeroRow]) == ["007"]
    ensures "7" !in RmOptions([LeadingZeroRow])
  {
    var rows := [LeadingZeroRow];
    assert rows[..0] == [];
    assert SortedKeys(rows, RmOf) == InsertSorted("007", SortedKeys([], RmOf)) == ["007"];
    var s := "007";
    assert s[..2] == "00" && "00"[..1] == "0" && "0"[..0] == [];
    assert DigitsValue("0") == 0;
    assert DigitsValue("00") == 0;
    assert DigitsValue(s) == 7;
    assert ["007"][..0] == [];
    assert DigitValues(["007"]) == [7];
    assert MaxOf([7]) == 7;
  }

  /**
   * What the code offers, on every input: with some all-digit RM, digits
   * without a leading zero spelling the largest number among the all-digit
   * RMs; otherwise the least RM.
   */
  lemma DefaultRmAsWrittenPicks(rows: seq<Invoice>)
    ensures var d := DefaultRmAsWritten(rows);
      && ((exists r :: r in rows && IsDigits(r.rm)) ==>
            && d.Some? && Canonical(d.value)
            && (forall r :: r in rows && IsDigits(r.rm) ==> DigitsValue(r.rm) <= DigitsValue(d.value))
            && (exists r :: r in rows && IsDigits(r.rm) && DigitsValue(r.rm) == DigitsValue(d.value)))
      && (rows != [] && (forall r :: r in rows ==> !IsDigits(r.rm)) ==>
            && d.Some? && d.value in RmOptions(rows)
            && forall r :: r in rows ==> r.rm == d.value || StrLess(d.value, r.rm))
  {
    var opts := RmOptions(rows);
    var numeric := DigitValues(opts);
    assert forall r :: r in rows ==> r.rm in opts;
    if numeric != [] {
      var m := MaxOf(numeric);
      NatToStringRoundTrip(m);
      forall r | r in rows && IsDigits(r.rm) ensures DigitsValue(r.rm) <= m {
        assert DigitsValue(r.rm) in numeric;
      }
      var s :| s in opts && IsDigits(s) && DigitsValue(s) == m;
      var r :| r in rows && r.rm == s;
    } else if rows != [] {
      FirstOptionLeast(rows);
    }
  }

  /**
   * The correction touches only the broken inputs: the code's default equals
   * the intended one exactly when there is no default or it is one of the options.
   */
  lemma DefaultRmAsWrittenWhenValid(rows: seq<Invoice>)
    ensures DefaultRmAsWritten(rows) == DefaultRm(rows) <==>
      (rows == [] || DefaultRmAsWritten(rows).value in RmOptions(rows))
  {
    var opts := RmOptions(rows);
    var numeric := DigitValues(opts);
    var best := BestDigitRm(opts);
    if best.Some? {
      var b := best.value;
      assert DigitsValue(b) in numeric;
      var m := MaxOf(numeric);
      var s :| s in opts && IsDigits(s) && DigitsValue(s) == m;
      assert DigitsValue(b) == m;
    }
  }

  /** When no all-digit RM carries a leading zero, the code as written picks the intended default. */
  lemma DefaultRmAsWrittenOnCanonical(rows: seq<Invoice>)
    requires forall r :: r in rows && IsDigits(r.rm) ==> Canonical(r.rm)
    ensures DefaultRmAsWritten(rows) == DefaultRm(rows)
  {
    var opts := RmOptions(rows);
    var numeric := DigitValues(opts);
    var best := BestDigitRm(opts);
    if best.Some? {
      var b := best.value;
      assert DigitsValue(b) in numeric;
      var m := MaxOf(numeric);
      var s :| s in opts && IsDigits(s) && DigitsValue(s) == m;
      assert DigitsValue(b) == m;
      var r :| r in rows && r.rm == b;
      CanonicalRoundTrip(b);
    }
    DefaultRmAsWrittenWhenValid(rows);
  }

  /** `df_completo[df_completo['numero_rm'].isin(selected)]`, computed only once something is selected. */
  function DetailRows(paid: seq<Invoice>, pending: seq<Invoice>, selected: set<string>): (rows: Option<seq<Invoice>>)
    ensures rows.Some? <==> selected != {}
    ensures rows.Some? ==> rows.value == Where(paid, RmIn(selected)) + Where(pending, RmIn(selected))
  {
    if selected == {} then None
    else
      WhereConcat(paid, pending, RmIn(selected));
      Some(Where(paid + pending, RmIn(selected)))
  }

  /** The detail table holds exactly the paid and pending rows whose RM is selected. */
  lemma DetailRowsExact(paid: seq<Invoice>, pending: seq<Invoice>, selected: set<string>)
    requires selected != {}
    ensures forall r :: r in DetailRows(paid, pending, selected).value <==>
      (r in paid || r in pending) && r.rm in selected
  {
  }

  /** `df_rm[df_rm['status'] == 'Pago']` is the selected part of the paid table. */
  lemma DetailPaidIsSelectedPaid(paid: seq<Invoice>, pending: seq<Invoice>, selected: set<string>)
    requires selected != {}
    requires forall r :: r in paid ==> r.status == Paid
    requires forall r :: r in pending ==> r.status == Pending
    ensures Where(DetailRows(paid, pending, selected).value, HasStatus(Paid)) == Where(paid, RmIn(selected))
  {
    var a, b := Where(paid, RmIn(selected)), Where(pending, RmIn(selected));
    WhereConcat(a, b, HasStatus(Paid));
    WhereKeepsAll(a, HasStatus(Paid));
    WhereKeepsNone(b, HasStatus(Paid));
    assert a + [] == a;
  }

  /** The RM page's stacked bars: one per counterparty of the selected paid rows, unranked. */
  function RmComposition(paidDetail: seq<Invoice>): (chart: seq<CompositionRow>)
    ensures chart == [] <==> paidDetail == []
  {
    var names := SortedKeys(paidDetail, CounterpartyOf);
    assert paidDetail != [] ==> paidDetail[0] in paidDetail && CounterpartyOf(paidDetail[0]) in names;
    assert names != [] ==> names[0] in names;
    seq(|names|, i requires 0 <= i < |names| =>
      CompositionRow(names[i], PartsOf(paidDetail, names[i]),
                     SumWhere(paidDetail, CounterpartyOf, names[i], ComponentTotalOf)))
  }

  /**
   * Every counterparty of the selected paid rows gets exactly one bar, in
   * `groupby`'s sorted order, and every bar is such a counterparty; its five
   * segments are that counterparty's sums of each component and add up to
   * the summed totals of its rows.
   */
  lemma RmCompositionCorrect(paidDetail: seq<Invoice>)
    ensures var chart := RmComposition(paidDetail);
      && (forall i, j :: 0 <= i < j < |chart| ==> StrLess(chart[i].counterparty, chart[j].counterparty))
      && (forall i, j :: 0 <= i < j < |chart| ==> chart[i].counterparty != chart[j].counterparty)
      && (forall r :: r in paidDetail ==> exists i :: 0 <= i < |chart| && chart[i].counterparty == r.counterparty)
      && (forall i :: 0 <= i < |chart| ==> exists r :: r in paidDetail && r.counterparty == chart[i].counterparty)
      && (forall i :: 0 <= i < |chart| ==>
            var c := chart[i].counterparty;
            && chart[i].parts == Parts(SumWhere(paidDetail, CounterpartyOf, c, PrincipalOf),
                                       SumWhere(paidDetail, CounterpartyOf, c, IofOf),
                                       SumWhere(paidDetail, CounterpartyOf, c, IrrfOf),
                                       SumWhere(paidDetail, CounterpartyOf, c, CideOf),
                                       SumWhere(paidDetail, CounterpartyOf, c, ContractFeeOf))
            && chart[i].parts.Total() == chart[i].total
            && chart[i].total == SumWhere(paidDetail, CounterpartyOf, c, ComponentTotalOf))
  {
    var chart := RmComposition(paidDetail);
    var names := SortedKeys(paidDetail, CounterpartyOf);
    forall i, j | 0 <= i < j < |chart| ensures chart[i].counterparty != chart[j].counterparty {
      StrLessIrreflexive(names[i]);
    }
    forall r | r in paidDetail ensures exists i :: 0 <= i < |chart| && chart[i].counterparty == r.counterparty {
      assert r.counterparty in names;
      var i :| 0 <= i < |names| && names[i] == r.counterparty;
      assert chart[i].counterparty == r.counterparty;
    }
    forall i | 0 <= i < |chart|
      ensures exists r :: r in paidDetail && r.counterparty == chart[i].counterparty
      ensures chart[i].parts.Total() == chart[i].total
    {
      assert names[i] in names;
      PartsAddUp(paidDetail, names[i]);
    }
  }
}
