/**
 * The statistics of a user's shifts: four running sums, the highest cash and
 * card tip with the day it was earned, and the figures derived from them once
 * every shift has been seen.
 */
module ShiftStats {
  import opened Common
  import opened ShiftModel

  /** Share of income kept after the fixed 8% tax. */
  const AfterTaxShare: real := 0.92

  /** The per-shift values that the statistics add up. */
  datatype Field = Income | CashTips | CardTips | Hours

  function ValueOf(shift: ShiftDoc, f: Field): real {
    match f
    case Income => shift.derived.totalIncome
    case CashTips => shift.cashTips
    case CardTips => shift.cardTips
    case Hours => shift.hoursWorked
  }

  /** The sum of field `f` over `shifts`. */
  function Total(shifts: seq<ShiftDoc>, f: Field): real {
    if shifts == [] then 0.0
    else Total(shifts[..|shifts| - 1], f) + ValueOf(shifts[|shifts| - 1], f)
  }

  datatype TipKind = Cash | Card

  function TipOf(shift: ShiftDoc, k: TipKind): real {
    match k
    case Cash => shift.cashTips
    case Card => shift.cardTips
  }

  /** A highest tip and the day of the shift that earned it (none while no tip exceeded 0). */
  datatype Peak = Peak(amount: real, date: Option<Date>)

  /** The running maximum of tips of kind `k`, starting at 0 and replaced only by a strictly larger tip. */
  function Highest(shifts: seq<ShiftDoc>, k: TipKind): Peak {
    if shifts == [] then Peak(0.0, None)
    else
      var before := Highest(shifts[..|shifts| - 1], k);
      var last := shifts[|shifts| - 1];
      if TipOf(last, k) > before.amount then Peak(TipOf(last, k), Some(last.date)) else before
  }

  /** Shift `i` is the first in `shifts` whose tip of kind `k` equals `m`, and all earlier tips are below `m`. */
  ghost predicate FirstReaching(shifts: seq<ShiftDoc>, k: TipKind, i: int, m: real) {
    0 <= i < |shifts| && TipOf(shifts[i], k) == m &&
    forall j :: 0 <= j < i ==> TipOf(shifts[j], k) < m
  }

  datatype Stats = Stats(
    totalShifts: nat,
    totalIncome: real,
    totalCashTips: real,
    totalCardTips: real,
    totalCombinedTips: real,
    averageHourlyRate: Quotient,
    averageCashTipsPerShift: real,
    averageCardTipsPerShift: real,
    highestCashTips: Peak,
    highestCardTips: Peak,
    totalIncomeAfterTax: real,
    totalHoursWorked: real)

  /** The statistics before any shift is visited, for `count` shifts. */
  function Initial(count: nat): Stats {
    Stats(count, 0.0, 0.0, 0.0, 0.0, Finite(0.0), 0.0, 0.0, Peak(0.0, None), Peak(0.0, None), 0.0, 0.0)
  }

  /** The statistics after the loop has visited `prefix`, out of `count` shifts in all. */
  function Accumulated(prefix: seq<ShiftDoc>, count: nat): Stats {
    Initial(count).(
      totalIncome := Total(prefix, Income),
      totalCashTips := Total(prefix, CashTips),
      totalCardTips := Total(prefix, CardTips),
      totalHoursWorked := Total(prefix, Hours),
      highestCashTips := Highest(prefix, Cash),
      highestCardTips := Highest(prefix, Card))
  }

  /**
   * The figures computed after the loop: combined tips, the per-shift averages,
   * the overall hourly rate (non-finite for zero total hours) and the after-tax income.
   */
  function Finish(stats: Stats): (r: Stats)
    requires stats.totalShifts > 0
    ensures r.totalCombinedTips == stats.totalCashTips + stats.totalCardTips
    ensures r.averageCashTipsPerShift * stats.totalShifts as real == stats.totalCashTips
    ensures r.averageCardTipsPerShift * stats.totalShifts as real == stats.totalCardTips
    ensures r.averageHourlyRate.Finite? <==> stats.totalHoursWorked != 0.0
    ensures r.averageHourlyRate.Finite? ==> r.averageHourlyRate.value * stats.totalHoursWorked == stats.totalIncome
    ensures r.totalIncomeAfterTax == stats.totalIncome * AfterTaxShare
    ensures r.(totalCombinedTips := stats.totalCombinedTips, averageCashTipsPerShift := stats.averageCashTipsPerShift,
               averageCardTipsPerShift := stats.averageCardTipsPerShift, averageHourlyRate := stats.averageHourlyRate,
               totalIncomeAfterTax := stats.totalIncomeAfterTax) == stats
  {
    stats.(
      totalCombinedTips := stats.totalCashTips + stats.totalCardTips,
      averageCashTipsPerShift := stats.totalCashTips / stats.totalShifts as real,
      averageCardTipsPerShift := stats.totalCardTips / stats.totalShifts as real,
      averageHourlyRate := Divide(stats.totalIncome, stats.totalHoursWorked),
      totalIncomeAfterTax := stats.totalIncome * AfterTaxShare)
  }

  /** The statistics of `shifts`: the initial values when there are none. */
  function StatsOf(shifts: seq<ShiftDoc>): Stats {
    if shifts == [] then Initial(0) else Finish(Accumulated(shifts, |shifts|))
  }

  /** The statistics handler: one pass over the shifts, then the derived figures. */
  method ComputeStats(shifts: seq<ShiftDoc>) returns (stats: Stats)
    ensures stats == StatsOf(shifts)
    ensures stats.totalShifts == |shifts|
    ensures stats.totalIncome == Total(shifts, Income) && stats.totalHoursWorked == Total(shifts, Hours)
    ensures stats.totalCashTips == Total(shifts, CashTips) && stats.totalCardTips == Total(shifts, CardTips)
    ensures stats.highestCashTips == Highest(shifts, Cash) && stats.highestCardTips == Highest(shifts, Card)
    ensures stats.totalCombinedTips == stats.totalCashTips + stats.totalCardTips
    ensures stats.totalIncomeAfterTax == stats.totalIncome * AfterTaxShare
  {
    stats := Initial(|shifts|);
    if |shifts| > 0 {
      var i := 0;
      while i < |shifts|
        invariant 0 <= i <= |shifts|
        invariant stats == Accumulated(shifts[..i], |shifts|)
      {
        var shift := shifts[i];
        assert shifts[..i + 1][..i] == shifts[..i];
        stats := stats.(totalIncome := stats.totalIncome + shift.derived.totalIncome);
        stats := stats.(totalCashTips := stats.totalCashTips + shift.cashTips);
        stats := stats.(totalCardTips := stats.totalCardTips + shift.cardTips);
        stats := stats.(totalHoursWorked := stats.totalHoursWorked + shift.hoursWorked);
        if shift.cashTips > stats.highestCashTips.amount {
          stats := stats.(highestCashTips := Peak(shift.cashTips, Some(shift.date)));
        }
        if shift.cardTips > stats.highestCardTips.amount {
          stats := stats.(highestCardTips := Peak(shift.cardTips, Some(shift.date)));
        }
        i := i + 1;
      }
      assert shifts[..i] == shifts;
      stats := Finish(stats);
    }
  }

  /** With no shifts every figure is 0 and neither highest tip has a day. */
  lemma StatsOfEmpty()
    ensures var s := StatsOf([]);
            s.totalShifts == 0 && s.totalIncome == 0.0 && s.totalCashTips == 0.0 && s.totalCardTips == 0.0 &&
            s.totalCombinedTips == 0.0 && s.averageHourlyRate == Finite(0.0) &&
            s.averageCashTipsPerShift == 0.0 && s.averageCardTipsPerShift == 0.0 &&
            s.highestCashTips == Peak(0.0, None) && s.highestCardTips == Peak(0.0, None) &&
            s.totalIncomeAfterTax == 0.0 && s.totalHoursWorked == 0.0
  {
  }

  lemma {:induction false} TotalAppend(a: seq<ShiftDoc>, b: seq<ShiftDoc>, f: Field)
    ensures Total(a + b, f) == Total(a, f) + Total(b, f)
    decreases |b|
  {
    if b == [] {
      assert a + b == a;
    } else {
      var n := |b| - 1;
      assert (a + b)[..|a + b| - 1] == a + b[..n];
      TotalAppend(a, b[..n], f);
    }
  }

  /** Taking shift `j` out of `t` takes its value out of the sum. */
  lemma TotalRemove(t: seq<ShiftDoc>, j: int, f: Field)
    requires 0 <= j < |t|
    ensures Total(t, f) == Total(t[..j] + t[j + 1..], f) + ValueOf(t[j], f)
  {
    assert t == (t[..j] + [t[j]]) + t[j + 1..];
    TotalAppend(t[..j] + [t[j]], t[j + 1..], f);
    TotalAppend(t[..j], t[j + 1..], f);
    assert (t[..j] + [t[j]])[..j] == t[..j];
  }

  /** Taking shift `j` out of `t` takes one copy of it out of the multiset. */
  lemma MultisetRemove(t: seq<ShiftDoc>, j: int)
    requires 0 <= j < |t|
    ensures multiset(t[..j] + t[j + 1..]) == multiset(t) - multiset{t[j]}
  {
    assert t == t[..j] + [t[j]] + t[j + 1..];
  }

  /** A sum does not depend on the order of the shifts. */
  lemma {:induction false} TotalPermutation(s: seq<ShiftDoc>, t: seq<ShiftDoc>, f: Field)
    requires multiset(s) == multiset(t)
    ensures Total(s, f) == Total(t, f)
    decreases |s|
  {
    if s == [] {
      assert |t| == |multiset(t)| == 0;
    } else {
      var n := |s| - 1;
      MultisetRemove(s, n);
      assert s[..n] + s[n + 1..] == s[..n];
      assert s[n] in multiset(t);
      var j :| 0 <= j < |t| && t[j] == s[n];
      MultisetRemove(t, j);
      TotalPermutation(s[..n], t[..j] + t[j + 1..], f);
      TotalRemove(t, j, f);
    }
  }

  /**
   * The highest tip is the maximum of 0 and every tip; it has a day exactly
   * when some tip exceeds 0, and then that is the day of the first shift
   * reaching the maximum.
   */
  lemma {:induction false} HighestIsFirstMaximum(shifts: seq<ShiftDoc>, k: TipKind)
    ensures var p := Highest(shifts, k);
            p.amount >= 0.0 &&
            (forall i :: 0 <= i < |shifts| ==> TipOf(shifts[i], k) <= p.amount) &&
            (p.date.None? <==> forall i :: 0 <= i < |shifts| ==> TipOf(shifts[i], k) <= 0.0) &&
            (p.date.None? ==> p.amount == 0.0) &&
            (p.date.Some? ==> exists i :: FirstReaching(shifts, k, i, p.amount) && shifts[i].date == p.date.value)
  {
    if shifts != [] {
      var n := |shifts| - 1;
      var prefix := shifts[..n];
      var before := Highest(prefix, k);
      var last := shifts[n];
      HighestIsFirstMaximum(prefix, k);
      assert forall i :: 0 <= i < n ==> shifts[i] == prefix[i];
      if TipOf(last, k) > before.amount {
        assert FirstReaching(shifts, k, n, TipOf(last, k));
      } else if before.date.Some? {
        var i :| FirstReaching(prefix, k, i, before.amount) && prefix[i].date == before.date.value;
        assert FirstReaching(shifts, k, i, before.amount);
      }
    }
  }

  /** The highest amount (though not its day) does not depend on the order of the shifts. */
  lemma HighestAmountPermutation(s: seq<ShiftDoc>, t: seq<ShiftDoc>, k: TipKind)
    requires multiset(s) == multiset(t)
    ensures Highest(s, k).amount == Highest(t, k).amount
  {
    HighestAmountBelow(s, t, k);
    HighestAmountBelow(t, s, k);
  }

  lemma HighestAmountBelow(s: seq<ShiftDoc>, t: seq<ShiftDoc>, k: TipKind)
    requires multiset(s) <= multiset(t)
    ensures Highest(s, k).amount <= Highest(t, k).amount
  {
    HighestIsFirstMaximum(s, k);
    HighestIsFirstMaximum(t, k);
    var p := Highest(s, k);
    if p.date.Some? {
      var i :| FirstReaching(s, k, i, p.amount) && s[i].date == p.date.value;
      assert s[i] in multiset(t);
      var j :| 0 <= j < |t| && t[j] == s[i];
    }
  }

  /**
   * Reordering the shifts changes no count, sum, average or highest amount;
   * only the day of a highest tip can change, through the tie-break.
   */
  lemma StatsPermutation(s: seq<ShiftDoc>, t: seq<ShiftDoc>)
    requires multiset(s) == multiset(t)
    ensures var a, b := StatsOf(s), StatsOf(t);
            a.(highestCashTips := Peak(a.highestCashTips.amount, None),
               highestCardTips := Peak(a.highestCardTips.amount, None))
            == b.(highestCashTips := Peak(b.highestCashTips.amount, None),
                  highestCardTips := Peak(b.highestCardTips.amount, None))
  {
    assert |s| == |multiset(s)| == |multiset(t)| == |t|;
    TotalPermutation(s, t, Income);
    TotalPermutation(s, t, CashTips);
    TotalPermutation(s, t, CardTips);
    TotalPermutation(s, t, Hours);
    HighestAmountPermutation(s, t, Cash);
    HighestAmountPermutation(s, t, Card);
  }

  /** Two shifts with equal positive tips: whichever comes first supplies the day of the highest tip. */
  lemma TieGoesToFirst(a: ShiftDoc, b: ShiftDoc, k: TipKind)
    requires TipOf(a, k) == TipOf(b, k) > 0.0
    ensures Highest([a, b], k) == Peak(TipOf(a, k), Some(a.date))
    ensures Highest([b, a], k) == Peak(TipOf(b, k), Some(b.date))
  {
    assert [a, b][..1] == [a] && [b, a][..1] == [b];
    assert [a][..0] == [] && [b][..0] == [];
    assert Highest([a], k) == Peak(TipOf(a, k), Some(a.date));
    assert Highest([b], k) == Peak(TipOf(b, k), Some(b.date));
  }

  /** Every shift of `shifts` whose tip of kind `k` equals `m` was worked on the same day. */
  ghost predicate OneDayAt(shifts: seq<ShiftDoc>, k: TipKind, m: real) {
    forall i, j :: 0 <= i < |shifts| && 0 <= j < |shifts| && TipOf(shifts[i], k) == m && TipOf(shifts[j], k) == m
      ==> shifts[i].date == shifts[j].date
  }

  /**
   * Without a tie between days at a positive highest tip, reordering the
   * shifts leaves the highest tip and its day as they are; with no positive
   * tip there is no day in any order.
   */
  lemma HighestWithoutTie(s: seq<ShiftDoc>, t: seq<ShiftDoc>, k: TipKind)
    requires multiset(s) == multiset(t)
    requires Highest(s, k).amount > 0.0 ==> OneDayAt(s, k, Highest(s, k).amount)
    ensures Highest(s, k) == Highest(t, k)
  {
    HighestAmountPermutation(s, t, k);
    HighestIsFirstMaximum(s, k);
    HighestIsFirstMaximum(t, k);
    var p, q := Highest(s, k), Highest(t, k);
    if p.date.Some? {
      var i :| FirstReaching(s, k, i, p.amount) && s[i].date == p.date.value;
      assert s[i] in multiset(t);
      var j :| 0 <= j < |t| && t[j] == s[i];
      assert q.date.Some?;
      var j' :| FirstReaching(t, k, j', q.amount) && t[j'].date == q.date.value;
      assert t[j'] in multiset(s);
      var i' :| 0 <= i' < |s| && s[i'] == t[j'];
    }
  }

  /** Without ties at either positive highest tip, the statistics do not depend on the order of the shifts at all. */
  lemma StatsPermutationWithoutTies(s: seq<ShiftDoc>, t: seq<ShiftDoc>)
    requires multiset(s) == multiset(t)
    requires Highest(s, Cash).amount > 0.0 ==> OneDayAt(s, Cash, Highest(s, Cash).amount)
    requires Highest(s, Card).amount > 0.0 ==> OneDayAt(s, Card, Highest(s, Card).amount)
    ensures StatsOf(s) == StatsOf(t)
  {
    StatsPermutation(s, t);
    HighestWithoutTie(s, t, Cash);
    HighestWithoutTie(s, t, Card);
  }

  /**
   * An example: 8 hours with tips 20 and 10, then 5 hours with tips 5
   * and 0, at 15 an hour.
   */
  lemma WorkedExample(d1: Date, d2: Date, t1: Timestamp, t2: Timestamp)
    ensures var first := ShiftDoc(7, d1, 8.0, 20.0, 10.0, Derive(8.0, 20.0, 10.0, 15.0), t1);
            var second := ShiftDoc(7, d2, 5.0, 5.0, 0.0, Derive(5.0, 5.0, 0.0, 15.0), t2);
            var s := StatsOf([first, second]);
            first.derived == Derived(30.0, 120.0, 150.0, Finite(18.75)) &&
            s.totalShifts == 2 && s.totalIncome == 230.0 && s.totalCashTips == 25.0 &&
            s.totalCardTips == 10.0 && s.totalHoursWorked == 13.0 &&
            s.averageHourlyRate == Finite(230.0 / 13.0) &&
            s.highestCashTips == Peak(20.0, Some(d1)) && s.highestCardTips == Peak(10.0, Some(d1)) &&
            s.totalIncomeAfterTax == 211.6
  {
    var first := ShiftDoc(7, d1, 8.0, 20.0, 10.0, Derive(8.0, 20.0, 10.0, 15.0), t1);
    var second := ShiftDoc(7, d2, 5.0, 5.0, 0.0, Derive(5.0, 5.0, 0.0, 15.0), t2);
    var both := [first, second];
    assert both[..1] == [first] && [first][..0] == [];
    assert first.derived == Derived(30.0, 120.0, 150.0, Finite(18.75));
    assert second.derived.totalIncome == 80.0;
    assert Total([first], Income) == 150.0;
    assert Total([first], Hours) == 8.0;
    assert Total([first], CashTips) == 20.0;
    assert Total([first], CardTips) == 10.0;
    assert Highest([first], Cash) == Peak(20.0, Some(d1)) && Highest([first], Card) == Peak(10.0, Some(d1));
    assert Accumulated([first], 2) == Initial(2).(totalIncome := 150.0, totalCashTips := 20.0, totalCardTips := 10.0,
      totalHoursWorked := 8.0, highestCashTips := Peak(20.0, Some(d1)), highestCardTips := Peak(10.0, Some(d1)));
    assert Accumulated(both, 2) == Initial(2).(totalIncome := 230.0, totalCashTips := 25.0, totalCardTips := 10.0,
      totalHoursWorked := 13.0, highestCashTips := Peak(20.0, Some(d1)), highestCardTips := Peak(10.0, Some(d1)));
  }
}
