/** `date_range(date, days, cutoff)` (reports/stability-summary/rollup.py):
    the generator behind every shard window. */
module DateWindow {
  import opened Dates

  function Min(a: int, b: int): int {
    if a <= b then a else b
  }

  /** The dates `date, date+1, …` for at most `days` days, ending early
      (the generator's `return`) at the first date past `cutoff`. */
  function DateRange(date: Date, days: nat, cutoff: Date): (r: seq<Date>)
    ensures |r| == if date > cutoff then 0 else Min(days, cutoff - date + 1)
    ensures forall i :: 0 <= i < |r| ==> r[i] == date + i
    ensures forall i :: 0 <= i < |r| ==> r[i] <= cutoff
    ensures forall i, j :: 0 <= i < j < |r| ==> r[i] < r[j]
    ensures |r| <= days
    ensures r == [] <==> days == 0 || date > cutoff
    ensures |r| < days ==> date + |r| > cutoff
    decreases days
  {
    if days == 0 || date > cutoff then [] else [date] + DateRange(date + 1, days - 1, cutoff)
  }

  /** Membership in a window, stated without positions: exactly the dates
      from `date` that are both within `days` days and not past `cutoff`. */
  lemma {:induction false} InDateRange(date: Date, days: nat, cutoff: Date, d: Date)
    ensures d in DateRange(date, days, cutoff) <==> date <= d < date + days && d <= cutoff
  {
    var r := DateRange(date, days, cutoff);
    if date <= d < date + days && d <= cutoff {
      assert r[d - date] == d;
    }
  }

  /** A window of `a + b` days is the window of its first `a` days followed
      by the window of the next `b` days. */
  lemma {:induction false} DateRangeSplit(date: Date, a: nat, b: nat, cutoff: Date)
    ensures DateRange(date, a + b, cutoff) == DateRange(date, a, cutoff) + DateRange(date + a, b, cutoff)
  {
    var whole, front, back := DateRange(date, a + b, cutoff), DateRange(date, a, cutoff), DateRange(date + a, b, cutoff);
    assert |whole| == |front| + |back|;
    forall i | 0 <= i < |whole| ensures whole[i] == (front + back)[i] {
      if i < |front| {
        assert (front + back)[i] == front[i];
      } else {
        assert (front + back)[i] == back[i - |front|];
      }
    }
  }
}
