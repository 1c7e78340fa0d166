/**
 * The monthly series behind the usage chart: bills are grouped by calendar
 * month, usage and amount are summed per month, the first rate seen in a
 * month is kept, and the months come out in ascending order.
 */
module Rollup {
  import opened Wrappers
  import opened Bills
  import opened Store
  import opened Dashboard

  /** One point of the chart. */
  datatype MonthTotal = MonthTotal(month: YearMonth, usage: real, rate: real, amount: real)

  /** Some bill of the list falls in month k. */
  ghost predicate Occurs(bills: seq<Bill>, k: YearMonth) {
    exists b :: b in bills && MonthOf(b.date) == k
  }

  /** What one bill adds to the total of month k in column m. */
  function Share(b: Bill, k: YearMonth, m: Measure): real {
    if MonthOf(b.date) == k then ValueOf(b, m) else 0.0
  }

  /** The total of column m over the bills of month k. */
  function MonthSum(bills: seq<Bill>, k: YearMonth, m: Measure): real {
    if bills == [] then 0.0
    else MonthSum(bills[..|bills| - 1], k, m) + Share(bills[|bills| - 1], k, m)
  }

  /** The rate of the first bill of month k in list order (0 when there is none). */
  function FirstRate(bills: seq<Bill>, k: YearMonth): real {
    if bills == [] then 0.0
    else if MonthOf(bills[0].date) == k then bills[0].rate
    else FirstRate(bills[1..], k)
  }

  /** The chart point that month k should have. */
  function TotalOf(bills: seq<Bill>, k: YearMonth): MonthTotal {
    MonthTotal(k, MonthSum(bills, k, Usage), FirstRate(bills, k), MonthSum(bills, k, Amount))
  }

  predicate Ascending(ms: seq<YearMonth>) {
    forall i, j :: 0 <= i < j < |ms| ==> MonthLess(ms[i], ms[j])
  }

  function Months(totals: seq<MonthTotal>): (ms: seq<YearMonth>)
    ensures |ms| == |totals| && forall i :: 0 <= i < |totals| ==> ms[i] == totals[i].month
  {
    seq(|totals|, i requires 0 <= i < |totals| => totals[i].month)
  }

  /**
   * The monthly series of a list of bills: one point per month that has a
   * bill, in ascending month order, each carrying that month's usage and
   * amount totals and the rate of its first bill.
   */
  ghost predicate IsRollupOf(bills: seq<Bill>, totals: seq<MonthTotal>) {
    Ascending(Months(totals))
    && (forall k :: Occurs(bills, k) <==> k in Months(totals))
    && (forall i :: 0 <= i < |totals| ==> totals[i] == TotalOf(bills, totals[i].month))
  }

  /** Adds a month to an ascending list unless it is already there. */
  function InsertMonth(k: YearMonth, ms: seq<YearMonth>): (r: seq<YearMonth>)
    requires Ascending(ms)
    ensures Ascending(r)
    ensures forall x :: x in r <==> x == k || x in ms
  {
    if ms == [] then [k]
    else if MonthLess(k, ms[0]) then [k] + ms
    else if k == ms[0] then ms
    else
      assert MonthLess(ms[0], k);
      var r := [ms[0]] + InsertMonth(k, ms[1..]);
      assert forall x :: x in r[1..] ==> MonthLess(ms[0], x);
      r
  }

  lemma OccursAppend(p: seq<Bill>, b: Bill, k: YearMonth)
    ensures Occurs(p + [b], k) <==> Occurs(p, k) || MonthOf(b.date) == k
  {
    if Occurs(p + [b], k) {
      var x :| x in p + [b] && MonthOf(x.date) == k;
      if x != b {
        assert x in p;
      }
    }
    if MonthOf(b.date) == k {
      assert b in p + [b];
    }
    if Occurs(p, k) {
      var x :| x in p && MonthOf(x.date) == k;
      assert x in p + [b];
    }
  }

  /** A month with no bills has nothing to add up. */
  lemma {:induction false} MonthSumAbsent(bills: seq<Bill>, k: YearMonth, m: Measure)
    requires !Occurs(bills, k)
    ensures MonthSum(bills, k, m) == 0.0
  {
    if bills != [] {
      var init := bills[..|bills| - 1];
      assert !Occurs(init, k) by {
        forall x | x in init ensures MonthOf(x.date) != k {
          assert x in bills;
        }
      }
      assert bills[|bills| - 1] in bills;
      MonthSumAbsent(init, k, m);
    }
  }

  /** Appending a bill leaves the first rate of a month that already occurs alone. */
  lemma {:induction false} FirstRateAppend(p: seq<Bill>, b: Bill, k: YearMonth)
    ensures FirstRate(p + [b], k) ==
      if Occurs(p, k) then FirstRate(p, k) else if MonthOf(b.date) == k then b.rate else 0.0
  {
    if p == [] {
      assert p + [b] == [b];
      assert !Occurs(p, k);
      assert [b][1..] == [];
    } else {
      assert (p + [b])[0] == p[0];
      assert (p + [b])[1..] == p[1..] + [b];
      FirstRateAppend(p[1..], b, k);
      if MonthOf(p[0].date) != k {
        assert Occurs(p, k) <==> Occurs(p[1..], k) by {
          if Occurs(p, k) {
            var x :| x in p && MonthOf(x.date) == k;
            assert x in p[1..];
          }
          if Occurs(p[1..], k) {
            var x :| x in p[1..] && MonthOf(x.date) == k;
            assert x in p;
          }
        }
      } else {
        assert p[0] in p;
      }
    }
  }

  /** How the totals, the occurrences and the first rates change when one bill is appended. */
  lemma AppendStep(p: seq<Bill>, b: Bill)
    ensures forall x, m :: MonthSum(p + [b], x, m) == MonthSum(p, x, m) + Share(b, x, m)
    ensures forall x :: Occurs(p + [b], x) <==> Occurs(p, x) || MonthOf(b.date) == x
    ensures forall x :: FirstRate(p + [b], x) ==
                        (if Occurs(p, x) then FirstRate(p, x) else if MonthOf(b.date) == x then b.rate else 0.0)
  {
    forall x, m ensures MonthSum(p + [b], x, m) == MonthSum(p, x, m) + Share(b, x, m) {
      assert (p + [b])[..|p|] == p;
    }
    forall x ensures Occurs(p + [b], x) <==> Occurs(p, x) || MonthOf(b.date) == x {
      OccursAppend(p, b, x);
    }
    forall x ensures FirstRate(p + [b], x) ==
      if Occurs(p, x) then FirstRate(p, x) else if MonthOf(b.date) == x then b.rate else 0.0 {
      FirstRateAppend(p, b, x);
    }
  }

  /**
   * Builds the monthly series in one pass over the bills: each bill either
   * adds its usage and amount to the point of its month or opens a new point
   * with its own rate; the points are then read out in month order.
   */
  method MonthlyRollup(bills: seq<Bill>) returns (totals: seq<MonthTotal>)
    ensures IsRollupOf(bills, totals)
  {
    var acc: map<YearMonth, MonthTotal> := map[];
    var months: seq<YearMonth> := [];
    for n := 0 to |bills|
      invariant Ascending(months)
      invariant forall k :: k in acc <==> k in months
      invariant forall k :: k in acc <==> Occurs(bills[..n], k)
      invariant forall k :: k in acc ==> acc[k] == TotalOf(bills[..n], k)
    {
      var b := bills[n];
      var k := MonthOf(b.date);
      ghost var p := bills[..n];
      assert bills[..n + 1] == p + [b];
      AppendStep(p, b);
      ghost var before := acc;
      if k in acc {
        acc := acc[k := acc[k].(usage := acc[k].usage + b.usage, amount := acc[k].amount + b.amount)];
      } else {
        acc := acc[k := MonthTotal(k, b.usage, b.rate, b.amount)];
        months := InsertMonth(k, months);
      }
      forall x | x in acc ensures acc[x] == TotalOf(p + [b], x) {
        if x != k {
          assert acc[x] == before[x] == TotalOf(p, x);
        } else if x in before {
          assert Occurs(p, k);
        } else {
          MonthSumAbsent(p, k, Usage);
          MonthSumAbsent(p, k, Amount);
        }
      }
    }
    assert bills[..|bills|] == bills;
    totals := [];
    for j := 0 to |months|
      invariant |totals| == j
      invariant forall i :: 0 <= i < j ==> totals[i] == acc[months[i]]
    {
      totals := totals + [acc[months[j]]];
    }
    assert Months(totals) == months;
  }

  /** Two ascending month lists with the same members are the same list. */
  lemma {:induction false} AscendingUnique(a: seq<YearMonth>, b: seq<YearMonth>)
    requires Ascending(a) && Ascending(b)
    requires forall x :: x in a <==> x in b
    ensures a == b
  {
    if a == [] {
      if b != [] {
        HeadIsMember(b);
        assert false;
      }
    } else {
      assert a[0] in a;
      assert b != [];
      assert b[0] in b;
      assert a[0] == b[0];
      assert a == [a[0]] + a[1..] && b == [b[0]] + b[1..];
      forall x ensures x in a[1..] <==> x in b[1..] {
        if x in a[1..] {
          var j :| 1 <= j < |a| && a[j] == x;
          assert MonthLess(a[0], a[j]);
          assert x in b && x != b[0];
        }
        if x in b[1..] {
          var j :| 1 <= j < |b| && b[j] == x;
          assert MonthLess(b[0], b[j]);
          assert x in a && x != a[0];
        }
      }
      AscendingUnique(a[1..], b[1..]);
      assert a == [a[0]] + a[1..] && b == [b[0]] + b[1..];
    }
  }

  lemma HeadIsMember(b: seq<YearMonth>)
    requires b != []
    ensures b[0] in b
  {
  }

  /** The series of a list of bills is determined by the list. */
  lemma RollupDeterministic(bills: seq<Bill>, t1: seq<MonthTotal>, t2: seq<MonthTotal>)
    requires IsRollupOf(bills, t1) && IsRollupOf(bills, t2)
    ensures t1 == t2
  {
    AscendingUnique(Months(t1), Months(t2));
    assert |t1| == |t2|;
    forall i | 0 <= i < |t1| ensures t1[i] == t2[i] {
      assert t1[i].month == Months(t1)[i] == Months(t2)[i] == t2[i].month;
    }
  }

  lemma {:induction false} MonthSumConcat(a: seq<Bill>, b: seq<Bill>, k: YearMonth, m: Measure)
    ensures MonthSum(a + b, k, m) == MonthSum(a, k, m) + MonthSum(b, k, m)
  {
    if b == [] {
      assert a + b == a;
    } else {
      var init := b[..|b| - 1];
      assert (a + b)[..|a + b| - 1] == a + init;
      assert (a + b)[|a + b| - 1] == b[|b| - 1];
      MonthSumConcat(a, init, k, m);
    }
  }

  /** A month's totals do not depend on the order in which the bills come. */
  lemma {:induction false} MonthSumPermutation(p: seq<Bill>, q: seq<Bill>, k: YearMonth, m: Measure)
    requires multiset(p) == multiset(q)
    ensures MonthSum(p, k, m) == MonthSum(q, k, m)
    decreases |p|
  {
    if p == [] {
      assert |q| == |multiset(q)| == 0;
    } else {
      var n := |p| - 1;
      var x := p[n];
      assert x in multiset(q) by {
        assert x in p;
      }
      var i :| 0 <= i < |q| && q[i] == x;
      var rest := q[..i] + q[i + 1..];
      MultisetWithout(p, n);
      MultisetWithout(q, i);
      assert p[..n] + p[n + 1..] == p[..n];
      MonthSumPermutation(p[..n], rest, k, m);
      MonthSumRemove(q, i, k, m);
      MonthSumRemove(p, n, k, m);
    }
  }

  lemma MultisetWithout(s: seq<Bill>, i: nat)
    requires i < |s|
    ensures multiset(s[..i] + s[i + 1..]) == multiset(s) - multiset{s[i]}
  {
    assert s == s[..i] + [s[i]] + s[i + 1..];
  }

  /** Taking one bill out of a list takes its share out of the month's total. */
  lemma MonthSumRemove(q: seq<Bill>, i: nat, k: YearMonth, m: Measure)
    requires i < |q|
    ensures MonthSum(q, k, m) == MonthSum(q[..i] + q[i + 1..], k, m) + Share(q[i], k, m)
  {
    var x := q[i];
    assert q == q[..i] + [x] + q[i + 1..];
    MonthSumConcat(q[..i] + [x], q[i + 1..], k, m);
    MonthSumConcat(q[..i], [x], k, m);
    MonthSumConcat(q[..i], q[i + 1..], k, m);
    assert [x][..0] == [];
  }

  /**
   * Reordering the bills changes no month and no usage or amount total of the
   * series; only the kept rate can differ, when a month holds several rates.
   */
  lemma RollupOrderIndependent(p: seq<Bill>, q: seq<Bill>, tp: seq<MonthTotal>, tq: seq<MonthTotal>)
    requires multiset(p) == multiset(q)
    requires IsRollupOf(p, tp) && IsRollupOf(q, tq)
    ensures Months(tp) == Months(tq)
    ensures forall i :: 0 <= i < |tp| ==> tp[i].usage == tq[i].usage && tp[i].amount == tq[i].amount
  {
    forall k ensures Occurs(p, k) <==> Occurs(q, k) {
      if Occurs(p, k) {
        var x :| x in p && MonthOf(x.date) == k;
        assert x in multiset(q);
      }
      if Occurs(q, k) {
        var x :| x in q && MonthOf(x.date) == k;
        assert x in multiset(p);
      }
    }
    AscendingUnique(Months(tp), Months(tq));
    forall i | 0 <= i < |tp|
      ensures tp[i].usage == tq[i].usage && tp[i].amount == tq[i].amount
    {
      var k := tp[i].month;
      assert k == Months(tp)[i] == Months(tq)[i] == tq[i].month;
      MonthSumPermutation(p, q, k, Usage);
      MonthSumPermutation(p, q, k, Amount);
    }
  }

  /**
   * Two January water bills, 10 units and 5 units at 200 cents, make one
   * January point of usage 15, rate 200 and amount 30.
   */
  lemma JanuaryExample()
    ensures var jan := YearMonth(2024, 1);
      IsRollupOf([Bill(1, 7, 10.0, 200.0, Date(2024, 1, 1), 20.0), Bill(2, 7, 5.0, 200.0, Date(2024, 1, 15), 10.0)],
                 [MonthTotal(jan, 15.0, 200.0, 30.0)])
  {
    var jan := YearMonth(2024, 1);
    var b1, b2 := Bill(1, 7, 10.0, 200.0, Date(2024, 1, 1), 20.0), Bill(2, 7, 5.0, 200.0, Date(2024, 1, 15), 10.0);
    var bills := [b1, b2];
    assert bills[..1] == [b1] && [b1][..0] == [];
    assert MonthSum([], jan, Usage) == 0.0 && MonthSum([], jan, Amount) == 0.0;
    assert Share(b1, jan, Usage) == 10.0 && Share(b1, jan, Amount) == 20.0;
    assert MonthSum([b1], jan, Usage) == 10.0;
    assert MonthSum([b1], jan, Amount) == 20.0;
    assert Share(b2, jan, Usage) == 5.0 && Share(b2, jan, Amount) == 10.0;
    assert MonthSum(bills, jan, Usage) == 15.0;
    assert MonthSum(bills, jan, Amount) == 30.0;
    forall k ensures Occurs(bills, k) <==> k == jan {
      if k == jan {
        assert b1 in bills;
      }
    }
    assert Months([MonthTotal(jan, 15.0, 200.0, 30.0)]) == [jan];
  }

  /** Why no chart data is produced. */
  datatype GraphError = GraphUnknownType | NothingToPlot

  /**
   * The series charted for one kind of bill of a user, over all time or one
   * year. An unknown kind is refused, and so is a selection with no bills.
   */
  method ChartData(store: BillStore, userId: int, billType: string, timeRange: Option<int>)
    returns (r: Result<seq<MonthTotal>, GraphError>)
    ensures CategoryNamed(billType).None? ==> r == Err(GraphUnknownType)
    ensures CategoryNamed(billType).Some? ==>
      var bills := InSelectedYear(UserBills(store.Table(CategoryNamed(billType).value), userId), timeRange);
      (bills == [] ==> r == Err(NothingToPlot))
      && (bills != [] ==> r.Ok? && r.value != [] && IsRollupOf(bills, r.value))
  {
    var kind := CategoryNamed(billType);
    if kind.None? {
      return Err(GraphUnknownType);
    }
    var bills := InSelectedYear(UserBills(store.Table(kind.value), userId), timeRange);
    if bills == [] {
      return Err(NothingToPlot);
    }
    var totals := MonthlyRollup(bills);
    assert Occurs(bills, MonthOf(bills[0].date)) by {
      assert bills[0] in bills;
    }
    r := Ok(totals);
  }
}
