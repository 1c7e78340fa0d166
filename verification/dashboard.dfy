/**
 * The dashboard figures: the year filter, the mean rate and mean usage of
 * each bill kind, and the list of years that have bills.
 */
module Dashboard {
  import opened Wrappers
  import opened Bills
  import opened Store

  /** The bills dated in the given year, in their original order. */
  function YearFilter(bills: seq<Bill>, year: int): (r: seq<Bill>)
    ensures forall b :: b in r <==> b in bills && b.date.year == year
    ensures |r| <= |bills|
  {
    if bills == [] then []
    else (if bills[0].date.year == year then [bills[0]] else []) + YearFilter(bills[1..], year)
  }

  /** The bills shown for a year selection; None stands for all time. */
  function InSelectedYear(bills: seq<Bill>, selectedYear: Option<int>): (r: seq<Bill>)
    ensures forall b :: b in r <==> b in bills && (selectedYear.Some? ==> b.date.year == selectedYear.value)
  {
    match selectedYear
    case None => bills
    case Some(y) => YearFilter(bills, y)
  }

  /** The total of one column over a list of bills. */
  function SumOf(bills: seq<Bill>, m: Measure): real {
    if bills == [] then 0.0 else ValueOf(bills[0], m) + SumOf(bills[1..], m)
  }

  /** The arithmetic mean of one column, with 0 standing for the mean of no bills. */
  function MeanOf(bills: seq<Bill>, m: Measure): (mean: real)
    ensures bills == [] ==> mean == 0.0
    ensures bills != [] ==> mean * |bills| as real == SumOf(bills, m)
  {
    if bills == [] then 0.0 else SumOf(bills, m) / |bills| as real
  }

  lemma {:induction false} SumAtLeast(bills: seq<Bill>, m: Measure, lo: real)
    requires forall i :: 0 <= i < |bills| ==> lo <= ValueOf(bills[i], m)
    ensures lo * |bills| as real <= SumOf(bills, m)
  {
    if bills != [] {
      SumAtLeast(bills[1..], m, lo);
    }
  }

  lemma {:induction false} SumAtMost(bills: seq<Bill>, m: Measure, hi: real)
    requires forall i :: 0 <= i < |bills| ==> ValueOf(bills[i], m) <= hi
    ensures SumOf(bills, m) <= hi * |bills| as real
  {
    if bills != [] {
      SumAtMost(bills[1..], m, hi);
    }
  }

  /** A mean lies between any lower and upper bound of the values averaged. */
  lemma MeanWithinBounds(bills: seq<Bill>, m: Measure, lo: real, hi: real)
    requires bills != []
    requires forall i :: 0 <= i < |bills| ==> lo <= ValueOf(bills[i], m) <= hi
    ensures lo <= MeanOf(bills, m) <= hi
  {
    SumAtLeast(bills, m, lo);
    SumAtMost(bills, m, hi);
    var n := |bills| as real;
    var mean := MeanOf(bills, m);
    assert (mean - lo) * n >= 0.0;
    assert (hi - mean) * n >= 0.0;
  }

  predicate StrictlyDescending(s: seq<int>) {
    forall i, j :: 0 <= i < j < |s| ==> s[i] > s[j]
  }

  /** Adds a year to a strictly descending list unless it is already there. */
  function InsertYear(y: int, s: seq<int>): (r: seq<int>)
    requires StrictlyDescending(s)
    ensures StrictlyDescending(r)
    ensures forall x :: x in r <==> x == y || x in s
  {
    if s == [] then [y]
    else if y > s[0] then [y] + s
    else if y == s[0] then s
    else
      var t := InsertYear(y, s[1..]);
      assert forall x :: x in s[1..] ==> s[0] > x;
      PrependDescending(s[0], t);
      assert s == [s[0]] + s[1..];
      [s[0]] + t
  }

  /** A year above every year of a descending list can be put in front of it. */
  lemma PrependDescending(h: int, t: seq<int>)
    requires StrictlyDescending(t) && forall x :: x in t ==> h > x
    ensures StrictlyDescending([h] + t)
  {
    var r := [h] + t;
    forall i, j | 0 <= i < j < |r| ensures r[i] > r[j] {
      assert r[j] == t[j - 1] && t[j - 1] in t;
      if i > 0 {
        assert r[i] == t[i - 1];
      }
    }
  }

  /** Some bill of the list is dated in year y. */
  predicate HasYear(bills: seq<Bill>, y: int) {
    exists b :: b in bills && b.date.year == y
  }

  /** The distinct years of the bills' dates, most recent first. */
  function DistinctYears(bills: seq<Bill>): (r: seq<int>)
    ensures StrictlyDescending(r)
    ensures forall y :: y in r <==> HasYear(bills, y)
  {
    if bills == [] then []
    else
      var r := InsertYear(bills[0].date.year, DistinctYears(bills[1..]));
      assert forall y :: HasYear(bills, y) <==> y == bills[0].date.year || HasYear(bills[1..], y) by {
        forall y ensures HasYear(bills, y) ==> y == bills[0].date.year || HasYear(bills[1..], y) {
          if HasYear(bills, y) {
            var b :| b in bills && b.date.year == y;
            if b != bills[0] {
              assert b in bills[1..];
            }
          }
        }
      }
      r
  }

  /** What the dashboard shows for one bill kind. */
  datatype Summary = Summary(bills: seq<Bill>, avgRate: real, avgUsage: real, years: seq<int>)

  /**
   * The summary of one user's bills of one kind. The bills and both means are
   * taken after the year selection; the year list is taken over all the
   * user's bills, whatever year is selected.
   */
  function Summarise(userBills: seq<Bill>, selectedYear: Option<int>): (s: Summary)
    ensures forall b :: b in s.bills <==>
      b in userBills && (selectedYear.Some? ==> b.date.year == selectedYear.value)
    ensures s.avgRate == MeanOf(s.bills, Rate) && s.avgUsage == MeanOf(s.bills, Usage)
    ensures StrictlyDescending(s.years)
    ensures forall y :: y in s.years <==> HasYear(userBills, y)
  {
    var shown := InSelectedYear(userBills, selectedYear);
    Summary(shown, MeanOf(shown, Rate), MeanOf(shown, Usage), DistinctYears(userBills))
  }

  /** The dashboard: one summary per bill kind. */
  datatype DashboardView = DashboardView(water: Summary, electricity: Summary, gas: Summary) {
    function Of(c: Category): Summary {
      match c
      case Water => water
      case Electricity => electricity
      case Gas => gas
    }

    function With(c: Category, s: Summary): (v: DashboardView)
      ensures v.Of(c) == s && forall d :: d != c ==> v.Of(d) == Of(d)
    {
      match c
      case Water => this.(water := s)
      case Electricity => this.(electricity := s)
      case Gas => this.(gas := s)
    }
  }

  /** The dashboard of one user for a year selection (None: all time). */
  function DashboardOf(store: BillStore, userId: int, selectedYear: Option<int>): (v: DashboardView)
    reads store
    ensures forall c, b :: b in v.Of(c).bills <==>
      b in store.Table(c) && b.userId == userId && (selectedYear.Some? ==> b.date.year == selectedYear.value)
    ensures forall c :: v.Of(c).years == DistinctYears(UserBills(store.Table(c), userId))
  {
    var v := DashboardView(
      KindSummary(store, userId, selectedYear, Water),
      KindSummary(store, userId, selectedYear, Electricity),
      KindSummary(store, userId, selectedYear, Gas));
    assert forall c :: v.Of(c) == KindSummary(store, userId, selectedYear, c);
    v
  }

  /** The summary of one kind of the user's bills, stated against that kind's table. */
  function KindSummary(store: BillStore, userId: int, selectedYear: Option<int>, c: Category): (s: Summary)
    reads store
    ensures forall b :: b in s.bills <==>
      b in store.Table(c) && b.userId == userId && (selectedYear.Some? ==> b.date.year == selectedYear.value)
    ensures s.years == DistinctYears(UserBills(store.Table(c), userId))
  {
    Summarise(UserBills(store.Table(c), userId), selectedYear)
  }

  /**
   * For each bill kind the dashboard lists exactly the user's bills of the
   * selected year, averages over those, and lists every year the user has a
   * bill of that kind in, independently of the selection.
   */
  lemma DashboardContents(store: BillStore, userId: int, selectedYear: Option<int>, c: Category)
    ensures var s := DashboardOf(store, userId, selectedYear).Of(c);
      (forall b :: b in s.bills <==>
        b in store.Table(c) && b.userId == userId && (selectedYear.Some? ==> b.date.year == selectedYear.value))
      && s.avgRate == MeanOf(s.bills, Rate) && s.avgUsage == MeanOf(s.bills, Usage)
      && StrictlyDescending(s.years)
      && (forall y :: y in s.years <==> HasYear(UserBills(store.Table(c), userId), y))
      && s.years == DashboardOf(store, userId, None).Of(c).years
  {
  }
}
