/**
 * The range filter of one bill kind: optional inclusive bounds on usage,
 * rate, amount and date, applied one after the other to the user's bills.
 */
module Filter {
  import opened Wrappers
  import opened Bills
  import opened Store
  import opened Dashboard

  /** One bound of the filter. */
  datatype Condition =
    | AtLeast(m: Measure, bound: real)
    | AtMost(m: Measure, bound: real)
    | OnOrAfter(start: Date)
    | OnOrBefore(end: Date)

  predicate Holds(cond: Condition, b: Bill) {
    match cond
    case AtLeast(m, lo) => ValueOf(b, m) >= lo
    case AtMost(m, hi) => ValueOf(b, m) <= hi
    case OnOrAfter(d) => DateLe(d, b.date)
    case OnOrBefore(d) => DateLe(b.date, d)
  }

  /** One narrowing step: the bills that meet one more condition, in order. */
  function Narrow(q: seq<Bill>, cond: Condition): (r: seq<Bill>)
    ensures forall b :: b in r <==> b in q && Holds(cond, b)
  {
    if q == [] then []
    else (if Holds(cond, q[0]) then [q[0]] else []) + Narrow(q[1..], cond)
  }

  /** A lower usage bound of 10 keeps the bills of usage 15 and 10, in their order. */
  lemma UsageMinExample(b1: Bill, b2: Bill, b3: Bill)
    requires b1.userId == b2.userId == b3.userId
    requires b1.usage == 5.0 && b2.usage == 15.0 && b3.usage == 10.0
    ensures Select([b1, b2, b3], b1.userId, NoBounds.(usageMin := Some(10.0))) == [b2, b3]
  {
    var bd := NoBounds.(usageMin := Some(10.0));
    assert [b1, b2, b3][1..] == [b2, b3];
    assert [b2, b3][1..] == [b3];
    assert Select([b3], b1.userId, bd) == [b3];
    assert Select([b2, b3], b1.userId, bd) == [b2, b3];
  }

  /** A date bound as submitted: missing or empty, not a YYYY-MM-DD date, or a date. */
  datatype DateBound = Omitted | Malformed | OnDate(date: Date)

  /**
   * The submitted bounds. A numeric bound whose text is not a number arrives
   * as None, exactly like a missing one.
   */
  datatype Bounds = Bounds(
    usageMin: Option<real>, usageMax: Option<real>,
    rateMin: Option<real>, rateMax: Option<real>,
    amountMin: Option<real>, amountMax: Option<real>,
    startDate: DateBound, endDate: DateBound)

  /** No bound supplied. */
  const NoBounds := Bounds(None, None, None, None, None, None, Omitted, Omitted)

  /** The bill lies within every bound that was supplied, ends included. */
  predicate WithinBounds(bd: Bounds, b: Bill) {
    (bd.usageMin.Some? ==> b.usage >= bd.usageMin.value)
    && (bd.usageMax.Some? ==> b.usage <= bd.usageMax.value)
    && (bd.rateMin.Some? ==> b.rate >= bd.rateMin.value)
    && (bd.rateMax.Some? ==> b.rate <= bd.rateMax.value)
    && (bd.amountMin.Some? ==> b.amount >= bd.amountMin.value)
    && (bd.amountMax.Some? ==> b.amount <= bd.amountMax.value)
    && (bd.startDate.OnDate? ==> DateLe(bd.startDate.date, b.date))
    && (bd.endDate.OnDate? ==> DateLe(b.date, bd.endDate.date))
  }

  /** The reference result: the user's rows within every bound, in table order. */
  function Select(rows: seq<Bill>, userId: int, bd: Bounds): (r: seq<Bill>)
    ensures forall b :: b in r <==> b in rows && b.userId == userId && WithinBounds(bd, b)
  {
    if rows == [] then []
    else
      (if rows[0].userId == userId && WithinBounds(bd, rows[0]) then [rows[0]] else [])
      + Select(rows[1..], userId, bd)
  }

  /**
   * Narrowing a selection by one condition selects by the bounds that add
   * exactly that condition.
   */
  lemma {:induction false} NarrowSelect(rows: seq<Bill>, userId: int, bd: Bounds, cond: Condition, bd': Bounds)
    requires forall b :: WithinBounds(bd', b) <==> WithinBounds(bd, b) && Holds(cond, b)
    ensures Narrow(Select(rows, userId, bd), cond) == Select(rows, userId, bd')
  {
    if rows != [] {
      NarrowSelect(rows[1..], userId, bd, cond, bd');
      var rest := Select(rows[1..], userId, bd);
      if rows[0].userId == userId && WithinBounds(bd, rows[0]) {
        var q := [rows[0]] + rest;
        assert Select(rows, userId, bd) == q;
        assert q[0] == rows[0] && q[1..] == rest;
      } else {
        assert Select(rows, userId, bd) == rest;
      }
    }
  }

  /** When every row is within the bounds, the selection is the user's rows in table order. */
  lemma {:induction false} SelectAllWithin(rows: seq<Bill>, userId: int, bd: Bounds)
    requires forall i :: 0 <= i < |rows| ==> WithinBounds(bd, rows[i])
    ensures Select(rows, userId, bd) == UserBills(rows, userId)
  {
    if rows != [] {
      SelectAllWithin(rows[1..], userId, bd);
    }
  }

  /** With no bounds the selection is all of the user's rows, in table order. */
  lemma SelectNoBounds(rows: seq<Bill>, userId: int)
    ensures Select(rows, userId, NoBounds) == UserBills(rows, userId)
  {
    SelectAllWithin(rows, userId, NoBounds);
  }

  /** Filtering a filtered list again with the same bounds changes nothing. */
  lemma {:induction false} SelectIdempotent(rows: seq<Bill>, userId: int, bd: Bounds)
    ensures Select(Select(rows, userId, bd), userId, bd) == Select(rows, userId, bd)
  {
    if rows != [] {
      SelectIdempotent(rows[1..], userId, bd);
      var rest := Select(rows[1..], userId, bd);
      if rows[0].userId == userId && WithinBounds(bd, rows[0]) {
        var q := [rows[0]] + rest;
        assert Select(rows, userId, bd) == q;
        assert q[0] == rows[0] && q[1..] == rest;
      } else {
        assert Select(rows, userId, bd) == rest;
      }
    }
  }

  /** Why a filter request is refused. */
  datatype FilterError = UnknownBillType | InvalidStartDate | InvalidEndDate

  /**
   * Narrows a user's rows by each supplied bound in turn: usage, rate and
   * amount bounds first, then the start date and the end date. A date bound
   * that is not a date refuses the query, the start date being looked at first.
   */
  method RunQuery(rows: seq<Bill>, userId: int, bounds: Bounds) returns (r: Result<seq<Bill>, FilterError>)
    ensures bounds.startDate.Malformed? ==> r == Err(InvalidStartDate)
    ensures !bounds.startDate.Malformed? && bounds.endDate.Malformed? ==> r == Err(InvalidEndDate)
    ensures r.Ok? <==> !bounds.startDate.Malformed? && !bounds.endDate.Malformed?
    ensures r.Ok? ==> r.value == Select(rows, userId, bounds)
  {
    var query := NarrowByNumbers(rows, userId, bounds);
    // The bounds applied so far; the query always equals the selection by them.
    ghost var applied := bounds.(startDate := Omitted, endDate := Omitted);
    match bounds.startDate {
      case Omitted =>
      case Malformed => return Err(InvalidStartDate);
      case OnDate(d) =>
        var cond := OnOrAfter(d);
        NarrowSelect(rows, userId, applied, cond, applied.(startDate := bounds.startDate));
        query, applied := Narrow(query, cond), applied.(startDate := bounds.startDate);
    }
    match bounds.endDate {
      case Omitted =>
      case Malformed => return Err(InvalidEndDate);
      case OnDate(d) =>
        var cond := OnOrBefore(d);
        NarrowSelect(rows, userId, applied, cond, applied.(endDate := bounds.endDate));
        query, applied := Narrow(query, cond), applied.(endDate := bounds.endDate);
    }
    assert applied == bounds;
    r := Ok(query);
  }

  /** The user's rows narrowed by the usage, rate and amount bounds that were supplied. */
  method NarrowByNumbers(rows: seq<Bill>, userId: int, bounds: Bounds) returns (query: seq<Bill>)
    ensures query == Select(rows, userId, bounds.(startDate := Omitted, endDate := Omitted))
  {
    query := UserBills(rows, userId);
    SelectNoBounds(rows, userId);
    query := NarrowPair(rows, userId, query, NoBounds, Usage, bounds.usageMin, bounds.usageMax);
    query := NarrowPair(rows, userId, query, NoBounds.(usageMin := bounds.usageMin, usageMax := bounds.usageMax),
                        Rate, bounds.rateMin, bounds.rateMax);
    query := NarrowPair(rows, userId, query,
                        NoBounds.(usageMin := bounds.usageMin, usageMax := bounds.usageMax,
                                  rateMin := bounds.rateMin, rateMax := bounds.rateMax),
                        Amount, bounds.amountMin, bounds.amountMax);
    assert NoBounds.(usageMin := bounds.usageMin, usageMax := bounds.usageMax,
                     rateMin := bounds.rateMin, rateMax := bounds.rateMax,
                     amountMin := bounds.amountMin, amountMax := bounds.amountMax)
      == bounds.(startDate := Omitted, endDate := Omitted);
  }

  /** The bounds bd with the minimum and maximum of column m set. */
  function WithPair(bd: Bounds, m: Measure, lo: Option<real>, hi: Option<real>): Bounds {
    match m
    case Usage => bd.(usageMin := lo, usageMax := hi)
    case Rate => bd.(rateMin := lo, rateMax := hi)
    case Amount => bd.(amountMin := lo, amountMax := hi)
  }

  /** Unset minimum and maximum of column m. */
  predicate PairUnset(bd: Bounds, m: Measure) {
    match m
    case Usage => bd.usageMin.None? && bd.usageMax.None?
    case Rate => bd.rateMin.None? && bd.rateMax.None?
    case Amount => bd.amountMin.None? && bd.amountMax.None?
  }

  /** Narrows the query by the minimum, then the maximum, of one column, when supplied. */
  method NarrowPair(rows: seq<Bill>, userId: int, query: seq<Bill>, ghost applied: Bounds,
                    m: Measure, lo: Option<real>, hi: Option<real>) returns (out: seq<Bill>)
    requires query == Select(rows, userId, applied) && PairUnset(applied, m)
    ensures out == Select(rows, userId, WithPair(applied, m, lo, hi))
  {
    out := query;
    if lo.Some? {
      NarrowSelect(rows, userId, applied, AtLeast(m, lo.value), WithPair(applied, m, lo, None));
      out := Narrow(out, AtLeast(m, lo.value));
    } else {
      assert WithPair(applied, m, lo, None) == applied;
    }
    if hi.Some? {
      NarrowSelect(rows, userId, WithPair(applied, m, lo, None), AtMost(m, hi.value), WithPair(applied, m, lo, hi));
      out := Narrow(out, AtMost(m, hi.value));
    } else {
      assert WithPair(applied, m, lo, hi) == WithPair(applied, m, lo, None);
    }
  }

  /**
   * Filters one kind of bill of a user. An unknown kind is refused before any
   * query. The dashboard is then shown with the filtered list in place of that
   * kind's bills; its means and year lists still cover all of the user's bills.
   */
  method FilterBills(store: BillStore, userId: int, billType: string, bounds: Bounds)
    returns (r: Result<DashboardView, FilterError>)
    ensures CategoryNamed(billType).None? ==> r == Err(UnknownBillType)
    ensures CategoryNamed(billType).Some? && bounds.startDate.Malformed? ==> r == Err(InvalidStartDate)
    ensures CategoryNamed(billType).Some? && !bounds.startDate.Malformed? && bounds.endDate.Malformed? ==>
      r == Err(InvalidEndDate)
    ensures r.Ok? <==>
      CategoryNamed(billType).Some? && !bounds.startDate.Malformed? && !bounds.endDate.Malformed?
    ensures r.Ok? ==> var c := CategoryNamed(billType).value;
      r.value.Of(c).bills == Select(store.Table(c), userId, bounds)
      && forall d :: d != c ==> r.value.Of(d) == DashboardOf(store, userId, None).Of(d)
    ensures r.Ok? ==> var c := CategoryNamed(billType).value;
      var all := UserBills(store.Table(c), userId);
      r.value.Of(c).avgRate == MeanOf(all, Rate) && r.value.Of(c).avgUsage == MeanOf(all, Usage)
      && r.value.Of(c).years == DistinctYears(all)
  {
    var kind := CategoryNamed(billType);
    if kind.None? {
      return Err(UnknownBillType);
    }
    var c := kind.value;
    var filtered := RunQuery(store.Table(c), userId, bounds);
    if filtered.Err? {
      return Err(filtered.error);
    }
    var view := DashboardOf(store, userId, None);
    r := Ok(view.With(c, view.Of(c).(bills := filtered.value)));
  }
}
