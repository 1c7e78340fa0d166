/**
 * The bill records of the tracker: the three bill kinds, calendar dates,
 * one bill row, and the rule that turns usage and rate into an amount due.
 */
module Bills {
  import opened Wrappers

  /** The three kinds of bill; each kind is kept in a table of its own. */
  datatype Category = Water | Electricity | Gas {
    /** The name used in routes and query parameters. */
    function Name(): string {
      match this
      case Water => "water"
      case Electricity => "electricity"
      case Gas => "gas"
    }

    /** The label written in the Type column of the CSV export. */
    function Label(): string {
      match this
      case Water => "Water"
      case Electricity => "Electricity"
      case Gas => "Gas"
    }

    /** Water and electricity rates are entered in cents, gas rates in dollars. */
    predicate RateInCents() {
      this != Gas
    }
  }

  /** Looks a bill kind up by its route name; any other name is unknown. */
  function CategoryNamed(name: string): (r: Option<Category>)
    ensures r.Some? ==> r.value.Name() == name
    ensures forall c: Category :: c.Name() == name ==> r == Some(c)
  {
    if name == "water" then Some(Water)
    else if name == "electricity" then Some(Electricity)
    else if name == "gas" then Some(Gas)
    else None
  }

  /** A calendar date. */
  datatype Date = Date(year: int, month: int, day: int)

  /** Chronological order of dates: by year, then month, then day. */
  predicate DateLe(a: Date, b: Date) {
    a.year < b.year
    || (a.year == b.year && a.month < b.month)
    || (a.year == b.year && a.month == b.month && a.day <= b.day)
  }

  /** A calendar month, the unit in which bills are entered and charted. */
  datatype YearMonth = YearMonth(year: int, month: int)

  /** Strict chronological order of months. */
  predicate MonthLess(a: YearMonth, b: YearMonth) {
    a.year < b.year || (a.year == b.year && a.month < b.month)
  }

  function MonthOf(d: Date): YearMonth {
    YearMonth(d.year, d.month)
  }

  /**
   * The first day of an entered month. A year outside 1..9999 or a month
   * outside 1..12 is not a date, and the entry is rejected.
   */
  function FirstOfMonth(ym: YearMonth): (r: Option<Date>)
    ensures r.Some? <==> 1 <= ym.year <= 9999 && 1 <= ym.month <= 12
    ensures r.Some? ==> r.value.day == 1 && MonthOf(r.value) == ym
  {
    if 1 <= ym.year <= 9999 && 1 <= ym.month <= 12 then Some(Date(ym.year, ym.month, 1)) else None
  }

  /** One stored bill row. The kind is given by the table that holds it. */
  datatype Bill = Bill(id: int, userId: int, usage: real, rate: real, date: Date, amount: real)

  /** The numeric columns of a bill. */
  datatype Measure = Usage | Rate | Amount

  function ValueOf(b: Bill, m: Measure): real {
    match m
    case Usage => b.usage
    case Rate => b.rate
    case Amount => b.amount
  }

  /** Amount due in dollars: a cent rate is divided by 100, a dollar rate is not. */
  function AmountDue(c: Category, usage: real, rate: real): real {
    if c.RateInCents() then usage * rate / 100.0 else usage * rate
  }

  /** A stored bill of kind c whose amount was derived from its own usage and rate. */
  predicate AmountConsistent(c: Category, b: Bill) {
    b.amount == AmountDue(c, b.usage, b.rate)
  }

  /** The fields of a bill after its form has been read. */
  datatype Entry = Entry(usage: real, rate: real, date: Date, amount: real)

  /** Why a store operation was refused. */
  datatype StoreError = InvalidInput | NonPositive | FutureDate | NotFound

  /**
   * Reads a bill form, shared by the add and edit paths: usage and rate as
   * numbers (None when the text is not a number), the month as year and month
   * (None when the text is not of that shape); the date is the first of that
   * month and the amount is derived by the kind's rule.
   */
  function ParseEntry(c: Category, usage: Option<real>, rate: Option<real>, monthYear: Option<YearMonth>)
    : (r: Option<Entry>)
    ensures r.Some? <==> usage.Some? && rate.Some? && monthYear.Some? && FirstOfMonth(monthYear.value).Some?
    ensures r.Some? ==> r.value.usage == usage.value && r.value.rate == rate.value
    ensures r.Some? ==> r.value.date.day == 1 && MonthOf(r.value.date) == monthYear.value
    ensures r.Some? && c == Gas ==> r.value.amount == r.value.usage * r.value.rate
    ensures r.Some? && c != Gas ==> 100.0 * r.value.amount == r.value.usage * r.value.rate
  {
    if usage.None? || rate.None? || monthYear.None? then None
    else
      match FirstOfMonth(monthYear.value)
      case None => None
      case Some(d) => Some(Entry(usage.value, rate.value, d, AmountDue(c, usage.value, rate.value)))
  }

  /**
   * The checks a new bill passes before it is stored: the form must parse,
   * usage and rate must be positive, and the month must not lie after today.
   * The errors are reported in that order.
   */
  function CheckNew(c: Category, usage: Option<real>, rate: Option<real>, monthYear: Option<YearMonth>, today: Date)
    : (r: Result<Entry, StoreError>)
    ensures r == Err(InvalidInput) <==> ParseEntry(c, usage, rate, monthYear).None?
    ensures r == Err(NonPositive) <==>
      ParseEntry(c, usage, rate, monthYear).Some? && (usage.value <= 0.0 || rate.value <= 0.0)
    ensures r == Err(FutureDate) <==>
      ParseEntry(c, usage, rate, monthYear).Some? && usage.value > 0.0 && rate.value > 0.0
      && !DateLe(ParseEntry(c, usage, rate, monthYear).value.date, today)
    ensures r.Ok? ==> r.value == ParseEntry(c, usage, rate, monthYear).value
    ensures r.Ok? ==> r.value.usage > 0.0 && r.value.rate > 0.0 && r.value.amount > 0.0
    ensures r.Ok? ==> DateLe(r.value.date, today) && r.value.date.day == 1
    ensures r.Err? ==> r.error != NotFound
  {
    match ParseEntry(c, usage, rate, monthYear)
    case None => Err(InvalidInput)
    case Some(e) =>
      if e.usage <= 0.0 || e.rate <= 0.0 then Err(NonPositive)
      else if !DateLe(e.date, today) then Err(FutureDate)
      else Ok(e)
  }
}
