/**
 * The bill store: one table per bill kind, each a sequence of rows in key
 * order, with the add, edit and delete operations of the bill manager.
 */
module Store {
  import opened Wrappers
  import opened Bills

  /** Keys strictly increase along a table, so no key occurs twice. */
  predicate IdsAscending(rows: seq<Bill>) {
    forall i, j :: 0 <= i < j < |rows| ==> rows[i].id < rows[j].id
  }

  /** What every table of kind c keeps: positive ascending keys and derived amounts. */
  predicate WellFormedTable(c: Category, rows: seq<Bill>) {
    IdsAscending(rows)
    && (forall i :: 0 <= i < |rows| ==> rows[i].id > 0 && AmountConsistent(c, rows[i]))
  }

  /** The key a new row receives: one more than the largest key present, or 1. */
  function NextId(rows: seq<Bill>): (id: int)
    requires IdsAscending(rows)
    ensures forall i :: 0 <= i < |rows| ==> rows[i].id < id
    ensures rows == [] ==> id == 1
    ensures rows != [] ==> exists i :: 0 <= i < |rows| && rows[i].id == id - 1
  {
    if rows == [] then 1 else rows[|rows| - 1].id + 1
  }

  /** Position of the row with key id, if any. */
  function IndexOf(rows: seq<Bill>, id: int): (r: Option<nat>)
    ensures r.Some? ==> r.value < |rows| && rows[r.value].id == id
    ensures r.None? ==> forall i :: 0 <= i < |rows| ==> rows[i].id != id
  {
    if rows == [] then None
    else if rows[0].id == id then Some(0)
    else match IndexOf(rows[1..], id)
      case None => None
      case Some(k) => Some(k + 1)
  }

  /** The rows of one user, in table order. */
  function UserBills(rows: seq<Bill>, userId: int): (r: seq<Bill>)
    ensures forall b :: b in r <==> b in rows && b.userId == userId
    ensures |r| <= |rows|
  {
    if rows == [] then []
    else (if rows[0].userId == userId then [rows[0]] else []) + UserBills(rows[1..], userId)
  }

  class BillStore {
    var water: seq<Bill>
    var electricity: seq<Bill>
    var gas: seq<Bill>

    /** The table that holds bills of kind c. */
    function Table(c: Category): seq<Bill>
      reads this
    {
      match c
      case Water => water
      case Electricity => electricity
      case Gas => gas
    }

    ghost predicate Valid()
      reads this
    {
      forall c :: WellFormedTable(c, Table(c))
    }

    constructor ()
      ensures Valid()
      ensures forall c :: Table(c) == []
    {
      water, electricity, gas := [], [], [];
    }

    /** Replaces the table of kind c by a well-formed one and leaves the other two alone. */
    method SetTable(c: Category, rows: seq<Bill>)
      requires Valid() && WellFormedTable(c, rows)
      modifies this
      ensures Valid()
      ensures Table(c) == rows
      ensures forall d :: d != c ==> Table(d) == old(Table(d))
    {
      match c {
        case Water => water := rows;
        case Electricity => electricity := rows;
        case Gas => gas := rows;
      }
      forall d ensures WellFormedTable(d, Table(d)) {
        if d != c {
          assert Table(d) == old(Table(d));
        }
      }
    }

    /**
     * Adds a bill of kind c for a user from the submitted form. On success the
     * table grows by exactly the new row, under a fresh key; on any error
     * nothing is stored.
     */
    method AddBill(c: Category, userId: int, usage: Option<real>, rate: Option<real>,
                   monthYear: Option<YearMonth>, today: Date) returns (r: Result<int, StoreError>)
      requires Valid()
      modifies this
      ensures Valid()
      ensures r.Err? <==> CheckNew(c, usage, rate, monthYear, today).Err?
      ensures r.Err? ==>
        r.error == CheckNew(c, usage, rate, monthYear, today).error && Table(c) == old(Table(c))
      ensures r.Ok? ==> var e := CheckNew(c, usage, rate, monthYear, today).value;
        r.value == NextId(old(Table(c)))
        && Table(c) == old(Table(c)) + [Bill(r.value, userId, e.usage, e.rate, e.date, e.amount)]
      ensures forall d :: d != c ==> Table(d) == old(Table(d))
    {
      var checked := CheckNew(c, usage, rate, monthYear, today);
      if checked.Err? {
        return Err(checked.error);
      }
      var e := checked.value;
      var rows := Table(c);
      var id := NextId(rows);
      var rows' := rows + [Bill(id, userId, e.usage, e.rate, e.date, e.amount)];
      assert WellFormedTable(c, rows');
      SetTable(c, rows');
      r := Ok(id);
    }

    /**
     * Overwrites usage, rate and date of the bill with key billId and derives
     * its amount again, without the positivity and future-date checks that
     * AddBill makes. A missing key or an unreadable form changes nothing.
     * On success the owner of the bill is returned.
     */
    method EditBill(c: Category, billId: int, usage: Option<real>, rate: Option<real>,
                    monthYear: Option<YearMonth>) returns (r: Result<int, StoreError>)
      requires Valid()
      modifies this
      ensures Valid()
      ensures old(IndexOf(Table(c), billId)).None? ==> r == Err(NotFound) && Table(c) == old(Table(c))
      ensures old(IndexOf(Table(c), billId)).Some? && ParseEntry(c, usage, rate, monthYear).None? ==>
        r == Err(InvalidInput) && Table(c) == old(Table(c))
      ensures old(IndexOf(Table(c), billId)).Some? && ParseEntry(c, usage, rate, monthYear).Some? ==>
        var i := old(IndexOf(Table(c), billId)).value;
        var e := ParseEntry(c, usage, rate, monthYear).value;
        var b := old(Table(c))[i];
        r == Ok(b.userId)
        && Table(c) == old(Table(c))[i := Bill(b.id, b.userId, e.usage, e.rate, e.date, e.amount)]
      ensures forall d :: d != c ==> Table(d) == old(Table(d))
    {
      var rows := Table(c);
      var found := IndexOf(rows, billId);
      if found.None? {
        return Err(NotFound);
      }
      var i := found.value;
      var parsed := ParseEntry(c, usage, rate, monthYear);
      if parsed.None? {
        return Err(InvalidInput);
      }
      var e := parsed.value;
      var b := rows[i];
      var rows' := rows[i := Bill(b.id, b.userId, e.usage, e.rate, e.date, e.amount)];
      assert WellFormedTable(c, rows');
      SetTable(c, rows');
      r := Ok(b.userId);
    }

    /**
     * Removes the bill with key billId from the table of kind c and returns
     * its owner; a missing key changes nothing.
     */
    method DeleteBill(c: Category, billId: int) returns (r: Result<int, StoreError>)
      requires Valid()
      modifies this
      ensures Valid()
      ensures old(IndexOf(Table(c), billId)).None? ==> r == Err(NotFound) && Table(c) == old(Table(c))
      ensures old(IndexOf(Table(c), billId)).Some? ==>
        var i := old(IndexOf(Table(c), billId)).value;
        r == Ok(old(Table(c))[i].userId)
        && Table(c) == old(Table(c))[..i] + old(Table(c))[i + 1..]
      ensures forall d :: d != c ==> Table(d) == old(Table(d))
    {
      var rows := Table(c);
      var found := IndexOf(rows, billId);
      if found.None? {
        return Err(NotFound);
      }
      var i := found.value;
      var rows' := rows[..i] + rows[i + 1..];
      assert forall k :: 0 <= k < |rows'| ==> rows'[k] == rows[if k < i then k else k + 1];
      assert WellFormedTable(c, rows');
      SetTable(c, rows');
      r := Ok(rows[i].userId);
    }
  }

  /** After a successful add, the key of the new row is held by no other row. */
  lemma {:induction false} AddedKeyIsFresh(rows: seq<Bill>, b: Bill)
    requires IdsAscending(rows) && b.id == NextId(rows)
    ensures IdsAscending(rows + [b])
    ensures IndexOf(rows + [b], b.id) == Some(|rows|)
  {
    var s := rows + [b];
    IndexOfAt(s, |rows|);
  }

  /** In a table with ascending keys, looking a row's key up finds that row. */
  lemma {:induction false} IndexOfAt(rows: seq<Bill>, i: nat)
    requires IdsAscending(rows) && i < |rows|
    ensures IndexOf(rows, rows[i].id) == Some(i)
  {
    if i > 0 {
      assert rows[1..][i - 1] == rows[i];
      IndexOfAt(rows[1..], i - 1);
    }
  }

  /**
   * The edit path reads the same form as the add path but stores what the add
   * path refuses: a negative usage, and a month after today.
   */
  lemma EditAcceptsWhatAddRefuses(c: Category)
    ensures ParseEntry(c, Some(-1.0), Some(5.0), Some(YearMonth(2024, 1))).Some?
    ensures CheckNew(c, Some(-1.0), Some(5.0), Some(YearMonth(2024, 1)), Date(2025, 6, 1)) == Err(NonPositive)
    ensures ParseEntry(c, Some(1.0), Some(5.0), Some(YearMonth(2030, 1))).Some?
    ensures CheckNew(c, Some(1.0), Some(5.0), Some(YearMonth(2030, 1)), Date(2025, 6, 1)) == Err(FutureDate)
  {
  }
}
