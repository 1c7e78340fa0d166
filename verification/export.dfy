/**
 * The rows of the CSV export: every bill of a user, water bills first, then
 * electricity, then gas, each kind in table order.
 */
module Export {
  import opened Bills
  import opened Store

  /** One line of the export: kind label, usage, rate, date and amount. */
  datatype CsvRow = CsvRow(kind: string, usage: real, rate: real, date: Date, amount: real)

  function RowOf(c: Category, b: Bill): CsvRow {
    CsvRow(c.Label(), b.usage, b.rate, b.date, b.amount)
  }

  /** Appends the rows of one kind's bills, in their order, to the rows built so far. */
  method AppendRows(rows: seq<CsvRow>, c: Category, bills: seq<Bill>) returns (out: seq<CsvRow>)
    ensures |out| == |rows| + |bills|
    ensures forall j :: 0 <= j < |rows| ==> out[j] == rows[j]
    ensures forall j :: 0 <= j < |bills| ==> out[|rows| + j] == RowOf(c, bills[j])
  {
    out := rows;
    for i := 0 to |bills|
      invariant |out| == |rows| + i
      invariant forall j :: 0 <= j < |rows| ==> out[j] == rows[j]
      invariant forall j :: 0 <= j < i ==> out[|rows| + j] == RowOf(c, bills[j])
    {
      out := out + [RowOf(c, bills[i])];
    }
  }

  /**
   * The export of one user: one row per bill, the water bills first, then the
   * electricity bills, then the gas bills, each group in table order.
   */
  method ExportRows(store: BillStore, userId: int) returns (rows: seq<CsvRow>)
    ensures var w, e, g := UserBills(store.Table(Water), userId),
                           UserBills(store.Table(Electricity), userId),
                           UserBills(store.Table(Gas), userId);
      |rows| == |w| + |e| + |g|
      && (forall i :: 0 <= i < |w| ==> rows[i] == RowOf(Water, w[i]))
      && (forall i :: 0 <= i < |e| ==> rows[|w| + i] == RowOf(Electricity, e[i]))
      && (forall i :: 0 <= i < |g| ==> rows[|w| + |e| + i] == RowOf(Gas, g[i]))
  {
    var water := UserBills(store.Table(Water), userId);
    var electricity := UserBills(store.Table(Electricity), userId);
    var gas := UserBills(store.Table(Gas), userId);
    var afterWater := AppendRows([], Water, water);
    var afterElectricity := AppendRows(afterWater, Electricity, electricity);
    rows := AppendRows(afterElectricity, Gas, gas);
    forall i | 0 <= i < |water| ensures rows[i] == RowOf(Water, water[i]) {
      assert rows[i] == afterElectricity[i] == afterWater[i];
    }
    forall i | 0 <= i < |electricity| ensures rows[|water| + i] == RowOf(Electricity, electricity[i]) {
      assert rows[|water| + i] == afterElectricity[|water| + i];
    }
  }
}
