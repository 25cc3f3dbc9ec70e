/**
 * Seeding the order list from an order-history report (`load_ids_from_csv`).
 * The parsed report is a header row of column names and rows of cell
 * strings; a missing cell reads as "" (the report is read as strings with
 * missing values filled by "").
 */
module SeedReport {
  import opened Wrappers
  import opened Text
  import opened Unique
  import opened PaymentFilter

  datatype Table = Table(columns: seq<string>, rows: seq<seq<string>>)

  function Cell(row: seq<string>, j: nat): string {
    if j < |row| then row[j] else ""
  }

  /** A column name lowered, with spaces turned into dashes. */
  function NormalizeColumn(c: string): string {
    ReplaceChar(Lower(c), ' ', '-')
  }

  /** The dictionary built from the normalised names: the column a
      normalised name maps to is the last one that has it. */
  function ColumnFor(columns: seq<string>, key: string): (r: Option<nat>)
    ensures r.Some? ==> r.value < |columns| && NormalizeColumn(columns[r.value]) == key
    ensures r.Some? ==> forall k :: r.value < k < |columns| ==> NormalizeColumn(columns[k]) != key
    ensures r.None? <==> forall k :: 0 <= k < |columns| ==> NormalizeColumn(columns[k]) != key
  {
    if columns == [] then None
    else if NormalizeColumn(columns[|columns| - 1]) == key then Some(|columns| - 1)
    else ColumnFor(columns[..|columns| - 1], key)
  }

  /** The order-id column: "order-id" when present, else "orderid". */
  function OrderIdColumn(columns: seq<string>): Option<nat> {
    match ColumnFor(columns, "order-id")
    case Some(j) => Some(j)
    case None => ColumnFor(columns, "orderid")
  }

  /** The order-id column is found exactly when some column normalises to
      "order-id" or "orderid", and "order-id" wins when both are present. */
  lemma OrderIdColumnChoice(columns: seq<string>)
    ensures OrderIdColumn(columns).None? <==>
      forall k :: 0 <= k < |columns| ==> NormalizeColumn(columns[k]) != "order-id" && NormalizeColumn(columns[k]) != "orderid"
    ensures (exists k :: 0 <= k < |columns| && NormalizeColumn(columns[k]) == "order-id") ==>
      OrderIdColumn(columns).Some? && NormalizeColumn(columns[OrderIdColumn(columns).value]) == "order-id"
  {
  }

  /** A report exported with an "Order ID" header and a later "orderid"
      column: the "Order ID" column is used. */
  lemma OrderIdHeaderExample()
    ensures OrderIdColumn(["Order Date", "Order ID", "orderid"]) == Some(1)
  {
    assert NormalizeColumn("Order ID") == "order-id";
    assert NormalizeColumn("orderid")[5] == 'i';
    assert NormalizeColumn("Order Date")[6] == 'd';
  }

  /** Indices of the columns whose lowered name contains "payment", in order. */
  function PaymentColumns(columns: seq<string>): (r: seq<nat>)
    ensures forall i :: 0 <= i < |r| ==> r[i] < |columns| && Contains(Lower(columns[r[i]]), "payment")
    ensures forall k :: 0 <= k < |columns| && Contains(Lower(columns[k]), "payment") ==> k in r
    ensures forall i, j :: 0 <= i < j < |r| ==> r[i] < r[j]
  {
    if columns == [] then []
    else
      var k := |columns| - 1;
      PaymentColumns(columns[..k]) + if Contains(Lower(columns[k]), "payment") then [k] else []
  }

  /** The payment cells of a row joined with single spaces. */
  function PaymentBlob(row: seq<string>, payCols: seq<nat>): string {
    Join(" ", seq(|payCols|, i requires 0 <= i < |payCols| => Cell(row, payCols[i])))
  }

  /** The order-id cells of the rows whose payment text passes the filter,
      in row order, repeats included. */
  function MatchingIds(rows: seq<seq<string>>, oid: nat, payCols: seq<nat>, last4: string): seq<string> {
    if rows == [] then []
    else
      var row := rows[|rows| - 1];
      MatchingIds(rows[..|rows| - 1], oid, payCols, last4)
        + if FilterAccepts(PaymentBlob(row, payCols), last4) then [Cell(row, oid)] else []
  }

  /** The cells of one column, in row order. */
  function ColumnValues(rows: seq<seq<string>>, j: nat): (r: seq<string>)
    ensures |r| == |rows| && forall i :: 0 <= i < |rows| ==> r[i] == Cell(rows[i], j)
  {
    seq(|rows|, i requires 0 <= i < |rows| => Cell(rows[i], j))
  }

  /** What `load_ids_from_csv` returns: nothing without a report or an
      order-id column; otherwise the distinct order ids, in first-seen order,
      of all rows or, with a card filter, of the rows whose payment columns
      mention the card. */
  function CsvIds(table: Option<Table>, last4: string): seq<string> {
    match table
    case None => []
    case Some(t) =>
      match OrderIdColumn(t.columns)
      case None => []
      case Some(oid) =>
        if last4 == "" then Dedup(ColumnValues(t.rows, oid))
        else Dedup(MatchingIds(t.rows, oid, PaymentColumns(t.columns), last4))
  }

  /** `load_ids_from_csv` (lines 458-483): the row loop appends to `filtered`. */
  method LoadIdsFromCsv(table: Option<Table>, last4: string) returns (ids: seq<string>)
    ensures ids == CsvIds(table, last4)
  {
    if table.None? {
      return [];
    }
    var t := table.value;
    var oid := OrderIdColumn(t.columns);
    if oid.None? {
      return [];
    }
    ids := Dedup(ColumnValues(t.rows, oid.value));
    if last4 != "" {
      var payCols := PaymentColumns(t.columns);
      var filtered: seq<string> := [];
      for i := 0 to |t.rows|
        invariant filtered == MatchingIds(t.rows[..i], oid.value, payCols, last4)
      {
        MatchingIdsSnoc(t.rows, i, oid.value, payCols, last4);
        var blob := PaymentBlob(t.rows[i], payCols);
        if FilterAccepts(blob, last4) {
          filtered := filtered + [Cell(t.rows[i], oid.value)];
        }
      }
      assert t.rows[..|t.rows|] == t.rows;
      ids := Dedup(filtered);
    }
  }

  /** One more row of the filtering loop. */
  lemma MatchingIdsSnoc(rows: seq<seq<string>>, i: nat, oid: nat, payCols: seq<nat>, last4: string)
    requires i < |rows|
    ensures MatchingIds(rows[..i + 1], oid, payCols, last4)
      == MatchingIds(rows[..i], oid, payCols, last4)
         + if FilterAccepts(PaymentBlob(rows[i], payCols), last4) then [Cell(rows[i], oid)] else []
  {
    assert rows[..i + 1][..i] == rows[..i];
  }

  /** With a card filter, an id is kept exactly when some row carrying it
      has payment text that mentions the card. */
  lemma {:induction false} MatchingIdsMembers(rows: seq<seq<string>>, oid: nat, payCols: seq<nat>, last4: string, x: string)
    ensures x in MatchingIds(rows, oid, payCols, last4) <==>
      exists i :: 0 <= i < |rows| && Cell(rows[i], oid) == x && FilterAccepts(PaymentBlob(rows[i], payCols), last4)
  {
    if rows != [] {
      var p := rows[..|rows| - 1];
      MatchingIdsMembers(p, oid, payCols, last4, x);
      if x in MatchingIds(p, oid, payCols, last4) {
        var i :| 0 <= i < |p| && Cell(p[i], oid) == x && FilterAccepts(PaymentBlob(p[i], payCols), last4);
        assert rows[i] == p[i];
      }
      if exists i :: 0 <= i < |rows| && Cell(rows[i], oid) == x && FilterAccepts(PaymentBlob(rows[i], payCols), last4) {
        var i :| 0 <= i < |rows| && Cell(rows[i], oid) == x && FilterAccepts(PaymentBlob(rows[i], payCols), last4);
        if i < |p| {
          assert p[i] == rows[i];
        }
      }
    }
  }

  /** The seed ids are distinct, and an id is among them exactly when some
      row carries it in the order-id column and, with a card filter, the
      payment text of that row mentions the card. */
  lemma CsvIdsMembers(t: Table, last4: string, x: string)
    requires OrderIdColumn(t.columns).Some?
    ensures var oid := OrderIdColumn(t.columns).value;
      var payCols := PaymentColumns(t.columns);
      NoDup(CsvIds(Some(t), last4))
      && (x in CsvIds(Some(t), last4) <==>
            exists i :: 0 <= i < |t.rows| && Cell(t.rows[i], oid) == x
                        && (last4 == "" || FilterAccepts(PaymentBlob(t.rows[i], payCols), last4)))
  {
    var oid := OrderIdColumn(t.columns).value;
    var payCols := PaymentColumns(t.columns);
    if last4 == "" {
      DedupMembers(ColumnValues(t.rows, oid), x);
    } else {
      DedupMembers(MatchingIds(t.rows, oid, payCols, last4), x);
      MatchingIdsMembers(t.rows, oid, payCols, last4, x);
    }
  }

  lemma {:induction false} JoinContainsPart(parts: seq<string>, k: nat)
    requires k < |parts|
    ensures Contains(Join(" ", parts), parts[k])
    decreases |parts|
  {
    var j := Join(" ", parts);
    if |parts| == 1 {
      assert OccursAt(j, 0, parts[0]);
    } else {
      var rest := Join(" ", parts[1..]);
      assert j == parts[0] + " " + rest;
      if k == 0 {
        assert OccursAt(j, 0, parts[0]);
      } else {
        JoinContainsPart(parts[1..], k - 1);
        var i :| 0 <= i <= |rest| - |parts[k]| && OccursAt(rest, i, parts[k]);
        var off := |parts[0]| + 1;
        assert j[off..] == rest;
        assert j[off + i..off + i + |parts[k]|] == rest[i..i + |parts[k]|];
        assert OccursAt(j, off + i, parts[k]);
      }
    }
  }

  /** A row whose payment cell mentions the card is always kept: joining
      the payment cells loses no match. */
  lemma PaymentCellMatchKeepsRow(row: seq<string>, payCols: seq<nat>, c: nat, last4: string)
    requires c < |payCols| && Contains(Cell(row, payCols[c]), last4)
    ensures FilterAccepts(PaymentBlob(row, payCols), last4)
  {
    var parts := seq(|payCols|, i requires 0 <= i < |payCols| => Cell(row, payCols[i]));
    JoinContainsPart(parts, c);
    ContainsInfix(PaymentBlob(row, payCols), parts[c], last4);
  }
}
