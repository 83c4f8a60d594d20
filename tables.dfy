/**
 * Tables as the manager sees them: a table is its rows in order, a row maps each of
 * its column names to the cell's text (the form in which a table is written to CSV).
 */
module Tables {

  type Row = map<string, string>

  type Table = seq<Row>

  /** `df[column] = [data] * len(df)`. */
  function AssignColumn(t: Table, column: string, data: string): Table
  {
    seq(|t|, i requires 0 <= i < |t| => t[i][column := data])
  }

  /** Row `i` after the assignment is row `i` before it, updated at `column`. */
  lemma AssignColumnRow(t: Table, column: string, data: string, i: nat)
    requires i < |t|
    ensures |AssignColumn(t, column, data)| == |t| && AssignColumn(t, column, data)[i] == t[i][column := data]
  {
  }

  /** Every row of `t` extended with the cells of `cells`, which win over existing ones. */
  function Stamp(t: Table, cells: map<string, string>): (r: Table)
    ensures |r| == |t|
    ensures forall i :: 0 <= i < |r| ==> r[i].Keys == t[i].Keys + cells.Keys
    ensures forall i, c :: 0 <= i < |r| && c in cells ==> r[i][c] == cells[c]
    ensures forall i, c :: 0 <= i < |r| && c in t[i] && c !in cells ==> r[i][c] == t[i][c]
  {
    seq(|t|, i requires 0 <= i < |t| => t[i] + cells)
  }

  /** `pd.concat(tables)`: the rows of each table in turn. */
  function Concat(tables: seq<Table>): (r: Table)
  {
    if tables == [] then [] else tables[0] + Concat(tables[1..])
  }

  /** The total number of rows in `tables`. */
  function TotalRows(tables: seq<Table>): nat
  {
    if tables == [] then 0 else |tables[0]| + TotalRows(tables[1..])
  }

  /** The rows of `tables`, each counted as often as it occurs in each table. */
  function RowBag(tables: seq<Table>): multiset<Row>
  {
    if tables == [] then multiset{} else multiset(tables[0]) + RowBag(tables[1..])
  }

  /**
   * Concatenation keeps every row: its length is the sum, its rows are theirs, and each
   * row occurs as often as in all the tables together (duplicates are kept).
   */
  lemma {:induction false} ConcatRows(tables: seq<Table>)
    ensures |Concat(tables)| == TotalRows(tables)
    ensures forall row :: row in Concat(tables) <==> exists k :: 0 <= k < |tables| && row in tables[k]
    ensures multiset(Concat(tables)) == RowBag(tables)
  {
    if tables != [] {
      ConcatRows(tables[1..]);
      assert multiset(tables[0] + Concat(tables[1..])) == multiset(tables[0]) + multiset(Concat(tables[1..]));
      forall row | row in Concat(tables)
        ensures exists k :: 0 <= k < |tables| && row in tables[k]
      {
        if row !in tables[0] {
          var k :| 0 <= k < |tables[1..]| && row in tables[1..][k];
          assert row in tables[k + 1];
        }
      }
      forall row, k | 0 <= k < |tables| && row in tables[k]
        ensures row in Concat(tables)
      {
        if k > 0 {
          assert row in tables[1..][k - 1];
        }
      }
    }
  }
}
