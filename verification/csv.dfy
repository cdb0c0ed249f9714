/**
 * Comma-separated text as the report screens build it: the cells of a row
 * joined with ',', the rows joined with '\n', no quoting or escaping of
 * their own and no trailing newline.
 */
module Csv {
  import opened Text

  type Row = seq<string>

  /** `row.join(',')` */
  function Line(row: Row): string {
    Join(row, ',')
  }

  /** `rows.map(row => row.join(','))` */
  function Lines(rows: seq<Row>): (ls: seq<string>)
    ensures |ls| == |rows|
    ensures forall i :: 0 <= i < |rows| ==> ls[i] == Line(rows[i])
  {
    if |rows| == 0 then [] else [Line(rows[0])] + Lines(rows[1..])
  }

  /** The whole text: one line per row. */
  function Document(rows: seq<Row>): string {
    Join(Lines(rows), '\n')
  }

  /** No cell of the row holds a comma or a newline. */
  predicate PlainRow(row: Row) {
    forall j :: 0 <= j < |row| ==> ',' !in row[j] && '\n' !in row[j]
  }

  predicate Plain(rows: seq<Row>) {
    forall i :: 0 <= i < |rows| ==> PlainRow(rows[i])
  }

  lemma PlainAppend(a: seq<Row>, b: seq<Row>)
    requires Plain(a) && Plain(b)
    ensures Plain(a + b)
  {
    forall i | 0 <= i < |a + b|
      ensures PlainRow((a + b)[i])
    {
      if i < |a| {
        assert (a + b)[i] == a[i];
      } else {
        assert (a + b)[i] == b[i - |a|];
      }
    }
  }

  /**
   * Reading a document back: splitting on newlines gives one line per row,
   * and splitting a line on commas gives that row's cells in order.
   */
  lemma ParseDocument(rows: seq<Row>)
    requires |rows| >= 1 && Plain(rows)
    requires forall i :: 0 <= i < |rows| ==> |rows[i]| >= 1
    ensures |Split(Document(rows), '\n')| == |rows|
    ensures forall i :: 0 <= i < |rows| ==> Split(Split(Document(rows), '\n')[i], ',') == rows[i]
  {
    var ls := Lines(rows);
    forall i | 0 <= i < |rows|
      ensures '\n' !in ls[i] && Split(ls[i], ',') == rows[i]
    {
      assert PlainRow(rows[i]);
      JoinFree(rows[i], ',', '\n');
      SplitJoin(rows[i], ',');
    }
    SplitJoin(ls, '\n');
  }
}
