/** The form engine that composes governance payloads. */
module Composer {
  import opened Prelude
  import opened Texts
  import opened JsonPaths

  datatype FieldKind = Text | Int | Toggle | Select | List | Rows(columns: seq<string>) | Picker

  datatype Field = Field(key: string, title: string, kind: FieldKind, value: string, optional: bool)

  datatype FieldError = Required(title: string)
    | NotWhole(title: string) | RowWidth(title: string, columns: seq<string>)

  // ---------------------------------------------------------------- one field

  function Trims(parts: seq<string>): seq<string> {
    seq(|parts|, i requires 0 <= i < |parts| => Trim(parts[i]))
  }

  function NonBlank(lines: seq<string>): (r: seq<string>)
    ensures forall k | 0 <= k < |r| :: r[k] != []
  {
    if lines == [] then []
    else
      var rest, line := NonBlank(lines[..|lines| - 1]), lines[|lines| - 1];
      if line == [] then rest else rest + [line]
  }

  function Cells(line: string): seq<string> {
    Trims(Split(line, ','))
  }

  /** The columns paired with the cells; for a column named twice the later cell counts. */
  function Record(columns: seq<string>, cells: seq<string>): Members
    requires |columns| == |cells|
  {
    if columns == [] then map[]
    else
      var n := |columns| - 1;
      Record(columns[..n], cells[..n])[columns[n] := Str(cells[n])]
  }

  /** The records of the rows, or a failure when a row that is not blank has the wrong width. */
  function Records(columns: seq<string>, rows: seq<string>): Outcome<seq<Value>> {
    if rows == [] then Ok([])
    else
      var before, cells := Records(columns, rows[..|rows| - 1]), Cells(rows[|rows| - 1]);
      if before.Failed? || |cells| != |columns| then Failed
      else Ok(before.value + [Obj(Record(columns, cells))])
  }

  function Strings(lines: seq<string>): seq<Value> {
    seq(|lines|, i requires 0 <= i < |lines| => Str(lines[i]))
  }

  function Unless(empty: bool, value: Value): Option<Value> {
    if empty then None else Some(value)
  }

  /** The typed value of a field; nothing for an optional field left empty. */
  function FieldValue(field: Field): Result<Option<Value>, FieldError> {
    var trimmed := Trim(field.value);
    var missing := !field.optional && trimmed == [];
    var rows := NonBlank(Trims(Lines(trimmed)));
    match field.kind
    case Text | Picker =>
      if missing then Failure(Required(field.title)) else Success(Unless(trimmed == [], Str(trimmed)))
    case Int =>
      if missing then Failure(Required(field.title))
      else if trimmed == [] then Success(None)
      else
        var n := ParseI64(trimmed);
        if n.Some? then Success(Some(Num(n.value))) else Failure(NotWhole(field.title))
    case Toggle => Success(Some(Value.Bool(trimmed == "true")))
    case Select =>
      if missing then Failure(Required(field.title))
      else if trimmed == "" then Success(None)
      else if trimmed == "null" || trimmed == "clear" then Success(Some(Null))
      else if trimmed == "true" || trimmed == "false" then Success(Some(Value.Bool(trimmed == "true")))
      else Success(Some(Str(trimmed)))
    case List => Success(Unless(rows == [] && field.optional, Arr(Strings(rows))))
    case Rows(columns) =>
      var records := Records(columns, rows);
      if records.Failed? then Failure(RowWidth(field.title, columns))
      else Success(Unless(records.value == [] && field.optional, Arr(records.value)))
  }

  method BuildRecord(columns: seq<string>, cells: seq<string>) returns (members: Members)
    requires |columns| == |cells|
    ensures members == Record(columns, cells)
  {
    members := map[];
    for k := 0 to |columns|
      invariant members == Record(columns[..k], cells[..k])
    {
      assert columns[..k + 1][..k] == columns[..k] && cells[..k + 1][..k] == cells[..k];
      members := members[columns[k] := Str(cells[k])];
    }
    assert columns[..|columns|] == columns && cells[..|columns|] == cells;
  }

  /** The rows branch as the loop it is. */
  method ParseRows(columns: seq<string>, trimmed: string) returns (records: Outcome<seq<Value>>)
    ensures records == Records(columns, NonBlank(Trims(Lines(trimmed))))
  {
    hide Cells, Record, Lines, Trim;
    var lines := Lines(trimmed);
    ghost var rows := Trims(lines);
    var out: seq<Value> := [];
    for i := 0 to |lines|
      invariant Records(columns, NonBlank(rows[..i])) == Ok(out)
    {
      var line := Trim(lines[i]);
      assert rows[..i + 1][..i] == rows[..i];
      if line != [] {
        var parts := Cells(line);
        ghost var upTo := NonBlank(rows[..i + 1]);
        assert upTo[..|upTo| - 1] == NonBlank(rows[..i]);
        if |parts| != |columns| {
          FailsOnwards(columns, rows, i + 1);
          return Failed;
        }
        var members := BuildRecord(columns, parts);
        out := out + [Obj(members)];
      }
    }
    assert rows[..|lines|] == rows;
    records := Ok(out);
  }

  lemma {:induction false} FailsOnwards(columns: seq<string>, rows: seq<string>, i: nat)
    requires i <= |rows| && Records(columns, NonBlank(rows[..i])).Failed?
    ensures Records(columns, NonBlank(rows)).Failed?
    decreases |rows|
  {
    if i < |rows| {
      var most := rows[..|rows| - 1];
      assert most[..i] == rows[..i];
      FailsOnwards(columns, most, i);
      var all := NonBlank(rows);
      if rows[|rows| - 1] != [] {
        assert all[..|all| - 1] == NonBlank(most);
      }
    } else {
      assert rows[..i] == rows;
    }
  }

  // ---------------------------------------------------------------- what a field means

  /** A blank field is left out when optional; when not, only text, numbers and choices insist on a value,
   *  while a list or a table is sent empty. A toggle is always sent. */
  lemma BlankField(field: Field)
    requires Trim(field.value) == []
    ensures FieldValue(field) ==
            if field.kind.Toggle? then Success(Some(Value.Bool(false)))
            else if field.optional then Success(None)
            else if field.kind.List? || field.kind.Rows? then Success(Some(Arr([])))
            else Failure(Required(field.title))
  {
    NoLines();
    assert Trims([]) == [] && Strings([]) == [];
  }

  /** A whole number that fits 64 bits is sent as that number, with or without blanks around it; any other
   *  is refused. */
  lemma WholeNumber(field: Field, n: int)
    requires field.kind.Int? && Trim(field.value) == PrintInt(n)
    ensures FieldValue(field) ==
            if I64_MIN <= n <= I64_MAX then Success(Some(Num(n))) else Failure(NotWhole(field.title))
  {
    ParsePrinted(n);
    assert PrintInt(n) != [];
  }

  /** A list field is sent as its lines that are not blank, trimmed and in order. */
  lemma ListedLines(field: Field, lines: seq<string>)
    requires field.kind.List? && lines != [] && Plain(lines)
    requires forall k | 0 <= k < |lines| :: lines[k] != [] && Trimmed(lines[k])
    requires Trim(field.value) == Join(lines, '\n')
    ensures FieldValue(field) == Success(Some(Arr(Strings(lines))))
  {
    hide Trim, Join, Lines, Plain, Trims, NonBlank, Trimmed, Strings;
    ReadBack(lines);
  }

  lemma ReadBack(lines: seq<string>)
    requires lines != [] && Plain(lines)
    requires forall k | 0 <= k < |lines| :: lines[k] != [] && Trimmed(lines[k])
    ensures NonBlank(Trims(Lines(Join(lines, '\n')))) == lines
  {
    hide Trim, Join, Lines, Plain, Trimmed, NonBlank;
    LinesJoin(lines);
    forall k | 0 <= k < |lines|
      ensures Trim(lines[k]) == lines[k]
    {
      TrimIsTrimmed(lines[k]);
    }
    assert Trims(lines) == lines;
    NothingBlank(lines);
  }

  // ---------------------------------------------------------------- what rows mean

  predicate Distinct(columns: seq<string>) {
    forall i, j | 0 <= i < j < |columns| :: columns[i] != columns[j]
  }

  lemma {:induction false} RecordKeys(columns: seq<string>, cells: seq<string>)
    requires |columns| == |cells|
    ensures Record(columns, cells).Keys == set c | c in columns
  {
    if columns != [] {
      var n := |columns| - 1;
      RecordKeys(columns[..n], cells[..n]);
      assert columns == columns[..n] + [columns[n]];
    }
  }

  lemma {:induction false} RecordCell(columns: seq<string>, cells: seq<string>, j: nat)
    requires |columns| == |cells| && Distinct(columns) && j < |columns|
    ensures columns[j] in Record(columns, cells) && Record(columns, cells)[columns[j]] == Str(cells[j])
  {
    var n := |columns| - 1;
    if j < n {
      RecordCell(columns[..n], cells[..n], j);
    }
  }

  /** A record has exactly the declared columns, each with its own cell. */
  lemma RecordMeans(columns: seq<string>, cells: seq<string>)
    requires |columns| == |cells|
    ensures Record(columns, cells).Keys == set c | c in columns
    ensures Distinct(columns) ==>
              forall j | 0 <= j < |columns| :: columns[j] in Record(columns, cells) &&
                                               Record(columns, cells)[columns[j]] == Str(cells[j])
  {
    hide Record, Distinct;
    RecordKeys(columns, cells);
    if Distinct(columns) {
      forall j | 0 <= j < |columns|
        ensures columns[j] in Record(columns, cells) && Record(columns, cells)[columns[j]] == Str(cells[j])
      {
        RecordCell(columns, cells, j);
      }
    }
  }

  lemma {:induction false} RecordsExactly(columns: seq<string>, rows: seq<string>)
    ensures Records(columns, rows).Ok? <==> forall k | 0 <= k < |rows| :: |Cells(rows[k])| == |columns|
    ensures Records(columns, rows).Ok? ==>
              && |Records(columns, rows).value| == |rows|
              && forall k | 0 <= k < |rows| :: Records(columns, rows).value[k] == Obj(Record(columns, Cells(rows[k])))
  {
    hide Cells, Record;
    if rows != [] {
      RecordsExactly(columns, rows[..|rows| - 1]);
      assert rows == rows[..|rows| - 1] + [rows[|rows| - 1]];
    }
  }

  /** The lines of a field that hold anything. */
  function Content(field: Field): seq<string> {
    NonBlank(Trims(Lines(Trim(field.value))))
  }

  /** Rows are accepted exactly when every line that is not blank has a comma between any two columns;
   *  then there is one record for each such line, with exactly the declared columns. */
  lemma RowsAccepted(field: Field)
    requires field.kind.Rows?
    ensures var lines, columns := Content(field), field.kind.columns;
            && (FieldValue(field).Success? <==>
                forall k | 0 <= k < |lines| :: multiset(lines[k])[','] + 1 == |columns|)
            && (FieldValue(field).Success? ==>
                match FieldValue(field).value
                case None => lines == [] && field.optional
                case Some(v) =>
                  && v.Arr? && |v.items| == |lines|
                  && forall k | 0 <= k < |lines| :: v.items[k].Obj? && v.items[k].members.Keys == set c | c in columns)
  {
    hide Cells, Record;
    var lines, columns := Content(field), field.kind.columns;
    RecordsExactly(columns, lines);
    forall k | 0 <= k < |lines|
      ensures |Cells(lines[k])| == multiset(lines[k])[','] + 1
    {
      CellCount(lines[k]);
    }
    if Records(columns, lines).Ok? {
      forall k | 0 <= k < |lines|
        ensures Record(columns, Cells(lines[k])).Keys == set c | c in columns
      {
        RecordMeans(columns, Cells(lines[k]));
      }
    }
  }

  lemma CellCount(line: string)
    ensures |Cells(line)| == multiset(line)[','] + 1
  {
    SplitCount(line, ',');
  }

  // ---------------------------------------------------------------- rows round trip

  predicate PrintableCell(cell: string) {
    Trimmed(cell) && ',' !in cell && '\n' !in cell
  }

  predicate PrintableRow(columns: seq<string>, row: seq<string>) {
    && |row| == |columns| > 0
    && (forall j | 0 <= j < |row| :: PrintableCell(row[j]))
    && Join(row, ',') != []
  }

  predicate Printable(columns: seq<string>, rows: seq<seq<string>>) {
    forall k | 0 <= k < |rows| :: PrintableRow(columns, rows[k])
  }

  function PrintedLines(columns: seq<string>, rows: seq<seq<string>>): seq<string>
    requires Printable(columns, rows)
  {
    seq(|rows|, k requires 0 <= k < |rows| => assert PrintableRow(columns, rows[k]); Join(rows[k], ','))
  }

  function PrintRows(columns: seq<string>, rows: seq<seq<string>>): string
    requires Printable(columns, rows)
  {
    if rows == [] then "" else Join(PrintedLines(columns, rows), '\n')
  }

  lemma PrintedLine(columns: seq<string>, row: seq<string>)
    requires PrintableRow(columns, row)
    ensures var line := Join(row, ',');
            line != [] && Trimmed(line) && '\n' !in line && WithoutReturn(line) == line && Cells(line) == row
  {
    hide Trim, Split, Join;
    JoinEnds(row, ',');
    JoinFree(row, ',', '\n');
    SplitFree(row, ',');
    forall j | 0 <= j < |row|
      ensures Trim(row[j]) == row[j]
    {
      TrimIsTrimmed(row[j]);
    }
  }

  lemma {:induction false} NothingBlank(lines: seq<string>)
    requires forall k | 0 <= k < |lines| :: lines[k] != []
    ensures NonBlank(lines) == lines
  {
    if lines != [] {
      NothingBlank(lines[..|lines| - 1]);
    }
  }

  /** The lines that printed rows are read back as. */
  lemma PrintedContent(field: Field, rows: seq<seq<string>>)
    requires field.kind.Rows? && Printable(field.kind.columns, rows)
    requires field.value == PrintRows(field.kind.columns, rows)
    ensures Content(field) == PrintedLines(field.kind.columns, rows)
  {
    hide Trim, Lines, Join, PrintableRow, Cells, IsWhitespace;
    var lines := PrintedLines(field.kind.columns, rows);
    forall k | 0 <= k < |lines|
      ensures lines[k] != [] && Trimmed(lines[k]) && '\n' !in lines[k] && WithoutReturn(lines[k]) == lines[k]
    {
      PrintedLine(field.kind.columns, rows[k]);
    }
    TrimIsTrimmed(field.value);
    if rows == [] {
      NoLines();
    } else {
      JoinEnds(lines, '\n');
      ReadBack(lines);
    }
  }

  lemma NoLines()
    ensures Lines("") == []
  {
  }

  /** Rows that are printed and read again give one record for each row, cell by cell. */
  lemma RowsRoundTrip(field: Field, rows: seq<seq<string>>)
    requires field.kind.Rows? && Distinct(field.kind.columns) && Printable(field.kind.columns, rows)
    requires field.value == PrintRows(field.kind.columns, rows)
    ensures rows == [] && field.optional ==> FieldValue(field) == Success(None)
    ensures rows != [] || !field.optional ==>
              && FieldValue(field).Success? && FieldValue(field).value.Some?
              && var v := FieldValue(field).value.value;
                 && v.Arr? && |v.items| == |rows|
                 && forall k | 0 <= k < |rows| :: ReadsAs(v.items[k], field.kind.columns, rows[k])
  {
    hide Cells, Record, Trim, Lines, Join, PrintableRow;
    var columns := field.kind.columns;
    PrintedContent(field, rows);
    var lines := PrintedLines(columns, rows);
    forall k | 0 <= k < |rows|
      ensures Cells(lines[k]) == rows[k] && |rows[k]| == |columns|
      ensures ReadsAs(Obj(Record(columns, rows[k])), columns, rows[k])
    {
      PrintedLine(columns, rows[k]);
      RowWidthIs(columns, rows[k]);
      RecordMeans(columns, rows[k]);
    }
    RecordsExactly(columns, lines);
  }

  lemma RowWidthIs(columns: seq<string>, row: seq<string>)
    requires PrintableRow(columns, row)
    ensures |row| == |columns|
  {
  }

  /** The value is a record that holds the row's cells under its columns and nothing else. */
  predicate ReadsAs(value: Value, columns: seq<string>, row: seq<string>) {
    && value.Obj? && value.members.Keys == (set c | c in columns) && |row| == |columns|
    && forall j | 0 <= j < |columns| :: value.members[columns[j]] == Str(row[j])
  }
}
