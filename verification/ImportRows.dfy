/**
 * Turning the rows of a spreadsheet into rows to import.
 *
 * A field name is blank, the mark of the column that asks to skip rows, or a name.
 */
module ImportRows {

  datatype Field = Blank | SkipImport | Name(name: string)

  datatype Cell = Empty | Entry(text: string)

  type Row = seq<Cell>

  datatype Converted =
    | NoField
    | RowTooShort
    | Converted(data: seq<Row>, fields: seq<Field>, position: map<int, int>)

  // ---------------------------------------------------------------- columns

  predicate Increasing(s: seq<int>) {
    forall j, k :: 0 <= j < k < |s| ==> s[j] < s[k]
  }

  predicate Within(columns: seq<int>, n: int) {
    forall k :: 0 <= k < |columns| ==> 0 <= columns[k] < n
  }

  /** The cells of some columns, in the order of the columns. */
  function Select<T>(row: seq<T>, columns: seq<int>): seq<T>
    requires Within(columns, |row|)
  {
    seq(|columns|, k requires 0 <= k < |columns| => row[columns[k]])
  }

  /** A list without its element at some place, which may be past its end. */
  function Drop<T>(s: seq<T>, k: nat): (r: seq<T>)
    ensures |r| == if k < |s| then |s| - 1 else |s|
    ensures forall j :: 0 <= j < |r| ==> r[j] == s[if j < k then j else j + 1]
  {
    if k < |s| then s[..k] + s[k + 1..] else s
  }

  /** The columns below `n` that have a field name. */
  predicate AreNamed(fields: seq<Field>, n: int, columns: seq<int>)
    requires 0 <= n <= |fields|
  {
    && Increasing(columns) && Within(columns, n)
    && (forall k :: 0 <= k < |columns| ==> fields[columns[k]] != Blank)
    && (forall i :: 0 <= i < n && fields[i] != Blank ==> i in columns)
  }

  /** Where a name comes first, or the length. */
  predicate IsFirst(names: seq<Field>, name: Field, k: int) {
    0 <= k <= |names| && (k < |names| ==> names[k] == name) && forall j :: 0 <= j < k ==> names[j] != name
  }

  function Find(names: seq<Field>, name: Field): (k: nat)
    ensures IsFirst(names, name, k)
  {
    if names == [] || names[0] == name then 0 else 1 + Find(names[1..], name)
  }

  /** The column whose cells say which rows to skip. */
  ghost predicate IsSkip(fields: seq<Field>, i: int) {
    0 <= i < |fields| && fields[i] == SkipImport && forall j :: 0 <= j < i ==> fields[j] != SkipImport
  }

  /** The columns to import: the named ones, except the first that says what to skip. */
  ghost predicate ToImport(fields: seq<Field>, i: int) {
    0 <= i < |fields| && fields[i] != Blank && !IsSkip(fields, i)
  }

  ghost predicate AreColumns(fields: seq<Field>, columns: seq<int>) {
    && Increasing(columns) && Within(columns, |fields|)
    && (forall k :: 0 <= k < |columns| ==> ToImport(fields, columns[k]))
    && forall i :: ToImport(fields, i) ==> i in columns
  }

  /** There is only one list of the columns to import. */
  lemma ColumnsUnique(fields: seq<Field>, columns: seq<int>, columns': seq<int>)
    requires AreColumns(fields, columns) && AreColumns(fields, columns')
    ensures columns == columns'
  {
    SortedUnique(columns, columns');
  }

  predicate Covers(s: seq<int>, t: seq<int>) {
    forall k :: 0 <= k < |t| ==> t[k] in s
  }

  lemma {:induction false} SortedUnique(s: seq<int>, t: seq<int>)
    requires Increasing(s) && Increasing(t) && Covers(s, t) && Covers(t, s)
    ensures s == t
  {
    assert |t| > 0 ==> t[0] in s;
    if s != [] {
      assert s[0] in t;
      var m, n := |s| - 1, |t| - 1;
      assert s[m] == t[n] by {
        assert s[m] in t && t[n] in s;
      }
      CoversFront(s, t);
      CoversFront(t, s);
      SortedUnique(s[..m], t[..n]);
      assert s == s[..m] + [s[m]] && t == t[..n] + [t[n]];
    }
  }

  lemma CoversFront(s: seq<int>, t: seq<int>)
    requires Increasing(t) && Covers(s, t) && s != [] && t != [] && s[|s| - 1] == t[|t| - 1]
    ensures Covers(s[..|s| - 1], t[..|t| - 1])
  {
    var front := s[..|s| - 1];
    forall k | 0 <= k < |t| - 1 ensures t[k] in front {
      var j :| 0 <= j < |s| && s[j] == t[k];
      assert front[j] == t[k];
    }
  }

  /** The first named column that asks to skip is the first column that does. */
  lemma SkipColumn(fields: seq<Field>, named: seq<int>, k: nat)
    requires AreNamed(fields, |fields|, named) && IsFirst(Select(fields, named), SkipImport, k)
    ensures forall j :: 0 <= j < |named| ==> (IsSkip(fields, named[j]) <==> j == k)
    ensures forall i :: IsSkip(fields, i) ==> i in named
  {
    var names := Select(fields, named);
    assert forall j :: 0 <= j < |named| ==> names[j] == fields[named[j]];
    if k < |named| {
      forall i | 0 <= i < named[k] ensures fields[i] != SkipImport {
        assert i in named ==> exists j :: 0 <= j < k && named[j] == i;
      }
    }
  }

  /** Dropping the skip column from the named ones leaves the columns to import. */
  lemma DropSkip(fields: seq<Field>, named: seq<int>, k: nat)
    requires AreNamed(fields, |fields|, named) && IsFirst(Select(fields, named), SkipImport, k)
    ensures AreColumns(fields, Drop(named, k))
  {
    hide IsSkip;
    SkipColumn(fields, named, k);
    var columns := Drop(named, k);
    forall i | ToImport(fields, i) ensures i in columns {
      var j :| 0 <= j < |named| && named[j] == i;
      assert columns[if j < k then j else j - 1] == i;
    }
  }

  /** Dropping a projected cell is projecting on the other columns. */
  lemma SelectDrop<T>(row: seq<T>, columns: seq<int>, k: nat)
    requires Within(columns, |row|)
    ensures Within(Drop(columns, k), |row|)
    ensures Select(row, Drop(columns, k)) == Drop(Select(row, columns), k)
  {
  }

  // ---------------------------------------------------------------- rows

  predicate Filled(row: Row) {
    exists c :: 0 <= c < |row| && row[c] != Empty
  }

  function At(row: Row, i: int): Cell {
    if 0 <= i < |row| then row[i] else Empty
  }

  /** A row to import: nothing in the skip column, and something in a column to import. */
  ghost predicate Kept(row: Row, fields: seq<Field>) {
    && (forall i :: IsSkip(fields, i) ==> At(row, i) == Empty)
    && exists i :: ToImport(fields, i) && At(row, i) != Empty
  }

  /** Every named column is there. */
  ghost predicate LongEnough(row: Row, fields: seq<Field>) {
    forall i :: 0 <= i < |fields| && fields[i] != Blank ==> i < |row|
  }

  lemma LongEnoughWithin(row: Row, fields: seq<Field>, named: seq<int>)
    requires AreNamed(fields, |fields|, named)
    ensures LongEnough(row, fields) <==> Within(named, |row|)
  {
    if Within(named, |row|) {
      forall i | 0 <= i < |fields| && fields[i] != Blank ensures i < |row| {
        var j :| 0 <= j < |named| && named[j] == i;
      }
    }
  }

  /** The test on one projected row says whether to keep it. */
  lemma KeptMeaning(row: Row, fields: seq<Field>, named: seq<int>, k: nat)
    requires AreNamed(fields, |fields|, named) && IsFirst(Select(fields, named), SkipImport, k)
    requires Within(named, |row|)
    ensures Kept(row, fields)
       <==> Filled(Select(row, named)) && (k < |named| ==> Select(row, named)[k] == Empty)
  {
    hide IsSkip;
    SkipColumn(fields, named, k);
    var cells := Select(row, named);
    assert forall j :: 0 <= j < |named| ==> At(row, named[j]) == cells[j];
    if Filled(cells) && (k < |named| ==> cells[k] == Empty) {
      var c :| 0 <= c < |cells| && cells[c] != Empty;
      assert ToImport(fields, named[c]) && At(row, named[c]) != Empty;
    }
    if Kept(row, fields) {
      var i :| ToImport(fields, i) && At(row, i) != Empty;
      var c :| 0 <= c < |named| && named[c] == i;
      assert cells[c] != Empty;
    }
  }

  /** Data that are the cells to import of a row to import. */
  ghost predicate From(rows: seq<Row>, fields: seq<Field>, columns: seq<int>, data: Row, n: int) {
    0 <= n < |rows| && Kept(rows[n], fields) && Within(columns, |rows[n]|) && data == Select(rows[n], columns)
  }

  /** Every row to import is among the positions. */
  ghost predicate NoneLeft(rows: seq<Row>, fields: seq<Field>, count: nat, position: map<int, int>)
    requires forall k :: 0 <= k < count ==> k in position
  {
    forall n :: 0 <= n < |rows| && Kept(rows[n], fields) ==> exists k :: 0 <= k < count && position[k] == n
  }

  /**
   * The data are the cells to import of the rows to import, in their order, and
   * `position` says which row each comes from.
   */
  ghost predicate Taken(rows: seq<Row>, fields: seq<Field>, columns: seq<int>, data: seq<Row>, position: map<int, int>) {
    && (forall k :: k in position <==> 0 <= k < |data|)
    && (forall k :: 0 <= k < |data| ==> From(rows, fields, columns, data[k], position[k]))
    && (forall j, k :: 0 <= j < k < |data| ==> position[j] < position[k])
    && NoneLeft(rows, fields, |data|, position)
  }

  lemma TakeRow(rows: seq<Row>, fields: seq<Field>, columns: seq<int>, data: seq<Row>, position: map<int, int>, row: Row)
    requires Taken(rows, fields, columns, data, position) && Kept(row, fields) && Within(columns, |row|)
    ensures Taken(rows + [row], fields, columns, data + [Select(row, columns)], position[|data| := |rows|])
  {
    hide From, NoneLeft;
    var position', data' := position[|data| := |rows|], data + [Select(row, columns)];
    forall k | 0 <= k < |data'| ensures From(rows + [row], fields, columns, data'[k], position'[k]) {
      if k < |data| {
        assert From(rows, fields, columns, data[k], position[k]);
        FromMore(rows, fields, columns, data[k], position[k], row);
      } else {
        FromLast(rows, fields, columns, row);
      }
    }
    forall k | 0 <= k < |data| ensures position[k] < |rows| {
      assert From(rows, fields, columns, data[k], position[k]);
      FromMore(rows, fields, columns, data[k], position[k], row);
    }
    NoneLeftMore(rows, fields, |data|, position, row);
  }

  lemma FromMore(rows: seq<Row>, fields: seq<Field>, columns: seq<int>, data: Row, n: int, row: Row)
    requires From(rows, fields, columns, data, n)
    ensures From(rows + [row], fields, columns, data, n) && n < |rows|
  {
    hide Kept, Within, Select;
  }

  lemma FromLast(rows: seq<Row>, fields: seq<Field>, columns: seq<int>, row: Row)
    requires Kept(row, fields) && Within(columns, |row|)
    ensures From(rows + [row], fields, columns, Select(row, columns), |rows|)
  {
    hide Kept, Within, Select;
  }

  lemma NoneLeftMore(rows: seq<Row>, fields: seq<Field>, count: nat, position: map<int, int>, row: Row)
    requires forall k :: k in position <==> 0 <= k < count
    requires NoneLeft(rows, fields, count, position)
    ensures NoneLeft(rows + [row], fields, count + 1, position[count := |rows|])
  {
    hide Kept;
    var position' := position[count := |rows|];
    forall n | 0 <= n < |rows + [row]| && Kept((rows + [row])[n], fields)
      ensures exists k :: 0 <= k < count + 1 && position'[k] == n
    {
      if n < |rows| {
        assert Kept(rows[n], fields);
        var k :| 0 <= k < count && position[k] == n;
        assert position'[k] == n;
      } else {
        assert position'[count] == n;
      }
    }
  }

  lemma LeaveRow(rows: seq<Row>, fields: seq<Field>, columns: seq<int>, data: seq<Row>, position: map<int, int>, row: Row)
    requires Taken(rows, fields, columns, data, position) && !Kept(row, fields)
    ensures Taken(rows + [row], fields, columns, data, position)
  {
    hide Kept, Within, Select;
  }

  method NamedColumns(fields: seq<Field>) returns (named: seq<int>)
    ensures AreNamed(fields, |fields|, named)
    ensures named == [] <==> forall i :: 0 <= i < |fields| ==> fields[i] == Blank
  {
    named := [];
    for index := 0 to |fields|
      invariant AreNamed(fields, index, named)
    {
      if fields[index] != Blank {
        named := named + [index];
      }
    }
    assert named != [] ==> fields[named[0]] != Blank;
  }

  /**
   * Keeps the rows to import, in order, and says where each came from.  A sheet
   * without any field name is refused, and so is a row without a named column.
   */
  method ConvertImportData(rows: seq<Row>, fields: seq<Field>) returns (r: Converted)
    ensures r == NoField <==> forall i :: 0 <= i < |fields| ==> fields[i] == Blank
    ensures r == RowTooShort <==> r != NoField && exists n :: 0 <= n < |rows| && !LongEnough(rows[n], fields)
    ensures r.Converted? ==>
      forall columns :: AreColumns(fields, columns) ==>
        r.fields == Select(fields, columns) && Taken(rows, fields, columns, r.data, r.position)
    ensures r.Converted? ==> forall k :: 0 <= k < |r.data| ==> |r.data[k]| == |r.fields|
  {
    hide Kept, LongEnough, AreColumns, Find, AreNamed, IsFirst, Filled, Drop;
    var named := NamedColumns(fields);
    if named == [] {
      return NoField;
    }
    var names := Select(fields, named);
    var skip := Find(names, SkipImport);
    ghost var columns := Drop(named, skip);
    DropSkip(fields, named, skip);
    assert Within(named, |fields|);
    SelectDrop(fields, named, skip);
    var data: seq<Row> := [];
    var position: map<int, int> := map[];
    for n: nat := 0 to |rows|
      invariant Taken(rows[..n], fields, columns, data, position)
      invariant forall k :: 0 <= k < |data| ==> |data[k]| == |columns|
      invariant forall m :: 0 <= m < n ==> LongEnough(rows[m], fields)
    {
      var row := rows[n];
      LongEnoughWithin(row, fields, named);
      if !Within(named, |row|) {
        return RowTooShort;
      }
      assert rows[..n + 1] == rows[..n] + [row];
      KeptMeaning(row, fields, named, skip);
      SelectDrop(row, named, skip);
      var cells := Select(row, named);
      if Filled(cells) && (skip < |names| ==> cells[skip] == Empty) {
        TakeRow(rows[..n], fields, columns, data, position, row);
        position := position[|data| := n];
        data := data + [Drop(cells, skip)];
      } else {
        LeaveRow(rows[..n], fields, columns, data, position, row);
      }
    }
    assert rows[..|rows|] == rows;
    forall others | AreColumns(fields, others) ensures others == columns {
      ColumnsUnique(fields, others, columns);
    }
    r := Converted(data, Drop(names, skip), position);
  }
}
