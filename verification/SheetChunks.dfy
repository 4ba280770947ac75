/**
 * Cutting a spreadsheet into import jobs.
 *
 * Rows are numbered from 1; `cells` says which rows below the header have a value
 * in the first data column.  A record may span several rows: only its first row
 * has a value there, so a job should not end in the middle of one.
 */
module SheetChunks {

  datatype Job = Job(first: int, last: int)

  datatype Sheet = Sheet(headerRow: int, dataStart: int, chunkSize: int, cells: seq<bool>)

  // ---------------------------------------------------------------- the end of the data

  /** A row below the first column's end: its number and whether any of its cells has a value. */
  datatype Tail = Tail(row: int, filled: bool)

  datatype End = End(eof: int, cells: seq<bool>)

  /** Extends the end of the data over the rows found below it, one cell for each row with a value. */
  method RealEnd(eof: int, cells: seq<bool>, tail: seq<Tail>) returns (end: End)
    requires forall i :: 0 <= i < |tail| ==> tail[i].row == eof + 1 + i
    ensures end.eof == eof + LastFilled(tail)
    ensures |end.cells| == |cells| + CountFilled(tail)
    ensures cells <= end.cells && forall i :: |cells| <= i < |end.cells| ==> end.cells[i]
  {
    var last := eof;
    var more := cells;
    for i := 0 to |tail|
      invariant last == eof + LastFilled(tail[..i])
      invariant |more| == |cells| + CountFilled(tail[..i])
      invariant cells <= more && eof <= last <= eof + i
      invariant forall k :: |cells| <= k < |more| ==> more[k]
    {
      assert tail[..i + 1][..i] == tail[..i];
      if tail[i].filled && tail[i].row > last {
        last := tail[i].row;
        more := more + [true];
      }
    }
    assert tail[..|tail|] == tail;
    end := End(last, more);
  }

  /** How many rows down the last row with a value is. */
  function LastFilled(tail: seq<Tail>): (n: nat)
    ensures n <= |tail|
  {
    if tail == [] then 0
    else if tail[|tail| - 1].filled then |tail|
    else LastFilled(tail[..|tail| - 1])
  }

  function CountFilled(tail: seq<Tail>): (n: nat)
    ensures n <= LastFilled(tail)
  {
    if tail == [] then 0
    else CountFilled(tail[..|tail| - 1]) + if tail[|tail| - 1].filled then 1 else 0
  }

  /** A row without a value above one with a value. */
  ghost predicate HasGap(tail: seq<Tail>) {
    exists i, j :: 0 <= i < j < |tail| && !tail[i].filled && tail[j].filled
  }

  /** The cells keep up with the end of the data exactly when no blank row is followed by a filled one. */
  lemma {:induction false} CellsReachEndIffNoGap(tail: seq<Tail>)
    ensures CountFilled(tail) == LastFilled(tail) <==> !HasGap(tail)
  {
    if tail != [] {
      var n := |tail| - 1;
      var front := tail[..n];
      CellsReachEndIffNoGap(front);
      if HasGap(front) {
        var i, j :| 0 <= i < j < |front| && !front[i].filled && front[j].filled;
        assert !tail[i].filled && tail[j].filled;
      }
      if tail[n].filled {
        AllFilled(front);
        if k :| 0 <= k < n && !tail[k].filled {
          assert !front[k].filled && HasGap(tail);
        }
      } else if HasGap(tail) {
        var i, j :| 0 <= i < j < |tail| && !tail[i].filled && tail[j].filled;
        assert !front[i].filled && front[j].filled;
      }
    }
  }

  lemma {:induction false} AllFilled(tail: seq<Tail>)
    ensures CountFilled(tail) == |tail| <==> forall i :: 0 <= i < |tail| ==> tail[i].filled
  {
    if tail != [] {
      var front := tail[..|tail| - 1];
      AllFilled(front);
      assert forall i :: 0 <= i < |front| ==> front[i] == tail[i];
    }
  }

  // ---------------------------------------------------------------- cuts

  /** Positions whose next cell has a value. */
  function Indexes(cells: seq<bool>): (indexes: set<int>)
  {
    set i | 1 <= i < |cells| && cells[i] :: i - 1
  }

  /** The greatest of some positions, or 0. */
  function Greatest(cells: seq<bool>): (m: int)
    ensures 0 <= m && (m == 0 || m in Indexes(cells)) && forall i <- Indexes(cells) :: i <= m
    decreases |cells|
  {
    if |cells| <= 1 then 0
    else
      var n := |cells| - 1;
      assert Indexes(cells) == Indexes(cells[..n]) + if cells[n] then {n - 1} else {};
      if cells[n] then n - 1 else Greatest(cells[..n])
  }

  predicate CutAllowed(cells: seq<bool>, i: int) {
    i in Indexes(cells) || i >= Greatest(cells)
  }

  /** A cut is allowed after a row exactly when the next row starts a record, or no record starts further on. */
  lemma CutMeaning(cells: seq<bool>, i: int)
    requires 0 <= i
    ensures CutAllowed(cells, i)
       <==> (i + 1 < |cells| && cells[i + 1]) || forall k :: i + 1 <= k < |cells| ==> !cells[k]
  {
    if i + 1 < |cells| && cells[i + 1] { assert i in Indexes(cells); }
    if i >= Greatest(cells) {
      forall k | i + 1 < k < |cells| ensures !cells[k] {
        assert cells[k] ==> k - 1 in Indexes(cells);
      }
    }
    if (forall k :: i + 1 <= k < |cells| ==> !cells[k]) && Greatest(cells) > 0 {
      assert cells[Greatest(cells) + 1];
    }
  }

  // ---------------------------------------------------------------- jobs

  /** The position in `cells` of a row. */
  function Position(s: Sheet, row: int): int {
    row - s.headerRow - 1
  }

  predicate CutAfter(s: Sheet, row: int) {
    CutAllowed(s.cells, Position(s, row))
  }

  /** A job that may end at a row: long enough, and a record ends there. */
  predicate MayEnd(s: Sheet, first: int, row: int) {
    CutAfter(s, row) && row - first + 1 >= s.chunkSize
  }

  /** Jobs from `first` to `eof`, each cut at the first row where it may end. */
  ghost predicate Tiles(s: Sheet, jobs: seq<Job>, first: int, eof: int)
    decreases |jobs|
  {
    && jobs != []
    && jobs[0].first == first <= jobs[0].last <= eof
    && (forall row :: first <= row < jobs[0].last ==> !MayEnd(s, first, row))
    && (if jobs[0].last == eof then |jobs| == 1
        else MayEnd(s, first, jobs[0].last) && Tiles(s, jobs[1..], jobs[0].last + 1, eof))
  }

  /** Jobs that are complete up to the row before `next`. */
  ghost predicate Cut(s: Sheet, jobs: seq<Job>, first: int, next: int)
    decreases |jobs|
  {
    if jobs == [] then first == next
    else
      var job := jobs[|jobs| - 1];
      && Cut(s, jobs[..|jobs| - 1], first, job.first)
      && job.first <= job.last == next - 1
      && MayEnd(s, job.first, job.last)
      && forall row :: job.first <= row < job.last ==> !MayEnd(s, job.first, row)
  }

  lemma {:induction false} CutThenLast(s: Sheet, jobs: seq<Job>, first: int, last: Job, eof: int)
    requires Cut(s, jobs, first, last.first) && last.first <= last.last == eof
    requires forall row :: last.first <= row < eof ==> !MayEnd(s, last.first, row)
    ensures Tiles(s, jobs + [last], first, eof)
    decreases |jobs|
  {
    if jobs == [] {
      assert (jobs + [last])[1..] == [];
    } else {
      CutFront(s, jobs, first, last.first);
      CutThenLast(s, jobs[1..], jobs[0].last + 1, last, eof);
      assert (jobs + [last])[1..] == jobs[1..] + [last];
    }
  }

  /** The first of some complete jobs, and the rest. */
  lemma {:induction false} CutFront(s: Sheet, jobs: seq<Job>, first: int, next: int)
    requires jobs != [] && Cut(s, jobs, first, next)
    ensures jobs[0].first == first <= jobs[0].last < next && MayEnd(s, first, jobs[0].last)
    ensures forall row :: first <= row < jobs[0].last ==> !MayEnd(s, first, row)
    ensures Cut(s, jobs[1..], jobs[0].last + 1, next)
    decreases |jobs|
  {
    var n := |jobs| - 1;
    if n > 0 {
      CutFront(s, jobs[..n], first, jobs[n].first);
      assert jobs[1..][..n - 1] == jobs[..n][1..];
    }
  }

  /** The loop over the cells of the first column. */
  method CreateJobs(s: Sheet, eof: int) returns (jobs: seq<Job>)
    requires s.headerRow < s.dataStart && (s.dataStart <= eof || s.headerRow + |s.cells| <= eof)
    ensures s.dataStart <= eof ==> (Tiles(s, jobs, s.dataStart, eof) <==> eof <= s.headerRow + |s.cells|)
    ensures s.dataStart > eof ==> jobs == []
    ensures eof > s.headerRow + |s.cells| ==> forall k :: 0 <= k < |jobs| ==> jobs[k].last <= s.headerRow + |s.cells|
  {
    jobs := [];
    var rowStart := s.headerRow + 1;
    var rowEnd := rowStart;
    var i := 0;
    while i < |s.cells|
      invariant 0 <= i <= |s.cells|
      invariant rowEnd == s.headerRow + 1 + i && (rowEnd > s.dataStart ==> rowEnd <= eof)
      invariant if rowEnd <= s.dataStart then rowStart == rowEnd && jobs == []
                else s.dataStart <= rowStart <= rowEnd
      invariant rowStart >= s.dataStart ==> Cut(s, jobs, s.dataStart, rowStart)
      invariant rowStart >= s.dataStart ==> forall row :: rowStart <= row < rowEnd ==> !MayEnd(s, rowStart, row)
    {
      if rowStart < s.dataStart {
        rowStart := rowStart + 1;
        rowEnd := rowStart;
      } else {
        var size := rowEnd - rowStart + 1;
        if (CutAllowed(s.cells, i) && size >= s.chunkSize) || rowEnd == eof {
          var job := Job(rowStart, rowEnd);
          if rowEnd == eof {
            CutThenLast(s, jobs, s.dataStart, job, eof);
            jobs := jobs + [job];
            return;
          }
          assert (jobs + [job])[..|jobs|] == jobs;
          jobs := jobs + [job];
          rowEnd := rowEnd + 1;
          rowStart := rowEnd;
        } else {
          rowEnd := rowEnd + 1;
        }
      }
      i := i + 1;
    }
    if s.dataStart <= eof {
      CutFallsShort(s, jobs, s.dataStart, if rowStart < s.dataStart then s.dataStart else rowStart, eof);
    }
    if rowStart >= s.dataStart { CutEnds(s, jobs, s.dataStart, rowStart); }
  }

  lemma {:induction false} CutEnds(s: Sheet, jobs: seq<Job>, first: int, next: int)
    requires Cut(s, jobs, first, next)
    ensures first <= next && forall k :: 0 <= k < |jobs| ==> jobs[k].last < next
    decreases |jobs|
  {
    if jobs != [] {
      var n := |jobs| - 1;
      CutEnds(s, jobs[..n], first, jobs[n].first);
      assert forall k :: 0 <= k < n ==> jobs[k] == jobs[..n][k];
    }
  }

  /** Complete jobs that stop before the end of the data do not tile it. */
  lemma {:induction false} CutFallsShort(s: Sheet, jobs: seq<Job>, first: int, next: int, eof: int)
    requires Cut(s, jobs, first, next) && next <= eof
    ensures !Tiles(s, jobs, first, eof)
    decreases |jobs|
  {
    if jobs != [] {
      CutFront(s, jobs, first, next);
      CutFallsShort(s, jobs[1..], jobs[0].last + 1, next, eof);
    }
  }

  /** The jobs are determined: cutting as early as allowed leaves no choice. */
  lemma {:induction false} TilesUnique(s: Sheet, jobs: seq<Job>, jobs': seq<Job>, first: int, eof: int)
    requires Tiles(s, jobs, first, eof) && Tiles(s, jobs', first, eof)
    ensures jobs == jobs'
    decreases |jobs|
  {
    assert jobs[0] == jobs'[0];
    if jobs[0].last == eof {
      assert jobs == [jobs[0]] && jobs' == [jobs'[0]];
    } else {
      TilesUnique(s, jobs[1..], jobs'[1..], jobs[0].last + 1, eof);
      assert jobs == [jobs[0]] + jobs[1..] && jobs' == [jobs'[0]] + jobs'[1..];
    }
  }

  /** Jobs come in order, and each lies inside the range. */
  lemma {:induction false} TilesOrder(s: Sheet, jobs: seq<Job>, first: int, eof: int)
    requires Tiles(s, jobs, first, eof)
    ensures forall j, k :: 0 <= j < k < |jobs| ==> jobs[j].last < jobs[k].first
    ensures forall k :: 0 <= k < |jobs| ==> first <= jobs[k].first <= jobs[k].last <= eof
    decreases |jobs|
  {
    hide MayEnd;
    if jobs[0].last != eof {
      TilesOrder(s, jobs[1..], jobs[0].last + 1, eof);
      assert forall k :: 0 < k < |jobs| ==> jobs[k] == jobs[1..][k - 1];
    }
  }

  /** Every job but the last may end where it does, and the next one starts there. */
  lemma {:induction false} TilesCuts(s: Sheet, jobs: seq<Job>, first: int, eof: int)
    requires Tiles(s, jobs, first, eof)
    ensures forall k :: 0 <= k < |jobs| - 1 ==> MayEnd(s, jobs[k].first, jobs[k].last)
    ensures forall k :: 0 < k < |jobs| ==> jobs[k].first == jobs[k - 1].last + 1
    decreases |jobs|
  {
    hide MayEnd;
    if jobs[0].last != eof {
      TilesCuts(s, jobs[1..], jobs[0].last + 1, eof);
      assert forall k :: 0 < k < |jobs| ==> jobs[k] == jobs[1..][k - 1];
    }
  }

  /**
   * Every row from the first to the last lies in exactly one job, every job but
   * the last has at least the chunk size, and every later job starts where a
   * record does, or after the last record has started.
   */
  lemma {:induction false} TilesCover(s: Sheet, jobs: seq<Job>, first: int, eof: int, row: int)
    requires Tiles(s, jobs, first, eof) && s.headerRow < first
    ensures first <= row <= eof <==> exists k :: 0 <= k < |jobs| && jobs[k].first <= row <= jobs[k].last
    ensures forall j, k :: 0 <= j < k < |jobs| ==> jobs[j].last < jobs[k].first
    ensures forall k :: 0 <= k < |jobs| - 1 ==> jobs[k].last - jobs[k].first + 1 >= s.chunkSize
    ensures forall k :: 0 <= k < |jobs| ==> first <= jobs[k].first <= jobs[k].last <= eof
    ensures forall k :: 0 < k < |jobs| ==> StartsRecord(s, jobs[k].first)
    decreases |jobs|
  {
    hide CutAfter, StartsRecord;
    TilesOrder(s, jobs, first, eof);
    TilesCuts(s, jobs, first, eof);
    forall k | 0 < k < |jobs| ensures StartsRecord(s, jobs[k].first) {
      CutStartsRecord(s, jobs[k - 1].last);
    }
    if first <= row <= eof { JobOf(s, jobs, first, eof, row); }
  }

  /** Cuts come as early as allowed: a job does not run past a row where it is long enough and a new record may start. */
  lemma {:induction false} TilesEarly(s: Sheet, jobs: seq<Job>, first: int, eof: int, k: nat, row: int)
    requires Tiles(s, jobs, first, eof) && s.headerRow < first
    requires k < |jobs| && jobs[k].first <= row < jobs[k].last
    ensures s.headerRow < row && (row - jobs[k].first + 1 < s.chunkSize || !StartsRecord(s, row + 1))
    decreases |jobs|
  {
    if k > 0 {
      TilesEarly(s, jobs[1..], jobs[0].last + 1, eof, k - 1, row);
    } else {
      assert !MayEnd(s, first, row);
      CutMeaning(s.cells, Position(s, row));
    }
  }

  lemma CutStartsRecord(s: Sheet, row: int)
    requires CutAfter(s, row) && s.headerRow < row
    ensures StartsRecord(s, row + 1)
  {
    CutMeaning(s.cells, Position(s, row));
  }

  lemma {:induction false} JobOf(s: Sheet, jobs: seq<Job>, first: int, eof: int, row: int)
    requires Tiles(s, jobs, first, eof) && first <= row <= eof
    ensures exists k :: 0 <= k < |jobs| && jobs[k].first <= row <= jobs[k].last
    decreases |jobs|
  {
    hide MayEnd;
    if row > jobs[0].last {
      JobOf(s, jobs[1..], jobs[0].last + 1, eof, row);
      var k :| 0 <= k < |jobs[1..]| && jobs[1..][k].first <= row <= jobs[1..][k].last;
      assert jobs[k + 1] == jobs[1..][k];
    }
  }

  /** The row has a value in the first column, or no row from it on has one. */
  ghost predicate StartsRecord(s: Sheet, row: int)
    requires s.headerRow < row
  {
    var i := row - (s.headerRow + 1);
    (i < |s.cells| && s.cells[i]) || forall k :: i <= k < |s.cells| ==> !s.cells[k]
  }

  // ---------------------------------------------------------------- the whole run

  /** A header cell: the title of the error column, in whatever case, or a field. */
  datatype Title = ErrorTitle | Field(name: string)

  datatype Outcome = Refused | Created(fields: seq<Title>, sheet: Sheet, eof: int, jobs: seq<Job>)

  function Max(a: int, b: int): (m: int)
    ensures a <= m && b <= m && (m == a || m == b)
  {
    if a >= b then a else b
  }

  function Min(a: int, b: int): (m: int)
    ensures m <= a && m <= b && (m == a || m == b)
  {
    if a <= b then a else b
  }

  /**
   * `titles` is the header row, `first` and `second` are the first two columns below
   * it, and `tail` the rows below the end of the data column, of which the sheet may
   * have none.  With a chosen last row the jobs always tile the data; without one
   * they do exactly when no blank row below the data column's end is followed by a
   * filled one.
   */
  method Run(headerRow: int, dataRowStart: int, dataRowEnd: int, chunkSize: int, titles: seq<Title>,
             first: seq<bool>, second: seq<bool>, tail: seq<Tail>)
    returns (r: Outcome)
    requires titles != [] ==> forall i :: 0 <= i < |tail| ==>
      tail[i].row == Max(headerRow, 1) + |if titles[0] == ErrorTitle then second else first| + 1 + i
    ensures var header, start, stop := Max(headerRow, 1), Max(dataRowStart, 2), Max(dataRowEnd, 0);
      r == Refused <==> header >= start || (stop > 0 && stop < start) || titles == [] || (if titles[0] == ErrorTitle then second else first) == []
    ensures r.Created? ==>
      var column := if titles[0] == ErrorTitle then second else first;
      && r.fields == (if titles[0] == ErrorTitle then titles[1..] else titles)
      && r.sheet.headerRow == Max(headerRow, 1) && r.sheet.dataStart == Max(dataRowStart, 2)
      && r.sheet.chunkSize == chunkSize && column <= r.sheet.cells
      && (forall i :: |column| <= i < |r.sheet.cells| ==> r.sheet.cells[i])
      && (dataRowEnd > 0 ==> r.sheet.cells == column && r.eof == Min(dataRowEnd, r.sheet.headerRow + |column|))
      && (dataRowEnd <= 0 ==> r.eof == r.sheet.headerRow + |column| + LastFilled(tail))
      && (r.sheet.dataStart > r.eof ==> r.jobs == [])
    ensures r.Created? && r.sheet.dataStart <= r.eof ==>
      (Tiles(r.sheet, r.jobs, r.sheet.dataStart, r.eof) <==> dataRowEnd > 0 || !HasGap(tail))
    ensures r.Created? && dataRowEnd <= 0 && HasGap(tail) ==>
      var last := r.sheet.headerRow + |if titles[0] == ErrorTitle then second else first| + CountFilled(tail);
      last < r.eof && forall k :: 0 <= k < |r.jobs| ==> r.jobs[k].last <= last
  {
    var header, start, stop := Max(headerRow, 1), Max(dataRowStart, 2), Max(dataRowEnd, 0);
    if header >= start { return Refused; }
    if stop > 0 && stop < start { return Refused; }
    if titles == [] { return Refused; }
    var column, fields := first, titles;
    if titles[0] == ErrorTitle {
      column, fields := second, titles[1..];
    }
    if column == [] { return Refused; }
    var eof := header + |column|;
    var cells := column;
    if stop > 0 {
      eof := Min(stop, eof);
    } else {
      var end := RealEnd(eof, cells, tail);
      CellsReachEndIffNoGap(tail);
      eof, cells := end.eof, end.cells;
    }
    var s := Sheet(header, start, chunkSize, cells);
    var jobs := CreateJobs(s, eof);
    r := Created(fields, s, eof, jobs);
  }

  /**
   * A sheet with its header in row 1, a record in row 2, a blank row 3, and a row 4
   * with a value outside the first column: no job reaches row 4.
   */
  method GapExample(chunkSize: int) returns (r: Outcome)
    ensures r.Created? && r.eof == 4 && forall k :: 0 <= k < |r.jobs| ==> r.jobs[k].last <= 3
  {
    var tail := [Tail(3, false), Tail(4, true)];
    assert tail[..1] == [Tail(3, false)] && tail[..1][..0] == [];
    assert LastFilled(tail) == 2 && CountFilled(tail) == 1;
    assert !tail[0].filled && tail[1].filled;
    r := Run(1, 2, 0, chunkSize, [Field("name")], [true], [], tail);
  }
}
