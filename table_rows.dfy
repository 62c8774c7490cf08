/**
  Raw table rows (cells of text or missing cells, as the PDF table readers
  return them): the column re-projection sent to the language model, the
  rule-based row parser, and the line parser for OCR text.
 */
module TableRows {
  import opened Wrappers
  import opened Chars
  import opened Seqs
  import opened TextFields
  import opened Dates
  import opened Schemas

  type Row = seq<Option<string>>
  type Table = seq<Row>

  /** Every cell cleaned, a missing cell becoming "". */
  function CleanRow(row: Row): (r: seq<string>)
    ensures |r| == |row|
  {
    seq(|row|, i requires 0 <= i < |row| => CleanCell(row[i]))
  }

  function CleanRows(table: Table): (rows: seq<seq<string>>)
    ensures |rows| == |table|
  {
    seq(|table|, i requires 0 <= i < |table| => CleanRow(table[i]))
  }

  function Min(a: nat, b: nat): nat {
    if a <= b then a else b
  }

  // ---------------------------------------------------------------------------
  // normalize_table_for_llm
  // ---------------------------------------------------------------------------

  /** A header row mentions "id" and either "task" or "description", in any case. */
  predicate IsHeaderRow(r: seq<string>) {
    var combined := Lower(Join(r, " "));
    Contains(combined, "id") && (Contains(combined, "task") || Contains(combined, "description"))
  }

  /** How many leading rows are searched for a header. */
  const HeaderWindow: nat := 5

  /** The first header row among the first five rows, searching from `i`. */
  function HeaderFrom(rows: seq<seq<string>>, i: nat): (h: Option<nat>)
    requires i <= Min(HeaderWindow, |rows|)
    ensures h.Some? ==> i <= h.value < Min(HeaderWindow, |rows|)
    decreases Min(HeaderWindow, |rows|) - i
  {
    if i == Min(HeaderWindow, |rows|) then None
    else if IsHeaderRow(rows[i]) then Some(i)
    else HeaderFrom(rows, i + 1)
  }

  /** The header is the first header-looking row among the first five; there is none when none of them looks like one. */
  lemma {:induction false} HeaderFromFirst(rows: seq<seq<string>>, i: nat)
    requires i <= Min(HeaderWindow, |rows|)
    ensures var h := HeaderFrom(rows, i);
      && (h.Some? ==> IsHeaderRow(rows[h.value]) && forall j :: i <= j < h.value ==> !IsHeaderRow(rows[j]))
      && (h.None? ==> forall j :: i <= j < Min(HeaderWindow, |rows|) ==> !IsHeaderRow(rows[j]))
    decreases Min(HeaderWindow, |rows|) - i
  {
    if i < Min(HeaderWindow, |rows|) && !IsHeaderRow(rows[i]) {
      HeaderFromFirst(rows, i + 1);
    }
  }

  /** The five columns the language model is given, in output order. */
  datatype Role = IdCol | TaskCol | DurCol | StartCol | EndCol

  const Roles: seq<Role> := [IdCol, TaskCol, DurCol, StartCol, EndCol]

  /** The role a header cell claims: the first test in the chain that its lower-cased text passes. */
  function RoleOf(h: string): Option<Role> {
    var lh := Lower(h);
    if Contains(lh, "id") then Some(IdCol)
    else if Contains(lh, "task") || Contains(lh, "activity") then Some(TaskCol)
    else if Contains(lh, "dur") then Some(DurCol)
    else if Contains(lh, "start") then Some(StartCol)
    else if Contains(lh, "finish") || Contains(lh, "end") then Some(EndCol)
    else None
  }

  /** The column mapped to `role`: the last header cell claiming it. */
  function LastColumn(header: seq<string>, role: Role): (c: Option<nat>)
    ensures c.Some? ==> c.value < |header|
  {
    if header == [] then None
    else if RoleOf(header[|header| - 1]) == Some(role) then Some(|header| - 1)
    else LastColumn(header[..|header| - 1], role)
  }

  /** The column found is the last one whose heading claims the role; there is none when no heading does. */
  lemma {:induction false} LastColumnLast(header: seq<string>, role: Role)
    ensures var c := LastColumn(header, role);
      && (c.Some? ==> RoleOf(header[c.value]) == Some(role) && forall j :: c.value < j < |header| ==> RoleOf(header[j]) != Some(role))
      && (c.None? ==> forall j :: 0 <= j < |header| ==> RoleOf(header[j]) != Some(role))
  {
    if header != [] && RoleOf(header[|header| - 1]) != Some(role) {
      var init := header[..|header| - 1];
      LastColumnLast(init, role);
      assert forall j :: 0 <= j < |init| ==> init[j] == header[j];
    }
  }

  function ColumnMap(header: seq<string>): (cols: seq<Option<nat>>)
    ensures |cols| == 5
  {
    seq(5, j requires 0 <= j < 5 => LastColumn(header, Roles[j]))
  }

  /** The cell at a mapped column, or "" for an unmapped or out-of-range one. */
  function Pick(r: seq<string>, c: Option<nat>): string {
    if c.Some? && c.value < |r| then r[c.value] else ""
  }

  function ProjectRow(r: seq<string>, cols: seq<Option<nat>>): (p: seq<string>)
    requires |cols| == 5
    ensures |p| == 5
  {
    [Pick(r, cols[0]), Pick(r, cols[1]), Pick(r, cols[2]), Pick(r, cols[3]), Pick(r, cols[4])]
  }

  /** The fallback: a row's first five cells. */
  function FirstFive(r: seq<string>): seq<string> {
    r[..Min(5, |r|)]
  }

  /** The rows from `from` on, each projected onto the mapped columns. */
  function ProjectedRows(rows: seq<seq<string>>, from: nat, cols: seq<Option<nat>>): (norm: seq<seq<string>>)
    requires from <= |rows| && |cols| == 5
    ensures |norm| == |rows| - from
  {
    seq(|rows| - from, i requires 0 <= i < |rows| - from => ProjectRow(rows[from + i], cols))
  }

  function FallbackRows(rows: seq<seq<string>>): (norm: seq<seq<string>>)
    ensures |norm| == |rows|
  {
    seq(|rows|, i requires 0 <= i < |rows| => FirstFive(rows[i]))
  }

  /**
    The header is used when one is found and it maps both an id and a task
    column; otherwise every row falls back to its first five cells.
   */
  function NormalizedRows(rows: seq<seq<string>>): seq<seq<string>> {
    NormalizedUnder(rows, HeaderFrom(rows, 0))
  }

  /** The rows normalized under the header found, if any. */
  function NormalizedUnder(rows: seq<seq<string>>, h: Option<nat>): seq<seq<string>>
    requires h.Some? ==> h.value < |rows|
  {
    if h.Some? && UsableHeader(rows[h.value]) then ProjectedRows(rows, h.value + 1, ColumnMap(rows[h.value]))
    else FallbackRows(rows)
  }

  /** A header is used only when it maps both an id and a task column. */
  predicate UsableHeader(header: seq<string>) {
    LastColumn(header, IdCol).Some? && LastColumn(header, TaskCol).Some?
  }

  /** What `normalize_table_for_llm` returns. */
  function NormalizedTable(table: Table): seq<seq<string>> {
    NormalizedRows(CleanRows(table))
  }

  /** The header search: the first of the first five rows that reads as a header. */
  method FindHeader(rows: seq<seq<string>>) returns (h: Option<nat>)
    ensures h == HeaderFrom(rows, 0)
  {
    var i := 0;
    while i < Min(HeaderWindow, |rows|)
      invariant i <= Min(HeaderWindow, |rows|)
      invariant HeaderFrom(rows, 0) == HeaderFrom(rows, i)
    {
      if IsHeaderRow(rows[i]) {
        return Some(i);
      }
      i := i + 1;
    }
    return None;
  }

  lemma LastColumnStep(header: seq<string>, idx: nat, role: Role)
    requires idx < |header|
    ensures LastColumn(header[..idx + 1], role) ==
      if RoleOf(header[idx]) == Some(role) then Some(idx) else LastColumn(header[..idx], role)
  {
    assert header[..idx + 1][..idx] == header[..idx];
  }

  /** The position of a role in the column map. */
  function RoleIndex(role: Role): (j: nat)
    ensures j < 5 && Roles[j] == role
  {
    match role
    case IdCol => 0
    case TaskCol => 1
    case DurCol => 2
    case StartCol => 3
    case EndCol => 4
  }

  /** Fill the column map from the header cells; a later cell claiming a role overrides an earlier one. */
  method MapColumns(header: seq<string>) returns (cols: seq<Option<nat>>)
    ensures cols == ColumnMap(header)
  {
    cols := [None, None, None, None, None];
    var idx := 0;
    while idx < |header|
      invariant idx <= |header| && |cols| == 5
      invariant forall j :: 0 <= j < 5 ==> cols[j] == LastColumn(header[..idx], Roles[j])
    {
      var role := RoleOf(header[idx]);
      forall j | 0 <= j < 5
        ensures LastColumn(header[..idx + 1], Roles[j]) ==
          if role == Some(Roles[j]) then Some(idx) else LastColumn(header[..idx], Roles[j])
      {
        LastColumnStep(header, idx, Roles[j]);
      }
      if role.Some? {
        cols := cols[RoleIndex(role.value) := Some(idx)];
      }
      idx := idx + 1;
    }
    assert header[..idx] == header;
  }

  /** One output row: the cell of each mapped column in role order, "" where there is none. */
  method ProjectRowCells(r: seq<string>, cols: seq<Option<nat>>) returns (newRow: seq<string>)
    requires |cols| == 5
    ensures newRow == ProjectRow(r, cols)
  {
    newRow := [];
    var j := 0;
    while j < 5
      invariant j <= 5
      invariant |newRow| == j
      invariant forall m :: 0 <= m < j ==> newRow[m] == Pick(r, cols[m])
    {
      var c := cols[j];
      if c.Some? && c.value < |r| {
        newRow := newRow + [r[c.value]];
      } else {
        newRow := newRow + [""];
      }
      j := j + 1;
    }
  }

  method ProjectRows(rows: seq<seq<string>>, from: nat, cols: seq<Option<nat>>) returns (norm: seq<seq<string>>)
    requires from <= |rows| && |cols| == 5
    ensures norm == ProjectedRows(rows, from, cols)
  {
    norm := [];
    var k := from;
    while k < |rows|
      invariant from <= k <= |rows|
      invariant |norm| == k - from
      invariant forall m :: 0 <= m < |norm| ==> norm[m] == ProjectRow(rows[from + m], cols)
    {
      var newRow := ProjectRowCells(rows[k], cols);
      norm := norm + [newRow];
      k := k + 1;
    }
  }

  /** `normalize_table_for_llm`: find the header, map its columns, project every later row. */
  method NormalizeTableForLlm(table: Table) returns (norm: seq<seq<string>>)
    ensures norm == NormalizedTable(table)
  {
    var rows := CleanRows(table);
    var header := FindHeader(rows);
    if header.Some? {
      var cols := MapColumns(rows[header.value]);
      if cols[0].Some? && cols[1].Some? {
        norm := ProjectRows(rows, header.value + 1, cols);
        return;
      }
    }
    norm := FallbackRows(rows);
  }

  lemma NormalizedByHeader(rows: seq<seq<string>>, h: nat)
    requires h < |rows| && UsableHeader(rows[h])
    ensures NormalizedUnder(rows, Some(h)) == ProjectedRows(rows, h + 1, ColumnMap(rows[h]))
  {
  }

  lemma NormalizedByFallback(rows: seq<seq<string>>)
    requires HeaderFrom(rows, 0).None? || !UsableHeader(rows[HeaderFrom(rows, 0).value])
    ensures NormalizedRows(rows) == FallbackRows(rows)
  {
  }

  /**
    With a usable header, the output holds one row per row after the header,
    each of exactly five cells in the order id, task, duration, start, finish;
    a cell comes from the last header column claiming its role, and is ""
    when no column claims it or the row is too short.
   */
  lemma NormalizeWithHeader(rows: seq<seq<string>>, h: nat, i: nat, j: nat)
    requires HeaderFrom(rows, 0) == Some(h) && UsableHeader(rows[h])
    requires i < |rows| - h - 1 && j < 5
    ensures |NormalizedRows(rows)| == |rows| - h - 1
    ensures |NormalizedRows(rows)[i]| == 5
    ensures NormalizedRows(rows)[i][j] == Pick(rows[h + 1 + i], LastColumn(rows[h], Roles[j]))
  {
    var cols := ColumnMap(rows[h]);
    assert NormalizedRows(rows) == NormalizedUnder(rows, Some(h));
    NormalizedRowAt(rows, h, i);
    ProjectRowCell(rows[h + 1 + i], cols, j);
  }

  lemma NormalizedRowAt(rows: seq<seq<string>>, h: nat, i: nat)
    requires h < |rows| && UsableHeader(rows[h])
    requires i < |rows| - h - 1
    ensures |NormalizedUnder(rows, Some(h))| == |rows| - h - 1
    ensures NormalizedUnder(rows, Some(h))[i] == ProjectRow(rows[h + 1 + i], ColumnMap(rows[h]))
  {
    NormalizedByHeader(rows, h);
  }

  lemma ProjectRowCell(r: seq<string>, cols: seq<Option<nat>>, j: nat)
    requires |cols| == 5 && j < 5
    ensures ProjectRow(r, cols)[j] == Pick(r, cols[j])
  {
  }

  /** Without a usable header, every row is kept, cut to its first five cleaned cells. */
  lemma NormalizeFallback(table: Table, i: nat)
    requires HeaderFrom(CleanRows(table), 0).None? || !UsableHeader(CleanRow(table[HeaderFrom(CleanRows(table), 0).value]))
    requires i < |table|
    ensures |NormalizedTable(table)| == |table|
    ensures NormalizedTable(table)[i] == CleanRow(table[i])[..Min(5, |table[i]|)]
  {
    var rows := CleanRows(table);
    NormalizedByFallback(rows);
    assert FallbackRows(rows)[i] == FirstFive(rows[i]);
  }

  lemma ProjectIdentity(r: seq<string>)
    requires |r| == 5
    ensures ProjectRow(r, [Some(0), Some(1), Some(2), Some(3), Some(4)]) == r
  {
  }

  /**
    A table already in canonical form (its header claims the five roles in
    order in its first five columns, every later row has five cells) comes
    back as its cleaned rows after the header.
   */
  lemma NormalizeCanonical(table: Table, h: nat)
    requires HeaderFrom(CleanRows(table), 0) == Some(h)
    requires ColumnMap(CleanRow(table[h])) == [Some(0), Some(1), Some(2), Some(3), Some(4)]
    requires forall i :: h < i < |table| ==> |table[i]| == 5
    ensures NormalizedTable(table) == CleanRows(table)[h + 1..]
  {
    var rows := CleanRows(table);
    assert UsableHeader(rows[h]) by {
      assert ColumnMap(rows[h])[0] == LastColumn(rows[h], IdCol);
      assert ColumnMap(rows[h])[1] == LastColumn(rows[h], TaskCol);
    }
    assert NormalizedRows(rows) == NormalizedUnder(rows, Some(h));
    NormalizedByHeader(rows, h);
    forall i | h + 1 <= i < |rows|
      ensures |rows[i]| == 5
    {
      assert rows[i] == CleanRow(table[i]);
    }
    ProjectIdentityRows(rows, h + 1);
  }

  lemma ProjectIdentityRows(rows: seq<seq<string>>, from: nat)
    requires from <= |rows|
    requires forall i :: from <= i < |rows| ==> |rows[i]| == 5
    ensures ProjectedRows(rows, from, [Some(0), Some(1), Some(2), Some(3), Some(4)]) == rows[from..]
  {
    var n := ProjectedRows(rows, from, [Some(0), Some(1), Some(2), Some(3), Some(4)]);
    forall i | 0 <= i < |n|
      ensures n[i] == rows[from..][i]
    {
      ProjectIdentity(rows[from + i]);
    }
  }

  // ---------------------------------------------------------------------------
  // _parse_raw_table_rows
  // ---------------------------------------------------------------------------

  /** Whether any cell of a cleaned row is non-empty (`any(r)`). */
  predicate AnyFilled(r: seq<string>) {
    exists i :: 0 <= i < |r| && r[i] != ""
  }

  /** A row is dropped when it is empty or blank, its id is missing or 0, or its name is rejected or empty. */
  predicate RowRejected(r: seq<string>) {
    || r == [] || !AnyFilled(r)
    || ParseIntSafe(Some(r[0])).None? || ParseIntSafe(Some(r[0])).value == 0
    || |r| < 2 || CleanTaskName(Some(r[1])).None? || CleanTaskName(Some(r[1])).value == ""
  }

  /** The duration cell, read when the row has one; 0 otherwise. */
  function DurationCell(r: seq<string>): nat {
    if |r| > 2 then ParseDuration(Some(r[2])) else 0
  }

  /** The date in cell `j`, read when the row has one. */
  function DateCell(r: seq<string>, j: nat): Option<Date> {
    if j < |r| then DateFlexible(Some(r[j])) else None
  }

  /** What a cleaned row yields, if it passes the id and name checks. */
  function RowTask(r: seq<string>): Option<Task> {
    if RowRejected(r) then None
    else Some(Task(ParseIntSafe(Some(r[0])).value, CleanTaskName(Some(r[1])).value, DurationCell(r), DateCell(r, 3), DateCell(r, 4)))
  }

  /**
    A row yields a task exactly when it passes the checks; its id and
    name are the parsed first two cells.
   */
  lemma RowTaskSpec(r: seq<string>)
    ensures RowTask(r).None? <==> RowRejected(r)
    ensures RowTask(r).Some? ==>
      && 1 <= RowTask(r).value.taskId <= MaxTaskId
      && ParseIntSafe(Some(r[0])) == Some(RowTask(r).value.taskId as nat)
      && Some(RowTask(r).value.taskName) == CleanTaskName(Some(r[1]))
  {
  }

  /** One row of `_parse_raw_table_rows`: the checks in source order, then the dates. */
  method RowToTask(r: seq<string>) returns (t: Option<Task>)
    ensures t == RowTask(r)
  {
    if r == [] || !AnyFilled(r) {
      return None;
    }
    var id := ParseIntSafe(Some(r[0]));
    if id.None? || id.value == 0 {
      return None;
    }
    var name := if |r| > 1 then CleanTaskName(Some(r[1])) else None;
    if name.None? || name.value == "" {
      return None;
    }
    var dur := if |r| > 2 then ParseDuration(Some(r[2])) else 0;
    var start: Option<Date> := None;
    if |r| > 3 {
      start := ParseDateFlexible(Some(r[3]));
    }
    var finish: Option<Date> := None;
    if |r| > 4 {
      finish := ParseDateFlexible(Some(r[4]));
    }
    t := Some(Task(id.value, name.value, dur, start, finish));
  }

  /** The tasks of the rows that yield one, in row order. */
  function RowsTasks(rows: seq<seq<string>>): (ts: seq<Task>) {
    FilterMap(RowTask, rows)
  }

  /** The first row is a header, and skipped, when its first cell mentions "id". */
  predicate SkipsFirstRow(rows: seq<seq<string>>)
    requires rows != [] && rows[0] != []
  {
    Contains(Lower(rows[0][0]), "id")
  }

  /**
    What `_parse_raw_table_rows` returns; None where it raises, which is when
    the first row has no cells at all.
   */
  function RawTableTasks(table: Table): Option<seq<Task>> {
    var rows := CleanRows(table);
    if rows == [] then Some([])
    else if rows[0] == [] then None
    else Some(RowsTasks(rows[if SkipsFirstRow(rows) then 1 else 0..]))
  }

  /** The row loop of `_parse_raw_table_rows`, from row `from` on. */
  method CollectRowTasks(rows: seq<seq<string>>, from: nat) returns (tasks: seq<Task>)
    requires from <= |rows|
    ensures tasks == RowsTasks(rows[from..])
  {
    tasks := [];
    var k := from;
    while k < |rows|
      invariant from <= k <= |rows|
      invariant tasks == FilterMapRange(RowTask, rows, from, k)
    {
      var t := RowToTask(rows[k]);
      if t.Some? {
        tasks := tasks + [t.value];
      }
      k := k + 1;
    }
    FilterMapRangeSlice(RowTask, rows, from, k);
    assert rows[from..k] == rows[from..];
  }

  /** `_parse_raw_table_rows`: skip a header row, then collect the tasks of the remaining rows. */
  method ParseRawTableRows(table: Table) returns (r: Option<seq<Task>>)
    ensures r == RawTableTasks(table)
  {
    var rows := CleanRows(table);
    if rows == [] {
      return Some([]);
    }
    if rows[0] == [] {
      return None;
    }
    var startIdx := 0;
    if Contains(Lower(rows[0][0]), "id") {
      startIdx := 1;
    }
    var tasks := CollectRowTasks(rows, startIdx);
    return Some(tasks);
  }

  /** A task a row yields has an id in 1..99999, a clean non-empty name of at most 200 characters. */
  lemma RowTaskValid(r: seq<string>)
    requires RowTask(r).Some?
    ensures var t := RowTask(r).value;
      && 1 <= t.taskId <= MaxTaskId && t.taskName != "" && IsClean(t.taskName) && |t.taskName| <= 200
      && t.durationDays >= 0
      && (t.startDate.Some? ==> ValidDate(t.startDate.value))
      && (t.finishDate.Some? ==> ValidDate(t.finishDate.value))
  {
    RowTaskSpec(r);
  }

  /** Every task a table yields has an id in 1..99999, a clean non-empty name and valid dates. */
  lemma RowsTasksValid(rows: seq<seq<string>>, i: nat)
    requires i < |RowsTasks(rows)|
    ensures var t := RowsTasks(rows)[i];
      && 1 <= t.taskId <= MaxTaskId && t.taskName != "" && IsClean(t.taskName) && |t.taskName| <= 200
      && t.durationDays >= 0
      && (t.startDate.Some? ==> ValidDate(t.startDate.value))
      && (t.finishDate.Some? ==> ValidDate(t.finishDate.value))
  {
    FilterMapFrom(RowTask, rows, i);
    var j :| 0 <= j < |rows| && RowTask(rows[j]) == Some(RowsTasks(rows)[i]);
    RowTaskValid(rows[j]);
  }

  /** Exactly the rows after an optional header, a header being skipped iff its first cell says "id". */
  lemma RawTableHeaderSkip(table: Table)
    requires table != [] && table[0] != []
    ensures var rows := CleanRows(table);
      RawTableTasks(table) == Some(RowsTasks(if Contains(Lower(rows[0][0]), "id") then rows[1..] else rows))
    ensures RawTableTasks(table).Some? && |RawTableTasks(table).value| <= |table|
  {
  }

  /** A first row with no cells makes the parser raise (indexing its first cell). */
  lemma RawTableEmptyFirstRow(table: Table)
    requires table != [] && table[0] == []
    ensures RawTableTasks(table).None?
  {
  }

  // ---------------------------------------------------------------------------
  // _parse_text_block_for_tasks
  // ---------------------------------------------------------------------------

  /**
    `(.+?)\s+(\d+)\s*d` can close the name at `q`: whitespace there, then a
    digit run after the whole whitespace run, then optional whitespace and
    "d" or "D" (the pattern ignores case).  Within this tail, giving back
    part of the whitespace or digit run leaves a whitespace or digit
    character where a digit or "d" is needed, so only whole runs count here.
   */
  predicate NameEndsAt(line: string, q: nat) {
    q < |line| && IsSpace(line[q])
    && var q2 := SkipSpaces(line, q);
    q2 < |line| && IsDigit(line[q2])
    && var q4 := SkipSpaces(line, RunEnd(line, q2));
    q4 < |line| && (line[q4] == 'd' || line[q4] == 'D')
  }

  /** The lazy `(.+?)`: the first place at or after `q` where the name can end. */
  function NameEnd(line: string, q: nat): (e: Option<nat>)
    requires q <= |line|
    ensures e.Some? ==> q <= e.value < |line|
    decreases |line| - q
  {
    if q == |line| then None
    else if NameEndsAt(line, q) then Some(q)
    else NameEnd(line, q + 1)
  }

  /** The name ends at the first place the rest of the pattern matches, and nowhere when there is no such place. */
  lemma {:induction false} NameEndFirst(line: string, q: nat)
    requires q <= |line|
    ensures var e := NameEnd(line, q);
      && (e.Some? ==> NameEndsAt(line, e.value) && forall k :: q <= k < e.value ==> !NameEndsAt(line, k))
      && (e.None? ==> forall k :: q <= k < |line| ==> !NameEndsAt(line, k))
    decreases |line| - q
  {
    if q < |line| && !NameEndsAt(line, q) {
      NameEndFirst(line, q + 1);
    }
  }

  /**
    `re.match(r"^(\d+)\s+(.+?)\s+(\d+)\s*d", line, re.IGNORECASE)`: the id is
    the whole leading digit run.  The first `\s+` first takes the whole
    whitespace run after it; the name then starts there, is at least one
    character long and ends at the first place the rest of the pattern
    matches.  When there is no such place the engine gives back whitespace
    from the first `\s+`.  Giving back one character cannot help (the name
    would have to end at the first non-space).  Giving back two, when the run
    has at least three characters, lets the one-character name close just
    before the last whitespace character; the name group is then whitespace,
    which `.strip()` turns into "".  Giving back more closes nowhere new.
   */
  function MatchLine(line: string): (t: Option<Task>)
    ensures t.Some? ==> t.value.taskId >= 0 && t.value.durationDays >= 0
    ensures t.Some? ==> t.value.startDate.None? && t.value.finishDate.None?
  {
    var idEnd := RunEnd(line, 0);
    var nameStart := SkipSpaces(line, idEnd);
    if idEnd == 0 || nameStart == idEnd || nameStart == |line| then None
    else
      var q := NameEnd(line, nameStart + 1);
      if q.Some? then
        var durStart := SkipSpaces(line, q.value);
        Some(Task(RunValue(line, 0), Strip(line[nameStart..q.value]),
                  RunValue(line, durStart), None, None))
      else if nameStart - idEnd >= 3 && NameEndsAt(line, nameStart - 1) then
        Some(Task(RunValue(line, 0), "", RunValue(line, nameStart), None, None))
      else None
  }

  /** When the name cannot close after the whole run, a run of three or more gives the empty name. */
  lemma MatchLineGivesBack(line: string, idEnd: nat, nameStart: nat)
    requires idEnd == RunEnd(line, 0) > 0
    requires nameStart == SkipSpaces(line, idEnd) < |line|
    requires nameStart - idEnd >= 3
    requires NameEnd(line, nameStart + 1) == None && NameEndsAt(line, nameStart - 1)
    ensures MatchLine(line) == Some(Task(RunValue(line, 0), "", RunValue(line, nameStart), None, None))
  {
  }

  /**
    Backtracking into the whitespace after the id: a line whose id is
    followed by three spaces and a duration gives a task with an empty name.
   */
  lemma MatchLineBlankName()
    ensures MatchLine("12   34d") == Some(Task(12, "", 34, None, None))
  {
    var line := "12   34d";
    BlankNameLayout();
    MatchLineGivesBack(line, 2, 5);
    assert line[0..2] == "12" && DigitsValue("12") == 12;
    assert line[5..7] == "34" && DigitsValue("34") == 34;
  }

  lemma BlankNameLayout()
    ensures var line := "12   34d";
      && RunEnd(line, 0) == 2 && SkipSpaces(line, 2) == 5
      && NameEnd(line, 6) == None && NameEndsAt(line, 4) && RunEnd(line, 5) == 7
  {
    var line := "12   34d";
    assert RunEnd(line, 2) == 2 && RunEnd(line, 1) == 2;
    assert SkipSpaces(line, 5) == 5 && SkipSpaces(line, 4) == 5 && SkipSpaces(line, 3) == 5;
    assert !NameEndsAt(line, 7) && NameEnd(line, 7) == None;
    assert RunEnd(line, 7) == 7 && RunEnd(line, 6) == 7;
    assert SkipSpaces(line, 7) == 7;
  }

  /** The same with a longer run and a spelled-out unit: "5    10 days" gives id 5, name "" and 10 days. */
  lemma MatchLineBlankNameDays()
    ensures MatchLine("5    10 days") == Some(Task(5, "", 10, None, None))
  {
    var line := "5    10 days";
    BlankNameDaysLayout();
    MatchLineGivesBack(line, 1, 5);
    assert line[0..1] == "5" && DigitsValue("5") == 5;
    assert line[5..7] == "10" && DigitsValue("10") == 10;
  }

  lemma BlankNameDaysLayout()
    ensures var line := "5    10 days";
      && RunEnd(line, 0) == 1 && SkipSpaces(line, 1) == 5
      && NameEnd(line, 6) == None && NameEndsAt(line, 4) && RunEnd(line, 5) == 7
  {
    var line := "5    10 days";
    assert RunEnd(line, 1) == 1;
    assert SkipSpaces(line, 5) == 5 && SkipSpaces(line, 4) == 5 && SkipSpaces(line, 3) == 5;
    assert SkipSpaces(line, 2) == 5;
    assert SkipSpaces(line, 8) == 8 && SkipSpaces(line, 7) == 8;
    assert NameEnd(line, 10) == None && NameEnd(line, 9) == None && NameEnd(line, 8) == None;
    assert !NameEndsAt(line, 7) && NameEnd(line, 7) == None;
    assert RunEnd(line, 7) == 7 && RunEnd(line, 6) == 7;
  }

  /** With only two spaces after the id there is nothing to give back, and the line does not match. */
  lemma MatchLineTwoSpaces()
    ensures MatchLine("12  34d") == None
  {
    var line := "12  34d";
    assert RunEnd(line, 2) == 2 && RunEnd(line, 1) == 2 && RunEnd(line, 0) == 2;
    assert SkipSpaces(line, 4) == 4 && SkipSpaces(line, 3) == 4 && SkipSpaces(line, 2) == 4;
    assert !NameEndsAt(line, 6) && NameEnd(line, 6) == None;
    assert !NameEndsAt(line, 5) && NameEnd(line, 5) == None;
  }

  /** What `_parse_text_block_for_tasks` returns: one task per matching stripped line, in order. */
  function LinesTasks(lines: seq<string>): (ts: seq<Task>) {
    FilterMap(LineTask, lines)
  }

  /** What one line yields, matched after stripping it. */
  function LineTask(line: string): Option<Task> {
    MatchLine(Strip(line))
  }

  function TextBlockTasks(text: string): seq<Task> {
    LinesTasks(Split(text, '\n'))
  }

  /** `_parse_text_block_for_tasks`: match each line and collect the tasks. */
  method ParseTextBlockForTasks(text: string) returns (tasks: seq<Task>)
    ensures tasks == TextBlockTasks(text)
  {
    var lines := Split(text, '\n');
    tasks := [];
    var k := 0;
    while k < |lines|
      invariant k <= |lines|
      invariant tasks == FilterMapRange(LineTask, lines, 0, k)
    {
      var line := Strip(lines[k]);
      var m := MatchLine(line);
      if m.Some? {
        tasks := tasks + [m.value];
      }
      k := k + 1;
    }
    FilterMapRangeSlice(LineTask, lines, 0, k);
    assert lines[0..k] == lines;
  }

  /** The line an OCR scan shows for a task: "<id> <name> <duration>d". */
  function TaskLine(id: nat, name: string, dur: nat): string {
    NatToString(id) + " " + name + " " + NatToString(dur) + "d"
  }

  /** A name the line pattern reads back whole: no digits, no outer whitespace. */
  predicate PlainName(name: string) {
    && name != [] && !IsSpace(name[0]) && !IsSpace(name[|name| - 1])
    && (forall i :: 0 <= i < |name| ==> !IsDigit(name[i]))
  }

  /** Where the pieces of a task line sit. */
  predicate LineLayout(line: string, ids: string, name: string, durs: string) {
    var p := |ids| + 1;
    var q := p + |name|;
    && |line| == q + 1 + |durs| + 1
    && line[..|ids|] == ids && line[|ids|] == ' '
    && line[p..q] == name && line[q] == ' '
    && line[q + 1..] == durs + "d"
    && line[q + 1..q + 1 + |durs|] == durs
  }

  lemma TaskLineLayout(ids: string, name: string, durs: string)
    ensures LineLayout(ids + " " + name + " " + durs + "d", ids, name, durs)
  {
    var line := ids + " " + name + " " + durs + "d";
    var q := |ids| + 1 + |name|;
    assert line == ids + (" " + name + " " + durs + "d");
    assert line == (ids + " " + name) + (" " + durs + "d");
    assert line[q + 1..] == durs + "d";
  }

  /** In a task line the leading digit run is the id. */
  lemma TaskLineIdRun(line: string, ids: string, name: string, durs: string)
    requires LineLayout(line, ids, name, durs)
    requires |ids| >= 1 && AllDigits(ids) && |durs| >= 1 && AllDigits(durs)
    requires PlainName(name)
    ensures RunEnd(line, 0) == |ids|
  {
    assert line == ids + line[|ids|..];
    RunEndOfDigits(ids, line[|ids|..], 0);
  }

  /** In a task line the name starts right after the one space that follows the id. */
  lemma TaskLineNameStart(line: string, ids: string, name: string, durs: string)
    requires LineLayout(line, ids, name, durs)
    requires |ids| >= 1 && AllDigits(ids) && |durs| >= 1 && AllDigits(durs)
    requires PlainName(name)
    ensures SkipSpaces(line, |ids|) == |ids| + 1
  {
    var p := |ids| + 1;
    assert line[p] == name[0];
    assert SkipSpaces(line, p) == p;
  }

  /** In a task line the duration's digit run ends just before the "d". */
  lemma TaskLineDurRun(line: string, ids: string, name: string, durs: string)
    requires LineLayout(line, ids, name, durs)
    requires |ids| >= 1 && AllDigits(ids) && |durs| >= 1 && AllDigits(durs)
    requires PlainName(name)
    ensures RunEnd(line, |ids| + 2 + |name|) == |ids| + 2 + |name| + |durs|
    ensures RunValue(line, |ids| + 2 + |name|) == DigitsValue(durs)
  {
    var q := |ids| + 1 + |name|;
    RunEndOfDigits(durs, "d", 0);
    RunEndShift(line, q + 1, durs + "d", 0);
  }

  /** The name can close where the writer put the space before the duration. */
  lemma TaskLineEndsAt(line: string, ids: string, name: string, durs: string)
    requires LineLayout(line, ids, name, durs)
    requires |ids| >= 1 && AllDigits(ids) && |durs| >= 1 && AllDigits(durs)
    requires PlainName(name)
    ensures NameEndsAt(line, |ids| + 1 + |name|)
    ensures SkipSpaces(line, |ids| + 1 + |name|) == |ids| + 2 + |name|
  {
    var q := |ids| + 1 + |name|;
    TaskLineDurRun(line, ids, name, durs);
    assert line[q + 1] == durs[0];
    assert SkipSpaces(line, q + 1) == q + 1;
    assert line[q + 1 + |durs|] == 'd';
    assert SkipSpaces(line, q + 1 + |durs|) == q + 1 + |durs|;
  }

  /** Inside the name the pattern cannot close: a space there is followed by more name, which has no digits. */
  lemma TaskLineNoEarlierEnd(line: string, ids: string, name: string, durs: string, k: nat)
    requires LineLayout(line, ids, name, durs)
    requires PlainName(name)
    requires |ids| + 2 <= k < |ids| + 1 + |name|
    ensures !NameEndsAt(line, k)
  {
    var p := |ids| + 1;
    var q := p + |name|;
    if IsSpace(line[k]) {
      var e := SkipSpaces(line, k);
      SkipSpacesAll(line, k);
      assert line[q - 1] == name[|name| - 1];
      assert e < q;
      assert line[e] == name[e - p];
    }
  }

  /** The name closes where the writer put the space before the duration, and nowhere earlier. */
  lemma TaskLineNameEnd(line: string, ids: string, name: string, durs: string)
    requires LineLayout(line, ids, name, durs)
    requires |ids| >= 1 && AllDigits(ids) && |durs| >= 1 && AllDigits(durs)
    requires PlainName(name)
    ensures NameEnd(line, |ids| + 2) == Some(|ids| + 1 + |name|)
  {
    var q := |ids| + 1 + |name|;
    TaskLineEndsAt(line, ids, name, durs);
    forall k | |ids| + 2 <= k < q
      ensures !NameEndsAt(line, k)
    {
      TaskLineNoEarlierEnd(line, ids, name, durs, k);
    }
    NameEndFirst(line, |ids| + 2);
  }

  /** MatchLine in terms of the positions it finds. */
  lemma MatchLineAt(line: string, idEnd: nat, nameStart: nat, q: nat)
    requires idEnd == RunEnd(line, 0) && nameStart == SkipSpaces(line, idEnd)
    requires 0 < idEnd < nameStart < |line|
    requires NameEnd(line, nameStart + 1) == Some(q)
    ensures MatchLine(line) ==
      Some(Task(RunValue(line, 0), Strip(line[nameStart..q]), RunValue(line, SkipSpaces(line, q)), None, None))
  {
  }

  /** A line laid out as a task line matches with the pieces as its groups. */
  lemma MatchLayout(line: string, ids: string, name: string, durs: string)
    requires LineLayout(line, ids, name, durs)
    requires |ids| >= 1 && AllDigits(ids) && |durs| >= 1 && AllDigits(durs)
    requires PlainName(name)
    ensures MatchLine(line) == Some(Task(DigitsValue(ids), name, DigitsValue(durs), None, None))
  {
    var p := |ids| + 1;
    var q := p + |name|;
    TaskLineIdRun(line, ids, name, durs);
    TaskLineNameStart(line, ids, name, durs);
    TaskLineDurRun(line, ids, name, durs);
    TaskLineEndsAt(line, ids, name, durs);
    TaskLineNameEnd(line, ids, name, durs);
    MatchLineAt(line, |ids|, p, q);
    StripSpaceFree(name);
  }

  /** Matching undoes writing a task line: id, name and duration come back. */
  lemma MatchTaskLine(id: nat, name: string, dur: nat)
    requires PlainName(name)
    ensures MatchLine(TaskLine(id, name, dur)) == Some(Task(id, name, dur, None, None))
  {
    var ids, durs := NatToString(id), NatToString(dur);
    TaskLineLayout(ids, name, durs);
    MatchLayout(TaskLine(id, name, dur), ids, name, durs);
  }

  /** A digit run in the suffix `t[i..]` ends where it ends in `t`, shifted by `i`. */
  lemma {:induction false} RunEndShift(t: string, i: nat, s: string, j: nat)
    requires i <= |t| && t[i..] == s && j <= |s|
    ensures RunEnd(t, i + j) == i + RunEnd(s, j)
    decreases |s| - j
  {
    if j < |s| && IsDigit(s[j]) {
      assert t[i + j] == s[j];
      RunEndShift(t, i, s, j + 1);
    }
  }
}
