/**
  The document extractor (core/extractor.py): the table-discovery cascade
  camelot, then pdfplumber, then OCR; the hybrid schedule extraction that
  merges the rule-based rows with what the model reads from each table; and
  the extraction of regulatory rules from the text of a circular, 1500
  characters at a time.  The PDF and image libraries are not modelled: what
  they report for a document is the input `PdfReadings`, and the model call
  is the parameter `ask`.
 */
module Extractor {
  import opened Wrappers
  import opened Chars
  import opened Seqs
  import opened Values
  import opened Schemas
  import opened TableRows
  import opened Merge
  import opened LlmClient
  import opened TableParser

  // ---------------------------------------------------------------------------
  // _collect_raw_tables
  // ---------------------------------------------------------------------------

  datatype TierName = Camelot | PdfPlumber | Ocr

  /**
    What the libraries report for one document.  `camelot` is None when
    `read_pdf` raises.  `plumberPages` is None when the file cannot be
    opened, and holds None for a page whose `extract_tables` raises.
    `ocrPages` is None when the pages cannot be rendered, and holds None for
    a page whose recognition raises; otherwise the recognised text.
   */
  datatype PdfReadings = PdfReadings(
    camelot: Option<seq<Table>>,
    plumberPages: Option<seq<Option<seq<Table>>>>,
    ocrPages: Option<seq<Option<string>>>)

  /**
    The pages of a tier read one after another inside one `try`: the first
    page that raises ends the tier, keeping what the earlier pages gave.
   */
  function UntilFailure<P, T>(pages: seq<Option<P>>, f: P -> seq<T>): seq<T> {
    if pages == [] || pages[0].None? then [] else f(pages[0].value) + UntilFailure(pages[1..], f)
  }

  function CamelotTables(r: PdfReadings): seq<Table> {
    r.camelot.GetOr([])
  }

  /** `if t:` keeps a table only when it has a row. */
  function KeepTable(t: Table): Option<Table> {
    if t != [] then Some(t) else None
  }

  function KeptTables(ts: seq<Table>): seq<Table> {
    FilterMap(KeepTable, ts)
  }

  function PlumberTables(r: PdfReadings): seq<Table> {
    if r.plumberPages.None? then [] else UntilFailure(r.plumberPages.value, KeptTables)
  }

  /**
    One OCR pseudo-table row: a parsed task converted with `safe_task_to_dict`,
    then `str` of its id, its name (already a string), `str` of its
    duration, start date and finish date.
   */
  function PseudoRow(t: Task): Row {
    PseudoRowOf(SafeTaskDict(SchemaObject(t)))
  }

  function PseudoRowOf(d: seq<(string, Value)>): Row {
    [ Some(Str(GetOr(d, "task_id", VStr("")))), Some(Str(GetOr(d, "task_name", VStr("")))),
      Some(Str(GetOr(d, "duration_days", VStr("")))), Some(Str(GetOr(d, "start_date", VStr("")))),
      Some(Str(GetOr(d, "finish_date", VStr("")))) ]
  }

  function PseudoTable(parsed: seq<Task>): Table {
    Map(PseudoRow, parsed)
  }

  /** What one recognised page adds: a pseudo-table when its text yields tasks, else nothing. */
  function PageTables(text: string): seq<Table> {
    var parsed := TextBlockTasks(text);
    if parsed == [] then []
    else
      var pseudo := PseudoTable(parsed);
      if pseudo == [] then [] else [pseudo]
  }

  function OcrTables(r: PdfReadings): seq<Table> {
    if r.ocrPages.None? then [] else UntilFailure(r.ocrPages.value, PageTables)
  }

  /** The tables `_collect_raw_tables` returns: those of the first tier that finds any; OCR only when allowed. */
  function RawTables(r: PdfReadings, ocrIfNeeded: bool): seq<Table> {
    if CamelotTables(r) != [] then CamelotTables(r)
    else if PlumberTables(r) != [] then PlumberTables(r)
    else if ocrIfNeeded then OcrTables(r)
    else []
  }

  /** The tiers `_collect_raw_tables` runs, in order. */
  function TiersRun(r: PdfReadings, ocrIfNeeded: bool): seq<TierName> {
    if CamelotTables(r) != [] then [Camelot]
    else if PlumberTables(r) != [] || !ocrIfNeeded then [Camelot, PdfPlumber]
    else [Camelot, PdfPlumber, Ocr]
  }

  /** `_collect_raw_tables`; `tiers` records which tiers ran. */
  method CollectRawTables(r: PdfReadings, ocrIfNeeded: bool) returns (rawTables: seq<Table>, tiers: seq<TierName>)
    ensures rawTables == RawTables(r, ocrIfNeeded)
    ensures tiers == TiersRun(r, ocrIfNeeded)
  {
    rawTables := [];
    tiers := [Camelot];
    if r.camelot.Some? {
      var tables := r.camelot.value;
      var i := 0;
      while i < |tables|
        invariant 0 <= i <= |tables|
        invariant rawTables == tables[..i]
      {
        assert tables[..i + 1] == tables[..i] + [tables[i]];
        rawTables := rawTables + [tables[i]];
        i := i + 1;
      }
      assert tables[..i] == tables;
    }
    if rawTables == [] {
      tiers := tiers + [PdfPlumber];
      if r.plumberPages.Some? {
        rawTables := CollectPlumberTables(r.plumberPages.value);
      }
    }
    if rawTables == [] && ocrIfNeeded {
      tiers := tiers + [Ocr];
      if r.ocrPages.Some? {
        rawTables := CollectOcrTables(r.ocrPages.value);
      }
    }
  }

  /** The pdfplumber tier: every non-empty table of every page, until a page raises. */
  method CollectPlumberTables(pages: seq<Option<seq<Table>>>) returns (tables: seq<Table>)
    ensures tables == UntilFailure(pages, KeptTables)
  {
    tables := [];
    var i := 0;
    while i < |pages|
      invariant 0 <= i <= |pages|
      invariant tables + UntilFailure(pages[i..], KeptTables) == UntilFailure(pages, KeptTables)
    {
      if pages[i].None? {
        return;
      }
      var kept := KeepNonEmptyTables(pages[i].value);
      UntilFailureStep(pages, i, KeptTables);
      tables := tables + kept;
      i := i + 1;
    }
  }

  /** `for t in extracted: if t: raw_tables.append(t)` */
  method KeepNonEmptyTables(extracted: seq<Table>) returns (kept: seq<Table>)
    ensures kept == KeptTables(extracted)
  {
    kept := [];
    var j := 0;
    while j < |extracted|
      invariant 0 <= j <= |extracted|
      invariant kept == FilterMapRange(KeepTable, extracted, 0, j)
    {
      if extracted[j] != [] {
        kept := kept + [extracted[j]];
      }
      j := j + 1;
    }
    FilterMapRangeSlice(KeepTable, extracted, 0, j);
    assert extracted[0..j] == extracted;
  }

  /** The OCR tier: a pseudo-table per page whose text yields tasks, until a page raises. */
  method CollectOcrTables(pages: seq<Option<string>>) returns (tables: seq<Table>)
    ensures tables == UntilFailure(pages, PageTables)
  {
    tables := [];
    var i := 0;
    while i < |pages|
      invariant 0 <= i <= |pages|
      invariant tables + UntilFailure(pages[i..], PageTables) == UntilFailure(pages, PageTables)
    {
      if pages[i].None? {
        return;
      }
      var added := OcrPage(pages[i].value);
      UntilFailureStep(pages, i, PageTables);
      tables := tables + added;
      i := i + 1;
    }
  }

  /** One recognised page: parse its text and build the pseudo-table when there are tasks. */
  method OcrPage(text: string) returns (added: seq<Table>)
    ensures added == PageTables(text)
  {
    added := [];
    var parsed := ParseTextBlockForTasks(text);
    if parsed != [] {
      var pseudo := BuildPseudoTable(parsed);
      if pseudo != [] {
        added := [pseudo];
      }
    }
  }

  /** The rows of one page's pseudo-table, one per parsed task. */
  method BuildPseudoTable(parsed: seq<Task>) returns (pseudo: Table)
    ensures pseudo == PseudoTable(parsed)
  {
    pseudo := [];
    var k := 0;
    while k < |parsed|
      invariant 0 <= k <= |parsed|
      invariant pseudo == PseudoTable(parsed[..k])
    {
      var d := SafeTaskToDict(SchemaObject(parsed[k]));
      MapSnoc(PseudoRow, parsed, k);
      pseudo := pseudo + [PseudoRowOf(d)];
      k := k + 1;
    }
    assert parsed[..k] == parsed;
  }

  /**
    The cascade: pdfplumber runs exactly when camelot found no table (it
    raised or found none), OCR exactly when neither did and OCR is allowed,
    and the tables returned are those of the last tier that ran.
   */
  lemma TierCascade(r: PdfReadings, ocrIfNeeded: bool)
    ensures var tiers := TiersRun(r, ocrIfNeeded);
      && tiers[0] == Camelot
      && (PdfPlumber in tiers <==> CamelotTables(r) == [])
      && (Ocr in tiers <==> CamelotTables(r) == [] && PlumberTables(r) == [] && ocrIfNeeded)
      && RawTables(r, ocrIfNeeded) ==
           if Ocr in tiers then OcrTables(r)
           else if PdfPlumber in tiers then PlumberTables(r)
           else CamelotTables(r)
  {
  }

  lemma UntilFailureStep<P, T>(pages: seq<Option<P>>, i: nat, f: P -> seq<T>)
    requires i < |pages| && pages[i].Some?
    ensures UntilFailure(pages[i..], f) == f(pages[i].value) + UntilFailure(pages[i + 1..], f)
  {
    assert pages[i..][1..] == pages[i + 1..];
  }

  /** A page that raises ends its tier: the pages after it add nothing. */
  lemma {:induction false} StopsAtFailure<P, T>(pages: seq<Option<P>>, f: P -> seq<T>, k: nat)
    requires k < |pages| && pages[k].None?
    ensures UntilFailure(pages, f) == UntilFailure(pages[..k], f)
  {
    if k > 0 {
      assert pages[1..][k - 1] == pages[k];
      StopsAtFailure(pages[1..], f, k - 1);
      assert pages[1..][..k - 1] == pages[..k][1..];
    }
  }

  /** Each page's tables, while no page has raised, all appear in the tier's result in page order. */
  lemma {:induction false} UntilFailureAppend<P, T>(a: seq<Option<P>>, b: seq<Option<P>>, f: P -> seq<T>)
    requires forall i :: 0 <= i < |a| ==> a[i].Some?
    ensures UntilFailure(a + b, f) == UntilFailure(a, f) + UntilFailure(b, f)
  {
    if a == [] {
      assert a + b == b;
    } else {
      assert (a + b)[1..] == a[1..] + b;
      UntilFailureAppend(a[1..], b, f);
    }
  }

  /** pdfplumber keeps exactly the tables with at least one row. */
  lemma KeptTablesSpec(ts: seq<Table>, t: Table)
    ensures t in KeptTables(ts) <==> t in ts && t != []
  {
    if t in KeptTables(ts) {
      var i :| 0 <= i < |KeptTables(ts)| && KeptTables(ts)[i] == t;
      FilterMapFrom(KeepTable, ts, i);
    }
    if t in ts && t != [] {
      var j :| 0 <= j < |ts| && ts[j] == t;
      FilterMapHas(ts, j);
    }
  }

  lemma {:induction false} FilterMapHas(ts: seq<Table>, j: nat)
    requires j < |ts| && ts[j] != []
    ensures ts[j] in KeptTables(ts)
  {
    if j > 0 {
      assert ts[1..][j - 1] == ts[j];
      FilterMapHas(ts[1..], j - 1);
    }
  }

  /** A pseudo-row for a task without dates: id, name, duration, then "None" twice. */
  lemma PseudoRowCells(t: Task)
    requires t.startDate.None? && t.finishDate.None?
    ensures PseudoRow(t) == [Some(IntToString(t.taskId)), Some(t.taskName), Some(IntToString(t.durationDays)), Some("None"), Some("None")]
  {
    var f := TaskFields(t);
    assert forall a, b :: 0 <= a < b < |f| ==> |f[a].0| != |f[b].0|;
    assert Get(f, "task_id") == Some(VInt(t.taskId)) by { GetDistinct(f, 0); }
    assert Get(f, "task_name") == Some(VStr(t.taskName)) by { GetDistinct(f, 1); }
    assert Get(f, "duration_days") == Some(VInt(t.durationDays)) by { GetDistinct(f, 2); }
    assert Get(f, "start_date") == Some(VNone) by { GetDistinct(f, 3); }
    assert Get(f, "finish_date") == Some(VNone) by { GetDistinct(f, 4); }
  }

  /** Every task read from recognised text has no dates. */
  lemma TextTasksUndated(text: string, i: nat)
    requires i < |TextBlockTasks(text)|
    ensures TextBlockTasks(text)[i].startDate.None? && TextBlockTasks(text)[i].finishDate.None?
  {
    FilterMapFrom(LineTask, Split(text, '\n'), i);
  }

  /**
    A page adds a table exactly when its text yields tasks; the table has
    one five-cell row per task, in order, whose date cells are "None".
   */
  lemma PageTablesShape(text: string)
    ensures PageTables(text) == [] <==> TextBlockTasks(text) == []
    ensures PageTables(text) != [] ==>
      var parsed := TextBlockTasks(text);
      && |PageTables(text)| == 1 && |PageTables(text)[0]| == |parsed|
      && forall i :: 0 <= i < |parsed| ==>
           PageTables(text)[0][i] == [ Some(IntToString(parsed[i].taskId)), Some(parsed[i].taskName),
                                       Some(IntToString(parsed[i].durationDays)), Some("None"), Some("None") ]
  {
    var parsed := TextBlockTasks(text);
    forall i | 0 <= i < |parsed|
      ensures PseudoTable(parsed)[i] == [ Some(IntToString(parsed[i].taskId)), Some(parsed[i].taskName),
                                          Some(IntToString(parsed[i].durationDays)), Some("None"), Some("None") ]
    {
      TextTasksUndated(text, i);
      PseudoRowCells(parsed[i]);
    }
  }

  // ---------------------------------------------------------------------------
  // extract_project_schedule_hybrid
  // ---------------------------------------------------------------------------

  /** The rule-based tasks of each table; a table whose parse raises gives none. */
  function RuleLists(tables: seq<Table>): seq<seq<Task>> {
    Map(TableRuleTasks, tables)
  }

  function TableRuleTasks(table: Table): seq<Task> {
    RawTableTasks(table).GetOr([])
  }

  /** The model's tasks of each table, read with page hint `idx + 1`. */
  function LlmLists(tables: seq<Table>, ask: string -> Outcome): (ls: seq<seq<Value>>)
    ensures |ls| == |tables|
  {
    if tables == [] then []
    else LlmLists(tables[..|tables| - 1], ask) + [HybridTasks(tables[|tables| - 1], |tables|, ask)]
  }

  /** A rule-based task goes to the merge as its `safe_task_to_dict` dict. */
  function RuleCandidate(t: Task): Candidate {
    DictCand(ToMap(SafeTaskDict(SchemaObject(t))))
  }

  /** What the model returned goes to the merge as is: a dict, or something the merge skips. */
  function LlmCandidate(v: Value): Candidate {
    if v.VDict? then DictCand(ToMap(v.fields)) else OtherCand
  }

  /** `[safe_task_to_dict(t) for t in rule_tasks_objs]` */
  function RuleCandidates(rule: seq<Task>): seq<Candidate> {
    seq(|rule|, i requires 0 <= i < |rule| => RuleCandidate(rule[i]))
  }

  function LlmCandidates(llm: seq<Value>): seq<Candidate> {
    seq(|llm|, i requires 0 <= i < |llm| => LlmCandidate(llm[i]))
  }

  /** The merge input: every rule-based dict, then every model dict. */
  function MergeInput(tables: seq<Table>, ask: string -> Outcome): seq<Candidate> {
    RuleCandidates(Flatten(RuleLists(tables))) + LlmCandidates(Flatten(LlmLists(tables, ask)))
  }

  /** What `extract_project_schedule_hybrid` returns; None where the final validation raises. */
  function ScheduleHybrid(r: PdfReadings, ocrIfNeeded: bool, ask: string -> Outcome): Option<seq<Task>> {
    MergeResult(MergeInput(RawTables(r, ocrIfNeeded), ask))
  }

  method ExtractProjectScheduleHybrid(r: PdfReadings, ocrIfNeeded: bool, ask: string -> Outcome) returns (schedule: Option<seq<Task>>)
    ensures schedule == ScheduleHybrid(r, ocrIfNeeded, ask)
  {
    var rawTables, _ := CollectRawTables(r, ocrIfNeeded);
    var ruleTasks := CollectRuleTasks(rawTables);
    var llmTasks := CollectLlmTasks(rawTables, ask);
    var ruleDicts := RuleCandidates(ruleTasks);
    schedule := MergeTasks(ruleDicts + LlmCandidates(llmTasks));
  }

  /** The rule-based loop: a table whose parse raises is skipped. */
  method CollectRuleTasks(tables: seq<Table>) returns (tasks: seq<Task>)
    ensures tasks == Flatten(RuleLists(tables))
  {
    tasks := [];
    var idx := 0;
    while idx < |tables|
      invariant 0 <= idx <= |tables|
      invariant tasks == Flatten(RuleLists(tables[..idx]))
    {
      var parsed := ParseRawTableRows(tables[idx]);
      MapSnoc(TableRuleTasks, tables, idx);
      FlattenSnoc(RuleLists(tables[..idx]), parsed.GetOr([]));
      if parsed.Some? {
        tasks := tasks + parsed.value;
      }
      idx := idx + 1;
    }
    assert tables[..idx] == tables;
  }

  /** The model loop, one `parse_table_hybrid` per table with page hint `idx + 1`. */
  method CollectLlmTasks(tables: seq<Table>, ask: string -> Outcome) returns (dicts: seq<Value>)
    ensures dicts == Flatten(LlmLists(tables, ask))
  {
    dicts := [];
    var idx := 0;
    while idx < |tables|
      invariant 0 <= idx <= |tables|
      invariant dicts == Flatten(LlmLists(tables[..idx], ask))
    {
      var tasks, _ := ParseTableHybrid(tables[idx], idx + 1, ask);
      LlmListsSnoc(tables, idx, ask);
      FlattenSnoc(LlmLists(tables[..idx], ask), tasks);
      dicts := dicts + tasks;
      idx := idx + 1;
    }
    assert tables[..idx] == tables;
  }

  lemma {:induction false} LlmListsSnoc(tables: seq<Table>, i: nat, ask: string -> Outcome)
    requires i < |tables|
    ensures LlmLists(tables[..i + 1], ask) == LlmLists(tables[..i], ask) + [HybridTasks(tables[i], i + 1, ask)]
  {
    assert tables[..i + 1][..i] == tables[..i];
  }

  lemma FlattenEmptyBetween<T>(a: seq<seq<T>>, c: seq<seq<T>>)
    ensures Flatten(a + [[]] + c) == Flatten(a) + Flatten(c)
  {
    var ls := a + [[]] + c;
    assert ls[..|a|] == a && ls[|a| + 1..] == c;
    FlattenSkip(ls, |a|);
  }

  /** A table whose rule-based parse raises adds no rule-based task; the other tables add theirs. */
  lemma FailedTableSkipped(tables: seq<Table>, i: nat)
    requires i < |tables| && RawTableTasks(tables[i]).None?
    ensures Flatten(RuleLists(tables)) == Flatten(RuleLists(tables[..i])) + Flatten(RuleLists(tables[i + 1..]))
  {
    MapAround(TableRuleTasks, tables, i);
    FlattenEmptyBetween(RuleLists(tables[..i]), RuleLists(tables[i + 1..]));
  }

  /** A rule-based task as a merge candidate: merged under its id unless that is 0, named by its name. */
  lemma RuleCandidateFields(t: Task)
    ensures CandidateKey(RuleCandidate(t)) == if t.taskId == 0 then None else Some(t.taskId)
    ensures AsRecord(RuleCandidate(t)).Some? && NameText(AsRecord(RuleCandidate(t)).value) == t.taskName
  {
    SchemaCandidateKey(t);
    DumpedRecord(t);
  }

  /**
    Rule-based dicts come first: the first rule-based task with a given id
    keeps its name unless a later candidate with that id (rule-based or from
    the model) has a strictly longer one, so on equal lengths the rule-based
    name wins.
   */
  lemma RuleNameWinsTies(tables: seq<Table>, ask: string -> Outcome, i: nat)
    requires i < |Flatten(RuleLists(tables))|
    requires FirstOfId(Flatten(RuleLists(tables)), i)
    requires NoLongerLlmName(Flatten(LlmLists(tables, ask)), Flatten(RuleLists(tables))[i])
    ensures var t := Flatten(RuleLists(tables))[i];
      var m := MergeAll(MergeInput(tables, ask));
      t.taskId in m.entries && NameText(m.entries[t.taskId]) == t.taskName
  {
    RuleWinsTies(Flatten(RuleLists(tables)), Flatten(LlmLists(tables, ask)), i);
  }

  /** `rule[i]` is the first task with its id, which is not 0, and no later one with that id has a longer name. */
  predicate FirstOfId(rule: seq<Task>, i: nat)
    requires i < |rule|
  {
    && rule[i].taskId != 0
    && (forall j :: 0 <= j < i ==> rule[j].taskId != rule[i].taskId)
    && (forall j :: i < j < |rule| && rule[j].taskId == rule[i].taskId ==> |rule[j].taskName| <= |rule[i].taskName|)
  }

  /** No model dict merged under `t`'s id has a longer name than `t`. */
  predicate NoLongerLlmName(llm: seq<Value>, t: Task) {
    forall j :: 0 <= j < |llm| && CandidateKey(LlmCandidate(llm[j])) == Some(t.taskId) ==>
      |NameText(AsRecord(LlmCandidate(llm[j])).value)| <= |t.taskName|
  }

  lemma RuleWinsTies(rule: seq<Task>, llm: seq<Value>, i: nat)
    requires i < |rule| && FirstOfId(rule, i) && NoLongerLlmName(llm, rule[i])
    ensures var m := MergeAll(RuleCandidates(rule) + LlmCandidates(llm));
      rule[i].taskId in m.entries && NameText(m.entries[rule[i].taskId]) == rule[i].taskName
  {
    var cs := RuleCandidates(rule) + LlmCandidates(llm);
    RuleCandidateFields(rule[i]);
    assert cs[i] == RuleCandidate(rule[i]);
    EarlierKeys(rule, llm, i);
    LaterNames(rule, llm, i);
    FirstNameKept(cs, i, rule[i].taskId);
  }

  lemma EarlierKeys(rule: seq<Task>, llm: seq<Value>, i: nat)
    requires i < |rule| && FirstOfId(rule, i)
    ensures var cs := RuleCandidates(rule) + LlmCandidates(llm);
      forall j :: 0 <= j < i ==> CandidateKey(cs[j]) != Some(rule[i].taskId)
  {
    var cs := RuleCandidates(rule) + LlmCandidates(llm);
    forall j | 0 <= j < i
      ensures CandidateKey(cs[j]) != Some(rule[i].taskId)
    {
      assert cs[j] == RuleCandidate(rule[j]);
      RuleCandidateFields(rule[j]);
    }
  }

  lemma LaterNames(rule: seq<Task>, llm: seq<Value>, i: nat)
    requires i < |rule| && FirstOfId(rule, i) && NoLongerLlmName(llm, rule[i])
    ensures var cs := RuleCandidates(rule) + LlmCandidates(llm);
      forall j :: i < j < |cs| && CandidateKey(cs[j]) == Some(rule[i].taskId) ==>
        |NameText(AsRecord(cs[j]).value)| <= |rule[i].taskName|
  {
    var cs := RuleCandidates(rule) + LlmCandidates(llm);
    forall j | i < j < |cs| && CandidateKey(cs[j]) == Some(rule[i].taskId)
      ensures |NameText(AsRecord(cs[j]).value)| <= |rule[i].taskName|
    {
      if j < |rule| {
        assert cs[j] == RuleCandidate(rule[j]);
        RuleCandidateFields(rule[j]);
      } else {
        assert cs[j] == LlmCandidate(llm[j - |rule|]);
      }
    }
  }

  // ---------------------------------------------------------------------------
  // extract_ura_rules_with_llm
  // ---------------------------------------------------------------------------

  const UraChunkSize: nat := 1500

  /** The fixed text before the chunk in the rule prompt, indentation included. */
  const UraPromptHead: string :=
    "\n                Extract 'Regulatory Rules' from this text.\n"
    + "                Return a JSON object: { \"rules\": [ { \"rule_id\": \"...\", \"rule_summary\": \"...\", \"measurement_basis\": \"...\" } ] }\n"
    + "                \n"
    + "                Text:\n"
    + "                "

  /** The fixed text after the chunk. */
  const UraPromptTail: string := " \n                "

  function UraPrompt(chunk: string): string {
    UraPromptHead + chunk + UraPromptTail
  }

  /** Each page's text (an empty page gives "") followed by a line break. */
  function PageLines(pages: seq<Option<string>>): seq<string> {
    seq(|pages|, i requires 0 <= i < |pages| => pages[i].GetOr("") + "\n")
  }

  function DocumentText(pages: seq<Option<string>>): string {
    Flatten(PageLines(pages))
  }

  /**
    One item of the "rules" list: a dict gives a rule, its fields passed
    through `str`, a missing rule id read as "Unknown", a missing summary as
    "" and a missing basis as "N/A"; anything else has no `.get` and is
    skipped.
   */
  function RuleOf(item: Value): Option<Rule> {
    if !item.VDict? then None
    else
      Some(Rule(Str(GetOr(item.fields, "rule_id", VStr("Unknown"))),
                Str(GetOr(item.fields, "rule_summary", VStr(""))),
                Str(GetOr(item.fields, "measurement_basis", VStr("N/A")))))
  }

  /**
    The rules one chunk adds.  A raising call adds none, and so does an
    answer that is not a dict (`.get` raises); otherwise the items of
    `data.get("rules", [])` as iterated, a non-iterable raising before any
    item.
   */
  function ChunkRules(data: Outcome): seq<Rule> {
    if data.Raised? || !data.v.VDict? then []
    else FilterMap(RuleOf, Iterated(GetOr(data.v.fields, "rules", VList([]))))
  }

  /** The rules of every chunk, in chunk order. */
  function ChunkRuleLists(chunks: seq<string>, ask: string -> Outcome): seq<seq<Rule>> {
    Map(RulesOfChunk(ask), chunks)
  }

  /** Prompt the model with a chunk and keep the rules of its answer. */
  function RulesOfChunk(ask: string -> Outcome): string -> seq<Rule> {
    chunk => ChunkRules(ask(UraPrompt(chunk)))
  }

  /** `extract_ura_rules_with_llm`: None pages means the text extraction raised. */
  function UraRules(pages: Option<seq<Option<string>>>, ask: string -> Outcome): seq<Rule> {
    if pages.None? then []
    else Flatten(ChunkRuleLists(Slices(DocumentText(pages.value), UraChunkSize), ask))
  }

  method ExtractUraRulesWithLlm(pages: Option<seq<Option<string>>>, ask: string -> Outcome) returns (validRules: seq<Rule>)
    ensures validRules == UraRules(pages, ask)
  {
    if pages.None? {
      return [];
    }
    var textContent := ReadDocumentText(pages.value);
    var chunks := Slices(textContent, UraChunkSize);
    validRules := [];
    var i := 0;
    while i < |chunks|
      invariant 0 <= i <= |chunks|
      invariant validRules == Flatten(ChunkRuleLists(chunks[..i], ask))
    {
      var data := ask(UraPrompt(chunks[i]));
      var found := CollectChunkRules(data);
      MapSnoc(RulesOfChunk(ask), chunks, i);
      FlattenSnoc(ChunkRuleLists(chunks[..i], ask), found);
      validRules := validRules + found;
      i := i + 1;
    }
    assert chunks[..i] == chunks;
  }

  /** `text_content += (page.extract_text() or "") + "\n"` over the pages. */
  method ReadDocumentText(pages: seq<Option<string>>) returns (text: string)
    ensures text == DocumentText(pages)
  {
    text := "";
    var i := 0;
    while i < |pages|
      invariant 0 <= i <= |pages|
      invariant text == Flatten(PageLines(pages)[..i])
    {
      var line := pages[i].GetOr("") + "\n";
      assert PageLines(pages)[..i + 1] == PageLines(pages)[..i] + [line];
      FlattenSnoc(PageLines(pages)[..i], line);
      text := text + line;
      i := i + 1;
    }
    assert PageLines(pages)[..i] == PageLines(pages);
  }

  /** The item loop of one chunk. */
  method CollectChunkRules(data: Outcome) returns (found: seq<Rule>)
    ensures found == ChunkRules(data)
  {
    if data.Raised? || !data.v.VDict? {
      return [];
    }
    var items := Iterated(GetOr(data.v.fields, "rules", VList([])));
    found := [];
    var k := 0;
    while k < |items|
      invariant 0 <= k <= |items|
      invariant found == FilterMapRange(RuleOf, items, 0, k)
    {
      var item := items[k];
      if item.VDict? {
        var rule := Rule(Str(GetOr(item.fields, "rule_id", VStr("Unknown"))),
                         Str(GetOr(item.fields, "rule_summary", VStr(""))),
                         Str(GetOr(item.fields, "measurement_basis", VStr("N/A"))));
        found := found + [rule];
      }
      k := k + 1;
    }
    FilterMapRangeSlice(RuleOf, items, 0, k);
    assert items[0..k] == items;
  }

  /**
    The chunks are consecutive pieces of at most 1500 characters, all but
    the last exactly 1500, that together are the whole text; the text holds
    each page's text followed by a line break, in page order.
   */
  lemma UraChunksCover(pages: seq<Option<string>>)
    ensures var text := DocumentText(pages);
      var chunks := Slices(text, UraChunkSize);
      && Flatten(chunks) == text
      && |chunks| == (|text| + 1499) / 1500
      && (forall k :: 0 <= k < |chunks| ==> 0 < |chunks[k]| <= 1500)
      && (forall k :: 0 <= k < |chunks| - 1 ==> |chunks[k]| == 1500)
    ensures forall i :: 0 <= i < |pages| ==>
      DocumentText(pages) == DocumentText(pages[..i]) + (pages[i].GetOr("") + "\n") + DocumentText(pages[i + 1..])
  {
    SlicesCover(DocumentText(pages), UraChunkSize);
    forall i | 0 <= i < |pages|
      ensures DocumentText(pages) == DocumentText(pages[..i]) + (pages[i].GetOr("") + "\n") + DocumentText(pages[i + 1..])
    {
      var ls := PageLines(pages);
      assert ls[..i] == PageLines(pages[..i]) && ls[i + 1..] == PageLines(pages[i + 1..]);
      assert ls == (ls[..i] + [ls[i]]) + ls[i + 1..];
      FlattenAppend(ls[..i] + [ls[i]], ls[i + 1..]);
      FlattenSnoc(ls[..i], ls[i]);
    }
  }

  /**
    A rule's fields default when missing ("Unknown", "", "N/A"), a string
    field is taken as is, and an item that is not a dict gives no rule.
   */
  lemma RuleOfFields(item: Value)
    ensures !item.VDict? ==> RuleOf(item).None?
    ensures item.VDict? ==>
      var f := item.fields;
      var r := RuleOf(item).value;
      && (Get(f, "rule_id").None? ==> r.ruleId == "Unknown")
      && (Get(f, "rule_summary").None? ==> r.ruleSummary == "")
      && (Get(f, "measurement_basis").None? ==> r.measurementBasis == "N/A")
      && (Get(f, "rule_id").Some? && Get(f, "rule_id").value.VStr? ==> r.ruleId == Get(f, "rule_id").value.s)
      && (Get(f, "rule_summary").Some? && Get(f, "rule_summary").value.VStr? ==> r.ruleSummary == Get(f, "rule_summary").value.s)
      && (Get(f, "measurement_basis").Some? && Get(f, "measurement_basis").value.VStr? ==>
            r.measurementBasis == Get(f, "measurement_basis").value.s)
  {
  }

  /** A chunk whose call raises adds no rule; the chunks before and after it still add theirs. */
  lemma FailedChunkAddsNoRules(chunks: seq<string>, ask: string -> Outcome, i: nat)
    requires i < |chunks| && ask(UraPrompt(chunks[i])).Raised?
    ensures Flatten(ChunkRuleLists(chunks, ask)) == Flatten(ChunkRuleLists(chunks[..i], ask)) + Flatten(ChunkRuleLists(chunks[i + 1..], ask))
  {
    MapAround(RulesOfChunk(ask), chunks, i);
    FlattenEmptyBetween(ChunkRuleLists(chunks[..i], ask), ChunkRuleLists(chunks[i + 1..], ask));
  }
}
