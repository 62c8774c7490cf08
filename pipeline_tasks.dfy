/**
  The pipeline steps (pipeline/tasks.py): the dispatch of the extraction
  step on the document type, the two transforms that turn schedule tasks and
  regulatory rules into chunks for the vector store, the row projection of
  the database loader and the input dispatch of the vector-store loader.
  Fresh chunk identifiers are the parameter `ids` (the i-th identifier
  drawn); the database and the vector store themselves are not modelled, only
  what is handed to them.
 */
module PipelineTasks {
  import opened Wrappers
  import opened Chars
  import opened Seqs
  import opened Values
  import opened Dates
  import opened Schemas
  import opened Chunks

  // ---------------------------------------------------------------------------
  // extract_document_task
  // ---------------------------------------------------------------------------

  /** Which extractor `extract_document_task` calls. */
  datatype Route = UraVision | ScheduleVision | NoExtraction

  function ExtractRoute(docType: string): Route {
    if docType == "ura_circular" then UraVision
    else if docType == "project_schedule" then ScheduleVision
    else NoExtraction
  }

  /** Only the two known document types reach an extractor; any other returns []. */
  lemma ExtractRouteSpec(docType: string)
    ensures ExtractRoute(docType) == NoExtraction <==> docType != "ura_circular" && docType != "project_schedule"
    ensures ExtractRoute(docType) == UraVision <==> docType == "ura_circular"
  {
  }

  // ---------------------------------------------------------------------------
  // transform_schedule_task
  // ---------------------------------------------------------------------------

  /** None for no data; otherwise one chunk per task and the building summary chunks. */
  function ScheduleChunks(data: seq<Entry>, ids: nat -> string): Option<(seq<Chunk>, seq<Chunk>)> {
    if data == [] then None
    else Some((RowChunks(data, ids), SummaryChunks(Aggregate(data), ids, |data|)))
  }

  method TransformSchedule(data: seq<Entry>, ids: nat -> string) returns (out: Option<(seq<Chunk>, seq<Chunk>)>)
    ensures out == ScheduleChunks(data, ids)
  {
    if data == [] {
      return None;
    }
    var summaries := AggregateTasksByBuilding(data);
    var rowChunks, summaryChunks := CreateSemanticChunks(data, summaries, ids);
    out := Some((rowChunks, summaryChunks));
  }

  /**
    Non-empty data gives one chunk per task, in order, and one per building,
    with all identifiers drawn in sequence: the tasks take the first |data|,
    the summaries the next ones.
   */
  lemma {:induction false} ScheduleChunksShape(data: seq<Entry>, ids: nat -> string)
    ensures ScheduleChunks(data, ids).None? <==> data == []
    ensures data != [] ==>
      var (rows, sums) := ScheduleChunks(data, ids).value;
      && |rows| == |data| && |sums| == |Keys(data)| >= 1
      && (forall i :: 0 <= i < |rows| ==> rows[i].id == ids(i))
      && (forall j :: 0 <= j < |sums| ==> sums[j].id == ids(|data| + j))
  {
    if data != [] {
      SummaryCount(data);
      ChunkIdsInOrder(data, Aggregate(data), ids);
    }
  }

  lemma ChunkIdsInOrder(data: seq<Entry>, summaries: seq<Summary>, ids: nat -> string)
    ensures var rows := RowChunks(data, ids);
      |rows| == |data| && forall i :: 0 <= i < |rows| ==> rows[i].id == ids(i)
    ensures var sums := SummaryChunks(summaries, ids, |data|);
      |sums| == |summaries| && forall j :: 0 <= j < |sums| ==> sums[j].id == ids(|data| + j)
  {
  }

  /** Some task exists, so some building does, and there is one summary per building. */
  lemma SummaryCount(data: seq<Entry>)
    requires data != []
    ensures |Aggregate(data)| == |Keys(data)| >= 1
  {
    var b := GroupKey(data[0]);
    GroupMembers(data, b);
    assert data[0] in GroupOf(data, b);
    KeysNonEmpty(data, b);
    AggregateAt(data, 0);
  }

  // ---------------------------------------------------------------------------
  // transform_ura_task
  // ---------------------------------------------------------------------------

  function RuleText(r: Rule): string {
    "Rule " + r.ruleId + ": " + r.ruleSummary + ". Measurement Basis: " + r.measurementBasis
  }

  function RuleMetadata(r: Rule): seq<(string, Value)> {
    [("source", VStr("URA-Circular")), ("type", VStr("rule")), ("rule_id", VStr(r.ruleId))]
  }

  function RuleChunk(r: Rule, id: string): Chunk {
    Chunk(id, RuleText(r), RuleMetadata(r))
  }

  /** The chunks of `transform_ura_task`: one per rule, in order, the i-th with the i-th identifier. */
  function UraChunks(data: seq<Rule>, ids: nat -> string): seq<Chunk> {
    seq(|data|, i requires 0 <= i < |data| => RuleChunk(data[i], ids(i)))
  }

  method TransformUra(data: seq<Rule>, ids: nat -> string) returns (chunks: seq<Chunk>)
    ensures chunks == UraChunks(data, ids)
  {
    if data == [] {
      return [];
    }
    chunks := [];
    var i := 0;
    while i < |data|
      invariant 0 <= i <= |data|
      invariant chunks == UraChunks(data[..i], ids)
    {
      var rule := data[i];
      var text := "Rule " + rule.ruleId + ": " + rule.ruleSummary + ". Measurement Basis: " + rule.measurementBasis;
      chunks := chunks + [Chunk(ids(i), text, [("source", VStr("URA-Circular")), ("type", VStr("rule")), ("rule_id", VStr(rule.ruleId))])];
      i := i + 1;
    }
    assert data[..i] == data;
  }

  /**
    Each chunk reads back the rule it came from: its metadata maps "rule_id"
    to the rule's id, "source" and "type" to the constants, and its text
    starts with "Rule <id>: " and ends with the measurement basis.
   */
  lemma UraChunkAt(data: seq<Rule>, ids: nat -> string, i: nat)
    requires i < |data|
    ensures var c := UraChunks(data, ids)[i];
      var r := data[i];
      && |UraChunks(data, ids)| == |data|
      && c.id == ids(i)
      && Get(c.metadata, "rule_id") == Some(VStr(r.ruleId))
      && Get(c.metadata, "source") == Some(VStr("URA-Circular"))
      && Get(c.metadata, "type") == Some(VStr("rule"))
      && "Rule " + r.ruleId + ": " <= c.text
      && exists body :: c.text == body + r.measurementBasis
  {
    var r := data[i];
    var m := RuleMetadata(r);
    assert forall a, b :: 0 <= a < b < |m| ==> m[a].0 != m[b].0 by {
      assert m[0].0 == "source" && m[1].0 == "type" && m[2].0 == "rule_id";
    }
    GetDistinct(m, 0);
    GetDistinct(m, 1);
    GetDistinct(m, 2);
    var head := "Rule " + r.ruleId + ": ";
    assert RuleText(r) == head + (r.ruleSummary + ". Measurement Basis: " + r.measurementBasis);
    var body := "Rule " + r.ruleId + ": " + r.ruleSummary + ". Measurement Basis: ";
    assert RuleText(r) == body + r.measurementBasis;
  }

  /** Chunking the rules of two batches is chunking each batch, the second drawing identifiers after the first. */
  lemma UraChunksAppend(a: seq<Rule>, b: seq<Rule>, ids: nat -> string)
    ensures UraChunks(a + b, ids)[..|a|] == UraChunks(a, ids)
    ensures forall j :: 0 <= j < |b| ==> UraChunks(a + b, ids)[|a| + j] == RuleChunk(b[j], ids(|a| + j))
  {
  }

  // ---------------------------------------------------------------------------
  // load_to_postgres_task
  // ---------------------------------------------------------------------------

  /** The columns of a `RegulatoryRule` row. */
  datatype RuleRow = RuleRow(ruleId: string, ruleSummary: string, measurementBasis: string)

  /** The columns of a `ProjectTask` row. */
  datatype TaskRow = TaskRow(taskId: int, taskName: string, durationDays: int, startDate: Option<Date>, finishDate: Option<Date>)

  /** What the loader is handed: validated rules or validated tasks. */
  datatype Items = RuleItems(rules: seq<Rule>) | TaskItems(tasks: seq<Task>)

  /** What is handed to `bulk_create`; `LoadRaised` where an item lacks the attributes its document type needs. */
  datatype Saved = NothingSaved | SavedRules(ruleRows: seq<RuleRow>) | SavedTasks(taskRows: seq<TaskRow>) | LoadRaised

  const MaxRuleIdLength: nat := 250

  /** `s[:250]` */
  function ClipId(s: string): (r: string) {
    if |s| <= MaxRuleIdLength then s else s[..MaxRuleIdLength]
  }

  /** `str(name) if name else ""` */
  function SafeName(name: Value): string {
    if Truthy(name) then Str(name) else ""
  }

  function RuleRowOf(r: Rule): RuleRow {
    RuleRow(ClipId(r.ruleId), r.ruleSummary, r.measurementBasis)
  }

  function TaskRowOf(t: Task): TaskRow {
    TaskRow(t.taskId, SafeName(VStr(t.taskName)), t.durationDays, t.startDate, t.finishDate)
  }

  function IsEmpty(data: Items): bool {
    match data
    case RuleItems(rules) => rules == []
    case TaskItems(tasks) => tasks == []
  }

  function PostgresRows(data: Items, docType: string): Saved {
    if IsEmpty(data) then NothingSaved
    else if docType == "ura_circular" then
      if data.RuleItems? then SavedRules(Map(RuleRowOf, data.rules)) else LoadRaised
    else if docType == "project_schedule" then
      if data.TaskItems? then SavedTasks(Map(TaskRowOf, data.tasks)) else LoadRaised
    else NothingSaved
  }

  /** `load_to_postgres_task`, up to the `bulk_create` calls. */
  method LoadToPostgres(data: Items, docType: string) returns (saved: Saved)
    ensures saved == PostgresRows(data, docType)
  {
    if IsEmpty(data) {
      return NothingSaved;
    }
    if docType == "ura_circular" {
      if !data.RuleItems? {
        return LoadRaised;
      }
      saved := SavedRules(Map(RuleRowOf, data.rules));
    } else if docType == "project_schedule" {
      if !data.TaskItems? {
        return LoadRaised;
      }
      var objs := TaskRowsLoop(data.tasks);
      saved := SavedTasks(objs);
    } else {
      saved := NothingSaved;
    }
  }

  /** The loop that builds one `ProjectTask` per task. */
  method TaskRowsLoop(tasks: seq<Task>) returns (objs: seq<TaskRow>)
    ensures objs == Map(TaskRowOf, tasks)
  {
    objs := [];
    var i := 0;
    while i < |tasks|
      invariant 0 <= i <= |tasks|
      invariant objs == Map(TaskRowOf, tasks[..i])
    {
      var item := tasks[i];
      var safeName := if item.taskName != "" then item.taskName else "";
      MapSnoc(TaskRowOf, tasks, i);
      objs := objs + [TaskRow(item.taskId, safeName, item.durationDays, item.startDate, item.finishDate)];
      i := i + 1;
    }
    assert tasks[..i] == tasks;
  }

  /** The clipped id is the first at most 250 characters of the id, the whole id when it fits; clipping twice changes nothing. */
  lemma ClipIdSpec(s: string)
    ensures |ClipId(s)| <= MaxRuleIdLength
    ensures ClipId(s) == s[..|ClipId(s)|]
    ensures |s| <= MaxRuleIdLength <==> ClipId(s) == s
    ensures ClipId(ClipId(s)) == ClipId(s)
  {
  }

  /** A falsy name is stored as "", a string as itself, None never as "None". */
  lemma SafeNameSpec(name: Value)
    ensures !Truthy(name) ==> SafeName(name) == ""
    ensures name.VStr? ==> SafeName(name) == name.s
    ensures SafeName(VNone) == ""
  {
  }

  /** A row per item, in order; a task row keeps every field of its task. */
  lemma PostgresRowsSpec(data: Items, docType: string)
    ensures IsEmpty(data) ==> PostgresRows(data, docType) == NothingSaved
    ensures PostgresRows(data, docType).SavedRules? ==>
      docType == "ura_circular" && data.RuleItems? && |PostgresRows(data, docType).ruleRows| == |data.rules|
      && forall i :: 0 <= i < |data.rules| ==>
           PostgresRows(data, docType).ruleRows[i].ruleId == ClipId(data.rules[i].ruleId)
           && PostgresRows(data, docType).ruleRows[i].ruleSummary == data.rules[i].ruleSummary
    ensures PostgresRows(data, docType).SavedTasks? ==>
      docType == "project_schedule" && data.TaskItems? && |PostgresRows(data, docType).taskRows| == |data.tasks|
      && forall i :: 0 <= i < |data.tasks| ==>
           var t := data.tasks[i];
           PostgresRows(data, docType).taskRows[i] == TaskRow(t.taskId, t.taskName, t.durationDays, t.startDate, t.finishDate)
  {
    var out := PostgresRows(data, docType);
    if out.SavedRules? {
      assert out.ruleRows == Map(RuleRowOf, data.rules);
      forall i | 0 <= i < |data.rules|
        ensures out.ruleRows[i].ruleId == ClipId(data.rules[i].ruleId)
        ensures out.ruleRows[i].ruleSummary == data.rules[i].ruleSummary
      {
        assert out.ruleRows[i] == RuleRowOf(data.rules[i]);
      }
    }
    if out.SavedTasks? {
      assert out.taskRows == Map(TaskRowOf, data.tasks);
      forall i | 0 <= i < |data.tasks|
        ensures out.taskRows[i] == TaskRow(data.tasks[i].taskId, data.tasks[i].taskName, data.tasks[i].durationDays, data.tasks[i].startDate, data.tasks[i].finishDate)
      {
        var t := data.tasks[i];
        assert out.taskRows[i] == TaskRowOf(t);
        assert SafeName(VStr(t.taskName)) == t.taskName;
      }
    }
  }

  // ---------------------------------------------------------------------------
  // load_to_vector_db_task
  // ---------------------------------------------------------------------------

  /**
    What the vector loader may be handed: None, the pair of a schedule
    transform, the list of a rule transform, or another object, which is
    falsy or not.
   */
  datatype VectorInput = NoneInput | PairInput(rows: seq<Chunk>, summaries: seq<Chunk>) | ListInput(chunks: seq<Chunk>) | OtherInput(truthy: bool)

  /** A 2-tuple is always truthy; a list when it has an element. */
  predicate InputTruthy(x: VectorInput) {
    match x
    case NoneInput => false
    case PairInput(_, _) => true
    case ListInput(cs) => cs != []
    case OtherInput(t) => t
  }

  /** The row and summary chunks passed to `index_chunks_to_chroma`, or None when nothing is indexed. */
  function IndexArguments(x: VectorInput): Option<(seq<Chunk>, seq<Chunk>)> {
    if !InputTruthy(x) then None
    else if x.PairInput? then Some((x.rows, x.summaries))
    else if x.ListInput? then Some((x.chunks, []))
    else Some(([], []))
  }

  /** What the transforms hand on: None stays None, a pair is a tuple, a list is a list. */
  function ScheduleInput(out: Option<(seq<Chunk>, seq<Chunk>)>): VectorInput {
    if out.None? then NoneInput else PairInput(out.value.0, out.value.1)
  }

  /**
    The transforms feed the loader exactly: the schedule pair is indexed as
    row and summary chunks, the rule list as row chunks with no summaries,
    and empty input indexes nothing.
   */
  lemma TransformThenLoad(entries: seq<Entry>, rules: seq<Rule>, ids: nat -> string)
    ensures IndexArguments(ScheduleInput(ScheduleChunks(entries, ids))) == ScheduleChunks(entries, ids)
    ensures IndexArguments(ListInput(UraChunks(rules, ids))) == if rules == [] then None else Some((UraChunks(rules, ids), []))
  {
    if rules != [] {
      assert UraChunks(rules, ids)[0] == RuleChunk(rules[0], ids(0));
    }
  }

  /** Nothing is indexed exactly for falsy input; a list never brings summaries. */
  lemma IndexArgumentsSpec(x: VectorInput)
    ensures IndexArguments(x).None? <==> !InputTruthy(x)
    ensures x.ListInput? && x.chunks != [] ==> IndexArguments(x) == Some((x.chunks, []))
    ensures x.PairInput? ==> IndexArguments(x) == Some((x.rows, x.summaries))
  {
  }
}
