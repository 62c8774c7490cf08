/**
  The table parser driven by the language model (core/utils/table_parser.py):
  the normalised table is cut into slices of at most 25 rows, each slice is
  rendered into a prompt and sent through `parse_table_chunk`, and the
  "tasks" lists of the slices that succeed are collected.  The model call is
  the parameter `ask` (what `ask_json` answers for a prompt).
 */
module TableParser {
  import opened Wrappers
  import opened Chars
  import opened Seqs
  import opened Values
  import opened TableRows
  import opened LlmClient

  const MaxRowsPerChunk: nat := 25

  // ---------------------------------------------------------------------------
  // _build_chunk_prompt
  // ---------------------------------------------------------------------------

  /** The fixed text before the table data, indentation included. */
  const PromptHead: string :=
    "\n        You are a Data Engineer. Extract construction tasks from this table fragment.\n"
    + "        \n"
    + "        Context:\n"
    + "        - Columns: ID | Task Name | Duration | Start | Finish\n"
    + "\n"
    + "        Instructions:\n"
    + "        1. Return ONLY valid JSON with a key 'tasks'.\n"
    + "        2. Schema: { \"task_id\": int, \"task_name\": str, \"duration_days\": int, \"start_date\": \"YYYY-MM-DD\", \"finish_date\": \"YYYY-MM-DD\" }\n"
    + "        3. CRITICAL: Do NOT merge multiple rows into one task. Keep task_name short and precise.\n"
    + "        4. If a row has multiple unrelated concepts, split them or pick the main one.\n"
    + "        5. Skip rows where ID is empty or not a number.\n"
    + "\n"
    + "        Table Data:\n"
    + "        "

  /** The fixed text after the table data. */
  const PromptTail: string := "\n        "

  /** One line per row, its cells joined by " | ". */
  function RowLines(rows: seq<seq<string>>): seq<string> {
    seq(|rows|, i requires 0 <= i < |rows| => Join(rows[i], " | "))
  }

  /** `_build_chunk_prompt`; the page hint is accepted and not used. */
  function BuildChunkPrompt(rows: seq<seq<string>>, pageHint: int): string {
    PromptHead + Join(RowLines(rows), "\n") + PromptTail
  }

  /**
    The prompt is the fixed text around the table data, whatever the page
    hint; when no cell holds a line break, the data splits back into one line
    per row, in order.
   */
  lemma ChunkPromptRows(rows: seq<seq<string>>, pageHint: int, otherHint: int)
    requires rows != []
    requires forall i, j :: 0 <= i < |rows| && 0 <= j < |rows[i]| ==> '\n' !in rows[i][j]
    ensures BuildChunkPrompt(rows, pageHint) == BuildChunkPrompt(rows, otherHint)
    ensures var p := BuildChunkPrompt(rows, pageHint);
      var data := p[|PromptHead|..|p| - |PromptTail|];
      && p[..|PromptHead|] == PromptHead
      && p[|p| - |PromptTail|..] == PromptTail
      && Split(data, '\n') == RowLines(rows)
  {
    var lines := RowLines(rows);
    forall i | 0 <= i < |lines| ensures '\n' !in lines[i] {
      JoinFree(rows[i], " | ", '\n');
    }
    SplitJoin(lines, '\n');
    var data := Join(lines, "\n");
    var p := BuildChunkPrompt(rows, pageHint);
    assert p == PromptHead + data + PromptTail;
    assert p[|PromptHead|..|p| - |PromptTail|] == data;
  }

  /** Joining pieces free of `c` with a separator free of `c` gives a text free of `c`. */
  lemma {:induction false} JoinFree(parts: seq<string>, sep: string, c: char)
    requires c !in sep
    requires forall j :: 0 <= j < |parts| ==> c !in parts[j]
    ensures c !in Join(parts, sep)
  {
    if |parts| > 1 {
      JoinFree(parts[1..], sep, c);
    }
  }

  // ---------------------------------------------------------------------------
  // parse_table_hybrid
  // ---------------------------------------------------------------------------

  /**
    What one finished chunk adds to `all_tasks`: nothing when the call
    raised; else `result.get("tasks", [])` when it is truthy, extended into
    the list (a list gives its items, a dict its keys, a string its
    characters).  A result without `.get` (a string) or a truthy "tasks"
    that cannot be iterated raises inside the `try` and adds nothing.
   */
  function ChunkTasks(o: Outcome): seq<Value> {
    if o.Raised? || !o.v.VDict? then []
    else
      var tasks := GetOr(o.v.fields, "tasks", VList([]));
      if !Truthy(tasks) then [] else Iterated(tasks)
  }

  /** `list.extend(v)`: the elements iterating `v` yields; a non-iterable adds nothing (the raise is caught). */
  function Iterated(v: Value): seq<Value> {
    match v
    case VList(items) => items
    case VStr(s) => seq(|s|, i requires 0 <= i < |s| => VStr([s[i]]))
    case VDict(fields) =>
      var keys := Dedup(seq(|fields|, i requires 0 <= i < |fields| => fields[i].0));
      seq(|keys|, i requires 0 <= i < |keys| => VStr(keys[i]))
    case _ => []
  }

  /** The slices `parse_table_hybrid` sends, one per 25 rows. */
  function Chunks(normalized: seq<seq<string>>): seq<seq<seq<string>>> {
    Slices(normalized, MaxRowsPerChunk)
  }

  /** The outcome of `parse_table_chunk(prompt=...)` for every slice, in slice order. */
  function ChunkOutcomes(chunks: seq<seq<seq<string>>>, pageNum: int, ask: string -> Outcome): seq<Outcome> {
    seq(|chunks|, i requires 0 <= i < |chunks| => ParseTableChunk(Some(BuildChunkPrompt(chunks[i], pageNum)), None, ask))
  }

  /** The tasks each outcome contributes. */
  function TaskLists(outs: seq<Outcome>): seq<seq<Value>> {
    seq(|outs|, i requires 0 <= i < |outs| => ChunkTasks(outs[i]))
  }

  /** `parse_table_hybrid` with the chunks collected in submission order. */
  function HybridTasks(raw: Table, pageNum: int, ask: string -> Outcome): seq<Value> {
    var normalized := NormalizedTable(raw);
    if normalized == [] then [] else Flatten(TaskLists(ChunkOutcomes(Chunks(normalized), pageNum, ask)))
  }

  /** The prompts sent: one per slice, none for an empty table. */
  function HybridPrompts(raw: Table, pageNum: int): seq<string> {
    var chunks := Chunks(NormalizedTable(raw));
    seq(|chunks|, i requires 0 <= i < |chunks| => BuildChunkPrompt(chunks[i], pageNum))
  }

  /**
    `parse_table_hybrid`: normalise, return [] at once for an empty table,
    else send every slice and extend the result with what each one gives.
    `prompts` records the prompts sent.
   */
  method ParseTableHybrid(raw: Table, pageNum: int, ask: string -> Outcome) returns (allTasks: seq<Value>, prompts: seq<string>)
    ensures allTasks == HybridTasks(raw, pageNum, ask)
    ensures prompts == HybridPrompts(raw, pageNum)
  {
    var normalized := NormalizeTableForLlm(raw);
    if normalized == [] {
      assert Chunks(normalized) == [];
      return [], [];
    }
    var chunks := Slices(normalized, MaxRowsPerChunk);
    ghost var outs := ChunkOutcomes(chunks, pageNum, ask);
    allTasks := [];
    prompts := [];
    var idx := 0;
    while idx < |chunks|
      invariant 0 <= idx <= |chunks|
      invariant prompts == seq(idx, i requires 0 <= i < idx => BuildChunkPrompt(chunks[i], pageNum))
      invariant allTasks == Flatten(TaskLists(outs[..idx]))
    {
      var prompt := BuildChunkPrompt(chunks[idx], pageNum);
      var result := ParseTableChunk(Some(prompt), None, ask);
      TaskListsSnoc(outs, idx);
      FlattenSnoc(TaskLists(outs[..idx]), ChunkTasks(outs[idx]));
      allTasks := allTasks + ChunkTasks(result);
      prompts := prompts + [prompt];
      idx := idx + 1;
    }
    assert outs[..idx] == outs;
  }

  lemma TaskListsSnoc(outs: seq<Outcome>, i: nat)
    requires i < |outs|
    ensures TaskLists(outs[..i + 1]) == TaskLists(outs[..i]) + [ChunkTasks(outs[i])]
  {
  }

  /** An empty table makes no call and gives no tasks. */
  lemma EmptyTableNoCall(raw: Table, pageNum: int, ask: string -> Outcome)
    requires NormalizedTable(raw) == []
    ensures HybridTasks(raw, pageNum, ask) == [] && HybridPrompts(raw, pageNum) == []
  {
  }

  /**
    The slices are consecutive, at most 25 rows each, all but the last full;
    together they are the normalised table, and there are ceil(n / 25) of them.
   */
  lemma ChunksCover(normalized: seq<seq<string>>)
    ensures Flatten(Chunks(normalized)) == normalized
    ensures |Chunks(normalized)| == (|normalized| + 24) / 25
    ensures forall k :: 0 <= k < |Chunks(normalized)| ==> 0 < |Chunks(normalized)[k]| <= 25
    ensures forall k :: 0 <= k < |Chunks(normalized)| - 1 ==> |Chunks(normalized)[k]| == 25
  {
    SlicesCover(normalized, MaxRowsPerChunk);
  }

  /**
    A chunk whose call raises contributes nothing, and the chunks around it
    still contribute theirs.
   */
  lemma FailedChunkIsolated(outs: seq<Outcome>, i: nat)
    requires i < |outs| && outs[i].Raised?
    ensures Flatten(TaskLists(outs)) == Flatten(TaskLists(outs[..i])) + Flatten(TaskLists(outs[i + 1..]))
  {
    var ts := TaskLists(outs);
    assert ts[..i] == TaskLists(outs[..i]) && ts[i + 1..] == TaskLists(outs[i + 1..]);
    FlattenSkip(ts, i);
  }

  /**
    Chunks finish in any order: collecting the per-chunk lists in any
    permutation of them gives the same tasks counted with multiplicity.
   */
  lemma {:induction false} AnyCompletionOrder(lists: seq<seq<Value>>, completed: seq<seq<Value>>)
    requires multiset(completed) == multiset(lists)
    ensures multiset(Flatten(completed)) == multiset(Flatten(lists))
    decreases |lists|
  {
    if lists == [] {
      assert |completed| == |multiset(completed)| == 0;
    } else {
      var x := lists[0];
      assert x in multiset(completed);
      var p :| 0 <= p < |completed| && completed[p] == x;
      var rest := RemoveAt(completed, p);
      RemoveAtCounts(completed, p);
      assert lists == [x] + lists[1..];
      assert multiset(lists) == multiset{x} + multiset(lists[1..]);
      MultisetCancel(multiset(rest), multiset(lists[1..]), multiset{x});
      AnyCompletionOrder(lists[1..], rest);
      RemoveAtFlatten(completed, p);
    }
  }

  lemma MultisetCancel<T>(a: multiset<T>, b: multiset<T>, c: multiset<T>)
    requires a + c == b + c
    ensures a == b
  {
    forall y ensures a[y] == b[y] {
      assert (a + c)[y] == (b + c)[y];
    }
  }

  /** `s` without its element at `p`. */
  function RemoveAt<T>(s: seq<T>, p: nat): seq<T>
    requires p < |s|
  {
    s[..p] + s[p + 1..]
  }

  lemma {:induction false} RemoveAtCounts<T>(s: seq<T>, p: nat)
    requires p < |s|
    ensures multiset(s) == multiset(RemoveAt(s, p)) + multiset{s[p]}
  {
    assert s == s[..p] + [s[p]] + s[p + 1..];
  }

  lemma {:induction false} RemoveAtFlatten<T>(ss: seq<seq<T>>, p: nat)
    requires p < |ss|
    ensures multiset(Flatten(ss)) == multiset(Flatten(RemoveAt(ss, p))) + multiset(ss[p])
  {
    var a, b := Flatten(ss[..p]), Flatten(ss[p + 1..]);
    FlattenAround(ss, p);
    assert multiset(a + ss[p] + b) == multiset(a) + multiset(ss[p]) + multiset(b);
    assert multiset(a + b) == multiset(a) + multiset(b);
  }

  lemma {:induction false} FlattenAround<T>(ss: seq<seq<T>>, p: nat)
    requires p < |ss|
    ensures Flatten(ss) == Flatten(ss[..p]) + ss[p] + Flatten(ss[p + 1..])
    ensures Flatten(RemoveAt(ss, p)) == Flatten(ss[..p]) + Flatten(ss[p + 1..])
  {
    var a, x, c := ss[..p], ss[p], ss[p + 1..];
    assert ss == (a + [x]) + c;
    FlattenAppend(a + [x], c);
    FlattenSnoc(a, x);
    assert RemoveAt(ss, p) == a + c;
    FlattenAppend(a, c);
  }
}
