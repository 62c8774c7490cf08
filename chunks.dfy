/**
  Grouping of schedule tasks by building and the text chunks built from them
  for the vector index (core/utils/chunk_utils.py): per-building summaries,
  one chunk per task, one summary chunk per building, and the metadata
  clean-up done before indexing.
 */
module Chunks {
  import opened Wrappers
  import opened Chars
  import opened Seqs
  import opened Values
  import opened Dates
  import opened Schemas
  import opened TextFields

  /**
    A task as the chunker sees it: the schema fields plus the `building`
    attribute, which `getattr` finds only on objects that carry one.
   */
  datatype Entry = Entry(task: Task, building: Option<string>)

  /** `getattr(t, "building", None) or default`: an absent or empty building gives the default. */
  function BuildingOr(e: Entry, default: string): string {
    if e.building.Some? && e.building.value != "" then e.building.value else default
  }

  /** The group a task falls in. */
  function GroupKey(e: Entry): string {
    BuildingOr(e, "UNSPECIFIED")
  }

  /** `r.duration_days or 0`: the field is an int, so a zero duration stays zero. */
  function Dur(e: Entry): int {
    e.task.durationDays
  }

  // ---------------------------------------------------------------------------
  // Grouping
  // ---------------------------------------------------------------------------

  /** The group key of every task, in task order. */
  function Buildings(es: seq<Entry>): seq<string> {
    seq(|es|, i requires 0 <= i < |es| => GroupKey(es[i]))
  }

  /** The keys of `groups` in insertion order: each building at its first appearance. */
  function Keys(es: seq<Entry>): seq<string> {
    Dedup(Buildings(es))
  }

  /** `groups[b]`: the tasks of building `b`, in task order. */
  function GroupOf(es: seq<Entry>, b: string): seq<Entry> {
    if es == [] then []
    else
      var g := GroupOf(es[..|es| - 1], b);
      if GroupKey(es[|es| - 1]) == b then g + [es[|es| - 1]] else g
  }

  lemma BuildingsSnoc(es: seq<Entry>, x: Entry)
    ensures Buildings(es + [x]) == Buildings(es) + [GroupKey(x)]
  {
  }

  lemma GroupOfSnoc(es: seq<Entry>, x: Entry, b: string)
    ensures GroupOf(es + [x], b) == if GroupKey(x) == b then GroupOf(es, b) + [x] else GroupOf(es, b)
  {
    assert (es + [x])[..|es|] == es;
  }

  /** A group holds exactly the tasks whose key is its building. */
  lemma {:induction false} GroupMembers(es: seq<Entry>, b: string)
    ensures forall e :: e in GroupOf(es, b) <==> e in es && GroupKey(e) == b
  {
    if es != [] {
      var p := es[..|es| - 1];
      GroupMembers(p, b);
      assert es == p + [es[|es| - 1]];
    }
  }

  /** Every key names a non-empty group, and a building that is not a key has no tasks. */
  lemma KeysNonEmpty(es: seq<Entry>, b: string)
    ensures b in Keys(es) <==> GroupOf(es, b) != []
  {
    GroupMembers(es, b);
    if b in Keys(es) {
      var i :| 0 <= i < |Buildings(es)| && Buildings(es)[i] == b;
      assert es[i] in GroupOf(es, b);
    }
    if GroupOf(es, b) != [] {
      var e := GroupOf(es, b)[0];
      assert e in GroupOf(es, b) && e in es;
      var i :| 0 <= i < |es| && es[i] == e;
      assert Buildings(es)[i] == b;
    }
  }

  // ---------------------------------------------------------------------------
  // Per-building summary
  // ---------------------------------------------------------------------------

  /** `sum(r.duration_days or 0 for r in rows)`. */
  function SumDays(rows: seq<Entry>): int {
    if rows == [] then 0 else SumDays(rows[..|rows| - 1]) + Dur(rows[|rows| - 1])
  }

  lemma SumDaysSnoc(rows: seq<Entry>, x: Entry)
    ensures SumDays(rows + [x]) == SumDays(rows) + Dur(x)
  {
    assert (rows + [x])[..|rows|] == rows;
  }

  /**
    The position `max(rows, key=duration)` picks: Python's `max` replaces its
    candidate only on a strictly larger key, so ties go to the earliest task.
   */
  function FirstLongestIndex(rows: seq<Entry>): (k: nat)
    requires rows != []
    ensures k < |rows|
  {
    if |rows| == 1 then 0
    else
      var k := FirstLongestIndex(rows[..|rows| - 1]);
      if Dur(rows[|rows| - 1]) > Dur(rows[k]) then |rows| - 1 else k
  }

  /** The chosen task has the largest duration and every earlier task a strictly smaller one. */
  lemma {:induction false} FirstLongestIsFirstMax(rows: seq<Entry>)
    requires rows != []
    ensures var k := FirstLongestIndex(rows);
      && (forall i :: 0 <= i < |rows| ==> Dur(rows[i]) <= Dur(rows[k]))
      && (forall i :: 0 <= i < k ==> Dur(rows[i]) < Dur(rows[k]))
  {
    if |rows| > 1 {
      var p := rows[..|rows| - 1];
      FirstLongestIsFirstMax(p);
      var k := FirstLongestIndex(p);
      assert forall i :: 0 <= i < |p| ==> rows[i] == p[i];
    }
  }

  datatype Longest = Longest(taskId: int, taskName: string, durationDays: int)

  /** One value of the returned dict, with its key `building` stored inside. */
  datatype Summary = Summary(building: string, tasks: seq<Entry>, numTasks: nat, totalDays: int, longest: Longest)

  function SummaryOf(b: string, rows: seq<Entry>): Summary
    requires rows != []
  {
    var t := rows[FirstLongestIndex(rows)].task;
    Summary(b, rows, |rows|, SumDays(rows), Longest(t.taskId, t.taskName, t.durationDays))
  }

  /** The summaries of the buildings `keys`, in that order. */
  function SummariesFor(keys: seq<string>, es: seq<Entry>): seq<Summary>
    requires forall k :: k in keys ==> GroupOf(es, k) != []
  {
    if keys == [] then []
    else
      var last := keys[|keys| - 1];
      SummariesFor(keys[..|keys| - 1], es) + [SummaryOf(last, GroupOf(es, last))]
  }

  /** `aggregate_tasks_by_building(tasks)`, its dict given as its values in key order. */
  function Aggregate(es: seq<Entry>): seq<Summary> {
    forall k | k in Keys(es) ensures GroupOf(es, k) != [] {
      KeysNonEmpty(es, k);
    }
    SummariesFor(Keys(es), es)
  }

  /** `aggregate_tasks_by_building`: the grouping loop, then a summary per group. */
  method AggregateTasksByBuilding(es: seq<Entry>) returns (summaries: seq<Summary>)
    ensures summaries == Aggregate(es)
  {
    var keys, groups := GroupTasks(es);
    forall k | k in keys ensures k in groups && groups[k] == GroupOf(es, k) && GroupOf(es, k) != [] {
      KeysNonEmpty(es, k);
    }
    summaries := SummarizeGroups(keys, groups, es);
  }

  /** The second loop: one summary per key, in key order. */
  method SummarizeGroups(keys: seq<string>, groups: map<string, seq<Entry>>, ghost es: seq<Entry>)
    returns (summaries: seq<Summary>)
    requires forall k :: k in keys ==> k in groups && groups[k] == GroupOf(es, k) && GroupOf(es, k) != []
    ensures summaries == SummariesFor(keys, es)
  {
    summaries := [];
    var j := 0;
    while j < |keys|
      invariant 0 <= j <= |keys|
      invariant summaries == SummariesFor(keys[..j], es)
    {
      var k := keys[j];
      var rows := groups[k];
      assert rows == GroupOf(es, k) != [];
      SummariesForSnoc(keys[..j], k, es);
      assert keys[..j + 1] == keys[..j] + [k];
      summaries := summaries + [SummaryOf(k, rows)];
      j := j + 1;
    }
    assert keys[..j] == keys;
  }

  /** The state of the grouping loop after the tasks `done`: the dict's keys in order and its lists. */
  ghost predicate Grouped(done: seq<Entry>, keys: seq<string>, groups: map<string, seq<Entry>>) {
    && keys == Keys(done)
    && (forall b :: b in groups <==> b in keys)
    && (forall b :: b in groups ==> groups[b] == GroupOf(done, b))
  }

  /** The first loop: `groups.setdefault(building, []).append(t)`, with the dict's key order kept in `keys`. */
  method GroupTasks(es: seq<Entry>) returns (keys: seq<string>, groups: map<string, seq<Entry>>)
    ensures Grouped(es, keys, groups)
  {
    keys := [];
    groups := map[];
    var i := 0;
    while i < |es|
      invariant 0 <= i <= |es|
      invariant Grouped(es[..i], keys, groups)
    {
      var b := GroupKey(es[i]);
      AddToGroups(es[..i], es[i], keys, groups);
      PrefixSnoc(es, i);
      // setdefault: a new building joins the key order with an empty list; then append
      keys := if b in groups then keys else keys + [b];
      groups := groups[b := (if b in groups then groups[b] else []) + [es[i]]];
      i := i + 1;
    }
    assert es[..i] == es;
  }

  lemma PrefixSnoc<T>(s: seq<T>, i: nat)
    requires i < |s|
    ensures s[..i + 1] == s[..i] + [s[i]]
  {
  }

  /** One grouping step: a new building is appended to the keys with a one-task group; a known one gets it appended. */
  lemma AddToGroups(p: seq<Entry>, x: Entry, keys: seq<string>, groups: map<string, seq<Entry>>)
    requires Grouped(p, keys, groups)
    ensures var b := GroupKey(x);
      Grouped(p + [x], if b in groups then keys else keys + [b],
                       groups[b := (if b in groups then groups[b] else []) + [x]])
  {
    var b := GroupKey(x);
    var g := groups[b := (if b in groups then groups[b] else []) + [x]];
    var keys' := if b in groups then keys else keys + [b];
    KeysSnoc(p, x);
    assert keys' == Keys(p + [x]);
    assert forall c :: c in g <==> c in keys';
    AddToGroupsValues(p, x, groups);
  }

  lemma AddToGroupsValues(p: seq<Entry>, x: Entry, groups: map<string, seq<Entry>>)
    requires forall c :: c in groups <==> c in Keys(p)
    requires forall c :: c in groups ==> groups[c] == GroupOf(p, c)
    ensures var b := GroupKey(x);
      var g := groups[b := (if b in groups then groups[b] else []) + [x]];
      forall c :: c in g ==> g[c] == GroupOf(p + [x], c)
  {
    var b := GroupKey(x);
    var g := groups[b := (if b in groups then groups[b] else []) + [x]];
    forall c | c in g ensures g[c] == GroupOf(p + [x], c) {
      GroupOfSnoc(p, x, c);
      if c == b && b !in groups {
        KeysNonEmpty(p, b);
      }
    }
  }

  // ---------------------------------------------------------------------------
  // The summaries partition the tasks
  // ---------------------------------------------------------------------------

  function TotalTasks(sums: seq<Summary>): int {
    if sums == [] then 0 else TotalTasks(sums[..|sums| - 1]) + sums[|sums| - 1].numTasks
  }

  function TotalDays(sums: seq<Summary>): int {
    if sums == [] then 0 else TotalDays(sums[..|sums| - 1]) + sums[|sums| - 1].totalDays
  }

  /** Number of tasks in the groups of `keys`. */
  function GroupCount(es: seq<Entry>, keys: seq<string>): int {
    if keys == [] then 0 else GroupCount(es, keys[..|keys| - 1]) + |GroupOf(es, keys[|keys| - 1])|
  }

  /** Total duration of the groups of `keys`. */
  function GroupDays(es: seq<Entry>, keys: seq<string>): int {
    if keys == [] then 0 else GroupDays(es, keys[..|keys| - 1]) + SumDays(GroupOf(es, keys[|keys| - 1]))
  }

  lemma {:induction false} SummariesTotals(keys: seq<string>, es: seq<Entry>)
    requires forall k :: k in keys ==> GroupOf(es, k) != []
    ensures TotalTasks(SummariesFor(keys, es)) == GroupCount(es, keys)
    ensures TotalDays(SummariesFor(keys, es)) == GroupDays(es, keys)
  {
    if keys != [] {
      var p := keys[..|keys| - 1];
      SummariesTotals(p, es);
      var s := SummariesFor(keys, es);
      assert s[..|s| - 1] == SummariesFor(p, es);
    }
  }

  /** One more task adds one to the count and its duration to the days of the group it joins. */
  lemma {:induction false} GroupTotalsSnoc(es: seq<Entry>, x: Entry, keys: seq<string>)
    requires Distinct(keys)
    ensures GroupCount(es + [x], keys) == GroupCount(es, keys) + (if GroupKey(x) in keys then 1 else 0)
    ensures GroupDays(es + [x], keys) == GroupDays(es, keys) + (if GroupKey(x) in keys then Dur(x) else 0)
  {
    if keys != [] {
      var p := keys[..|keys| - 1];
      var k := keys[|keys| - 1];
      assert keys == p + [k];
      GroupTotalsSnoc(es, x, p);
      GroupOfSnoc(es, x, k);
      SumDaysSnoc(GroupOf(es, k), x);
      assert GroupKey(x) in keys <==> GroupKey(x) in p || GroupKey(x) == k;
      assert k !in p;
    }
  }

  lemma {:induction false} GroupTotalsAll(es: seq<Entry>)
    ensures GroupCount(es, Keys(es)) == |es|
    ensures GroupDays(es, Keys(es)) == SumDays(es)
  {
    if es != [] {
      var p := es[..|es| - 1];
      var x := es[|es| - 1];
      assert es == p + [x];
      GroupTotalsAll(p);
      KeysSnoc(p, x);
      KeysNonEmpty(p, GroupKey(x));
      SumDaysSnoc(p, x);
      GroupTotalsStep(p, x, Keys(p), |p|, SumDays(p));
    }
  }

  /** One more task: the keys gain its building if new, and the totals grow by one task and its duration. */
  lemma GroupTotalsStep(p: seq<Entry>, x: Entry, keys: seq<string>, count: int, days: int)
    requires Distinct(keys) && GroupCount(p, keys) == count && GroupDays(p, keys) == days
    requires GroupKey(x) !in keys ==> GroupOf(p, GroupKey(x)) == []
    ensures var next := if GroupKey(x) in keys then keys else keys + [GroupKey(x)];
      GroupCount(p + [x], next) == count + 1 && GroupDays(p + [x], next) == days + Dur(x)
  {
    GroupTotalsSnoc(p, x, keys);
    if GroupKey(x) !in keys {
      GroupTotalsNewKey(p, x, keys);
    }
  }

  lemma KeysSnoc(p: seq<Entry>, x: Entry)
    ensures Distinct(Keys(p))
    ensures Keys(p + [x]) == if GroupKey(x) in Keys(p) then Keys(p) else Keys(p) + [GroupKey(x)]
  {
    BuildingsSnoc(p, x);
    DedupSnoc(Buildings(p), GroupKey(x));
  }

  /** A building first met at `x` adds a group holding just `x`. */
  lemma GroupTotalsNewKey(p: seq<Entry>, x: Entry, keys: seq<string>)
    requires GroupOf(p, GroupKey(x)) == []
    ensures GroupCount(p + [x], keys + [GroupKey(x)]) == GroupCount(p + [x], keys) + 1
    ensures GroupDays(p + [x], keys + [GroupKey(x)]) == GroupDays(p + [x], keys) + Dur(x)
  {
    var b := GroupKey(x);
    assert (keys + [b])[..|keys|] == keys;
    GroupOfSnoc(p, x, b);
    SumDaysSnoc([], x);
  }

  /**
    Every task lands in exactly one summary: their task counts add up to the
    number of tasks and the durations to their total.
   */
  lemma AggregatePartition(es: seq<Entry>)
    ensures TotalTasks(Aggregate(es)) == |es|
    ensures TotalDays(Aggregate(es)) == SumDays(es)
  {
    forall k | k in Keys(es) ensures GroupOf(es, k) != [] {
      KeysNonEmpty(es, k);
    }
    SummariesTotals(Keys(es), es);
    GroupTotalsAll(es);
  }

  /**
    The `j`-th summary is the building that appeared `j`-th, holding exactly
    its tasks, their count and total duration, and the first longest of them.
   */
  lemma {:induction false} AggregateAt(es: seq<Entry>, j: nat)
    requires j < |Keys(es)|
    ensures |Aggregate(es)| == |Keys(es)|
    ensures var s := Aggregate(es)[j];
      && s.building == Keys(es)[j]
      && (forall e :: e in s.tasks <==> e in es && GroupKey(e) == s.building)
      && s.numTasks == |s.tasks| >= 1
      && s.totalDays == SumDays(s.tasks)
      && (forall i :: 0 <= i < |s.tasks| ==> Dur(s.tasks[i]) <= s.longest.durationDays)
      && (exists i :: 0 <= i < |s.tasks| && s.tasks[i].task == Task(s.longest.taskId, s.longest.taskName, s.longest.durationDays, s.tasks[i].task.startDate, s.tasks[i].task.finishDate))
  {
    forall k | k in Keys(es) ensures GroupOf(es, k) != [] {
      KeysNonEmpty(es, k);
    }
    SummariesForAt(Keys(es), es, j);
    var b := Keys(es)[j];
    GroupMembers(es, b);
    FirstLongestIsFirstMax(GroupOf(es, b));
    var rows := GroupOf(es, b);
    var k := FirstLongestIndex(rows);
    assert rows[k].task == Task(rows[k].task.taskId, rows[k].task.taskName, rows[k].task.durationDays, rows[k].task.startDate, rows[k].task.finishDate);
  }

  lemma SummariesForSnoc(keys: seq<string>, k: string, es: seq<Entry>)
    requires forall c :: c in keys ==> GroupOf(es, c) != []
    requires GroupOf(es, k) != []
    ensures SummariesFor(keys + [k], es) == SummariesFor(keys, es) + [SummaryOf(k, GroupOf(es, k))]
  {
    assert (keys + [k])[..|keys|] == keys;
  }

  lemma {:induction false} SummariesForAt(keys: seq<string>, es: seq<Entry>, j: nat)
    requires forall k :: k in keys ==> GroupOf(es, k) != []
    requires j < |keys|
    ensures |SummariesFor(keys, es)| == |keys|
    ensures SummariesFor(keys, es)[j] == SummaryOf(keys[j], GroupOf(es, keys[j]))
  {
    var p := keys[..|keys| - 1];
    if j < |p| {
      SummariesForAt(p, es, j);
    } else if p != [] {
      SummariesForAt(p, es, 0);
    }
  }

  // ---------------------------------------------------------------------------
  // sorted(rows, key=duration, reverse=True)
  // ---------------------------------------------------------------------------

  /** Non-increasing duration. */
  predicate Descending(s: seq<Entry>) {
    forall i, j :: 0 <= i < j < |s| ==> Dur(s[i]) >= Dur(s[j])
  }

  /** Places `x` after every task at least as long, keeping a descending order descending. */
  function InsertDesc(x: Entry, s: seq<Entry>): seq<Entry> {
    if s == [] then [x]
    else if Dur(s[0]) >= Dur(x) then [s[0]] + InsertDesc(x, s[1..])
    else [x] + s
  }

  /** Python's stable sort by decreasing duration: tasks of equal duration keep their order. */
  function SortDesc(s: seq<Entry>): seq<Entry> {
    if s == [] then [] else InsertDesc(s[|s| - 1], SortDesc(s[..|s| - 1]))
  }

  /** The tasks of duration `d`, in order. */
  function WithDur(s: seq<Entry>, d: int): seq<Entry> {
    if s == [] then []
    else if Dur(s[0]) == d then [s[0]] + WithDur(s[1..], d)
    else WithDur(s[1..], d)
  }

  lemma {:induction false} WithDurAppend(a: seq<Entry>, b: seq<Entry>, d: int)
    ensures WithDur(a + b, d) == WithDur(a, d) + WithDur(b, d)
  {
    if a != [] {
      assert (a + b)[1..] == a[1..] + b;
      WithDurAppend(a[1..], b, d);
    } else {
      assert a + b == b;
    }
  }

  lemma {:induction false} WithDurNone(s: seq<Entry>, d: int)
    requires forall i :: 0 <= i < |s| ==> Dur(s[i]) < d
    ensures WithDur(s, d) == []
  {
    if s != [] {
      WithDurNone(s[1..], d);
    }
  }

  lemma {:induction false} InsertDescPerm(x: Entry, s: seq<Entry>)
    ensures multiset(InsertDesc(x, s)) == multiset(s) + multiset{x}
  {
    if s != [] && Dur(s[0]) >= Dur(x) {
      InsertDescPerm(x, s[1..]);
      assert s == [s[0]] + s[1..];
    }
  }

  lemma {:induction false} InsertDescBound(x: Entry, s: seq<Entry>, m: int)
    requires Dur(x) <= m && forall i :: 0 <= i < |s| ==> Dur(s[i]) <= m
    ensures forall i :: 0 <= i < |InsertDesc(x, s)| ==> Dur(InsertDesc(x, s)[i]) <= m
  {
    if s != [] && Dur(s[0]) >= Dur(x) {
      InsertDescBound(x, s[1..], m);
    }
  }

  lemma {:induction false} InsertDescSorted(x: Entry, s: seq<Entry>)
    requires Descending(s)
    ensures Descending(InsertDesc(x, s))
  {
    if s != [] && Dur(s[0]) >= Dur(x) {
      var r := InsertDesc(x, s[1..]);
      InsertDescSorted(x, s[1..]);
      InsertDescBound(x, s[1..], Dur(s[0]));
      var t := [s[0]] + r;
      assert t == InsertDesc(x, s);
      forall i, j | 0 <= i < j < |t| ensures Dur(t[i]) >= Dur(t[j]) {
        assert t[j] == r[j - 1];
        if i > 0 { assert t[i] == r[i - 1]; }
      }
    }
  }

  lemma {:induction false} InsertDescStable(x: Entry, s: seq<Entry>, d: int)
    requires Descending(s)
    ensures WithDur(InsertDesc(x, s), d) == WithDur(s, d) + (if Dur(x) == d then [x] else [])
  {
    if s == [] {
      assert WithDur([x], d) == if Dur(x) == d then [x] else [];
    } else if Dur(s[0]) >= Dur(x) {
      var r := InsertDesc(x, s[1..]);
      InsertDescStable(x, s[1..], d);
      assert ([s[0]] + r)[1..] == r;
    } else {
      assert ([x] + s)[1..] == s;
      if Dur(x) == d {
        WithDurNone(s, d);
      }
    }
  }

  /** The sort is a permutation, descending, and stable among equal durations. */
  lemma {:induction false} SortDescFacts(s: seq<Entry>, d: int)
    ensures multiset(SortDesc(s)) == multiset(s)
    ensures Descending(SortDesc(s))
    ensures WithDur(SortDesc(s), d) == WithDur(s, d)
  {
    if s != [] {
      var p := s[..|s| - 1];
      var x := s[|s| - 1];
      assert s == p + [x];
      SortDescFacts(p, d);
      InsertDescPerm(x, SortDesc(p));
      InsertDescSorted(x, SortDesc(p));
      InsertDescStable(x, SortDesc(p), d);
      WithDurAppend(p, [x], d);
      assert WithDur([x], d) == if Dur(x) == d then [x] else [];
    }
  }

  // ---------------------------------------------------------------------------
  // Chunk texts
  // ---------------------------------------------------------------------------

  /** The sentences of a task's chunk text; start and finish only when the dates are set. */
  function RowSentences(t: Task): seq<string> {
    ["Task " + IntToString(t.taskId) + ": " + t.taskName, "Duration: " + IntToString(t.durationDays) + " days"]
    + (if t.startDate.Some? then ["Start: " + IsoFormat(t.startDate.value)] else [])
    + (if t.finishDate.Some? then ["Finish: " + IsoFormat(t.finishDate.value)] else [])
  }

  /** Each sentence followed by ". ", as the text is built up. */
  function Terminated(ss: seq<string>): string {
    if ss == [] then "" else ss[0] + ". " + Terminated(ss[1..])
  }

  /** The stripped text of a task chunk. */
  function RowText(t: Task): string {
    Strip(Terminated(RowSentences(t)))
  }

  lemma {:induction false} TerminatedJoin(ss: seq<string>)
    requires ss != []
    ensures Terminated(ss) == Join(ss, ". ") + ". "
  {
    if |ss| == 1 {
      assert Terminated(ss[1..]) == "";
    } else {
      TerminatedJoin(ss[1..]);
    }
  }

  lemma JoinFirst(ss: seq<string>, sep: string)
    requires ss != [] && ss[0] != []
    ensures Join(ss, sep) != [] && Join(ss, sep)[0] == ss[0][0]
  {
  }

  /** The chunk text is the sentences joined by ". " with a closing full stop: strip only removes the last space. */
  lemma RowTextSentences(t: Task)
    ensures RowText(t) == Join(RowSentences(t), ". ") + "."
  {
    var ss := RowSentences(t);
    var j := Join(ss, ". ") + ".";
    TerminatedJoin(ss);
    JoinFirst(ss, ". ");
    assert Terminated(ss) == "" + j + " ";
    StripPadded("", j, " ");
  }

  /** The building to the summary line: the header lines. */
  function SummaryHeader(s: Summary): seq<string> {
    [ s.building + " \U{2014} Summary:",
      "Total tasks: " + IntToString(s.numTasks),
      "Total duration: " + IntToString(s.totalDays) + " days",
      "Longest task: " + s.longest.taskName + " (" + IntToString(s.longest.durationDays) + " days)" ]
  }

  function TaskLine(e: Entry): string {
    "- " + e.task.taskName + " (" + IntToString(Dur(e)) + " days)"
  }

  function TaskLines(rows: seq<Entry>): seq<string> {
    seq(|rows|, i requires 0 <= i < |rows| => TaskLine(rows[i]))
  }

  function SummaryLines(s: Summary): seq<string> {
    SummaryHeader(s) + TaskLines(SortDesc(s.tasks))
  }

  function SummaryText(s: Summary): string {
    Join(SummaryLines(s), "\n")
  }

  lemma NoNewlineInInt(i: int)
    ensures '\n' !in IntToString(i)
  {
    var ds := NatToString(if i < 0 then -i else i);
    assert forall k :: 0 <= k < |ds| ==> IsDigit(ds[k]);
  }

  /** A line of the summary text: building and task names free of line breaks. */
  predicate SingleLineNames(s: Summary) {
    && '\n' !in s.building
    && '\n' !in s.longest.taskName
    && (forall e :: e in s.tasks ==> '\n' !in e.task.taskName)
  }

  /**
    Splitting the summary text at line breaks gives back its lines: the four
    header lines, then one line per task in order of decreasing duration.
   */
  lemma SummaryTextLines(s: Summary)
    requires SingleLineNames(s)
    ensures Split(SummaryText(s), '\n') == SummaryLines(s)
  {
    var head := SummaryHeader(s);
    var body := TaskLines(SortDesc(s.tasks));
    HeaderSingleLine(s);
    SortedSingleLine(s.tasks);
    var lines := head + body;
    forall i | 0 <= i < |lines| ensures '\n' !in lines[i] {
      if i < |head| {
        assert lines[i] == head[i];
      } else {
        assert lines[i] == body[i - |head|];
      }
    }
    SplitJoin(lines, '\n');
  }

  lemma HeaderSingleLine(s: Summary)
    requires SingleLineNames(s)
    ensures forall i :: 0 <= i < |SummaryHeader(s)| ==> '\n' !in SummaryHeader(s)[i]
  {
    NoNewlineInInt(s.numTasks);
    NoNewlineInInt(s.totalDays);
    NoNewlineInInt(s.longest.durationDays);
  }

  /** The sorted tasks are the same tasks, so their lines have no line break either. */
  lemma SortedSingleLine(tasks: seq<Entry>)
    requires forall e :: e in tasks ==> '\n' !in e.task.taskName
    ensures forall i :: 0 <= i < |TaskLines(SortDesc(tasks))| ==> '\n' !in TaskLines(SortDesc(tasks))[i]
  {
    var sorted := SortDesc(tasks);
    SortDescMembers(tasks);
    forall i | 0 <= i < |sorted| ensures '\n' !in TaskLine(sorted[i]) {
      NoNewlineInInt(Dur(sorted[i]));
      assert sorted[i] in sorted;
    }
  }

  lemma {:induction false} InsertDescMembers(x: Entry, s: seq<Entry>)
    ensures forall e :: e in InsertDesc(x, s) ==> e == x || e in s
  {
    if s != [] && Dur(s[0]) >= Dur(x) {
      InsertDescMembers(x, s[1..]);
    }
  }

  lemma {:induction false} SortDescMembers(s: seq<Entry>)
    ensures forall e :: e in SortDesc(s) ==> e in s
  {
    if s != [] {
      var p := s[..|s| - 1];
      SortDescMembers(p);
      InsertDescMembers(s[|s| - 1], SortDesc(p));
    }
  }

  // ---------------------------------------------------------------------------
  // create_semantic_chunks
  // ---------------------------------------------------------------------------

  datatype Chunk = Chunk(id: string, text: string, metadata: seq<(string, Value)>)

  function RowMetadata(e: Entry): seq<(string, Value)> {
    [ ("type", VStr("task")), ("building", VStr(BuildingOr(e, "UNKNOWN"))),
      ("task_id", VInt(e.task.taskId)), ("source", VStr("Schedule")) ]
  }

  function SummaryMetadata(s: Summary): seq<(string, Value)> {
    [("type", VStr("summary")), ("building", VStr(s.building)), ("source", VStr("Schedule"))]
  }

  function RowChunk(e: Entry, id: string): Chunk {
    Chunk(id, RowText(e.task), RowMetadata(e))
  }

  function SummaryChunk(s: Summary, id: string): Chunk {
    Chunk(id, SummaryText(s), SummaryMetadata(s))
  }

  /** One chunk per task; `ids(n)` is the identifier the `n`-th `uuid4()` call returns. */
  function RowChunks(es: seq<Entry>, ids: nat -> string): seq<Chunk> {
    seq(|es|, i requires 0 <= i < |es| => RowChunk(es[i], ids(i)))
  }

  /** One chunk per summary, drawing identifiers after the `offset` already used. */
  function SummaryChunks(sums: seq<Summary>, ids: nat -> string, offset: nat): seq<Chunk> {
    seq(|sums|, j requires 0 <= j < |sums| => SummaryChunk(sums[j], ids(offset + j)))
  }

  /** The text of one task chunk, built sentence by sentence and stripped. */
  method BuildRowText(t: Task) returns (text: string)
    ensures text == RowText(t)
  {
    var head := "Task " + IntToString(t.taskId) + ": " + t.taskName;
    var dur := "Duration: " + IntToString(t.durationDays) + " days";
    text := head + ". " + dur + ". ";
    ghost var pre := text;
    ghost var tail: seq<string> := [];
    if t.startDate.Some? {
      var start := "Start: " + IsoFormat(t.startDate.value);
      text := text + (start + ". ");
      TerminatedSnoc(tail, start);
      tail := tail + [start];
    }
    assert text == pre + Terminated(tail);
    if t.finishDate.Some? {
      var finish := "Finish: " + IsoFormat(t.finishDate.value);
      TerminatedSnoc(tail, finish);
      AppendAssoc(pre, Terminated(tail), finish + ". ");
      text := text + (finish + ". ");
      tail := tail + [finish];
    }
    assert RowSentences(t) == [head, dur] + tail;
    TerminatedPrefix(head, dur, tail);
    text := Strip(text);
  }

  lemma AppendAssoc(a: string, b: string, c: string)
    ensures a + b + c == a + (b + c)
  {
  }

  lemma TerminatedSnoc(ss: seq<string>, x: string)
    requires |ss| <= 1
    ensures Terminated(ss + [x]) == Terminated(ss) + (x + ". ")
  {
    assert Terminated([x]) == x + ". " + Terminated([]);
    if |ss| == 1 {
      assert (ss + [x])[1..] == [x];
      assert ss[1..] == [];
    }
  }

  lemma TerminatedPrefix(a: string, b: string, tail: seq<string>)
    ensures Terminated([a, b] + tail) == (a + ". " + b + ". ") + Terminated(tail)
  {
    assert ([a, b] + tail)[1..] == [b] + tail;
    assert ([b] + tail)[1..] == tail;
  }

  /** The lines of one summary chunk: the header, then a line per task in the sorted order. */
  method BuildSummaryText(s: Summary) returns (text: string)
    ensures text == SummaryText(s)
  {
    var lines := SummaryHeader(s);
    var sorted := SortDesc(s.tasks);
    var k := 0;
    while k < |sorted|
      invariant 0 <= k <= |sorted|
      invariant lines == SummaryHeader(s) + TaskLines(sorted[..k])
    {
      TaskLinesSnoc(sorted, k);
      lines := lines + [TaskLine(sorted[k])];
      k := k + 1;
    }
    assert sorted[..k] == sorted;
    text := Join(lines, "\n");
  }

  /** `create_semantic_chunks`: one chunk per task, then the summary chunks. */
  method CreateSemanticChunks(es: seq<Entry>, sums: seq<Summary>, ids: nat -> string)
    returns (rowChunks: seq<Chunk>, summaryChunks: seq<Chunk>)
    ensures rowChunks == RowChunks(es, ids)
    ensures summaryChunks == SummaryChunks(sums, ids, |es|)
  {
    rowChunks := BuildRowChunks(es, ids);
    summaryChunks := BuildSummaryChunks(sums, ids, |es|);
  }

  /** The loop over the tasks: one chunk each, the `i`-th identifier for the `i`-th task. */
  method BuildRowChunks(es: seq<Entry>, ids: nat -> string) returns (rowChunks: seq<Chunk>)
    ensures rowChunks == RowChunks(es, ids)
  {
    rowChunks := [];
    var i := 0;
    while i < |es|
      invariant 0 <= i <= |es|
      invariant rowChunks == RowChunks(es[..i], ids)
    {
      var text := BuildRowText(es[i].task);
      RowChunksSnoc(es, ids, i);
      rowChunks := rowChunks + [Chunk(ids(i), text, RowMetadata(es[i]))];
      i := i + 1;
    }
    assert es[..i] == es;
  }

  /** The loop over the summaries, after `offset` identifiers were drawn. */
  method BuildSummaryChunks(sums: seq<Summary>, ids: nat -> string, offset: nat) returns (summaryChunks: seq<Chunk>)
    ensures summaryChunks == SummaryChunks(sums, ids, offset)
  {
    summaryChunks := [];
    var j := 0;
    while j < |sums|
      invariant 0 <= j <= |sums|
      invariant summaryChunks == SummaryChunks(sums[..j], ids, offset)
    {
      var text := BuildSummaryText(sums[j]);
      SummaryChunksSnoc(sums, ids, offset, j);
      summaryChunks := summaryChunks + [Chunk(ids(offset + j), text, SummaryMetadata(sums[j]))];
      j := j + 1;
    }
    assert sums[..j] == sums;
  }

  lemma RowChunksSnoc(es: seq<Entry>, ids: nat -> string, i: nat)
    requires i < |es|
    ensures RowChunks(es[..i + 1], ids) == RowChunks(es[..i], ids) + [RowChunk(es[i], ids(i))]
  {
  }

  lemma SummaryChunksSnoc(sums: seq<Summary>, ids: nat -> string, offset: nat, j: nat)
    requires j < |sums|
    ensures SummaryChunks(sums[..j + 1], ids, offset) == SummaryChunks(sums[..j], ids, offset) + [SummaryChunk(sums[j], ids(offset + j))]
  {
  }

  lemma TaskLinesSnoc(rows: seq<Entry>, k: nat)
    requires k < |rows|
    ensures TaskLines(rows[..k + 1]) == TaskLines(rows[..k]) + [TaskLine(rows[k])]
  {
  }

  /** The metadata keys are distinct, so each lookup finds its one binding. */
  lemma MetadataGet(e: Entry, s: Summary)
    ensures Get(RowMetadata(e), "task_id") == Some(VInt(e.task.taskId))
    ensures Get(RowMetadata(e), "building") == Some(VStr(BuildingOr(e, "UNKNOWN")))
    ensures Get(RowMetadata(e), "type") == Some(VStr("task"))
    ensures Get(SummaryMetadata(s), "building") == Some(VStr(s.building))
    ensures Get(SummaryMetadata(s), "type") == Some(VStr("summary"))
  {
    var r := RowMetadata(e);
    var m := SummaryMetadata(s);
    assert forall a, b :: 0 <= a < b < |r| ==> |r[a].0| != |r[b].0|;
    assert forall a, b :: 0 <= a < b < |m| ==> |m[a].0| != |m[b].0|;
    GetDistinct(r, 0);
    GetDistinct(r, 1);
    GetDistinct(r, 2);
    GetDistinct(m, 0);
    GetDistinct(m, 1);
  }

  /**
    Chunk `i` carries task `i`'s sentences and metadata, or the text of a
    summary; identifiers are drawn for the rows first, then the summaries.
   */
  lemma ChunksAt(es: seq<Entry>, sums: seq<Summary>, ids: nat -> string, i: nat)
    requires i < |es| + |sums|
    ensures var all := RowChunks(es, ids) + SummaryChunks(sums, ids, |es|);
      && |all| == |es| + |sums|
      && all[i].id == ids(i)
      && (i < |es| ==>
            && all[i].text == Join(RowSentences(es[i].task), ". ") + "."
            && Get(all[i].metadata, "task_id") == Some(VInt(es[i].task.taskId))
            && Get(all[i].metadata, "building") == Some(VStr(BuildingOr(es[i], "UNKNOWN"))))
      && (i >= |es| ==>
            && all[i].text == SummaryText(sums[i - |es|])
            && Get(all[i].metadata, "building") == Some(VStr(sums[i - |es|].building)))
  {
    var all := RowChunks(es, ids) + SummaryChunks(sums, ids, |es|);
    if i < |es| {
      RowTextSentences(es[i].task);
      assert all[i] == RowChunk(es[i], ids(i));
      MetadataGet(es[i], Summary("", [], 0, 0, Longest(0, "", 0)));
    } else {
      assert all[i] == SummaryChunk(sums[i - |es|], ids(i));
      MetadataGet(Entry(Task(0, "", 0, None, None), None), sums[i - |es|]);
    }
  }

  // ---------------------------------------------------------------------------
  // _sanitize_metadata
  // ---------------------------------------------------------------------------

  function SanitizeValue(v: Value): Value {
    if v.VNone? then VStr("UNKNOWN") else v
  }

  function Sanitized(meta: seq<(string, Value)>): seq<(string, Value)> {
    seq(|meta|, i requires 0 <= i < |meta| => (meta[i].0, SanitizeValue(meta[i].1)))
  }

  /** `_sanitize_metadata`: copy every item, replacing None by "UNKNOWN". */
  method SanitizeMetadata(meta: seq<(string, Value)>) returns (clean: seq<(string, Value)>)
    ensures clean == Sanitized(meta)
  {
    clean := [];
    var i := 0;
    while i < |meta|
      invariant 0 <= i <= |meta|
      invariant clean == Sanitized(meta[..i])
    {
      var (k, v) := meta[i];
      if v.VNone? {
        clean := clean + [(k, VStr("UNKNOWN"))];
      } else {
        clean := clean + [(k, v)];
      }
      i := i + 1;
    }
    assert meta[..i] == meta;
  }

  /** The cleaned dict has the same keys, no None value, and every other value unchanged. */
  lemma {:induction false} SanitizedGet(meta: seq<(string, Value)>, k: string)
    ensures Get(Sanitized(meta), k) == if Get(meta, k).None? then None else Some(SanitizeValue(Get(meta, k).value))
    ensures Get(Sanitized(meta), k).Some? ==> !Get(Sanitized(meta), k).value.VNone?
  {
    if meta != [] {
      SanitizedGet(meta[1..], k);
      assert Sanitized(meta)[1..] == Sanitized(meta[1..]);
    }
  }
}
