/**
  `merge_tasks`: folds a mixed list of candidate tasks into one record per
  integer id, in order of each id's first appearance.  A later candidate
  with a strictly longer name replaces the stored record wholesale;
  otherwise it only fills the stored record's empty dates and duration.
 */
module Merge {
  import opened Wrappers
  import opened Seqs
  import opened Values
  import opened Dates
  import opened Schemas
  import opened Chars

  /** What `merge_tasks` may be handed: a validated task, a dict, or any other object. */
  datatype Candidate = SchemaCand(task: Task) | DictCand(rec: Record) | OtherCand

  /** The dict a candidate stands for: `model_dump()` of a task, the dict itself, or nothing. */
  function AsRecord(c: Candidate): Option<Record> {
    match c
    case SchemaCand(t) => Some(ToMap(TaskFields(t)))
    case DictCand(rec) => Some(rec)
    case OtherCand => None
  }

  /** `rec.get(k)`: Python's None for an absent key. */
  function Field(rec: Record, k: string): Value {
    if k in rec then rec[k] else VNone
  }

  /** The id a record is merged under: its `task_id` must be truthy and accepted by `int()`. */
  function RecordKey(rec: Record): Option<int> {
    var v := Field(rec, "task_id");
    if !Truthy(v) then None else PyInt(v)
  }

  function CandidateKey(c: Candidate): Option<int> {
    var rec := AsRecord(c);
    if rec.None? then None else RecordKey(rec.value)
  }

  /** A string date becomes what the flexible date parser reads from it (None when nothing); other values stay. */
  function ParsedDate(v: Value): Value {
    if v.VStr? then DateValue(DateFlexible(Some(v.s))) else v
  }

  function ParseDateAt(rec: Record, k: string): Record {
    if k in rec && rec[k].VStr? then rec[k := ParsedDate(rec[k])] else rec
  }

  function ParseDates(rec: Record): Record {
    ParseDateAt(ParseDateAt(rec, "start_date"), "finish_date")
  }

  /** `str(rec.get("task_name", ""))`: an absent name is "", a None name is "None". */
  function NameText(rec: Record): string {
    if "task_name" in rec then Str(rec["task_name"]) else ""
  }

  /** Copies `incoming[k]` into `stored` when the stored value is falsy and the incoming one truthy. */
  function Backfill(stored: Record, incoming: Record, k: string): Record {
    if !Truthy(Field(stored, k)) && Truthy(Field(incoming, k)) then stored[k := incoming[k]] else stored
  }

  /**
    The stored record after a later candidate with the same id.  When the
    incoming name is longer the incoming record is stored; the backfill
    writes then land on that record and copy its own values, changing
    nothing.
   */
  function Combine(stored: Record, incoming: Record): Record {
    if |NameText(incoming)| > |NameText(stored)| then incoming
    else Backfill(Backfill(Backfill(stored, incoming, "start_date"), incoming, "finish_date"), incoming, "duration_days")
  }

  /** The `final` dict: its keys in insertion order, and the record under each key. */
  datatype Merged = Merged(order: seq<int>, entries: map<int, Record>)

  /** One iteration of the loop. */
  function Step(m: Merged, c: Candidate): Merged {
    var key := CandidateKey(c);
    if key.None? then m
    else
      var t := ParseDates(AsRecord(c).value);
      if key.value !in m.entries then Merged(m.order + [key.value], m.entries[key.value := t])
      else Merged(m.order, m.entries[key.value := Combine(m.entries[key.value], t)])
  }

  /** The loop over the whole candidate list. */
  function MergeAll(cs: seq<Candidate>): Merged
    decreases |cs|
  {
    if cs == [] then Merged([], map[])
    else Step(MergeAll(cs[..|cs| - 1]), cs[|cs| - 1])
  }

  /** `[TaskSchema(**v) for v in final.values()]`: None where any record fails validation (the call raises). */
  function ValidateAll(order: seq<int>, entries: map<int, Record>): Option<seq<Task>>
    requires forall i :: 0 <= i < |order| ==> order[i] in entries
  {
    if order == [] then Some([])
    else
      var v := ValidateTask(entries[order[0]]);
      var rest := ValidateAll(order[1..], entries);
      if v.None? || rest.None? then None else Some([v.value] + rest.value)
  }

  /** The order and the entries agree, every stored record carries its own id, and no stored date is a string. */
  ghost predicate Consistent(m: Merged) {
    && Distinct(m.order)
    && (forall i :: 0 <= i < |m.order| ==> m.order[i] in m.entries)
    && (forall k :: k in m.entries ==> k in m.order && RecordKey(m.entries[k]) == Some(k) && DatesParsed(m.entries[k]))
  }

  predicate DatesParsed(rec: Record) {
    !Field(rec, "start_date").VStr? && !Field(rec, "finish_date").VStr?
  }

  function MergeResult(cs: seq<Candidate>): Option<seq<Task>> {
    var m := MergeAll(cs);
    MergeAllConsistent(cs);
    ValidateAll(m.order, m.entries)
  }

  /** `merge_tasks`: the loop over the candidates, then the validation of every stored record. */
  method MergeTasks(cs: seq<Candidate>) returns (out: Option<seq<Task>>)
    ensures out == MergeResult(cs)
  {
    var order: seq<int> := [];
    var entries: map<int, Record> := map[];
    var i := 0;
    while i < |cs|
      invariant 0 <= i <= |cs|
      invariant Merged(order, entries) == MergeAll(cs[..i])
    {
      assert cs[..i + 1][..i] == cs[..i];
      order, entries := MergeOne(order, entries, cs[i]);
      i := i + 1;
    }
    assert cs[..i] == cs;
    MergeAllConsistent(cs);
    out := ValidateAll(order, entries);
  }

  /** The body of the loop: normalise, read the id, parse string dates, then store or reconcile. */
  method MergeOne(order: seq<int>, entries: map<int, Record>, c: Candidate) returns (order': seq<int>, entries': map<int, Record>)
    ensures Merged(order', entries') == Step(Merged(order, entries), c)
  {
    order', entries' := order, entries;
    var t: Record;
    match c {
      case SchemaCand(task) => t := ToMap(TaskFields(task));
      case DictCand(rec) => t := rec;
      case OtherCand => return;
    }
    var v := Field(t, "task_id");
    if !Truthy(v) {
      return;
    }
    var id := PyInt(v);
    if id.None? {
      return;
    }
    var tid := id.value;
    t := ParseStringDates(t);
    if tid !in entries {
      order' := order + [tid];
      entries' := entries[tid := t];
      return;
    }
    var r := Reconcile(entries[tid], t);
    entries' := entries[tid := r];
  }

  /** Step 3 of the loop: string dates go through the flexible date parser, in place. */
  method ParseStringDates(rec: Record) returns (t: Record)
    ensures t == ParseDates(rec)
  {
    t := rec;
    if "start_date" in t && t["start_date"].VStr? {
      var d := ParseDateFlexible(Some(t["start_date"].s));
      t := t["start_date" := DateValue(d)];
    }
    if "finish_date" in t && t["finish_date"].VStr? {
      var d := ParseDateFlexible(Some(t["finish_date"].s));
      t := t["finish_date" := DateValue(d)];
    }
  }

  /**
    Step 4 for an id already stored: `r` is `final[tid]`, first possibly
    replaced by the incoming record, then backfilled field by field from the
    checks on the previously stored record.
   */
  method Reconcile(stored: Record, t: Record) returns (r: Record)
    ensures r == Combine(stored, t)
  {
    r := stored;
    if |NameText(t)| > |NameText(stored)| {
      r := t;
    }
    if !Truthy(Field(stored, "start_date")) && Truthy(Field(t, "start_date")) {
      r := r["start_date" := t["start_date"]];
    }
    if !Truthy(Field(stored, "finish_date")) && Truthy(Field(t, "finish_date")) {
      r := r["finish_date" := t["finish_date"]];
    }
    if !Truthy(Field(stored, "duration_days")) && Truthy(Field(t, "duration_days")) {
      r := r["duration_days" := t["duration_days"]];
    }
  }

  // ---------------------------------------------------------------------------
  // Properties
  // ---------------------------------------------------------------------------

  lemma {:induction false} MergeAllConsistent(cs: seq<Candidate>)
    ensures Consistent(MergeAll(cs))
    decreases |cs|
  {
    if cs != [] {
      MergeAllConsistent(cs[..|cs| - 1]);
      StepConsistent(MergeAll(cs[..|cs| - 1]), cs[|cs| - 1]);
    }
  }

  lemma StepConsistent(m: Merged, c: Candidate)
    requires Consistent(m)
    ensures Consistent(Step(m, c))
  {
    var key := CandidateKey(c);
    if key.Some? {
      var k := key.value;
      var rec := AsRecord(c).value;
      var t := ParseDates(rec);
      ParseDatesSpec(rec);
      assert RecordKey(t) == Some(k) by {
        assert Field(t, "task_id") == Field(rec, "task_id");
      }
      if k in m.entries {
        CombineKeeps(m.entries[k], t);
        UpdateConsistent(m, k, Combine(m.entries[k], t));
      } else {
        InsertConsistent(m, k, t);
      }
    }
  }

  lemma InsertConsistent(m: Merged, k: int, t: Record)
    requires Consistent(m) && k !in m.entries && RecordKey(t) == Some(k) && DatesParsed(t)
    ensures Consistent(Merged(m.order + [k], m.entries[k := t]))
  {
    var s := m.order + [k];
    assert forall i :: 0 <= i < |m.order| ==> s[i] == m.order[i];
  }

  lemma UpdateConsistent(m: Merged, k: int, t: Record)
    requires Consistent(m) && k in m.entries && RecordKey(t) == Some(k) && DatesParsed(t)
    ensures Consistent(Merged(m.order, m.entries[k := t]))
  {
  }

  /** Parsing the dates touches only the two date fields, and leaves no string in them. */
  lemma ParseDatesSpec(rec: Record)
    ensures var p := ParseDates(rec);
      && p.Keys == rec.Keys
      && DatesParsed(p)
      && (forall k :: k in rec && k != "start_date" && k != "finish_date" ==> p[k] == rec[k])
      && Field(p, "start_date") == ParsedDate(Field(rec, "start_date"))
      && Field(p, "finish_date") == ParsedDate(Field(rec, "finish_date"))
  {
  }

  /** The incoming record's id and parsed dates survive into the combined record. */
  lemma CombineKeeps(stored: Record, incoming: Record)
    requires RecordKey(stored) == RecordKey(incoming) && DatesParsed(stored) && DatesParsed(incoming)
    ensures RecordKey(Combine(stored, incoming)) == RecordKey(stored) && DatesParsed(Combine(stored, incoming))
  {
    CombineFields(stored, incoming);
  }

  /**
    The stored name is the longer of the two, and on equal lengths the
    stored one stays: the first-seen name wins ties.
   */
  lemma CombineName(stored: Record, incoming: Record)
    ensures NameText(Combine(stored, incoming)) == if |NameText(incoming)| > |NameText(stored)| then NameText(incoming) else NameText(stored)
  {
    CombineFields(stored, incoming);
  }

  /**
    A longer incoming name replaces the stored record wholesale, so fields
    only the stored record had are lost.  Otherwise the stored record keeps
    every field except that an empty start date, finish date or duration is
    filled from a non-empty incoming one; a non-empty stored value is never
    overwritten.
   */
  lemma CombineFields(stored: Record, incoming: Record)
    ensures |NameText(incoming)| > |NameText(stored)| ==> Combine(stored, incoming) == incoming
    ensures |NameText(incoming)| <= |NameText(stored)| ==>
      var r := Combine(stored, incoming);
      forall k :: k != "start_date" && k != "finish_date" && k != "duration_days" ==>
        (k in r <==> k in stored) && (k in stored ==> r[k] == stored[k])
    ensures |NameText(incoming)| <= |NameText(stored)| ==>
      var r := Combine(stored, incoming);
      forall k :: k == "start_date" || k == "finish_date" || k == "duration_days" ==>
        Field(r, k) == if Truthy(Field(stored, k)) || !Truthy(Field(incoming, k)) then Field(stored, k) else Field(incoming, k)
  {
  }

  /** Merge order: the ids in order of their first accepted appearance. */
  lemma {:induction false} MergeOrder(cs: seq<Candidate>)
    ensures MergeAll(cs).order == Dedup(FilterMap(CandidateKey, cs))
    decreases |cs|
  {
    if cs != [] {
      var init, c := cs[..|cs| - 1], cs[|cs| - 1];
      assert cs == init + [c];
      MergeOrder(init);
      MergeAllConsistent(init);
      var m0 := MergeAll(init);
      assert MergeAll(cs) == Step(m0, c);
      StepOrder(m0, c);
      FilterMapSnoc(CandidateKey, init, c);
      var keys := FilterMap(CandidateKey, init);
      var key := CandidateKey(c);
      if key.Some? {
        assert FilterMap(CandidateKey, cs) == keys + [key.value];
        DedupSnoc(keys, key.value);
      } else {
        assert FilterMap(CandidateKey, cs) == keys;
      }
    }
  }

  /** A candidate adds its id to the order exactly when the id is accepted and new. */
  lemma StepOrder(m: Merged, c: Candidate)
    requires Consistent(m)
    ensures var key := CandidateKey(c);
      Step(m, c).order == if key.None? || key.value in m.order then m.order else m.order + [key.value]
  {
  }

  /** An id no candidate carries has no entry. */
  lemma {:induction false} MergeAbsent(cs: seq<Candidate>, k: int)
    requires forall j :: 0 <= j < |cs| ==> CandidateKey(cs[j]) != Some(k)
    ensures k !in MergeAll(cs).entries
    decreases |cs|
  {
    if cs != [] {
      MergeAbsent(cs[..|cs| - 1], k);
    }
  }

  /**
    The first candidate accepted under id `k` keeps its name as long as no
    later candidate with that id has a strictly longer one: on equal lengths
    the earlier candidate wins.
   */
  lemma {:induction false} FirstNameKept(cs: seq<Candidate>, i: nat, k: int)
    requires i < |cs| && CandidateKey(cs[i]) == Some(k)
    requires forall j :: 0 <= j < i ==> CandidateKey(cs[j]) != Some(k)
    requires forall j :: i < j < |cs| && CandidateKey(cs[j]) == Some(k) ==>
               |NameText(AsRecord(cs[j]).value)| <= |NameText(AsRecord(cs[i]).value)|
    ensures k in MergeAll(cs).entries
    ensures NameText(MergeAll(cs).entries[k]) == NameText(AsRecord(cs[i]).value)
    decreases |cs|
  {
    var init, c := cs[..|cs| - 1], cs[|cs| - 1];
    var m0 := MergeAll(init);
    assert MergeAll(cs) == Step(m0, c);
    if i == |cs| - 1 {
      MergeAbsent(init, k);
      ParseDatesSpec(AsRecord(c).value);
    } else {
      FirstNameKept(init, i, k);
      if CandidateKey(c) == Some(k) {
        var rec := AsRecord(c).value;
        ParseDatesSpec(rec);
        CombineName(m0.entries[k], ParseDates(rec));
      }
    }
  }

  /** A candidate without an accepted id leaves the merge unchanged. */
  lemma MergeSkips(cs: seq<Candidate>, c: Candidate)
    requires CandidateKey(c).None?
    ensures MergeAll(cs + [c]) == MergeAll(cs)
  {
    assert (cs + [c])[..|cs|] == cs;
  }

  /**
    The output holds one task per stored id, in the stored order, each task
    carrying its id: no id appears twice, and an empty input gives an empty
    output.
   */
  lemma MergeResultIds(cs: seq<Candidate>)
    ensures cs == [] ==> MergeResult(cs) == Some([])
    ensures MergeResult(cs).Some? ==>
      var ts := MergeResult(cs).value;
      && |ts| == |MergeAll(cs).order| <= |cs|
      && (forall i :: 0 <= i < |ts| ==> ts[i].taskId == MergeAll(cs).order[i])
      && (forall i, j :: 0 <= i < j < |ts| ==> ts[i].taskId != ts[j].taskId)
  {
    var m := MergeAll(cs);
    MergeAllConsistent(cs);
    MergeOrder(cs);
    if MergeResult(cs).Some? {
      ValidateAllIds(m.order, m.entries);
    }
  }

  lemma {:induction false} ValidateAllIds(order: seq<int>, entries: map<int, Record>)
    requires forall i :: 0 <= i < |order| ==> order[i] in entries && RecordKey(entries[order[i]]) == Some(order[i])
    requires ValidateAll(order, entries).Some?
    ensures |ValidateAll(order, entries).value| == |order|
    ensures forall i :: 0 <= i < |order| ==> ValidateAll(order, entries).value[i].taskId == order[i]
  {
    if order != [] {
      var rest := order[1..];
      ValidateAllIds(rest, entries);
      var rec := entries[order[0]];
      ValidateTaskKey(rec);
      assert forall i :: 1 <= i < |order| ==> order[i] == rest[i - 1];
    }
  }

  /** Validation reads `task_id` with `int()` as the merge key does. */
  lemma ValidateTaskKey(rec: Record)
    requires RecordKey(rec).Some? && ValidateTask(rec).Some?
    ensures ValidateTask(rec).value.taskId == RecordKey(rec).value
  {
  }

  /** A task object with id 0 is skipped (a falsy id); any other is merged under its own id. */
  lemma SchemaCandidateKey(t: Task)
    ensures CandidateKey(SchemaCand(t)) == if t.taskId == 0 then None else Some(t.taskId)
  {
    DumpedRecord(t);
  }

  /**
    The falsy ids None, 0, False and "" are skipped, but the text "0" is
    truthy and `int()` reads it, so it is merged under id 0.
   */
  lemma FalsyIdSkipped(rec: Record)
    ensures Field(rec, "task_id") in {VNone, VInt(0), VBool(false), VStr("")} ==> RecordKey(rec).None?
    ensures Field(rec, "task_id") == VStr("0") ==> RecordKey(rec) == Some(0)
  {
    if Field(rec, "task_id") == VStr("0") {
      assert IntToString(0) == "0";
      IntTextRoundTrip(0);
    }
  }

  /** A record without string dates passes the date step unchanged. */
  lemma ParseDatesNoop(rec: Record)
    requires DatesParsed(rec)
    ensures ParseDates(rec) == rec
  {
  }

  /**
    Two candidates with the same id: the merged name is the longer one, and
    on equal lengths the first one's, whichever comes first.
   */
  lemma MergePairName(a: Record, b: Record, k: int)
    requires RecordKey(a) == Some(k) && RecordKey(b) == Some(k)
    ensures var m := MergeAll([DictCand(a), DictCand(b)]);
      && m.order == [k] && k in m.entries
      && NameText(m.entries[k]) == if |NameText(b)| > |NameText(a)| then NameText(b) else NameText(a)
  {
    var cs := [DictCand(a), DictCand(b)];
    assert cs[..1] == [DictCand(a)] && cs[..1][..0] == [];
    var pa, pb := ParseDates(a), ParseDates(b);
    ParseDatesSpec(a);
    ParseDatesSpec(b);
    assert NameText(pa) == NameText(a) && NameText(pb) == NameText(b);
    assert MergeAll(cs[..1]) == Merged([k], map[k := pa]);
    CombineName(pa, pb);
  }

  /**
    Two candidates with the same id, the second not longer-named and neither
    holding a string date: each empty start date, finish date or duration of
    the first is filled from the second, and nothing the first has is
    overwritten.
   */
  lemma MergePairBackfill(a: Record, b: Record, k: int, f: string)
    requires RecordKey(a) == Some(k) && RecordKey(b) == Some(k)
    requires DatesParsed(a) && DatesParsed(b) && |NameText(b)| <= |NameText(a)|
    requires f == "start_date" || f == "finish_date" || f == "duration_days"
    ensures var m := MergeAll([DictCand(a), DictCand(b)]);
      && m.order == [k] && k in m.entries
      && Field(m.entries[k], f) == if Truthy(Field(a, f)) || !Truthy(Field(b, f)) then Field(a, f) else Field(b, f)
  {
    var cs := [DictCand(a), DictCand(b)];
    assert cs[..1] == [DictCand(a)] && cs[..1][..0] == [];
    ParseDatesNoop(a);
    ParseDatesNoop(b);
    assert MergeAll(cs[..1]) == Merged([k], map[k := a]);
    CombineFields(a, b);
  }

  /** Id 1 named "A" with start date `d`, and id 1 named "AB" without one; both have duration 0 and no finish date. */
  predicate ShorterDatedPair(a: Record, b: Record, d: Date) {
    && Field(a, "task_id") == VInt(1) && Field(b, "task_id") == VInt(1)
    && Field(a, "task_name") == VStr("A") && Field(b, "task_name") == VStr("AB")
    && Field(a, "duration_days") == VInt(0) && Field(b, "duration_days") == VInt(0)
    && Field(a, "start_date") == VDate(d) && Field(b, "start_date") == VNone
    && Field(a, "finish_date") == VNone && Field(b, "finish_date") == VNone
  }

  /**
    Merging a list concatenated with itself can differ from merging it
    once.  Once, the longer name "AB" replaces the record and the start date
    is lost; twice, the third candidate backfills the date into the stored
    "AB".
   */
  lemma MergeNotIdempotent(a: Record, b: Record, d: Date)
    requires ShorterDatedPair(a, b, d)
    ensures MergeResult([DictCand(a), DictCand(b)]) == Some([Task(1, "AB", 0, None, None)])
    ensures MergeResult([DictCand(a), DictCand(b)] + [DictCand(a), DictCand(b)]) == Some([Task(1, "AB", 0, Some(d), None)])
  {
    PairOnce(a, b, d);
    PairTwice(a, b, d);
    var r := b["start_date" := VDate(d)];
    assert ValidateTask(b) == Some(Task(1, "AB", 0, None, None));
    assert ValidateTask(r) == Some(Task(1, "AB", 0, Some(d), None));
    ValidateSingle(1, b);
    ValidateSingle(1, r);
  }

  lemma PairOnce(a: Record, b: Record, d: Date)
    requires ShorterDatedPair(a, b, d)
    ensures MergeAll([DictCand(a), DictCand(b)]) == Merged([1], map[1 := b])
  {
    var ca, cb := DictCand(a), DictCand(b);
    ParseDatesNoop(a);
    ParseDatesNoop(b);
    assert NameText(a) == "A" && NameText(b) == "AB";
    assert MergeAll([ca]) == Merged([1], map[1 := a]) by {
      assert [ca][..0] == [];
    }
    assert [ca, cb][..1] == [ca];
  }

  lemma PairTwice(a: Record, b: Record, d: Date)
    requires ShorterDatedPair(a, b, d)
    ensures MergeAll([DictCand(a), DictCand(b)] + [DictCand(a), DictCand(b)]) == Merged([1], map[1 := b["start_date" := VDate(d)]])
  {
    var ca, cb := DictCand(a), DictCand(b);
    PairOnce(a, b, d);
    ParseDatesNoop(a);
    ParseDatesNoop(b);
    var r := b["start_date" := VDate(d)];
    assert NameText(a) == "A" && NameText(b) == "AB" && NameText(r) == "AB";
    assert Combine(b, a) == r;
    assert MergeAll([ca, cb, ca]) == Merged([1], map[1 := r]) by {
      assert [ca, cb, ca][..2] == [ca, cb];
    }
    assert Combine(r, b) == r;
    var cs := [ca, cb] + [ca, cb];
    assert cs[..3] == [ca, cb, ca];
  }

  lemma ValidateSingle(k: int, rec: Record)
    ensures ValidateAll([k], map[k := rec]) == if ValidateTask(rec).Some? then Some([ValidateTask(rec).value]) else None
  {
    var e := map[k := rec];
    assert [k][1..] == [];
    assert ValidateAll([], e) == Some([]);
    if ValidateTask(rec).Some? {
      assert [ValidateTask(rec).value] + [] == [ValidateTask(rec).value];
    }
  }
}
