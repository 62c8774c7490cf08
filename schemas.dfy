/**
  The two records the pipeline produces: a schedule task and a regulatory
  rule, with the dict form of a task and the validation that turns a dict
  back into a task.
 */
module Schemas {
  import opened Wrappers
  import opened Dates
  import opened Values

  datatype Task = Task(taskId: int, taskName: string, durationDays: int, startDate: Option<Date>, finishDate: Option<Date>)

  datatype Rule = Rule(ruleId: string, ruleSummary: string, measurementBasis: string)

  /** A task field dict: key to value. */
  type Record = map<string, Value>

  function DateValue(d: Option<Date>): Value {
    if d.Some? then VDate(d.value) else VNone
  }

  /** `model_dump()`: the five fields in declaration order. */
  function TaskFields(t: Task): seq<(string, Value)> {
    [ ("task_id", VInt(t.taskId)), ("task_name", VStr(t.taskName)), ("duration_days", VInt(t.durationDays)),
      ("start_date", DateValue(t.startDate)), ("finish_date", DateValue(t.finishDate)) ]
  }

  // ---------------------------------------------------------------------------
  // Validation: TaskSchema(**record)
  // ---------------------------------------------------------------------------

  /** An `int` field accepts what `int()` accepts. */
  function IntField(v: Value): (r: Option<int>)
    ensures v.VInt? ==> r == Some(v.i)
    ensures v.VNone? || v.VList? || v.VDict? ==> r.None?
  {
    PyInt(v)
  }

  /** A `str` field accepts only a string. */
  function StrField(v: Value): (r: Option<string>)
    ensures r.Some? <==> v.VStr?
  {
    if v.VStr? then Some(v.s) else None
  }

  /**
    An `Optional[date]` field with default None: an absent key or None gives
    None, a date is kept, a datetime at midnight gives its date; anything else
    fails.  The outer Option is the validation outcome.
   */
  function DateField(rec: Record, k: string): (r: Option<Option<Date>>)
    ensures k !in rec ==> r == Some(None)
    ensures k in rec && rec[k].VDate? ==> r == Some(Some(rec[k].d))
    ensures k in rec && rec[k].VNone? ==> r == Some(None)
  {
    if k !in rec then Some(None)
    else match rec[k]
      case VNone => Some(None)
      case VDate(d) => Some(Some(d))
      case VDateTime(d, h, m, s) => if h == 0 && m == 0 && s == 0 then Some(Some(d)) else None
      case _ => None
  }

  /** `TaskSchema(**rec)`: None where validation raises.  Keys other than the five are ignored. */
  function ValidateTask(rec: Record): (r: Option<Task>)
    ensures r.Some? <==>
      && "task_id" in rec && IntField(rec["task_id"]).Some?
      && "task_name" in rec && rec["task_name"].VStr?
      && "duration_days" in rec && IntField(rec["duration_days"]).Some?
      && DateField(rec, "start_date").Some? && DateField(rec, "finish_date").Some?
    ensures r.Some? ==>
      && Some(r.value.taskId) == IntField(rec["task_id"])
      && VStr(r.value.taskName) == rec["task_name"]
      && Some(r.value.durationDays) == IntField(rec["duration_days"])
      && Some(r.value.startDate) == DateField(rec, "start_date")
      && Some(r.value.finishDate) == DateField(rec, "finish_date")
  {
    if "task_id" !in rec || "task_name" !in rec || "duration_days" !in rec then None
    else
      var id := IntField(rec["task_id"]);
      var name := StrField(rec["task_name"]);
      var dur := IntField(rec["duration_days"]);
      var start := DateField(rec, "start_date");
      var finish := DateField(rec, "finish_date");
      if id.None? || name.None? || dur.None? || start.None? || finish.None? then None
      else Some(Task(id.value, name.value, dur.value, start.value, finish.value))
  }

  /** Validation undoes `model_dump()`: `TaskSchema(**t.model_dump()) == t`. */
  lemma ValidateDumped(t: Task)
    ensures ValidateTask(ToMap(TaskFields(t))) == Some(t)
  {
    var m := ToMap(TaskFields(t));
    DumpedRecord(t);
    assert ValidateTask(m).Some?;
  }

  lemma DumpedRecord(t: Task)
    ensures var m := ToMap(TaskFields(t));
      && "task_id" in m && m["task_id"] == VInt(t.taskId)
      && "task_name" in m && m["task_name"] == VStr(t.taskName)
      && "duration_days" in m && m["duration_days"] == VInt(t.durationDays)
      && (t.startDate.Some? ==> "start_date" in m && m["start_date"] == VDate(t.startDate.value))
      && (t.startDate.None? ==> "start_date" in m && m["start_date"] == VNone)
      && (t.finishDate.Some? ==> "finish_date" in m && m["finish_date"] == VDate(t.finishDate.value))
      && (t.finishDate.None? ==> "finish_date" in m && m["finish_date"] == VNone)
  {
    var f := TaskFields(t);
    // the five keys have five different lengths
    assert forall a, b :: 0 <= a < b < |f| ==> |f[a].0| != |f[b].0|;
    GetDistinct(f, 0);
    GetDistinct(f, 1);
    GetDistinct(f, 2);
    GetDistinct(f, 3);
    GetDistinct(f, 4);
  }

  /** In a dict whose keys are distinct, `get` finds the one binding. */
  lemma {:induction false} GetDistinct(fields: seq<(string, Value)>, i: nat)
    requires i < |fields|
    requires forall a, b :: 0 <= a < b < |fields| ==> fields[a].0 != fields[b].0
    ensures Get(fields, fields[i].0) == Some(fields[i].1)
  {
    var k := fields[i].0;
    if i == 0 {
      assert forall j :: 0 <= j < |fields[1..]| ==> fields[1..][j].0 != k by {
        forall j | 0 <= j < |fields[1..]| ensures fields[1..][j].0 != k {
          assert fields[1..][j] == fields[j + 1];
        }
      }
    } else {
      GetDistinct(fields[1..], i - 1);
    }
  }

  // ---------------------------------------------------------------------------
  // safe_task_to_dict
  // ---------------------------------------------------------------------------

  /** What `safe_task_to_dict` may be handed. */
  datatype TaskObject =
    | NoObject
    | DictObject(fields: seq<(string, Value)>)
    | SchemaObject(task: Task)
      /** Any other object, given by the attributes it has. */
    | PlainObject(attrs: seq<(string, Value)>)

  const TaskKeys: seq<string> := ["task_id", "task_name", "duration_days", "start_date", "finish_date"]

  /** A datetime attribute becomes the ISO text of its date. */
  function PlainValue(v: Value): (r: Value)
    ensures !r.VDateTime?
    ensures !v.VDateTime? ==> r == v
  {
    if v.VDateTime? then VStr(IsoFormat(v.date)) else v
  }

  /** The attributes among `keys` that the object has, in the order of `keys`. */
  function PlainFields(attrs: seq<(string, Value)>, keys: seq<string>): (r: seq<(string, Value)>)
    ensures |r| <= |keys|
  {
    if keys == [] then []
    else
      var v := Get(attrs, keys[0]);
      if v.Some? then [(keys[0], PlainValue(v.value))] + PlainFields(attrs, keys[1..])
      else PlainFields(attrs, keys[1..])
  }

  /** Looking a key up in the copied fields finds the attribute, converted. */
  lemma {:induction false} PlainFieldsGet(attrs: seq<(string, Value)>, keys: seq<string>, k: string)
    ensures Get(PlainFields(attrs, keys), k) ==
      if k in keys && Get(attrs, k).Some? then Some(PlainValue(Get(attrs, k).value)) else None
  {
    if keys != [] {
      PlainFieldsGet(attrs, keys[1..], k);
      var rest := PlainFields(attrs, keys[1..]);
      var v := Get(attrs, keys[0]);
      if v.Some? {
        var r := [(keys[0], PlainValue(v.value))] + rest;
        assert r[1..] == rest;
      } else {
        assert PlainFields(attrs, keys) == rest;
      }
    }
  }

  function SafeTaskDict(x: TaskObject): seq<(string, Value)> {
    match x
    case NoObject => []
    case DictObject(fields) => fields
    case SchemaObject(t) => TaskFields(t)
    case PlainObject(attrs) => PlainFields(attrs, TaskKeys)
  }

  /** `safe_task_to_dict`, copying a plain object's attributes in a loop. */
  method SafeTaskToDict(x: TaskObject) returns (out: seq<(string, Value)>)
    ensures out == SafeTaskDict(x)
  {
    match x
    case NoObject => out := [];
    case DictObject(fields) => out := fields;
    case SchemaObject(t) => out := TaskFields(t);
    case PlainObject(attrs) => out := CopyAttributes(attrs, TaskKeys);
  }

  /** The attribute loop of `safe_task_to_dict`: copy each key the object has, converting datetimes. */
  method CopyAttributes(attrs: seq<(string, Value)>, keys: seq<string>) returns (out: seq<(string, Value)>)
    ensures out == PlainFields(attrs, keys)
  {
    out := [];
    var i := 0;
    while i < |keys|
      invariant 0 <= i <= |keys|
      invariant out + PlainFields(attrs, keys[i..]) == PlainFields(attrs, keys)
    {
      var v := Get(attrs, keys[i]);
      assert keys[i..][1..] == keys[i + 1..];
      if v.Some? {
        out := out + [(keys[i], PlainValue(v.value))];
      }
      i := i + 1;
    }
    assert keys[i..] == [];
  }

  /** A schema task converts to a dict that validates back to the same task. */
  lemma SafeTaskDictSchema(t: Task)
    ensures ValidateTask(ToMap(SafeTaskDict(SchemaObject(t)))) == Some(t)
  {
    ValidateDumped(t);
  }

  /** A plain object yields exactly its task attributes, none of them a datetime. */
  lemma SafeTaskDictPlain(attrs: seq<(string, Value)>, k: string)
    ensures Get(SafeTaskDict(PlainObject(attrs)), k) ==
      if k in TaskKeys && Get(attrs, k).Some? then Some(PlainValue(Get(attrs, k).value)) else None
  {
    PlainFieldsGet(attrs, TaskKeys, k);
  }
}
