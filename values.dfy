/**
  Python values as the pipeline meets them: decoded JSON from the language
  model, dictionaries of task fields, dates.  Floats are not modelled.
 */
module Values {
  import opened Wrappers
  import opened Chars
  import opened Dates

  datatype Value =
    | VNone
    | VBool(b: bool)
    | VInt(i: int)
    | VStr(s: string)
    | VDate(d: Date)
    | VDateTime(date: Date, hour: nat, minute: nat, second: nat)
    | VList(items: seq<Value>)
      /** A dict given by its items in insertion order; a key bound twice keeps its last value. */
    | VDict(fields: seq<(string, Value)>)

  /** Python truthiness (`if v:`). */
  predicate Truthy(v: Value) {
    match v
    case VNone => false
    case VBool(b) => b
    case VInt(i) => i != 0
    case VStr(s) => s != ""
    case VDate(_) => true
    case VDateTime(_, _, _, _) => true
    case VList(items) => items != []
    case VDict(fields) => fields != []
  }

  // ---------------------------------------------------------------------------
  // Dictionaries
  // ---------------------------------------------------------------------------

  /** `d.get(k)`: the last binding of `k`, if any. */
  function Get(fields: seq<(string, Value)>, k: string): (r: Option<Value>)
    ensures r.Some? <==> exists i :: 0 <= i < |fields| && fields[i].0 == k
  {
    if fields == [] then None
    else
      var g := Get(fields[1..], k);
      assert forall i :: 0 < i < |fields| ==> fields[1..][i - 1] == fields[i];
      if g.Some? then g else if fields[0].0 == k then Some(fields[0].1) else None
  }

  /** `d.get(k, default)`. */
  function GetOr(fields: seq<(string, Value)>, k: string, default: Value): Value {
    Get(fields, k).GetOr(default)
  }

  /** The dict as a map from key to value. */
  function ToMap(fields: seq<(string, Value)>): (m: map<string, Value>)
    ensures forall k :: k in m <==> Get(fields, k).Some?
    ensures forall k :: k in m ==> Get(fields, k) == Some(m[k])
  {
    if fields == [] then map[]
    else
      var m := ToMap(fields[1..]);
      if fields[0].0 in m then m else m[fields[0].0 := fields[0].1]
  }

  // ---------------------------------------------------------------------------
  // str() and repr()
  // ---------------------------------------------------------------------------

  function TwoDigitText(n: nat): string {
    ZeroPad(NatToString(n), 2)
  }

  /** `str(v)`. */
  function Str(v: Value): string {
    match v
    case VStr(s) => s
    case VDate(d) => IsoFormat(d)
    case VDateTime(d, h, m, s) => IsoFormat(d) + " " + TwoDigitText(h) + ":" + TwoDigitText(m) + ":" + TwoDigitText(s)
    case _ => Repr(v)
  }

  /** `repr(v)`; strings are shown in single quotes without escaping. */
  function Repr(v: Value): string
    decreases v, 1
  {
    match v
    case VNone => "None"
    case VBool(b) => if b then "True" else "False"
    case VInt(i) => IntToString(i)
    case VStr(s) => "'" + s + "'"
    case VDate(d) => "datetime.date(" + NatToString(d.year) + ", " + NatToString(d.month) + ", " + NatToString(d.day) + ")"
    case VDateTime(d, h, m, s) =>
      "datetime.datetime(" + NatToString(d.year) + ", " + NatToString(d.month) + ", " + NatToString(d.day)
      + ", " + NatToString(h) + ", " + NatToString(m) + (if s == 0 then "" else ", " + NatToString(s)) + ")"
    case VList(items) =>
      "[" + Join(seq(|items|, i requires 0 <= i < |items| => Repr(items[i])), ", ") + "]"
    case VDict(fields) =>
      "{" + Join(seq(|fields|, i requires 0 <= i < |fields| => "'" + fields[i].0 + "': " + Repr(fields[i].1)), ", ") + "}"
  }

  // ---------------------------------------------------------------------------
  // int()
  // ---------------------------------------------------------------------------

  /** Digits with single underscores between them, as Python integer literals allow. */
  predicate UnderscoredDigits(s: string) {
    && |s| > 0 && IsDigit(s[0]) && IsDigit(s[|s| - 1])
    && (forall i :: 0 <= i < |s| ==> IsDigit(s[i]) || s[i] == '_')
    && (forall i :: 0 <= i < |s| - 1 ==> !(s[i] == '_' && s[i + 1] == '_'))
  }

  function DropUnderscores(s: string): (r: string)
    ensures (forall i :: 0 <= i < |s| ==> IsDigit(s[i]) || s[i] == '_') ==> AllDigits(r)
  {
    if s == [] then []
    else if s[0] == '_' then DropUnderscores(s[1..])
    else [s[0]] + DropUnderscores(s[1..])
  }

  lemma {:induction false} DropUnderscoresDigits(s: string)
    requires AllDigits(s)
    ensures DropUnderscores(s) == s
  {
    if s != [] {
      DropUnderscoresDigits(s[1..]);
    }
  }

  /** `int(s)` for a string: surrounding whitespace, an optional sign, decimal digits (ASCII only). */
  function ParseIntText(s: string): (r: Option<int>)
    ensures r.Some? ==> |Strip(s)| > 0
  {
    var t := Strip(s);
    if |t| > 0 && (t[0] == '+' || t[0] == '-') then
      var body := t[1..];
      if UnderscoredDigits(body) then
        var n: int := DigitsValue(DropUnderscores(body));
        Some(if t[0] == '-' then -n else n)
      else None
    else if UnderscoredDigits(t) then Some(DigitsValue(DropUnderscores(t)))
    else None
  }

  /** `int(v)`, or None where it raises (None, dates, lists, dicts, malformed text). */
  function PyInt(v: Value): (r: Option<int>)
    ensures v.VInt? ==> r == Some(v.i)
    ensures v.VBool? ==> r == Some(if v.b then 1 else 0)
    ensures v.VNone? || v.VDate? || v.VDateTime? || v.VList? || v.VDict? ==> r.None?
  {
    match v
    case VInt(i) => Some(i)
    case VBool(b) => Some(if b then 1 else 0)
    case VStr(s) => ParseIntText(s)
    case _ => None
  }

  lemma AllDigitsUnderscored(s: string)
    requires |s| > 0 && AllDigits(s)
    ensures UnderscoredDigits(s)
  {
  }

  /** `int(str(i)) == i`. */
  lemma IntTextRoundTrip(i: int)
    ensures PyInt(VStr(IntToString(i))) == Some(i)
  {
    var s := IntToString(i);
    if i < 0 {
      var ds := NatToString(-i);
      assert s == "-" + ds;
      assert s[0] == '-' && !IsSpace(s[0]) && !IsSpace(s[|s| - 1]);
      StripSpaceFree(s);
      assert s[1..] == ds;
      AllDigitsUnderscored(ds);
      DropUnderscoresDigits(ds);
    } else {
      StripSpaceFree(s);
      AllDigitsUnderscored(s);
      DropUnderscoresDigits(s);
    }
  }

  /** Python truthiness of an int coerced from a value: zero ids are falsy. */
  lemma TruthyInt(i: int)
    ensures Truthy(VInt(i)) <==> i != 0
  {
  }
}
