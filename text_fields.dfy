/**
  Cell and field normalisers of the schedule parser (core/utils/parse_utils.py):
  whitespace cleaning, task-name rejection, bounded integer ids and duration
  extraction.
 */
module TextFields {
  import opened Wrappers
  import opened Chars

  // ---------------------------------------------------------------------------
  // _clean_text
  // ---------------------------------------------------------------------------

  /** Every whitespace character is a plain space and no two whitespace characters are adjacent. */
  predicate SingleSpaced(r: string) {
    && (forall i :: 0 <= i < |r| && IsSpace(r[i]) ==> r[i] == ' ')
    && (forall i :: 0 <= i < |r| - 1 ==> !(IsSpace(r[i]) && IsSpace(r[i + 1])))
  }

  /** What `_clean_text` promises of its output. */
  predicate IsClean(r: string) {
    && SingleSpaced(r)
    && (r == [] || (!IsSpace(r[0]) && !IsSpace(r[|r| - 1])))
  }

  /** `re.sub(r"\s+", " ", s)`: each maximal run of whitespace becomes one space. */
  function Collapse(s: string): (r: string)
    ensures SingleSpaced(r)
    ensures s == [] <==> r == []
    ensures s != [] && IsSpace(s[0]) ==> r[0] == ' '
    ensures s != [] && !IsSpace(s[0]) ==> r[0] == s[0]
    decreases |s|
  {
    if s == [] then []
    else if IsSpace(s[0]) then
      TrimLeftStart(s[1..]);
      [' '] + Collapse(TrimLeft(s[1..]))
    else [s[0]] + Collapse(s[1..])
  }

  /**
    `_clean_text`: newlines and tabs become spaces, whitespace runs collapse to
    one space and the ends are stripped.  (Replacing "\n" and "\t" first is
    subsumed by the collapse, since both are whitespace.)  `None` is handled by
    CleanCell.
   */
  function CleanText(s: string): (r: string)
    ensures IsClean(r)
  {
    if s == [] then ""
    else
      var c := Collapse(s);
      var l := TrimLeft(c);
      var r := TrimRight(l);
      TrimLeftSuffix(c);
      TrimRightPrefix(l);
      SingleSpacedSlice(c, |c| - |l|, |c|);
      SingleSpacedSlice(l, 0, |r|);
      r
  }

  /** Cleaned text holds no newline and no tab: its only whitespace is the plain space. */
  lemma CleanTextNoControl(s: string)
    ensures '\n' !in CleanText(s) && '\t' !in CleanText(s)
  {
    var r := CleanText(s);
    assert forall i :: 0 <= i < |r| ==> r[i] != '\n' && r[i] != '\t';
  }

  lemma SingleSpacedSlice(c: string, lo: nat, hi: nat)
    requires SingleSpaced(c) && lo <= hi <= |c|
    ensures SingleSpaced(c[lo..hi])
  {
    var d := c[lo..hi];
    assert forall i :: 0 <= i < |d| ==> d[i] == c[lo + i];
  }

  /** `_clean_text` on a table cell, where `None` (an empty pdfplumber cell) gives "". */
  function CleanCell(c: Option<string>): (r: string)
    ensures IsClean(r)
    ensures c.None? ==> r == ""
  {
    match c
    case None => ""
    case Some(s) => CleanText(s)
  }

  /**
    The whitespace-separated words of `s`, as Python's `s.split()` gives them:
    the maximal runs of non-whitespace characters, in order.
   */
  function Words(s: string): (w: seq<string>)
    ensures s != [] && !IsSpace(s[0]) ==> |w| > 0 && w[0] != [] && w[0][0] == s[0]
    ensures forall k :: 0 <= k < |w| ==> w[k] != [] && NoSpace(w[k])
    decreases |s|
  {
    if s == [] then []
    else
      var w := Words(s[1..]);
      if IsSpace(s[0]) then w
      else if s[1..] != [] && !IsSpace(s[1]) then [[s[0]] + w[0]] + w[1..]
      else [[s[0]]] + w
  }

  lemma {:induction false} WordsSkipSpaces(s: string)
    ensures Words(TrimLeft(s)) == Words(s)
    decreases |s|
  {
    if s != [] && IsSpace(s[0]) {
      WordsSkipSpaces(s[1..]);
    }
  }

  function Lead(s: string): string {
    if s != [] && IsSpace(s[0]) then " " else ""
  }

  function Trail(s: string): string {
    if s != [] && IsSpace(s[|s| - 1]) && Words(s) != [] then " " else ""
  }

  lemma JoinConsWord(c: char, w: seq<string>)
    requires |w| > 0
    ensures Join([[c] + w[0]] + w[1..], " ") == [c] + Join(w, " ")
  {
  }

  lemma JoinCons(x: string, w: seq<string>)
    requires |w| > 0
    ensures Join([x] + w, " ") == x + " " + Join(w, " ")
  {
    assert ([x] + w)[1..] == w;
  }

  lemma {:induction false} JoinWordsEnds(w: seq<string>)
    requires forall k :: 0 <= k < |w| ==> w[k] != [] && NoSpace(w[k])
    ensures var j := Join(w, " "); j == [] || (!IsSpace(j[0]) && !IsSpace(j[|j| - 1]))
    ensures |w| > 0 ==> Join(w, " ") != []
  {
    if |w| > 1 {
      JoinWordsEnds(w[1..]);
    }
  }

  /** The shape of the collapsed text: leading space, the words joined by single spaces, trailing space. */
  predicate CollapsedAsWords(s: string) {
    Collapse(s) == Lead(s) + Join(Words(s), " ") + Trail(s)
  }

  lemma CollapseWordsSpaceCase(s: string)
    requires s != [] && IsSpace(s[0])
    requires CollapsedAsWords(TrimLeft(s[1..]))
    ensures CollapsedAsWords(s)
  {
    var t := TrimLeft(s[1..]);
    TrimLeftSuffix(s[1..]);
    TrimLeftStart(s[1..]);
    assert Collapse(s) == [' '] + Collapse(t);
    assert Lead(s) == " " && Lead(t) == "";
    WordsSkipSpaces(s[1..]);
    assert Words(s) == Words(t);
    if t == [] {
      assert Collapse(t) == [];
      assert Words(s) == [];
    } else {
      assert s[|s| - 1] == t[|t| - 1];
      assert Trail(s) == Trail(t);
    }
  }

  lemma CollapseWordsLastCase(s: string)
    requires |s| == 1 && !IsSpace(s[0])
    ensures CollapsedAsWords(s)
  {
    assert s[1..] == [];
    assert Words(s) == [[s[0]]];
  }

  lemma CollapseWordsJoinCase(s: string)
    requires |s| >= 2 && !IsSpace(s[0]) && !IsSpace(s[1])
    requires CollapsedAsWords(s[1..])
    ensures CollapsedAsWords(s)
  {
    var rest := s[1..];
    var w := Words(rest);
    assert Lead(rest) == "";
    JoinConsWord(s[0], w);
    assert s[|s| - 1] == rest[|rest| - 1];
    assert Trail(s) == Trail(rest);
  }

  lemma CollapseWordsBreakCase(s: string)
    requires |s| >= 2 && !IsSpace(s[0]) && IsSpace(s[1])
    requires CollapsedAsWords(s[1..])
    ensures CollapsedAsWords(s)
  {
    var rest := s[1..];
    var w := Words(rest);
    assert Lead(rest) == " ";
    assert Words(s) == [[s[0]]] + w;
    assert s[|s| - 1] == rest[|rest| - 1];
    if w != [] {
      JoinCons([s[0]], w);
      assert Trail(s) == Trail(rest);
    } else {
      WordsEmptyEndsInSpace(rest);
      assert Trail(rest) == "";
      assert Collapse(rest) == " ";
      assert Join(Words(s), " ") == [s[0]];
      assert Trail(s) == " ";
    }
  }

  lemma {:induction false} WordsEmptyEndsInSpace(x: string)
    requires x != [] && Words(x) == []
    ensures IsSpace(x[|x| - 1])
    decreases |x|
  {
    if |x| > 1 {
      assert Words(x[1..]) == [];
      WordsEmptyEndsInSpace(x[1..]);
      assert x[1..][|x| - 2] == x[|x| - 1];
    }
  }

  /** The collapsed text is the words joined by single spaces, plus a space at either end where `s` had whitespace. */
  lemma {:induction false} CollapseWords(s: string)
    ensures CollapsedAsWords(s)
    decreases |s|
  {
    if s == [] {
    } else if IsSpace(s[0]) {
      CollapseWords(TrimLeft(s[1..]));
      CollapseWordsSpaceCase(s);
    } else if |s| == 1 {
      CollapseWordsLastCase(s);
    } else {
      CollapseWords(s[1..]);
      if IsSpace(s[1]) {
        CollapseWordsBreakCase(s);
      } else {
        CollapseWordsJoinCase(s);
      }
    }
  }

  lemma StripPadded(lead: string, j: string, trail: string)
    requires lead == "" || lead == " "
    requires trail == "" || trail == " "
    requires j == [] || (!IsSpace(j[0]) && !IsSpace(j[|j| - 1]))
    ensures Strip(lead + j + trail) == j
  {
    var x := lead + j + trail;
    if j == [] {
      assert forall i :: 0 <= i < |x| ==> IsSpace(x[i]);
      AllSpaceTrims(x);
    } else {
      assert TrimLeft(x) == j + trail by {
        if lead == " " { assert x[1..] == j + trail; }
      }
      if trail == " " {
        assert (j + trail)[..|j|] == j;
        assert TrimRight(j + trail) == TrimRight(j);
      } else {
        assert j + trail == j;
      }
      assert TrimRight(j) == j;
    }
  }

  lemma {:induction false} AllSpaceTrims(x: string)
    requires forall i :: 0 <= i < |x| ==> IsSpace(x[i])
    ensures TrimLeft(x) == []
    decreases |x|
  {
    if x != [] {
      AllSpaceTrims(x[1..]);
    }
  }

  /** `_clean_text(s)` is `" ".join(s.split())`: the words of `s`, in order, separated by single spaces. */
  lemma CleanTextIsJoinedWords(s: string)
    ensures CleanText(s) == Join(Words(s), " ")
  {
    if s != [] {
      CollapseWords(s);
      JoinWordsEnds(Words(s));
      StripPadded(Lead(s), Join(Words(s), " "), Trail(s));
    }
  }

  lemma {:induction false} CollapseSingleSpaced(r: string)
    requires SingleSpaced(r)
    requires r == [] || !IsSpace(r[0]) || |r| == 1 || !IsSpace(r[1])
    ensures Collapse(r) == r
    decreases |r|
  {
    if r != [] {
      assert SingleSpaced(r[1..]);
      if IsSpace(r[0]) {
        assert r[0] == ' ';
        assert TrimLeft(r[1..]) == r[1..];
      }
      CollapseSingleSpaced(r[1..]);
    }
  }

  /** Clean text is a fixed point of cleaning. */
  lemma CleanTextFixed(r: string)
    requires IsClean(r)
    ensures CleanText(r) == r
  {
    if r != [] {
      CollapseSingleSpaced(r);
      StripSpaceFree(r);
    }
  }

  lemma {:induction false} CollapseNoSpace(s: string)
    requires NoSpace(s)
    ensures Collapse(s) == s
  {
    if s != [] {
      CollapseNoSpace(s[1..]);
    }
  }

  /** Text without whitespace is already clean. */
  lemma CleanNoSpace(s: string)
    requires NoSpace(s)
    ensures CleanText(s) == s
  {
    if s != [] {
      CollapseNoSpace(s);
      StripSpaceFree(s);
    }
  }

  /** Cleaning is idempotent. */
  lemma CleanTextIdempotent(s: string)
    ensures CleanText(CleanText(s)) == CleanText(s)
  {
    CleanTextFixed(CleanText(s));
  }

  // ---------------------------------------------------------------------------
  // _clean_task_name
  // ---------------------------------------------------------------------------

  /** Lower-cased header echoes that are never task names. */
  const HeaderTokens: seq<string> := ["task name", "task", "name", "activity", "description"]

  /** `re.fullmatch(r"[\d\W]+", s)`: non-empty and made only of digits and non-word characters. */
  predicate DigitsOrSymbols(s: string) {
    |s| > 0 && forall i :: 0 <= i < |s| ==> IsDigit(s[i]) || !IsWordChar(s[i])
  }

  /** The three reasons `_clean_task_name` rejects a cleaned name. */
  predicate RejectedName(c: string) {
    |c| > 200 || DigitsOrSymbols(c) || Lower(c) in HeaderTokens
  }

  /** `_clean_task_name`: `None` for a missing or rejected name, else the cleaned name. */
  function CleanTaskName(name: Option<string>): (r: Option<string>) {
    if name.None? || name.value == "" then None else AcceptName(CleanText(name.value))
  }

  /** The checks on a cleaned name, in source order: too long, digits and symbols only, a header echo. */
  function AcceptName(c: string): Option<string> {
    if |c| > 200 then None
    else if DigitsOrSymbols(c) then None
    else if Lower(c) in HeaderTokens then None
    else Some(c)
  }

  /**
    A missing or empty name is rejected; otherwise the name is rejected exactly
    when its cleaned text is, and an accepted name is the cleaned text: clean,
    at most 200 characters, and, unless blank, holding a letter or underscore.
   */
  lemma CleanTaskNameSpec(name: Option<string>)
    ensures name.None? || name == Some("") ==> CleanTaskName(name).None?
    ensures name.Some? && name.value != "" ==>
      (CleanTaskName(name).None? <==> RejectedName(CleanText(name.value)))
    ensures CleanTaskName(name).Some? ==>
      var r := CleanTaskName(name).value;
      && r == CleanText(name.value) && IsClean(r) && |r| <= 200
      && (r != "" ==> exists i :: 0 <= i < |r| && (IsAsciiLetter(r[i]) || r[i] == '_'))
  {
  }

  /** An accepted non-blank name is accepted again unchanged. */
  lemma CleanTaskNameIdempotent(name: Option<string>)
    requires CleanTaskName(name).Some? && CleanTaskName(name).value != ""
    ensures CleanTaskName(CleanTaskName(name)) == CleanTaskName(name)
  {
    CleanTextIdempotent(name.value);
  }

  /**
    A whitespace-only name is not rejected: it cleans to the empty name, which
    a second pass would reject as missing.
   */
  lemma BlankNameAccepted()
    ensures CleanTaskName(Some("   ")) == Some("")
    ensures CleanTaskName(Some("")) == None
  {
    assert Collapse("   ") == " " by {
      assert TrimLeft("  ") == [];
    }
    assert TrimLeft(" ") == [];
  }

  // ---------------------------------------------------------------------------
  // _parse_int_safe
  // ---------------------------------------------------------------------------

  /** Upper bound on an id: larger values come from merged table cells. */
  const MaxTaskId: nat := 99999

  /** `_parse_int_safe`: the stripped text must be a non-empty digit run whose value is at most 99999. */
  function ParseIntSafe(x: Option<string>): (r: Option<nat>)
    ensures r.Some? <==>
      x.Some? && |Strip(x.value)| > 0 && AllDigits(Strip(x.value)) && DigitsValue(Strip(x.value)) <= MaxTaskId
    ensures r.Some? ==> r.value == DigitsValue(Strip(x.value)) && r.value <= MaxTaskId
  {
    if x.None? then None
    else
      var s := Strip(x.value);
      if !(|s| > 0 && AllDigits(s)) then None
      else
        var v := DigitsValue(s);
        if v > MaxTaskId then None else Some(v)
  }

  /** Printing an id and parsing it back gives the id, exactly when it is within the bound. */
  lemma ParseIntSafeRoundTrip(n: nat)
    ensures ParseIntSafe(Some(NatToString(n))) == if n <= MaxTaskId then Some(n) else None
  {
    var s := NatToString(n);
    StripSpaceFree(s);
  }

  // ---------------------------------------------------------------------------
  // _parse_duration
  // ---------------------------------------------------------------------------

  /** End of the digit run that starts at `i`. */
  function RunEnd(t: string, i: nat): (e: nat)
    requires i <= |t|
    ensures i <= e <= |t| && (e == |t| || !IsDigit(t[e]))
    decreases |t| - i
  {
    if i < |t| && IsDigit(t[i]) then RunEnd(t, i + 1) else i
  }

  /** Everything in the run is a digit. */
  lemma {:induction false} RunEndDigits(t: string, i: nat)
    requires i <= |t|
    ensures AllDigits(t[i..RunEnd(t, i)])
    decreases |t| - i
  {
    if i < |t| && IsDigit(t[i]) {
      RunEndDigits(t, i + 1);
      assert t[i..RunEnd(t, i)] == [t[i]] + t[i + 1..RunEnd(t, i)];
    }
  }

  /** First index at or after `i` that is not whitespace. */
  function SkipSpaces(t: string, i: nat): (e: nat)
    requires i <= |t|
    ensures i <= e <= |t| && (e == |t| || !IsSpace(t[e]))
    decreases |t| - i
  {
    if i < |t| && IsSpace(t[i]) then SkipSpaces(t, i + 1) else i
  }

  /** Everything skipped is whitespace. */
  lemma {:induction false} SkipSpacesAll(t: string, i: nat)
    requires i <= |t|
    ensures forall k :: i <= k < SkipSpaces(t, i) ==> IsSpace(t[k])
    decreases |t| - i
  {
    if i < |t| && IsSpace(t[i]) {
      SkipSpacesAll(t, i + 1);
    }
  }

  /** `(\d+)\s*d` matches at `p`: a digit there, and its whole run followed by optional whitespace and "d". */
  predicate DaysAt(t: string, p: nat) {
    p < |t| && IsDigit(t[p])
    && var f := SkipSpaces(t, RunEnd(t, p)); f < |t| && t[f] == 'd'
  }

  /** `re.search(r"(\d+)\s*d", t)` from position `i`: the leftmost match position. */
  function FindDays(t: string, i: nat): (p: Option<nat>)
    requires i <= |t|
    ensures p.Some? ==> i <= p.value < |t|
    decreases |t| - i
  {
    if i == |t| then None
    else if DaysAt(t, i) then Some(i)
    else FindDays(t, i + 1)
  }

  /** The search finds the leftmost match, and none when there is none. */
  lemma {:induction false} FindDaysFirst(t: string, i: nat)
    requires i <= |t|
    ensures var p := FindDays(t, i);
      && (p.Some? ==> DaysAt(t, p.value) && forall q :: i <= q < p.value ==> !DaysAt(t, q))
      && (p.None? ==> forall q :: i <= q < |t| ==> !DaysAt(t, q))
    decreases |t| - i
  {
    if i < |t| && !DaysAt(t, i) {
      FindDaysFirst(t, i + 1);
    }
  }

  /** `re.search(r"(\d+)", t)` from position `i`: the leftmost digit. */
  function FindDigit(t: string, i: nat): (p: Option<nat>)
    requires i <= |t|
    ensures p.Some? ==> i <= p.value < |t|
    decreases |t| - i
  {
    if i == |t| then None
    else if IsDigit(t[i]) then Some(i)
    else FindDigit(t, i + 1)
  }

  /** The search finds the leftmost digit, and none when there is none. */
  lemma {:induction false} FindDigitFirst(t: string, i: nat)
    requires i <= |t|
    ensures var p := FindDigit(t, i);
      && (p.Some? ==> IsDigit(t[p.value]) && forall q :: i <= q < p.value ==> !IsDigit(t[q]))
      && (p.None? ==> forall q :: i <= q < |t| ==> !IsDigit(t[q]))
    decreases |t| - i
  {
    if i < |t| && IsDigit(t[i]) {
    } else if i < |t| {
      FindDigitFirst(t, i + 1);
    }
  }

  /** The value of the greedy `(\d+)` group at `p`: the whole digit run. */
  function RunValue(t: string, p: nat): nat
    requires p <= |t|
  {
    RunEndDigits(t, p);
    DigitsValue(t[p..RunEnd(t, p)])
  }

  /** The text `_parse_duration` searches: lower-cased and stripped. */
  function DurationText(s: string): string {
    Strip(Lower(s))
  }

  /**
    The number `_parse_duration` takes from its prepared text: the first
    digit run followed by optional whitespace and "d" (so "10 days" and
    "10d"), else the first digit run, else 0.
   */
  function DurationOf(t: string): nat {
    match FindDays(t, 0)
    case Some(p) => RunValue(t, p)
    case None =>
      match FindDigit(t, 0)
      case Some(p) => RunValue(t, p)
      case None => 0
  }

  /** `_parse_duration`: a missing or empty text is 0 days. */
  function ParseDuration(s: Option<string>): nat {
    if s.None? || s.value == "" then 0 else DurationOf(DurationText(s.value))
  }

  lemma {:induction false} RunEndOfDigits(ds: string, rest: string, i: nat)
    requires AllDigits(ds) && i <= |ds|
    requires rest == [] || !IsDigit(rest[0])
    ensures RunEnd(ds + rest, i) == |ds|
    decreases |ds| - i
  {
    if i < |ds| {
      RunEndOfDigits(ds, rest, i + 1);
    }
  }

  lemma LowerDaysText(n: nat)
    ensures Lower(NatToString(n) + " days") == NatToString(n) + " days"
  {
    LowerFixed(NatToString(n) + " days");
  }

  lemma DaysTextRun(ds: string)
    requires |ds| >= 1 && AllDigits(ds)
    ensures RunEnd(ds + " days", 0) == |ds|
    ensures RunValue(ds + " days", 0) == DigitsValue(ds)
  {
    RunEndOfDigits(ds, " days", 0);
    assert (ds + " days")[0..|ds|] == ds;
  }

  lemma DaysTextAt(ds: string)
    requires |ds| >= 1 && AllDigits(ds)
    ensures FindDays(ds + " days", 0) == Some(0)
    ensures RunValue(ds + " days", 0) == DigitsValue(ds)
  {
    var t := ds + " days";
    DaysTextRun(ds);
    assert t[|ds|] == ' ' && t[|ds| + 1] == 'd';
    assert SkipSpaces(t, |ds| + 1) == |ds| + 1;
    assert DaysAt(t, 0);
  }

  /** A duration written as "<n> days" is read back as n. */
  lemma DurationDaysRoundTrip(n: nat)
    ensures ParseDuration(Some(NatToString(n) + " days")) == n
  {
    var t := NatToString(n) + " days";
    LowerDaysText(n);
    StripSpaceFree(t);
    DaysTextAt(NatToString(n));
    assert DurationOf(DurationText(t)) == n;
  }

  lemma ShortTextFindDays(t: string)
    requires t == "2, 10d"
    ensures FindDays(t, 0) == Some(3) && RunValue(t, 3) == 10
  {
    assert RunEnd(t, 0) == 1 && SkipSpaces(t, 1) == 1;
    assert RunEnd(t, 3) == 5 by {
      assert RunEnd(t, 5) == 5;
    }
    assert SkipSpaces(t, 5) == 5;
    assert FindDays(t, 3) == Some(3);
    assert !DaysAt(t, 2) && FindDays(t, 2) == Some(3);
    assert !DaysAt(t, 1) && FindDays(t, 1) == Some(3);
    assert !DaysAt(t, 0);
    var ten := t[3..5];
    assert ten == "10" && ten[..1] == "1" && ten[..1][..0] == "";
    assert DigitsValue(ten) == DigitsValue("1") * 10 + DigitValue('0');
  }

  /** A digit run not followed by "d" loses to a later one that is: "2, 10d" is 10 days, not 2. */
  lemma DurationPrefersDays()
    ensures ParseDuration(Some("2, 10d")) == 10
  {
    var t := "2, 10d";
    LowerFixed(t);
    StripSpaceFree(t);
    ShortTextFindDays(t);
  }
}
