/**
  The language-model client (core/llm_client.py): cutting the JSON span out
  of a reply, reading the content out of a chat-completions response, the
  OpenAI-then-local fallback with its three parse attempts, and the shape
  normalisation of a table-chunk result.  The HTTP transport and the two
  decoders (`json.loads`, `ast.literal_eval`) are parameters.
 */
module LlmClient {
  import opened Wrappers
  import opened Chars
  import opened Values

  // ---------------------------------------------------------------------------
  // _clean_and_extract_json
  // ---------------------------------------------------------------------------

  /** Position of the last `c` in `t`. */
  function LastIndex(t: string, c: char): (r: Option<nat>)
    ensures r.Some? ==> r.value < |t| && t[r.value] == c
  {
    if t == [] then None
    else if t[|t| - 1] == c then Some(|t| - 1)
    else LastIndex(t[..|t| - 1], c)
  }

  lemma {:induction false} LastIndexIsLast(t: string, c: char)
    ensures LastIndex(t, c).None? ==> c !in t
    ensures LastIndex(t, c).Some? ==> forall k :: LastIndex(t, c).value < k < |t| ==> t[k] != c
  {
    if t != [] && t[|t| - 1] != c {
      var p := t[..|t| - 1];
      LastIndexIsLast(p, c);
      assert forall k :: 0 <= k < |p| ==> t[k] == p[k];
    }
  }

  function Closer(open: char): char {
    if open == '{' then '}' else ']'
  }

  predicate IsOpener(c: char) {
    c == '{' || c == '['
  }

  /** The pattern `\{.*\}|\[.*\]` can start at `i`: an opener with a closer of its kind after it. */
  predicate StartsSpan(t: string, i: nat)
    requires i < |t|
  {
    IsOpener(t[i]) && LastIndex(t, Closer(t[i])).Some? && LastIndex(t, Closer(t[i])).value > i
  }

  /**
    `re.search(r"(\{.*\}|\[.*\])", t, re.DOTALL)` from position `i`: the first
    position a span can start at, and the end just past the last closer of the
    same kind (the greedy `.*` runs to it).
   */
  function SpanFrom(t: string, i: nat): (r: Option<(nat, nat)>)
    ensures r.Some? ==> i <= r.value.0 < r.value.1 <= |t|
    decreases |t| - i
  {
    if i >= |t| then None
    else if StartsSpan(t, i) then Some((i, LastIndex(t, Closer(t[i])).value + 1))
    else SpanFrom(t, i + 1)
  }

  /** `_clean_and_extract_json`: the stripped reply, cut down to its JSON span when it has one. */
  function CleanAndExtractJson(content: string): string {
    var t := Strip(content);
    var m := SpanFrom(t, 0);
    if m.Some? then t[m.value.0..m.value.1] else t
  }

  /** The span found is the leftmost possible one, opened and closed by the same kind of bracket, and closed by the last such bracket. */
  lemma {:induction false} SpanFromLeftmost(t: string, i: nat)
    ensures var r := SpanFrom(t, i);
      && (r.Some? ==>
            && StartsSpan(t, r.value.0)
            && t[r.value.1 - 1] == Closer(t[r.value.0])
            && (forall k :: r.value.1 <= k < |t| ==> t[k] != Closer(t[r.value.0]))
            && (forall k :: i <= k < r.value.0 ==> !StartsSpan(t, k)))
      && (r.None? ==> forall k :: i <= k < |t| ==> !StartsSpan(t, k))
    decreases |t| - i
  {
    if i < |t| {
      if StartsSpan(t, i) {
        LastIndexIsLast(t, Closer(t[i]));
      } else {
        SpanFromLeftmost(t, i + 1);
      }
    }
  }

  /**
    What `_clean_and_extract_json` returns: either a leftmost greedy span of
    the stripped text, from an opener to the last closer of its kind, or the
    stripped text itself when no opener has a matching closer after it.
   */
  lemma CleanAndExtractJsonSpec(content: string)
    ensures var t := Strip(content);
      var r := CleanAndExtractJson(content);
      || (&& (forall k :: 0 <= k < |t| ==> !StartsSpan(t, k))
          && r == t)
      || (exists a, b :: 0 <= a < b <= |t| && r == t[a..b]
            && StartsSpan(t, a) && t[b - 1] == Closer(t[a])
            && (forall k :: b <= k < |t| ==> t[k] != Closer(t[a]))
            && (forall k :: 0 <= k < a ==> !StartsSpan(t, k)))
  {
    var t := Strip(content);
    SpanFromLeftmost(t, 0);
    var m := SpanFrom(t, 0);
    if m.Some? {
      var a, b := m.value.0, m.value.1;
      assert CleanAndExtractJson(content) == t[a..b];
    }
  }

  /** A span from an opener to the last closer of its kind is its own span. */
  lemma SpanOfSpan(t: string, a: nat, b: nat)
    requires a < b <= |t| && StartsSpan(t, a) && t[b - 1] == Closer(t[a])
    requires forall k :: b <= k < |t| ==> t[k] != Closer(t[a])
    ensures var r := t[a..b]; |r| >= 2 && StartsSpan(r, 0) && SpanFrom(r, 0) == Some((0, |r|))
  {
    var r := t[a..b];
    var c := Closer(t[a]);
    LastIndexIsLast(t, c);
    assert LastIndex(t, c).value == b - 1;
    assert |r| >= 2;
    assert LastIndex(r, c) == Some(|r| - 1);
  }

  /** Cleaning a cleaned reply changes nothing. */
  lemma CleanAndExtractJsonIdempotent(content: string)
    ensures CleanAndExtractJson(CleanAndExtractJson(content)) == CleanAndExtractJson(content)
  {
    var t := Strip(content);
    StripStable(content);
    SpanFromLeftmost(t, 0);
    var m := SpanFrom(t, 0);
    if m.Some? {
      var a, b := m.value.0, m.value.1;
      var r := t[a..b];
      SpanOfSpan(t, a, b);
      assert !IsSpace(r[0]) && !IsSpace(r[|r| - 1]);
      StripSpaceFree(r);
      assert r[0..|r|] == r;
    }
  }

  // ---------------------------------------------------------------------------
  // _make_llm_request
  // ---------------------------------------------------------------------------

  /**
    What the transport gives back: a failure (connection error, timeout,
    error status, a body that is not JSON) or the decoded JSON body.
   */
  datatype Response = TransportError | Body(raw: Value)

  /**
    `raw["choices"][0]["message"]["content"]`, or None where the body has no
    non-empty "choices", where a lookup raises (a non-dict, a missing key, a
    non-list "choices"), or where the content is JSON null.
   */
  function ContentOf(raw: Value): Option<Value> {
    if !raw.VDict? then None
    else
      var choices := Get(raw.fields, "choices");
      if choices.None? || !Truthy(choices.value) || !choices.value.VList? then None
      else
        var first := choices.value.items[0];
        if !first.VDict? then None
        else
          var message := Get(first.fields, "message");
          if message.None? || !message.value.VDict? then None
          else
            var content := Get(message.value.fields, "content");
            if content.None? || content.value.VNone? then None else content
  }

  /** `_make_llm_request`: the content of the reply, or None on any failure. */
  function MakeLlmRequest(resp: Response): Option<Value> {
    if resp.TransportError? then None else ContentOf(resp.raw)
  }

  /** No reply and no usable "choices" both give None; a well-formed reply gives its content. */
  lemma MakeLlmRequestCases(resp: Response)
    ensures resp.TransportError? ==> MakeLlmRequest(resp).None?
    ensures resp.Body? && !resp.raw.VDict? ==> MakeLlmRequest(resp).None?
    ensures resp.Body? && resp.raw.VDict? ==>
      var choices := Get(resp.raw.fields, "choices");
      (choices.None? || !choices.value.VList? || choices.value.items == []) ==> MakeLlmRequest(resp).None?
    ensures MakeLlmRequest(resp).Some? ==> !MakeLlmRequest(resp).value.VNone?
  {
  }

  /** A reply `{"choices": [{"message": {"content": s}}]}` yields `s`. */
  lemma MakeLlmRequestContent(s: string)
    ensures MakeLlmRequest(Body(VDict([("choices", VList([VDict([("message", VDict([("content", VStr(s))]))])]))]))) == Some(VStr(s))
  {
    var msg := VDict([("content", VStr(s))]);
    var first := VDict([("message", msg)]);
    var raw := VDict([("choices", VList([first]))]);
    assert Get(raw.fields, "choices") == Some(VList([first]));
    assert Get(first.fields, "message") == Some(msg);
    assert Get(msg.fields, "content") == Some(VStr(s));
  }

  // ---------------------------------------------------------------------------
  // ask_json
  // ---------------------------------------------------------------------------

  datatype Endpoint = OpenAI | Local

  /** The two decoders, as partial functions: None where they raise the error `ask_json` catches. */
  datatype Decoders = Decoders(jsonLoads: string -> Option<Value>, literalEval: string -> Option<Value>)

  /** What a call returns, or that it raises. */
  datatype Outcome = Returned(v: Value) | Raised

  /** The endpoints `ask_json` calls, in order. */
  function CallsMade(apiKey: bool, respond: Endpoint -> Response): seq<Endpoint> {
    if apiKey && MakeLlmRequest(respond(OpenAI)).Some? then [OpenAI]
    else if apiKey then [OpenAI, Local]
    else [Local]
  }

  /** The content `ask_json` goes on with: OpenAI's when there is a key and it answered, else the local one's. */
  function ChosenContent(apiKey: bool, respond: Endpoint -> Response): Option<Value> {
    var first := if apiKey then MakeLlmRequest(respond(OpenAI)) else None;
    if first.Some? then first else MakeLlmRequest(respond(Local))
  }

  /** The three parse attempts in order: strict JSON, JSON with newlines made spaces, a Python literal. */
  function ParseAttempts(cleaned: string, d: Decoders): Option<Value> {
    var strict := d.jsonLoads(cleaned);
    if strict.Some? then strict
    else
      var flat := d.jsonLoads(ReplaceChar(cleaned, '\n', " "));
      if flat.Some? then flat else d.literalEval(cleaned)
  }

  /** `ask_json`: `{}` without content; `.strip()` raises on content that is not a string; else the first parse that succeeds, or `{}`. */
  function AskJsonResult(apiKey: bool, respond: Endpoint -> Response, d: Decoders): Outcome {
    var content := ChosenContent(apiKey, respond);
    if content.None? then Returned(VDict([]))
    else if !content.value.VStr? then Raised
    else
      var parsed := ParseAttempts(CleanAndExtractJson(content.value.s), d);
      if parsed.Some? then Returned(parsed.value) else Returned(VDict([]))
  }

  /** `ask_json`, reassigning the content through the fallback chain; `calls` records the requests made. */
  method AskJson(apiKey: bool, respond: Endpoint -> Response, d: Decoders) returns (out: Outcome, calls: seq<Endpoint>)
    ensures out == AskJsonResult(apiKey, respond, d)
    ensures calls == CallsMade(apiKey, respond)
  {
    var content: Option<Value> := None;
    calls := [];
    if apiKey {
      content := MakeLlmRequest(respond(OpenAI));
      calls := calls + [OpenAI];
    }
    if content.None? {
      content := MakeLlmRequest(respond(Local));
      calls := calls + [Local];
    }
    if content.None? {
      return Returned(VDict([])), calls;
    }
    if !content.value.VStr? {
      return Raised, calls;
    }
    var cleaned := CleanAndExtractJson(content.value.s);
    var r := d.jsonLoads(cleaned);
    if r.Some? {
      return Returned(r.value), calls;
    }
    r := d.jsonLoads(ReplaceChar(cleaned, '\n', " "));
    if r.Some? {
      return Returned(r.value), calls;
    }
    r := d.literalEval(cleaned);
    if r.Some? {
      return Returned(r.value), calls;
    }
    out := Returned(VDict([]));
  }

  /**
    OpenAI is called exactly when a key is set, first; the local endpoint is
    called exactly when there is no key or OpenAI gave no content; and the
    content used is that of the last endpoint called.
   */
  lemma CallsFallback(apiKey: bool, respond: Endpoint -> Response)
    ensures var calls := CallsMade(apiKey, respond);
      && (OpenAI in calls <==> apiKey)
      && (apiKey ==> calls[0] == OpenAI)
      && (Local in calls <==> !apiKey || MakeLlmRequest(respond(OpenAI)).None?)
      && ChosenContent(apiKey, respond) == MakeLlmRequest(respond(calls[|calls| - 1]))
  {
  }

  /** With no content from either endpoint the answer is `{}`. */
  lemma AskJsonNoContent(apiKey: bool, respond: Endpoint -> Response, d: Decoders)
    requires !apiKey || MakeLlmRequest(respond(OpenAI)).None?
    requires MakeLlmRequest(respond(Local)).None?
    ensures AskJsonResult(apiKey, respond, d) == Returned(VDict([]))
  {
  }

  /**
    The parsers are tried in order and the first success wins: strict JSON
    when it parses, then JSON with newlines flattened, then a literal; `{}`
    when none parses.
   */
  lemma ParseAttemptsOrder(cleaned: string, d: Decoders)
    ensures d.jsonLoads(cleaned).Some? ==> ParseAttempts(cleaned, d) == d.jsonLoads(cleaned)
    ensures d.jsonLoads(cleaned).None? && d.jsonLoads(ReplaceChar(cleaned, '\n', " ")).Some? ==>
      ParseAttempts(cleaned, d) == d.jsonLoads(ReplaceChar(cleaned, '\n', " "))
    ensures d.jsonLoads(cleaned).None? && d.jsonLoads(ReplaceChar(cleaned, '\n', " ")).None? ==>
      ParseAttempts(cleaned, d) == d.literalEval(cleaned)
    ensures ParseAttempts(cleaned, d).Some? <==>
      d.jsonLoads(cleaned).Some? || d.jsonLoads(ReplaceChar(cleaned, '\n', " ")).Some? || d.literalEval(cleaned).Some?
  {
  }

  /** A string reply is parsed after cleaning; the answer is the parse or `{}`. */
  lemma AskJsonStringContent(apiKey: bool, respond: Endpoint -> Response, d: Decoders, s: string)
    requires ChosenContent(apiKey, respond) == Some(VStr(s))
    ensures var p := ParseAttempts(CleanAndExtractJson(s), d);
      AskJsonResult(apiKey, respond, d) == if p.Some? then Returned(p.value) else Returned(VDict([]))
  {
  }

  // ---------------------------------------------------------------------------
  // parse_table_chunk
  // ---------------------------------------------------------------------------

  /** The rows as CSV-like text: cells joined by ", ", rows by newlines. */
  function CsvBlock(rows: seq<seq<string>>): string {
    Join(seq(|rows|, i requires 0 <= i < |rows| => Join(rows[i], ", ")), "\n")
  }

  /**
    The prompt `parse_table_chunk` sends: the given one when it is non-empty;
    else one built from the rows when there are any; else none, and no call
    is made.
   */
  function ChunkPrompt(prompt: Option<string>, rows: Option<seq<seq<string>>>): Option<string> {
    if prompt.Some? && prompt.value != "" then prompt
    else if rows.Some? && rows.value != [] then
      Some("Extract tasks to JSON: {'tasks': [{'task_id': int, 'task_name': str, ...}]}\nData:\n" + CsvBlock(rows.value))
    else None
  }

  function EmptyTasks(): Value {
    VDict([("tasks", VList([]))])
  }

  /**
    The result shape: a list is wrapped under "tasks"; a dict with "tasks" is
    kept; a string is kept when it contains "tasks" (Python's `in` on str);
    other dicts and strings give `{"tasks": []}`; `in` raises on anything else.
   */
  function NormalizeChunkResult(result: Value): Outcome {
    match result
    case VList(_) => Returned(VDict([("tasks", result)]))
    case VDict(fields) => if Get(fields, "tasks").Some? then Returned(result) else Returned(EmptyTasks())
    case VStr(s) => if Contains(s, "tasks") then Returned(result) else Returned(EmptyTasks())
    case _ => Raised
  }

  /** `parse_table_chunk`, with `ask_json` as the parameter `ask`. */
  function ParseTableChunk(prompt: Option<string>, rows: Option<seq<seq<string>>>, ask: string -> Outcome): Outcome {
    var p := ChunkPrompt(prompt, rows);
    if p.None? then Returned(EmptyTasks())
    else
      var result := ask(p.value);
      if result.Raised? then Raised else NormalizeChunkResult(result.v)
  }

  /** Without a prompt and without rows no call is made and the answer is `{"tasks": []}`. */
  lemma ParseTableChunkNoInput(prompt: Option<string>, rows: Option<seq<seq<string>>>, ask: string -> Outcome)
    requires prompt.None? || prompt.value == ""
    requires rows.None? || rows.value == []
    ensures ParseTableChunk(prompt, rows, ask) == Returned(EmptyTasks())
  {
  }

  /**
    Whatever `ask` returns, a successful result is a dict holding "tasks"
    or a string mentioning it; a list comes back wrapped.
   */
  lemma ParseTableChunkShape(prompt: Option<string>, rows: Option<seq<seq<string>>>, ask: string -> Outcome)
    ensures var r := ParseTableChunk(prompt, rows, ask);
      r.Returned? ==>
        || (r.v.VDict? && Get(r.v.fields, "tasks").Some?)
        || (r.v.VStr? && Contains(r.v.s, "tasks"))
    ensures var p := ChunkPrompt(prompt, rows);
      p.Some? && ask(p.value).Returned? && ask(p.value).v.VList? ==>
        ParseTableChunk(prompt, rows, ask) == Returned(VDict([("tasks", ask(p.value).v)]))
  {
    var p := ChunkPrompt(prompt, rows);
    if p.None? {
      assert Get(EmptyTasks().fields, "tasks").Some?;
    } else if ask(p.value).Returned? {
      NormalizedShape(ask(p.value).v);
    }
  }

  /** The shape of one normalised answer. */
  lemma NormalizedShape(v: Value)
    ensures var r := NormalizeChunkResult(v);
      r.Returned? ==>
        || (r.v.VDict? && Get(r.v.fields, "tasks").Some?)
        || (r.v.VStr? && Contains(r.v.s, "tasks"))
  {
    if v.VList? {
      assert Get([("tasks", v)], "tasks").Some?;
    } else {
      assert Get(EmptyTasks().fields, "tasks").Some?;
    }
  }

  /** A non-empty prompt is sent as given; the rows are used only when there is none. */
  lemma ChunkPromptChoice(prompt: Option<string>, rows: Option<seq<seq<string>>>)
    ensures prompt.Some? && prompt.value != "" ==> ChunkPrompt(prompt, rows) == prompt
    ensures (prompt.None? || prompt.value == "") && rows.Some? && rows.value != [] ==>
      var p := ChunkPrompt(prompt, rows).value;
      var data := CsvBlock(rows.value);
      |p| >= |data| && p[|p| - |data|..] == data
  {
  }
}
