/**
 * The tool-use engine: it scans the model's reply for `Action:` and
 * `Action Input: ` lines, pulls JSON objects out of the action input, calls
 * the named tool and feeds its result back as an `Observation: ` turn, until
 * a reply carries no action.
 */
module React {
  import opened Wrappers
  import opened PyText
  import opened PyValue
  import opened OpenApi
  import opened Tools
  import opened Conversation

  // -----------------------------------------------------------------------
  // Finding JSON objects in text.

  /** A number of characters consumed: `raw_decode` never succeeds on
      nothing. */
  type Consumed = n: nat | n >= 1 witness 1

  /** `json.JSONDecoder().raw_decode`: the value decoded from the start of
      the text and the number of characters it took, or `None` where it
      raises ValueError. */
  type Decoder = string -> Option<(Json, Consumed)>

  /** The first `{` at or after `pos`. */
  function NextBrace(text: string, pos: nat): (r: Option<nat>)
    ensures r.Some? ==> pos <= r.value < |text| && text[r.value] == '{'
    ensures r.None? ==> forall j :: pos <= j < |text| ==> text[j] != '{'
    decreases |text| - pos
  {
    if pos >= |text| then None
    else if text[pos] == '{' then Some(pos)
    else NextBrace(text, pos + 1)
  }

  /** `text.find("{", pos)` answers the first `{` at or after `pos`. */
  lemma {:induction false} FindIsNextBrace(text: string, pos: nat)
    requires pos <= |text|
    ensures Find(text, "{", pos) == NextBrace(text, pos)
    decreases |text| - pos
  {
    if pos < |text| {
      assert OccursAt(text, "{", pos) <==> text[pos] == '{' by {
        assert text[pos..pos + 1][0] == text[pos];
        if text[pos] == '{' {
          assert text[pos..pos + 1] == "{";
        }
      }
      if text[pos] != '{' {
        FindIsNextBrace(text, pos + 1);
      }
    } else {
      assert !OccursAt(text, "{", pos);
    }
  }

  /** The values found from `pos` on, each with the index its `{` is at:
      the search resumes after each decoded value and one past each `{`
      where decoding fails. */
  function Decodes(text: string, decode: Decoder, pos: nat): seq<(nat, Json)>
    decreases |text| - pos
  {
    match NextBrace(text, pos)
    case None => []
    case Some(m) =>
      match decode(text[m..])
      case Some(d) => [(m, d.0)] + Decodes(text, decode, m + d.1)
      case None => Decodes(text, decode, m + 1)
  }

  /** `e` records a value decoded at a `{` at or after `pos`. */
  predicate DecodedAt(text: string, decode: Decoder, pos: nat, e: (nat, Json))
  {
    pos <= e.0 < |text| && text[e.0] == '{'
    && decode(text[e.0..]).Some? && decode(text[e.0..]).value.0 == e.1
  }

  /** Where the stretch of text decoded at `e.0` ends. */
  function EndOf(text: string, decode: Decoder, e: (nat, Json)): nat
  {
    if e.0 <= |text| && decode(text[e.0..]).Some? then e.0 + decode(text[e.0..]).value.1 else e.0
  }

  /** Each value found was decoded at a `{` at or after `pos`, and a text
      with no `{` from `pos` on has none. */
  lemma {:induction false} DecodedAtBraces(text: string, decode: Decoder, pos: nat)
    ensures forall k :: 0 <= k < |Decodes(text, decode, pos)| ==>
      DecodedAt(text, decode, pos, Decodes(text, decode, pos)[k])
    ensures (forall j :: pos <= j < |text| ==> text[j] != '{') ==> Decodes(text, decode, pos) == []
    decreases |text| - pos
  {
    var r := Decodes(text, decode, pos);
    match NextBrace(text, pos)
    case None =>
    case Some(m) =>
      match decode(text[m..])
      case Some(d) =>
        var rest := Decodes(text, decode, m + d.1);
        DecodedAtBraces(text, decode, m + d.1);
        assert r == [(m, d.0)] + rest;
        forall k | 1 <= k < |r|
          ensures DecodedAt(text, decode, pos, r[k])
        {
          assert r[k] == rest[k - 1];
          assert DecodedAt(text, decode, m + d.1, rest[k - 1]);
        }
      case None =>
        var rest := Decodes(text, decode, m + 1);
        DecodedAtBraces(text, decode, m + 1);
        forall k | 0 <= k < |r|
          ensures DecodedAt(text, decode, pos, r[k])
        {
          assert DecodedAt(text, decode, m + 1, rest[k]);
        }
  }

  /** The decoded stretches do not overlap: each value is found after the
      end of the one before. */
  lemma {:induction false} DecodedApart(text: string, decode: Decoder, pos: nat)
    ensures forall k, l :: 0 <= k < l < |Decodes(text, decode, pos)| ==>
      EndOf(text, decode, Decodes(text, decode, pos)[k]) <= Decodes(text, decode, pos)[l].0
    decreases |text| - pos
  {
    var r := Decodes(text, decode, pos);
    match NextBrace(text, pos)
    case None =>
    case Some(m) =>
      match decode(text[m..])
      case Some(d) =>
        var rest := Decodes(text, decode, m + d.1);
        DecodedApart(text, decode, m + d.1);
        DecodedAtBraces(text, decode, m + d.1);
        assert r == [(m, d.0)] + rest;
        assert EndOf(text, decode, r[0]) == m + d.1;
        forall k, l | 0 <= k < l < |r|
          ensures EndOf(text, decode, r[k]) <= r[l].0
        {
          assert r[l] == rest[l - 1];
          assert DecodedAt(text, decode, m + d.1, rest[l - 1]);
          if k > 0 {
            assert r[k] == rest[k - 1];
          }
        }
      case None =>
        DecodedApart(text, decode, m + 1);
  }

  /** The second components, in order. */
  function Values(ds: seq<(nat, Json)>): (r: seq<Json>)
    ensures |r| == |ds|
  {
    if ds == [] then [] else [ds[0].1] + Values(ds[1..])
  }

  lemma {:induction false} ValuesSnoc(ds: seq<(nat, Json)>, d: (nat, Json))
    ensures Values(ds + [d]) == Values(ds) + [d.1]
    decreases |ds|
  {
    if ds != [] {
      assert (ds + [d])[1..] == ds[1..] + [d];
      ValuesSnoc(ds[1..], d);
    }
  }

  /** What `extract_json_objects` yields. */
  function Objects(text: string, decode: Decoder): seq<Json>
  {
    Values(Decodes(text, decode, 0))
  }

  /** One iteration of `extract_json_objects`' loop where `text.find("{", pos)`
      answers `m` and a value `d` is decoded there: the values found so far,
      `found`, grow by it, and the search resumes after it. */
  lemma ExtractDecoded(text: string, decode: Decoder, pos: nat, m: nat, found: seq<(nat, Json)>, d: (Json, Consumed))
    requires NextBrace(text, pos) == Some(m) && decode(text[m..]) == Some(d)
    requires Decodes(text, decode, 0) == found + Decodes(text, decode, pos)
    ensures Decodes(text, decode, 0) == (found + [(m, d.0)]) + Decodes(text, decode, m + d.1)
    ensures Values(found + [(m, d.0)]) == Values(found) + [d.0]
  {
    var rest := Decodes(text, decode, m + d.1);
    assert Decodes(text, decode, pos) == [(m, d.0)] + rest;
    Regroup(found, [(m, d.0)], rest);
    ValuesSnoc(found, (m, d.0));
  }

  /** One iteration where nothing decodes at `m`: the search resumes one
      past it. */
  lemma ExtractSkipped(text: string, decode: Decoder, pos: nat, m: nat, found: seq<(nat, Json)>)
    requires NextBrace(text, pos) == Some(m) && decode(text[m..]).None?
    requires Decodes(text, decode, 0) == found + Decodes(text, decode, pos)
    ensures Decodes(text, decode, 0) == found + Decodes(text, decode, m + 1)
  {
  }

  /** `extract_json_objects`: the while loop over `pos`. */
  method ExtractJsonObjects(text: string, decode: Decoder) returns (objects: seq<Json>)
    ensures objects == Objects(text, decode)
  {
    objects := [];
    var pos := 0;
    ghost var found: seq<(nat, Json)> := [];
    while true
      invariant Decodes(text, decode, 0) == found + Decodes(text, decode, pos)
      invariant objects == Values(found)
      decreases |text| - pos
    {
      var start := if pos <= |text| then Find(text, "{", pos) else None;
      if pos <= |text| {
        FindIsNextBrace(text, pos);
      }
      if start.None? {
        assert found + [] == found;
        break;
      }
      var m := start.value;
      var decoded := decode(text[m..]);
      if decoded.Some? {
        ExtractDecoded(text, decode, pos, m, found, decoded.value);
        objects := objects + [decoded.value.0];
        found := found + [(m, decoded.value.0)];
        pos := m + decoded.value.1;
      } else {
        ExtractSkipped(text, decode, pos, m, found);
        pos := m + 1;
      }
    }
  }

  /** A text that is one whole object from its first character on yields
      exactly that object, whatever braces are nested inside it. */
  lemma WholeTextObject(text: string, decode: Decoder, obj: Json)
    requires |text| > 0 && text[0] == '{' && decode(text) == Some((obj, |text|))
    ensures Objects(text, decode) == [obj]
  {
    assert text[0..] == text;
    DecodedAtBraces(text, decode, |text|);
    assert Decodes(text, decode, 0) == [(0, obj)];
  }

  /** A decoded object followed by text without `{` is the only object found. */
  lemma ObjectThenPlainText(text: string, decode: Decoder, obj: Json, n: nat)
    requires |text| > 0 && text[0] == '{' && decode(text) == Some((obj, n))
    requires forall j :: n <= j < |text| ==> text[j] != '{'
    ensures Objects(text, decode) == [obj]
  {
    assert text[0..] == text;
    DecodedAtBraces(text, decode, n);
    assert Decodes(text, decode, 0) == [(0, obj)];
  }

  // -----------------------------------------------------------------------
  // Reading the action and its input out of a reply.

  /** The variables `parse_language` updates line by line. */
  datatype LineState = LineState(action: Option<string>, argsStr: string, ingesting: bool)

  const Start: LineState := LineState(None, "", false)

  /** How the line loop reads one line: an `Action:` line with the stripped
      text after its marker, an `Action Input: ` line with the stripped text
      after its marker, or any other line, stripped. */
  datatype LineKind = ActionLine(action: string) | InputLine(input: string) | OtherLine(text: string)

  /** The loop's `if`/`elif` tests on one line. On a line starting with
      `Action:` the text after its first `:` is `line[7..]`, and on a line
      starting with `Action Input: ` the text after its first `": "` is
      `line[14..]` (lemma `MarkerSplits`). */
  function Classify(line: string): LineKind
  {
    if StartsWith(line, "Action:") then ActionLine(Strip(line[7..]))
    else if StartsWith(line, "Action Input: ") then InputLine(Strip(line[14..]))
    else OtherLine(Strip(line))
  }

  /** A line that starts with `Action Input: ` does not start with `Action:`. */
  lemma InputLineIsNotActionLine(line: string)
    requires StartsWith(line, "Action Input: ")
    ensures !StartsWith(line, "Action:")
  {
    assert line[6] == "Action Input: "[6] == ' ';
  }

  /** Each marker is recognised exactly on the lines that start with it. */
  lemma ClassifyFacts(line: string)
    ensures Classify(line).ActionLine? <==> StartsWith(line, "Action:")
    ensures Classify(line).InputLine? <==> StartsWith(line, "Action Input: ")
  {
    if StartsWith(line, "Action Input: ") {
      InputLineIsNotActionLine(line);
    }
  }

  /** One iteration of the line loop. */
  function ConsumeLine(st: LineState, kind: LineKind): LineState
  {
    match kind
    case ActionLine(action) => st.(action := Some(action))
    case InputLine(input) => st.(ingesting := true, argsStr := input)
    case OtherLine(text) => if st.ingesting then st.(argsStr := st.argsStr + text) else st
  }

  /** The line loop over the first `n` lines, in order. */
  function Scan(kinds: seq<LineKind>, n: nat): LineState
    requires n <= |kinds|
    decreases n
  {
    if n == 0 then Start else ConsumeLine(Scan(kinds, n - 1), kinds[n - 1])
  }

  function Lines(input: string): seq<string>
  {
    Split(Strip(input), "\n")
  }

  function Kinds(lines: seq<string>): (kinds: seq<LineKind>)
    ensures |kinds| == |lines| && forall k :: 0 <= k < |lines| ==> kinds[k] == Classify(lines[k])
  {
    seq(|lines|, k requires 0 <= k < |lines| => Classify(lines[k]))
  }

  /** The last of `objects`, or `JNull` (Python's `None`) when there is none. */
  function LastOrNull(objects: seq<Json>): Json
  {
    if objects != [] then objects[|objects| - 1] else JNull
  }

  /** The action input: the last value decoded from the accumulated text
      unless it is `None` (no value was found, or the value found was
      `null`), and the text itself otherwise. */
  function ArgsOf(argsStr: string, decode: Decoder): (r: Json)
    ensures Objects(argsStr, decode) == [] ==> r == JStr(argsStr)
    ensures Objects(argsStr, decode) != [] && Objects(argsStr, decode)[|Objects(argsStr, decode)| - 1] != JNull ==>
      r == Objects(argsStr, decode)[|Objects(argsStr, decode)| - 1]
    ensures Objects(argsStr, decode) != [] && Objects(argsStr, decode)[|Objects(argsStr, decode)| - 1] == JNull ==>
      r == JStr(argsStr)
  {
    var argsDict := LastOrNull(Objects(argsStr, decode));
    if argsDict != JNull then argsDict else JStr(argsStr)
  }

  /** What `parse_language` returns: `{"action": ..., "args": ...}`. */
  datatype Parsed = Parsed(action: Option<string>, args: Json)

  function ParsedOf(input: string, decode: Decoder): Parsed
  {
    var kinds := Kinds(Lines(input));
    var st := Scan(kinds, |kinds|);
    Parsed(st.action, ArgsOf(st.argsStr, decode))
  }

  /** `parse_language`: the line loop, then the loop over the found objects
      that keeps the last one. */
  method ParseLanguage(input: string, decode: Decoder) returns (parsed: Parsed)
    ensures parsed == ParsedOf(input, decode)
  {
    var lines := Split(Strip(input), "\n");
    var action, argsStr := ReadLines(lines);
    var objects := ExtractJsonObjects(argsStr, decode);
    var args := LastObjectOr(objects, argsStr);
    parsed := Parsed(action, args);
  }

  /** The line loop of `parse_language`. */
  method ReadLines(lines: seq<string>) returns (action: Option<string>, argsStr: string)
    ensures action == Scan(Kinds(lines), |lines|).action
    ensures argsStr == Scan(Kinds(lines), |lines|).argsStr
  {
    ghost var kinds := Kinds(lines);
    action := None;
    argsStr := "";
    var ingesting := false;
    for i := 0 to |lines|
      invariant LineState(action, argsStr, ingesting) == Scan(kinds, i)
    {
      assert kinds[i] == Classify(lines[i]);
      action, argsStr, ingesting := ReadLine(action, argsStr, ingesting, lines[i]);
    }
  }

  /** The body of the line loop: an `Action:` line sets the action, an
      `Action Input: ` line starts the input, and any other line extends an
      input already started. */
  method ReadLine(action: Option<string>, argsStr: string, ingesting: bool, line: string)
    returns (action': Option<string>, argsStr': string, ingesting': bool)
    ensures LineState(action', argsStr', ingesting') == ConsumeLine(LineState(action, argsStr, ingesting), Classify(line))
  {
    action', argsStr', ingesting' := action, argsStr, ingesting;
    if StartsWith(line, "Action:") {
      action' := Some(Strip(line[7..]));
    } else if StartsWith(line, "Action Input: ") {
      ingesting' := true;
      argsStr' := Strip(line[14..]);
    } else if ingesting {
      argsStr' := argsStr + Strip(line);
    }
  }

  /** The loop of `parse_language` over the found objects, then the test
      `args_dict != None`: the last value unless it is `None`, and otherwise
      the text itself. */
  method LastObjectOr(objects: seq<Json>, argsStr: string) returns (args: Json)
    ensures objects == [] ==> args == JStr(argsStr)
    ensures objects != [] && objects[|objects| - 1] != JNull ==> args == objects[|objects| - 1]
    ensures objects != [] && objects[|objects| - 1] == JNull ==> args == JStr(argsStr)
  {
    var argsDict: Json := JNull;
    for i := 0 to |objects|
      invariant argsDict == LastOrNull(objects[..i])
    {
      argsDict := objects[i];
    }
    assert objects[..|objects|] == objects;
    args := if argsDict != JNull then argsDict else JStr(argsStr);
  }

  /** `line.split(":", 1)[1]` and `line.split(": ", 1)[1]` on the marker
      lines are the text after the markers. */
  lemma MarkerSplits(line: string)
    ensures StartsWith(line, "Action:") ==> AfterFirst(line, ":") == Some(line[7..])
    ensures StartsWith(line, "Action Input: ") ==> AfterFirst(line, ": ") == Some(line[14..])
  {
    if StartsWith(line, "Action:") {
      var marker := "Action:";
      forall j | 0 <= j < |marker| - 1
        ensures !OccursAt(marker, ":", j)
      {
        assert marker[j..j + 1][0] == marker[j] != ':';
      }
      AfterFirstOfPrefix(line, marker, ":");
    }
    if StartsWith(line, "Action Input: ") {
      var marker := "Action Input: ";
      forall j | 0 <= j < |marker| - 2
        ensures !OccursAt(marker, ": ", j)
      {
        assert marker[j..j + 2][0] == marker[j] != ':';
      }
      AfterFirstOfPrefix(line, marker, ": ");
    }
  }

  /** Among the first `n` lines, line `i` is an `Action:` line and no later one is. */
  predicate LastActionLine(kinds: seq<LineKind>, i: nat, n: nat)
  {
    i < n <= |kinds| && kinds[i].ActionLine?
    && forall j :: i < j < n ==> !kinds[j].ActionLine?
  }

  /** The action is read from the last `Action:` line, and there is none
      exactly when no line is an `Action:` line. */
  lemma {:induction false} ActionFromLastActionLine(kinds: seq<LineKind>, n: nat)
    requires n <= |kinds|
    ensures Scan(kinds, n).action.None? <==> forall j :: 0 <= j < n ==> !kinds[j].ActionLine?
    ensures forall i: nat :: LastActionLine(kinds, i, n) ==> Scan(kinds, n).action == Some(kinds[i].action)
    decreases n
  {
    if n > 0 {
      ActionFromLastActionLine(kinds, n - 1);
      if !kinds[n - 1].ActionLine? {
        forall i: nat | LastActionLine(kinds, i, n)
          ensures LastActionLine(kinds, i, n - 1)
        {
        }
      }
    }
  }

  /** Among the first `n` lines, line `i` is an `Action Input: ` line and no later one is. */
  predicate LastInputLine(kinds: seq<LineKind>, i: nat, n: nat)
  {
    i < n <= |kinds| && kinds[i].InputLine?
    && forall j :: i < j < n ==> !kinds[j].InputLine?
  }

  /** The texts of the other lines among lines `a` to `b - 1`, concatenated
      without separator. */
  function Appended(kinds: seq<LineKind>, a: nat, b: nat): string
    requires a <= b <= |kinds|
    decreases b - a
  {
    if a == b then ""
    else Appended(kinds, a, b - 1) + (if kinds[b - 1].OtherLine? then kinds[b - 1].text else "")
  }

  /** The action input is the text of the last `Action Input: ` line,
      followed by the text of every later line that is not an `Action:`
      line. */
  lemma {:induction false} InputFromLastInputLine(kinds: seq<LineKind>, i: nat, n: nat)
    requires LastInputLine(kinds, i, n)
    ensures Scan(kinds, n).ingesting
    ensures Scan(kinds, n).argsStr == kinds[i].input + Appended(kinds, i + 1, n)
    decreases n
  {
    if i < n - 1 {
      InputFromLastInputLine(kinds, i, n - 1);
      var extra := if kinds[n - 1].OtherLine? then kinds[n - 1].text else "";
      assert (kinds[i].input + Appended(kinds, i + 1, n - 1)) + extra
        == kinds[i].input + (Appended(kinds, i + 1, n - 1) + extra);
    }
  }

  /** Without an `Action Input: ` line the input text stays empty. */
  lemma {:induction false} NoInputLine(kinds: seq<LineKind>, n: nat)
    requires n <= |kinds|
    requires forall j :: 0 <= j < n ==> !kinds[j].InputLine?
    ensures Scan(kinds, n).argsStr == "" && !Scan(kinds, n).ingesting
    decreases n
  {
    if n > 0 {
      NoInputLine(kinds, n - 1);
    }
  }

  /** An input text without `{` is passed on as the text itself. */
  lemma PlainTextArgs(argsStr: string, decode: Decoder)
    requires '{' !in argsStr
    ensures ArgsOf(argsStr, decode) == JStr(argsStr)
  {
    assert forall j :: 0 <= j < |argsStr| ==> argsStr[j] != '{' by {
      forall j | 0 <= j < |argsStr|
        ensures argsStr[j] != '{'
      {
        assert argsStr[j] in argsStr;
      }
    }
    DecodedAtBraces(argsStr, decode, 0);
  }

  // -----------------------------------------------------------------------
  // The system prompt's tool listing.

  function ToolLine(t: Tool): string
  {
    "- " + t.Name() + ": " + t.Description()
  }

  /** `"\n".join(f"- {tool.name}: {tool.description}" for tool in tools)` */
  function ToolDescriptions(tools: seq<Tool>): string
  {
    Join(seq(|tools|, k requires 0 <= k < |tools| => ToolLine(tools[k])), "\n")
  }

  /** `", ".join(tool.name for tool in tools)` */
  function ToolNameList(tools: seq<Tool>): string
  {
    Join(seq(|tools|, k requires 0 <= k < |tools| => tools[k].Name()), ", ")
  }

  /** The listing has one line per tool, in tool order, as long as no tool
      name or description spans lines. */
  lemma ToolDescriptionLines(tools: seq<Tool>)
    requires |tools| >= 1
    requires forall k :: 0 <= k < |tools| ==> '\n' !in tools[k].Name() && '\n' !in tools[k].Description()
    ensures Split(ToolDescriptions(tools), "\n") == seq(|tools|, k requires 0 <= k < |tools| => ToolLine(tools[k]))
  {
    var lines := seq(|tools|, k requires 0 <= k < |tools| => ToolLine(tools[k]));
    forall k | 0 <= k < |lines|
      ensures '\n' !in lines[k]
    {
      assert lines[k] == "- " + tools[k].Name() + ": " + tools[k].Description();
    }
    SplitJoinChar(lines, '\n');
  }

  /** The two tools the engine is built with are listed as `EndpointDetails, Request`. */
  lemma DefaultToolNames(openapiJson: Json, relay: Json -> Result<Json, PyError>)
    ensures ToolNameList([EndpointDetailsTool(openapiJson), RequestTool(relay)]) == "EndpointDetails, Request"
  {
    var names := seq(2, k requires 0 <= k < 2 => [EndpointDetailsTool(openapiJson), RequestTool(relay)][k].Name());
    assert names == ["EndpointDetails", "Request"];
    assert names[1..] == ["Request"];
    assert Join(names, ", ") == "EndpointDetails" + ", " + "Request";
  }

  /** The values `get_system_prompt` fills the prompt template with. */
  datatype PromptFields = PromptFields(toolDescriptions: string, toolNameList: string, methodList: string, baseUrl: string)

  /** The template's fields; the document is parsed first, so a malformed
      document raises before the prompt exists. */
  function SystemPromptFields(tools: seq<Tool>, openapiJson: Json, baseUrl: string): (r: Result<PromptFields, PyError>)
    ensures r.Failure? <==> ParseOf(openapiJson).Failure?
    ensures r.Success? ==> (r.value.methodList == "" <==> ParseOf(openapiJson).value.methods == [])
  {
    var parts :- ParseOf(openapiJson);
    Success(PromptFields(ToolDescriptions(tools), ToolNameList(tools), ListCsv(parts.methods, MethodDict), baseUrl))
  }

  // -----------------------------------------------------------------------
  // The observation loop.

  /** How `ask` ends: with a reply that carries no action, or, in the model
      only, when the fuel bounding its `while True` loop runs out. */
  datatype Outcome = Final(reply: string) | OutOfFuel

  /** The index of the first tool whose name equals the action (lemma
      `ToolIndexFacts`). */
  function ToolIndex(tools: seq<Tool>, action: Option<string>): (r: Option<nat>)
    ensures r.Some? ==> r.value < |tools|
    decreases |tools|
  {
    if tools == [] then None
    else if Some(tools[0].Name()) == action then Some(0)
    else
      var r := ToolIndex(tools[1..], action);
      if r.Some? then Some(r.value + 1) else None
  }

  /** No tool has the action's name exactly when none is found; otherwise
      the one found has it and none before it does. */
  lemma {:induction false} ToolIndexFacts(tools: seq<Tool>, action: Option<string>)
    ensures ToolIndex(tools, action).None? <==> forall k :: 0 <= k < |tools| ==> Some(tools[k].Name()) != action
    ensures ToolIndex(tools, action).Some? ==>
      && Some(tools[ToolIndex(tools, action).value].Name()) == action
      && forall k :: 0 <= k < ToolIndex(tools, action).value ==> Some(tools[k].Name()) != action
    decreases |tools|
  {
    if tools != [] && Some(tools[0].Name()) != action {
      ToolIndexFacts(tools[1..], action);
      forall k | 1 <= k < |tools|
        ensures tools[k] == tools[1..][k - 1]
      {
      }
    }
  }

  /** The user turn that reports a tool call's result or exception. */
  function ObservationTurn(result: Result<Json, PyError>): string
  {
    "Observation: " + ObservationText(result)
  }

  lemma ObservationTurnStarts(result: Result<Json, PyError>)
    ensures StartsWith(ObservationTurn(result), "Observation: ")
  {
    assert ObservationTurn(result)[..13] == "Observation: ";
  }

  /** What calling a tool returns or raises: `ToolResult`, as a parameter of
      the loop so that reasoning about the loop does not unfold the tools. */
  type Invoke = (Tool, Json) -> Result<Json, PyError>

  /** What `parse_language` makes of a reply: `ParsedOf` with the engine's
      decoder, as a parameter of the loop for the same reason. */
  type Parser = string -> Parsed

  function ParserOf(decode: Decoder): Parser
  {
    s => ParsedOf(s, decode)
  }

  /** The loop of `ask` from the reply `resp` on, over the transcript
      `messages`, with at most `fuel` more iterations: how it ends and the
      turns it adds to the transcript. */
  function Run(tools: seq<Tool>, invoke: Invoke, parse: Parser, oracle: seq<Turn> -> string,
               messages: seq<Turn>, resp: string, fuel: nat): (Outcome, seq<Turn>)
    decreases fuel
  {
    if !Contains(resp, "Action:") then (Final(resp), [])
    else if fuel == 0 then (OutOfFuel, [])
    else
      var parsed := parse(resp);
      match ToolIndex(tools, parsed.action)
      case None => Run(tools, invoke, parse, oracle, messages, resp, fuel - 1)
      case Some(i) =>
        var observation := ObservationTurn(invoke(tools[i], parsed.args));
        var reply := oracle(messages + [Turn(User, observation)]);
        var exchanged := [Turn(User, observation), Turn(Assistant, reply)];
        var rest := Run(tools, invoke, parse, oracle, messages + exchanged, reply, fuel - 1);
        (rest.0, exchanged + rest.1)
  }

  /** A final answer has no `Action:`; it is the reply `resp` the loop
      started from when no turn was added, and the last turn added
      otherwise. */
  predicate EndsOnPlainReply(resp: string, r: (Outcome, seq<Turn>))
  {
    r.0.Final? ==>
      && !Contains(r.0.reply, "Action:")
      && (if r.1 == [] then r.0.reply == resp else r.1[|r.1| - 1] == Turn(Assistant, r.0.reply))
  }

  /** Turns sent before a run that ends on a plain reply keep it ending on
      a plain reply, as long as the last of them is that run's first reply. */
  lemma EndsAfterExchange(resp: string, reply: string, exchanged: seq<Turn>, rest: (Outcome, seq<Turn>))
    requires EndsOnPlainReply(reply, rest)
    requires exchanged != [] && exchanged[|exchanged| - 1] == Turn(Assistant, reply)
    ensures EndsOnPlainReply(resp, (rest.0, exchanged + rest.1))
  {
    var added := exchanged + rest.1;
    assert added[|added| - 1] == if rest.1 == [] then Turn(Assistant, reply) else rest.1[|rest.1| - 1];
  }

  /** A reply without `Action:` ends the loop at once. */
  lemma RunStopsOnPlainReply(tools: seq<Tool>, invoke: Invoke, parse: Parser, oracle: seq<Turn> -> string,
                             messages: seq<Turn>, resp: string, fuel: nat)
    requires !Contains(resp, "Action:")
    ensures Run(tools, invoke, parse, oracle, messages, resp, fuel) == (Final(resp), [])
  {
  }

  /** The loop only ever ends with a reply that has no `Action:`: the one it
      started from when it sent nothing, and the last turn it added
      otherwise. */
  lemma {:induction false} RunEnds(tools: seq<Tool>, invoke: Invoke, parse: Parser, oracle: seq<Turn> -> string,
                                   messages: seq<Turn>, resp: string, fuel: nat)
    ensures EndsOnPlainReply(resp, Run(tools, invoke, parse, oracle, messages, resp, fuel))
    decreases fuel
  {
    if !Contains(resp, "Action:") {
      RunStopsOnPlainReply(tools, invoke, parse, oracle, messages, resp, fuel);
    } else if fuel == 0 {
      assert Run(tools, invoke, parse, oracle, messages, resp, fuel).0 == OutOfFuel;
    } else {
      match ToolIndex(tools, parse(resp).action)
      case None =>
        RunEnds(tools, invoke, parse, oracle, messages, resp, fuel - 1);
        RunNoToolStep(tools, invoke, parse, oracle, messages, resp, fuel);
      case Some(i) =>
        var observation := ObservationTurn(invoke(tools[i], parse(resp).args));
        var reply := oracle(messages + [Turn(User, observation)]);
        var rest := Run(tools, invoke, parse, oracle, Exchange(oracle, messages, observation), reply, fuel - 1);
        RunEnds(tools, invoke, parse, oracle, Exchange(oracle, messages, observation), reply, fuel - 1);
        RunToolStep(tools, invoke, parse, oracle, messages, resp, fuel, i);
        EndsAfterExchange(resp, reply, [Turn(User, observation), Turn(Assistant, reply)], rest);
    }
  }

  /** One iteration of the loop that calls tool `i`: the observation turn and
      the reply to it are sent, and the loop goes on from that reply. */
  lemma RunToolStep(tools: seq<Tool>, invoke: Invoke, parse: Parser, oracle: seq<Turn> -> string,
                    messages: seq<Turn>, resp: string, fuel: nat, i: nat)
    requires Contains(resp, "Action:") && fuel > 0 && ToolIndex(tools, parse(resp).action) == Some(i)
    ensures var observation := ObservationTurn(invoke(tools[i], parse(resp).args));
      var reply := oracle(messages + [Turn(User, observation)]);
      var rest := Run(tools, invoke, parse, oracle, Exchange(oracle, messages, observation), reply, fuel - 1);
      Run(tools, invoke, parse, oracle, messages, resp, fuel) == (rest.0, [Turn(User, observation), Turn(Assistant, reply)] + rest.1)
  {
  }

  /** One iteration of the loop whose action names no tool: nothing is sent. */
  lemma RunNoToolStep(tools: seq<Tool>, invoke: Invoke, parse: Parser, oracle: seq<Turn> -> string,
                      messages: seq<Turn>, resp: string, fuel: nat)
    requires Contains(resp, "Action:") && fuel > 0 && ToolIndex(tools, parse(resp).action).None?
    ensures Run(tools, invoke, parse, oracle, messages, resp, fuel) == Run(tools, invoke, parse, oracle, messages, resp, fuel - 1)
  {
  }

  lemma Regroup<T>(a: seq<T>, b: seq<T>, c: seq<T>)
    ensures a + (b + c) == (a + b) + c
  {
  }

  /** A reply whose action names no tool is examined again and again: no
      turn is sent and the loop only runs out of fuel. */
  lemma {:induction false} UnmatchedActionStalls(tools: seq<Tool>, invoke: Invoke, parse: Parser, oracle: seq<Turn> -> string,
                                                 messages: seq<Turn>, resp: string, fuel: nat)
    requires Contains(resp, "Action:")
    requires ToolIndex(tools, parse(resp).action).None?
    ensures Run(tools, invoke, parse, oracle, messages, resp, fuel) == (OutOfFuel, [])
    decreases fuel
  {
    if fuel > 0 {
      UnmatchedActionStalls(tools, invoke, parse, oracle, messages, resp, fuel - 1);
    }
  }

  /** The turns come in pairs: an `Observation: ` user turn and the
      assistant's reply to it. */
  predicate ObservationPairs(turns: seq<Turn>)
    decreases |turns|
  {
    turns == []
    || (&& |turns| >= 2
        && turns[0].role == User && StartsWith(turns[0].content, "Observation: ")
        && turns[1].role == Assistant
        && ObservationPairs(turns[2..]))
  }

  lemma PairsCons(observation: string, reply: string, later: seq<Turn>)
    requires StartsWith(observation, "Observation: ") && ObservationPairs(later)
    ensures ObservationPairs([Turn(User, observation), Turn(Assistant, reply)] + later)
  {
    assert ([Turn(User, observation), Turn(Assistant, reply)] + later)[2..] == later;
  }

  /** Every turn the loop adds is an observation or the reply to one. */
  lemma {:induction false} AddedTurnsAreObservations(tools: seq<Tool>, invoke: Invoke, parse: Parser, oracle: seq<Turn> -> string,
                                                     messages: seq<Turn>, resp: string, fuel: nat)
    ensures ObservationPairs(Run(tools, invoke, parse, oracle, messages, resp, fuel).1)
    decreases fuel
  {
    if !Contains(resp, "Action:") {
      RunStopsOnPlainReply(tools, invoke, parse, oracle, messages, resp, fuel);
    } else if fuel == 0 {
      assert Run(tools, invoke, parse, oracle, messages, resp, fuel).1 == [];
    } else {
      match ToolIndex(tools, parse(resp).action)
      case None =>
        AddedTurnsAreObservations(tools, invoke, parse, oracle, messages, resp, fuel - 1);
        RunNoToolStep(tools, invoke, parse, oracle, messages, resp, fuel);
      case Some(i) =>
        var observation := ObservationTurn(invoke(tools[i], parse(resp).args));
        var reply := oracle(messages + [Turn(User, observation)]);
        AddedTurnsAreObservations(tools, invoke, parse, oracle, Exchange(oracle, messages, observation), reply, fuel - 1);
        ToolStepAddsPair(tools, invoke, parse, oracle, messages, resp, fuel, i);
    }
  }

  /** A tool call puts one observation pair in front of what the loop adds
      afterwards. */
  lemma ToolStepAddsPair(tools: seq<Tool>, invoke: Invoke, parse: Parser, oracle: seq<Turn> -> string,
                         messages: seq<Turn>, resp: string, fuel: nat, i: nat)
    requires Contains(resp, "Action:") && fuel > 0 && ToolIndex(tools, parse(resp).action) == Some(i)
    requires var observation := ObservationTurn(invoke(tools[i], parse(resp).args));
      var reply := oracle(messages + [Turn(User, observation)]);
      ObservationPairs(Run(tools, invoke, parse, oracle, Exchange(oracle, messages, observation), reply, fuel - 1).1)
    ensures ObservationPairs(Run(tools, invoke, parse, oracle, messages, resp, fuel).1)
  {
    var result := invoke(tools[i], parse(resp).args);
    var observation := ObservationTurn(result);
    var reply := oracle(messages + [Turn(User, observation)]);
    var rest := Run(tools, invoke, parse, oracle, Exchange(oracle, messages, observation), reply, fuel - 1);
    RunToolStep(tools, invoke, parse, oracle, messages, resp, fuel, i);
    ObservationTurnStarts(result);
    PairsCons(observation, reply, rest.1);
  }

  /** `ReactEngine`: the tools, how a tool call comes out, the decoder and
      the conversation it drives. */
  class ReactEngine {
    const tools: seq<Tool>
    const invoke: Invoke
    const decode: Decoder
    const chat: Chat

    /** `_get_chat`: a fresh transcript seeded with the system prompt; a tool
        call comes out as `ToolResult` says (method `InvokeTool`). */
    constructor (tools: seq<Tool>, decode: Decoder, systemPrompt: string, oracle: seq<Turn> -> string)
      ensures this.tools == tools && this.invoke == ToolResult && this.decode == decode
      ensures fresh(chat) && chat.messages == [Turn(System, systemPrompt)] && chat.oracle == oracle
    {
      this.tools := tools;
      this.invoke := ToolResult;
      this.decode := decode;
      chat := new Chat(systemPrompt, [], oracle);
    }

    /** `ask`: sends the question, then loops while the reply names an
        action, calling the first tool of that name and reporting its result
        or exception; `fuel` bounds the iterations. */
    method Ask(question: string, fuel: nat) returns (outcome: Outcome)
      modifies chat
      ensures var first := Exchange(chat.oracle, old(chat.messages), question);
        var run := Run(tools, invoke, ParserOf(decode), chat.oracle, first, first[|first| - 1].content, fuel);
        outcome == run.0 && chat.messages == first + run.1
    {
      var resp := chat.UserMessage(question);
      ghost var first := chat.messages;
      ghost var parse := ParserOf(decode);
      ghost var run := Run(tools, invoke, parse, chat.oracle, first, resp, fuel);
      var remaining := fuel;
      while true
        invariant var rest := Run(tools, invoke, parse, chat.oracle, chat.messages, resp, remaining);
          rest.0 == run.0 && chat.messages + rest.1 == first + run.1
        decreases remaining
      {
        if !Contains(resp, "Action:") {
          return Final(resp);
        }
        if remaining == 0 {
          return OutOfFuel;
        }
        var parsed := ParseLanguage(resp, decode);
        assert parsed == parse(resp);
        var index := ToolIndex(tools, parsed.action);
        if index.Some? {
          var observation := invoke(tools[index.value], parsed.args);
          RunToolStep(tools, invoke, parse, chat.oracle, chat.messages, resp, remaining, index.value);
          ghost var before := chat.messages;
          resp := chat.UserMessage(ObservationTurn(observation));
          ghost var rest := Run(tools, invoke, parse, chat.oracle, chat.messages, resp, remaining - 1);
          Regroup(before, [Turn(User, ObservationTurn(observation)), Turn(Assistant, resp)], rest.1);
        } else {
          RunNoToolStep(tools, invoke, parse, chat.oracle, chat.messages, resp, remaining);
        }
        remaining := remaining - 1;
      }
    }
  }
}
