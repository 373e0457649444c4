/**
 * The older single-command engine and the table builders of the top-level
 * `main.py`. The engine talks to the language model like the newer one
 * (module `SingleCommand`) but reads a simpler command grammar,
 * `METHOD PATH [REQUEST_BODY: body]`, sends no headers and reports the
 * response's raw text. The table builders turn an OpenAPI document into
 * the CSV texts the system prompt is made of.
 */
module LegacyMain {
  import opened Wrappers
  import opened PyText
  import opened PyValue
  import opened Conversation
  import opened Csv
  import OpenApi
  import OpenApiFacts
  import SingleCommand

  // -----------------------------------------------------------------------
  // The command grammar.

  /** What `process_cmd` passes to `send_request`. */
  datatype LegacyCommand = LegacyCommand(httpMethod: string, path: string, body: Json)

  const RequestBodyMarker: string := "REQUEST_BODY: "

  /** `process_cmd` up to the request: the first `CMD: ` is removed; the
      method and the path are the first two space-separated words of the
      whole command (a missing path raises `IndexError`); when the command
      mentions `REQUEST_BODY`, the body is the decoded text between the
      first `REQUEST_BODY: ` and the next one (its absence raises
      `IndexError`, a decoding failure propagates), and otherwise `None`. */
  function ParseLegacyCommand(text: string, loads: SingleCommand.Loads): Result<LegacyCommand, PyError>
  {
    var command := ReplaceFirst(text, "CMD: ", "");
    var words := Split(command, " ");
    if |words| < 2 then Failure(SingleCommand.ListIndexError)
    else if Contains(command, "REQUEST_BODY") then
      match SplitPiece(command, RequestBodyMarker, 1)
      case None => Failure(SingleCommand.ListIndexError)
      case Some(bodyText) =>
        var body :- loads(bodyText);
        Success(LegacyCommand(words[0], words[1], body))
    else Success(LegacyCommand(words[0], words[1], JNull))
  }

  /** A command with only one word raises before anything is decoded. */
  lemma LegacyMissingPathRaises(text: string, loads: SingleCommand.Loads)
    requires |Split(ReplaceFirst(text, "CMD: ", ""), " ")| < 2
    ensures ParseLegacyCommand(text, loads) == Failure(SingleCommand.ListIndexError)
  {
  }

  /** Parsing undoes writing a command without a body: a method and a path
      without spaces come back and the body is `None`. */
  lemma ParseLegacyCommandText(httpMethod: string, path: string, loads: SingleCommand.Loads)
    requires ' ' !in httpMethod && ' ' !in path
    requires !Contains(httpMethod + " " + path, "REQUEST_BODY")
    ensures ParseLegacyCommand(SingleCommand.CommandText(httpMethod, path), loads)
      == Success(LegacyCommand(httpMethod, path, JNull))
  {
    var command := httpMethod + " " + path;
    assert SingleCommand.CommandText(httpMethod, path) == "CMD: " + command;
    SingleCommand.StripCommandPrefix(command);
    assert Join([httpMethod, path], " ") == command;
    SplitJoinChar([httpMethod, path], ' ');
  }

  /** The command text for a method, a path and a body in the older grammar. */
  function LegacyCommandWithBodyText(httpMethod: string, path: string, bodyText: string): string
  {
    "CMD: " + (httpMethod + " " + path + " " + RequestBodyMarker + bodyText)
  }

  /** Parsing a command written with a body gives back the method and the
      path and decodes the body text: the command fails exactly when that
      decoding does. */
  lemma ParseLegacyCommandWithBodyText(httpMethod: string, path: string, bodyText: string, loads: SingleCommand.Loads)
    requires ' ' !in httpMethod && ':' !in httpMethod && ' ' !in path && ':' !in path
    requires !Contains(bodyText, RequestBodyMarker)
    ensures loads(bodyText).Failure? ==>
      ParseLegacyCommand(LegacyCommandWithBodyText(httpMethod, path, bodyText), loads) == Failure(loads(bodyText).error)
    ensures loads(bodyText).Success? ==>
      ParseLegacyCommand(LegacyCommandWithBodyText(httpMethod, path, bodyText), loads)
        == Success(LegacyCommand(httpMethod, path, loads(bodyText).value))
  {
    var command := httpMethod + " " + path + " " + RequestBodyMarker + bodyText;
    assert LegacyCommandWithBodyText(httpMethod, path, bodyText) == "CMD: " + command;
    SingleCommand.StripCommandPrefix(command);
    LegacyBodyCommandFacts(httpMethod, path, bodyText);
    ParseLegacyOfPieces(LegacyCommandWithBodyText(httpMethod, path, bodyText), command, httpMethod, path, bodyText, loads);
  }

  /** In `method path REQUEST_BODY: body` the first two words are the method
      and the path, and the text after the marker is the body text. */
  lemma LegacyBodyCommandFacts(httpMethod: string, path: string, bodyText: string)
    requires ' ' !in httpMethod && ':' !in httpMethod && ' ' !in path && ':' !in path
    requires !Contains(bodyText, RequestBodyMarker)
    ensures var command := httpMethod + " " + path + " " + RequestBodyMarker + bodyText;
      && |Split(command, " ")| >= 2 && Split(command, " ")[0] == httpMethod && Split(command, " ")[1] == path
      && Contains(command, "REQUEST_BODY") && SplitPiece(command, RequestBodyMarker, 1) == Some(bodyText)
  {
    var prefix := httpMethod + " " + path + " ";
    LegacyWords(httpMethod, path, RequestBodyMarker, bodyText);
    NoEarlierMarker(prefix, bodyText);
    SplitAtMarker(prefix, RequestBodyMarker, bodyText);
    assert StartsWith(RequestBodyMarker, "REQUEST_BODY");
    ContainsMarkerStart(prefix, RequestBodyMarker, bodyText, "REQUEST_BODY");
  }

  /** A command whose first two words are a method and a path and whose
      body text is found carries that text decoded, or fails with the
      decoder's exception. */
  lemma ParseLegacyOfPieces(text: string, command: string, httpMethod: string, path: string, bodyText: string,
                            loads: SingleCommand.Loads)
    requires ReplaceFirst(text, "CMD: ", "") == command
    requires |Split(command, " ")| >= 2 && Split(command, " ")[0] == httpMethod && Split(command, " ")[1] == path
    requires Contains(command, "REQUEST_BODY") && SplitPiece(command, RequestBodyMarker, 1) == Some(bodyText)
    ensures loads(bodyText).Failure? ==> ParseLegacyCommand(text, loads) == Failure(loads(bodyText).error)
    ensures loads(bodyText).Success? ==>
      ParseLegacyCommand(text, loads) == Success(LegacyCommand(httpMethod, path, loads(bodyText).value))
  {
  }

  /** The first two words of `method path marker rest` are the method and
      the path. */
  lemma LegacyWords(httpMethod: string, path: string, marker: string, rest: string)
    requires ' ' !in httpMethod && ' ' !in path
    ensures var words := Split(httpMethod + " " + path + " " + marker + rest, " ");
      |words| >= 2 && words[0] == httpMethod && words[1] == path
  {
    var tail := path + " " + (marker + rest);
    assert httpMethod + " " + path + " " + marker + rest == httpMethod + " " + tail;
    SplitAtFirstChar(httpMethod, ' ', tail);
    SplitAtFirstChar(path, ' ', marker + rest);
  }

  /** A text that holds `marker` after `prefix` contains every start of it. */
  lemma ContainsMarkerStart(prefix: string, marker: string, rest: string, sub: string)
    requires StartsWith(marker, sub)
    ensures Contains(prefix + marker + rest, sub)
  {
    var s := prefix + marker + rest;
    assert s[|prefix|..|prefix| + |sub|] == marker[..|sub|];
    assert OccursAt(s, sub, |prefix|);
  }

  /** Behind a prefix without colons, `REQUEST_BODY: ` cannot start before
      its own position: its colon would have to fall inside the prefix or
      before the colon of the marker itself. */
  lemma NoEarlierMarker(prefix: string, rest: string)
    requires ':' !in prefix
    ensures forall j :: 0 <= j < |prefix| ==> !OccursAt(prefix + RequestBodyMarker + rest, RequestBodyMarker, j)
  {
    var s := prefix + RequestBodyMarker + rest;
    forall j | 0 <= j < |prefix|
      ensures !OccursAt(s, RequestBodyMarker, j)
    {
      if j + 12 < |prefix| {
        assert s[j + 12] == prefix[j + 12];
      } else {
        assert s[j + 12] == RequestBodyMarker[j + 12 - |prefix|];
      }
      assert s[j + 12] != ':';
      assert s[j..j + |RequestBodyMarker|][12] == s[j + 12];
    }
  }

  /** A marker first found right after `prefix`, followed by a text without
      it, splits the whole into the prefix and that text. */
  lemma SplitAtMarker(prefix: string, marker: string, rest: string)
    requires |marker| > 0 && !Contains(rest, marker)
    requires forall j :: 0 <= j < |prefix| ==> !OccursAt(prefix + marker + rest, marker, j)
    ensures Split(prefix + marker + rest, marker) == [prefix, rest]
  {
    var s := prefix + marker + rest;
    assert s[|prefix|..|prefix| + |marker|] == marker;
    FirstOccurrence(s, marker, |prefix|);
    assert s[..|prefix|] == prefix;
    assert s[|prefix| + |marker|..] == rest;
    assert Split(rest, marker) == [rest];
  }

  /** An occurrence with none before it is the one `find` reports. */
  lemma FirstOccurrence(s: string, sub: string, i: nat)
    requires OccursAt(s, sub, i)
    requires forall j :: 0 <= j < i ==> !OccursAt(s, sub, j)
    ensures Find(s, sub, 0) == Some(i)
  {
  }

  // -----------------------------------------------------------------------
  // Sending.

  /** `requests.request(method, url, data=body)`: the response's text, or
      the exception raised. */
  type LegacyHttp = (string, string, Option<string>) -> Result<string, PyError>

  /** `send_request`: a truthy body is sent as its JSON text; the result is
      the response's text, or the text of the exception raised. */
  function LegacySend(http: LegacyHttp, dumps: Json -> string, baseUrl: string, command: LegacyCommand): (r: string)
    ensures http(command.httpMethod, baseUrl + command.path, if Truthy(command.body) then Some(dumps(command.body)) else None).Success? ==>
      r == http(command.httpMethod, baseUrl + command.path, if Truthy(command.body) then Some(dumps(command.body)) else None).value
    ensures http(command.httpMethod, baseUrl + command.path, if Truthy(command.body) then Some(dumps(command.body)) else None).Failure? ==>
      r == ErrorText(http(command.httpMethod, baseUrl + command.path, if Truthy(command.body) then Some(dumps(command.body)) else None).error)
  {
    var data := if Truthy(command.body) then Some(dumps(command.body)) else None;
    match http(command.httpMethod, baseUrl + command.path, data)
    case Failure(e) => ErrorText(e)
    case Success(responseText) => responseText
  }

  /** What `process_cmd` sends back as server data, or raises. */
  function LegacyServerData(loads: SingleCommand.Loads, http: LegacyHttp, dumps: Json -> string, baseUrl: string,
                            text: string): Result<string, PyError>
  {
    var command :- ParseLegacyCommand(text, loads);
    Success(LegacySend(http, dumps, baseUrl, command))
  }

  // -----------------------------------------------------------------------
  // The engine.

  class ProcessingEngine {
    const chat: Chat
    const baseUrl: string
    const loads: SingleCommand.Loads
    const dumps: Json -> string
    const http: LegacyHttp

    constructor (chat: Chat, baseUrl: string, loads: SingleCommand.Loads, dumps: Json -> string, http: LegacyHttp)
      ensures this.chat == chat && this.baseUrl == baseUrl
      ensures this.loads == loads && this.dumps == dumps && this.http == http
    {
      this.chat := chat;
      this.baseUrl := baseUrl;
      this.loads := loads;
      this.dumps := dumps;
      this.http := http;
    }

    /** The engine with the default base URL. */
    constructor WithDefaultUrl(chat: Chat, loads: SingleCommand.Loads, dumps: Json -> string, http: LegacyHttp)
      ensures this.chat == chat && this.baseUrl == SingleCommand.DefaultBaseUrl
      ensures this.loads == loads && this.dumps == dumps && this.http == http
    {
      this.chat := chat;
      this.baseUrl := SingleCommand.DefaultBaseUrl;
      this.loads := loads;
      this.dumps := dumps;
      this.http := http;
    }

    /** How this engine turns a `CMD: ` reply into server data. */
    function Handle(): string -> Result<string, PyError>
    {
      text => LegacyServerData(loads, http, dumps, baseUrl, text)
    }

    /** `ask`: the same conversation as the newer engine's, with this
        engine's command handling. */
    method Ask(question: string, fuel: nat) returns (outcome: SingleCommand.Answer)
      modifies chat
      ensures (outcome, chat.messages) == SingleCommand.AskRun(chat.oracle, Handle(), old(chat.messages), question, fuel)
      decreases fuel
    {
      if fuel == 0 {
        return SingleCommand.OutOfFuel;
      }
      var response := chat.UserMessage("PROMPT: " + question);
      if StartsWith(response, "OUT: ") {
        return SingleCommand.Answered(SingleCommand.ProcessOut(response));
      } else if StartsWith(response, "CMD: ") {
        outcome := ProcessCmd(response);
        return;
      }
      outcome := Ask(SingleCommand.Reask(question), fuel - 1);
    }

    /** `cmd_resp`: reports the server data and returns the reply with its
        first `OUT: ` removed. */
    method CmdResp(serverData: string) returns (answer: string)
      modifies chat
      ensures answer == SingleCommand.ProcessOut(chat.oracle(old(chat.messages) + [Turn(User, "CMD_RESP: " + serverData)]))
      ensures chat.messages == Exchange(chat.oracle, old(chat.messages), "CMD_RESP: " + serverData)
    {
      var response := chat.UserMessage("CMD_RESP: " + serverData);
      answer := SingleCommand.ProcessOut(response);
    }

    /** `process_cmd`: parses the command, sends it and reports back. */
    method ProcessCmd(text: string) returns (outcome: SingleCommand.Answer)
      modifies chat
      ensures (outcome, chat.messages) == SingleCommand.CmdRun(chat.oracle, Handle(), old(chat.messages), text)
    {
      var command := ReplaceFirst(text, "CMD: ", "");
      var words := Split(command, " ");
      var httpMethod := words[0];
      if |words| < 2 {
        return SingleCommand.Raised(SingleCommand.ListIndexError);
      }
      var path := words[1];
      var body := JNull;
      if Contains(command, "REQUEST_BODY") {
        var pieces := Split(command, RequestBodyMarker);
        if |pieces| < 2 {
          return SingleCommand.Raised(SingleCommand.ListIndexError);
        }
        var decoded := loads(pieces[1]);
        if decoded.Failure? {
          return SingleCommand.Raised(decoded.error);
        }
        body := decoded.value;
      }
      var response := LegacySend(http, dumps, baseUrl, LegacyCommand(httpMethod, path, body));
      var answer := CmdResp(response);
      outcome := SingleCommand.Answered(answer);
    }
  }

  // -----------------------------------------------------------------------
  // The method table.

  const MethodColumnNames: seq<string> := ["path", "method", "summary", "request_body", "parameters"]

  /** The row `get_method_definitions` appends for one operation: the
      summary defaults to `''`, the request body and the parameters are
      their `str` (of `''` when absent); an operation that is not a dict
      raises on `.get`. */
  function MethodRowOf(path: string, httpMethod: string, operation: Json): Result<Dict, PyError>
  {
    var summary :- GetOr(operation, "summary", JStr(""));
    var requestBody :- GetOr(operation, "requestBody", JStr(""));
    var parameters :- GetOr(operation, "parameters", JStr(""));
    Success([("path", JStr(path)), ("method", JStr(Upper(httpMethod))), ("summary", summary),
             ("request_body", JStr(Str(requestBody))), ("parameters", JStr(Str(parameters)))])
  }

  function OperationRowStep(path: string): ((string, Json)) -> Result<Dict, PyError>
  {
    (e: (string, Json)) => MethodRowOf(path, e.0, e.1)
  }

  /** The rows of one path item, in the item's key order. */
  function PathRowsOf(path: string, pathItem: Json): Result<seq<Dict>, PyError>
  {
    var operations :- Items(pathItem);
    MapAll(OperationRowStep(path), operations)
  }

  const PathRowsStep: ((string, Json)) -> Result<seq<Dict>, PyError> :=
    (e: (string, Json)) => PathRowsOf(e.0, e.1)

  /** The rows of the whole `paths` section, path by path; a document
      without `paths` raises `KeyError`. */
  function MethodDefinitionRows(docs: Json): Result<seq<Dict>, PyError>
  {
    var paths :- Subscript(docs, "paths");
    var entries :- Items(paths);
    var groups :- MapAll(PathRowsStep, entries);
    Success(Flatten(groups))
  }

  /** What `get_method_definitions(docs)` returns, or raises. */
  function MethodDefinitionsOf(docs: Json): Result<string, PyError>
  {
    var rows :- MethodDefinitionRows(docs);
    Success(CsvOf(rows))
  }

  /** `get_method_definitions`: the loop over the paths, each path's loop
      over its operations, then `dict_to_csv`. */
  method GetMethodDefinitions(docs: Json) returns (r: Result<string, PyError>)
    ensures r == MethodDefinitionsOf(docs)
  {
    var paths := Subscript(docs, "paths");
    if paths.Failure? {
      return Failure(paths.error);
    }
    var entries := Items(paths.value);
    if entries.Failure? {
      return Failure(entries.error);
    }
    var items := entries.value;
    var data: seq<Dict> := [];
    ghost var groups: seq<seq<Dict>> := [];
    for i := 0 to |items|
      invariant MapAll(PathRowsStep, items[..i]) == Success(groups)
      invariant data == Flatten(groups)
    {
      MapAllStep(PathRowsStep, items, i);
      var rows := AppendPathRows(items[i].0, items[i].1);
      if rows.Failure? {
        MapAllFailureExtends(PathRowsStep, items, i + 1);
        return Failure(rows.error);
      }
      assert (groups + [rows.value])[..|groups|] == groups;
      data := data + rows.value;
      groups := groups + [rows.value];
    }
    assert items[..|items|] == items;
    var csv := DictToCsv(data);
    r := Success(csv);
  }

  /** The inner loop of `get_method_definitions` over one path item. */
  method AppendPathRows(path: string, pathItem: Json) returns (r: Result<seq<Dict>, PyError>)
    ensures r == PathRowsOf(path, pathItem)
  {
    var operations := Items(pathItem);
    if operations.Failure? {
      return Failure(operations.error);
    }
    r := CollectAll(OperationRowStep(path), operations.value);
  }

  /** A row describes the (path, method, operation) triple it came from. */
  predicate MethodRowDescribes(row: Dict, t: (string, string, Json))
  {
    && t.2.JObj?
    && Keys(row) == MethodColumnNames
    && row[0].1 == JStr(t.0)
    && row[1].1 == JStr(Upper(t.1))
    && GetOr(t.2, "summary", JStr("")) == Success(row[2].1)
    && row[3].1 == JStr(Str(GetOr(t.2, "requestBody", JStr("")).value))
    && row[4].1 == JStr(Str(GetOr(t.2, "parameters", JStr("")).value))
  }

  lemma MethodRowFacts(path: string, httpMethod: string, operation: Json)
    requires MethodRowOf(path, httpMethod, operation).Success?
    ensures MethodRowDescribes(MethodRowOf(path, httpMethod, operation).value, (path, httpMethod, operation))
  {
    var row := MethodRowOf(path, httpMethod, operation).value;
    assert Keys(row) == MethodColumnNames;
  }

  lemma {:induction false} MethodRowsWalk(pathItems: seq<(string, Json)>, groups: seq<seq<Dict>>)
    requires MapAll(PathRowsStep, pathItems) == Success(groups)
    ensures |Flatten(groups)| == |OpenApiFacts.AllOperations(pathItems)|
    ensures forall k :: 0 <= k < |Flatten(groups)| ==>
      MethodRowDescribes(Flatten(groups)[k], OpenApiFacts.AllOperations(pathItems)[k])
    decreases |pathItems|
  {
    if pathItems != [] {
      var init := pathItems[..|pathItems| - 1];
      var last := pathItems[|pathItems| - 1];
      var front := groups[..|groups| - 1];
      var group := groups[|groups| - 1];
      assert MapAll(PathRowsStep, init) == Success(front);
      MethodRowsWalk(init, front);
      assert PathRowsStep(last) == Success(group);
      var ops := OpenApiFacts.PathOperations(last);
      assert |group| == |ops|;
      forall j | 0 <= j < |group|
        ensures MethodRowDescribes(group[j], ops[j])
      {
        var e := last.1.fields[j];
        assert ops[j] == (last.0, e.0, e.1);
        assert OperationRowStep(last.0)(e) == Success(group[j]);
        MethodRowFacts(last.0, e.0, e.1);
      }
      assert Flatten(groups) == Flatten(front) + group;
      assert OpenApiFacts.AllOperations(pathItems) == OpenApiFacts.AllOperations(init) + ops;
    }
  }

  /** One row per (path, method) pair, in document order, with the method
      upper-cased and the summary defaulting to `''`. */
  lemma MethodRowsFollowDocument(docs: Json)
    requires MethodDefinitionRows(docs).Success?
    ensures |MethodDefinitionRows(docs).value| == |OpenApiFacts.DocumentOperations(docs)|
    ensures forall k :: 0 <= k < |MethodDefinitionRows(docs).value| ==>
      MethodRowDescribes(MethodDefinitionRows(docs).value[k], OpenApiFacts.DocumentOperations(docs)[k])
  {
    var paths := Subscript(docs, "paths").value;
    var groups := MapAll(PathRowsStep, paths.fields).value;
    MethodRowsWalk(paths.fields, groups);
  }

  /** The walk raises exactly when `paths` is missing or not a dict, or
      some path item or operation is not a dict. */
  lemma MethodRowsSucceedIff(docs: Json)
    ensures MethodDefinitionRows(docs).Success? <==>
      && HasKey(docs, "paths")
      && Subscript(docs, "paths").value.JObj?
      && (forall k :: 0 <= k < |Subscript(docs, "paths").value.fields| ==>
            Subscript(docs, "paths").value.fields[k].1.JObj?)
      && (forall k, j ::
            (0 <= k < |Subscript(docs, "paths").value.fields| &&
             Subscript(docs, "paths").value.fields[k].1.JObj? &&
             0 <= j < |Subscript(docs, "paths").value.fields[k].1.fields|) ==>
            Subscript(docs, "paths").value.fields[k].1.fields[j].1.JObj?)
  {
    if HasKey(docs, "paths") && Subscript(docs, "paths").value.JObj? {
      var items := Subscript(docs, "paths").value.fields;
      forall k | 0 <= k < |items|
        ensures PathRowsStep(items[k]).Success? <==>
          items[k].1.JObj? && forall j :: 0 <= j < |items[k].1.fields| ==> items[k].1.fields[j].1.JObj?
      {
        PathRowsSucceedIff(items[k].0, items[k].1);
      }
    }
  }

  lemma PathRowsSucceedIff(path: string, pathItem: Json)
    ensures PathRowsOf(path, pathItem).Success? <==>
      pathItem.JObj? && forall j :: 0 <= j < |pathItem.fields| ==> pathItem.fields[j].1.JObj?
  {
    if pathItem.JObj? {
      var ops := pathItem.fields;
      forall j | 0 <= j < |ops|
        ensures OperationRowStep(path)(ops[j]).Success? <==> ops[j].1.JObj?
      {
      }
    }
  }

  /** A dict without `paths` raises `KeyError('paths')`. */
  lemma MissingPathsRaises(docs: Json)
    requires docs.JObj? && !HasKey(docs, "paths")
    ensures MethodDefinitionsOf(docs) == Failure(KeyError(JStr("paths")))
  {
  }

  /** The texts the csv writer makes of an operation's row: its path, its
      upper-cased method, its summary (empty when absent or `None`), and the
      text of its request body and of its parameters. */
  function MethodCells(t: (string, string, Json)): seq<string>
    requires t.2.JObj?
  {
    [t.0, Upper(t.1), CellText(GetOr(t.2, "summary", JStr("")).value),
     Str(GetOr(t.2, "requestBody", JStr("")).value), Str(GetOr(t.2, "parameters", JStr("")).value)]
  }

  lemma MethodRowCells(row: Dict, t: (string, string, Json))
    requires MethodRowDescribes(row, t)
    ensures Cells(row) == MethodCells(t)
  {
    assert |row| == 5;
  }

  /** Reading the method table back gives the column names, then one row
      per operation in document order, holding `MethodCells` of it. */
  lemma MethodTableReadBack(docs: Json)
    requires MethodDefinitionsOf(docs).Success?
    ensures var ops := OpenApiFacts.DocumentOperations(docs);
      var table := ReadCsv(MethodDefinitionsOf(docs).value);
      && |table| == (if ops == [] then 0 else |ops| + 1)
      && (ops != [] ==> table[0] == MethodColumnNames)
      && forall k :: 0 <= k < |ops| ==> ops[k].2.JObj? && table[k + 1] == MethodCells(ops[k])
  {
    var rows := MethodDefinitionRows(docs).value;
    var ops := OpenApiFacts.DocumentOperations(docs);
    MethodRowsFollowDocument(docs);
    CsvRoundTrip(rows);
    var table := Table(rows);
    assert ReadCsv(MethodDefinitionsOf(docs).value) == table;
    if ops != [] {
      assert MethodRowDescribes(rows[0], ops[0]);
      assert table[0] == Keys(rows[0]);
    }
    forall k | 0 <= k < |ops|
      ensures ops[k].2.JObj? && table[k + 1] == MethodCells(ops[k])
    {
      assert MethodRowDescribes(rows[k], ops[k]);
      MethodRowCells(rows[k], ops[k]);
      assert table[k + 1] == CellRows(rows)[k];
    }
  }

  // -----------------------------------------------------------------------
  // The schema table.

  const SchemaColumnNames: seq<string> := ["schema", "required_fields", "properties"]

  /** The row `get_schema_definitions` appends for one schema: its required
      fields default to `[]` and its properties to `None`; a schema that is
      not a dict raises on `.get`. */
  function SchemaRowOf(name: string, schema: Json): Result<Dict, PyError>
  {
    var required :- GetOr(schema, "required", JArr([]));
    var properties :- Get(schema, "properties");
    Success([("schema", JStr(name)), ("required_fields", required), ("properties", properties)])
  }

  const SchemaRowStep: ((string, Json)) -> Result<Dict, PyError> :=
    (e: (string, Json)) => SchemaRowOf(e.0, e.1)

  /** The rows of `components.schemas`, which default to empty. */
  function SchemaDefinitionRows(docs: Json): Result<seq<Dict>, PyError>
  {
    var schemas :- OpenApi.ComponentsSection(docs, "schemas");
    MapAll(SchemaRowStep, schemas)
  }

  /** What `get_schema_definitions(docs)` returns, or raises. */
  function SchemaDefinitionsOf(docs: Json): Result<string, PyError>
  {
    var rows :- SchemaDefinitionRows(docs);
    Success(CsvOf(rows))
  }

  /** `get_schema_definitions`: the loop over the schemas, then `dict_to_csv`. */
  method GetSchemaDefinitions(docs: Json) returns (r: Result<string, PyError>)
    ensures r == SchemaDefinitionsOf(docs)
  {
    var schemas := OpenApi.ComponentsSection(docs, "schemas");
    if schemas.Failure? {
      return Failure(schemas.error);
    }
    var items := schemas.value;
    var data: seq<Dict> := [];
    for i := 0 to |items|
      invariant MapAll(SchemaRowStep, items[..i]) == Success(data)
    {
      MapAllStep(SchemaRowStep, items, i);
      var row := SchemaRowOf(items[i].0, items[i].1);
      if row.Failure? {
        MapAllFailureExtends(SchemaRowStep, items, i + 1);
        return Failure(row.error);
      }
      data := data + [row.value];
    }
    assert items[..|items|] == items;
    var csv := DictToCsv(data);
    r := Success(csv);
  }

  /** A row describes the schema entry it came from. */
  predicate SchemaRowDescribes(row: Dict, e: (string, Json))
  {
    && e.1.JObj?
    && Keys(row) == SchemaColumnNames
    && row[0].1 == JStr(e.0)
    && GetOr(e.1, "required", JArr([])) == Success(row[1].1)
    && Get(e.1, "properties") == Success(row[2].1)
  }

  /** One row per schema, in document order; the walk raises exactly when
      some schema is not a dict. */
  lemma SchemaRowsFollowDocument(docs: Json)
    requires OpenApi.ComponentsSection(docs, "schemas").Success?
    ensures var schemas := OpenApi.ComponentsSection(docs, "schemas").value;
      && (SchemaDefinitionRows(docs).Success? <==> forall k :: 0 <= k < |schemas| ==> schemas[k].1.JObj?)
      && (SchemaDefinitionRows(docs).Success? ==>
            && |SchemaDefinitionRows(docs).value| == |schemas|
            && forall k :: 0 <= k < |schemas| ==> SchemaRowDescribes(SchemaDefinitionRows(docs).value[k], schemas[k]))
  {
    var schemas := OpenApi.ComponentsSection(docs, "schemas").value;
    forall k | 0 <= k < |schemas|
      ensures SchemaRowStep(schemas[k]).Success? <==> schemas[k].1.JObj?
      ensures SchemaRowStep(schemas[k]).Success? ==> SchemaRowDescribes(SchemaRowStep(schemas[k]).value, schemas[k])
    {
      if schemas[k].1.JObj? {
        assert Keys(SchemaRowStep(schemas[k]).value) == SchemaColumnNames;
      }
    }
  }

  /** The texts the csv writer makes of a schema's row: its name, the text
      of its required list (`[]` when absent) and of its properties (empty
      when absent). */
  function SchemaCells(e: (string, Json)): seq<string>
    requires e.1.JObj?
  {
    [e.0, CellText(GetOr(e.1, "required", JArr([])).value), CellText(Get(e.1, "properties").value)]
  }

  lemma SchemaRowCells(row: Dict, e: (string, Json))
    requires SchemaRowDescribes(row, e)
    ensures Cells(row) == SchemaCells(e)
  {
    assert |row| == 3;
  }

  /** Reading the schema table back gives the column names, then one row
      per schema in document order, holding `SchemaCells` of it. */
  lemma SchemaTableReadBack(docs: Json)
    requires SchemaDefinitionsOf(docs).Success?
    ensures var schemas := OpenApi.ComponentsSection(docs, "schemas").value;
      var table := ReadCsv(SchemaDefinitionsOf(docs).value);
      && |table| == (if schemas == [] then 0 else |schemas| + 1)
      && (schemas != [] ==> table[0] == SchemaColumnNames)
      && forall k :: 0 <= k < |schemas| ==> schemas[k].1.JObj? && table[k + 1] == SchemaCells(schemas[k])
  {
    var schemas := OpenApi.ComponentsSection(docs, "schemas").value;
    var rows := SchemaDefinitionRows(docs).value;
    SchemaRowsFollowDocument(docs);
    CsvRoundTrip(rows);
    var table := Table(rows);
    assert ReadCsv(SchemaDefinitionsOf(docs).value) == table;
    if schemas != [] {
      assert SchemaRowDescribes(rows[0], schemas[0]);
      assert table[0] == Keys(rows[0]);
    }
    forall k | 0 <= k < |schemas|
      ensures schemas[k].1.JObj? && table[k + 1] == SchemaCells(schemas[k])
    {
      assert SchemaRowDescribes(rows[k], schemas[k]);
      SchemaRowCells(rows[k], schemas[k]);
      assert table[k + 1] == CellRows(rows)[k];
    }
  }
}
