# api-doc-gpt in Dafny

api-doc-gpt lets a chat language model answer questions about an HTTP API.
The model reads the API's OpenAPI document and may call the API itself. This
project models the parts of it that are not the model or the network:

- the OpenAPI normaliser (`OpenApiParser`), which flattens a document into
  five record lists: methods, parameters, request bodies, schema fields and
  security schemes;
- `dict_to_csv`, which renders such lists as the CSV tables the system
  prompts are made of;
- the tool-use ("ReAct") engine: it reads `Action:` / `Action Input:` lines
  out of a reply, pulls JSON objects out of the action input, calls the
  named tool and reports the result back as an `Observation:` turn;
- the two tools: the endpoint-details lookup and the HTTP request tool;
- the single-command engine, which reads `OUT: <answer>` or
  `CMD: METHOD PATH; REQ_BODY {..}; HEADER {..}` replies;
- the older engine and the table builders of the top-level `main.py`. Its
  commands have the form `METHOD PATH REQUEST_BODY: {..}`.

The language model is an oracle: a function from the transcript sent to the
reply it gives. The following are function values the engines and tools are
given:

- `json.loads` and `json.dumps`;
- `JSONDecoder.raw_decode`;
- `requests.request`;
- calling a tool.

Python values are the datatype `PyValue.Json`. Every exception the Python
code raises on unexpected input is a `Failure` carrying a `PyError`. It is
raised at the point of the code where Python raises it, so the first one
wins.

Modules, one per file:

| module | file | models |
|---|---|---|
| `Wrappers` | wrappers.dfy | `Option`, `Result`, and a loop that stops at the first exception |
| `PyText` | pytext.dfy | the `str` methods the code uses: `find`, `split`, `join`, `replace`, `strip`, `upper`, `startswith`, `in` |
| `PyValue` | pyvalue.dfy | Python values, dict and list access with their exceptions, `str` and `repr` |
| `Conversation` | chat.dfy | the chat transcript and `user_message` |
| `Csv` | csv.dfy | `dict_to_csv` and a reader for its output |
| `OpenApi` | openapi.dfy | the records and what `parse` computes, as functions |
| `OpenApiParsing` | openapi_parser.dfy | class `OpenApiParser` and its loops |
| `OpenApiFacts` | openapi_facts.dfy | what the parsed records say about the document |
| `Tools` | tools.dfy | `search_in_openapi_parts`, `GetEndpointDetails`, `RequestTool` |
| `React` | react_engine.dfy | `extract_json_objects`, `parse_language`, `ReactEngine.ask` |
| `SingleCommand` | processing_engine.dfy | the single-command `ProcessingEngine` |
| `LegacyMain` | legacy_main.dfy | `main.py`: its `ProcessingEngine` and the method and schema tables |

Each loop in the source is a method with a loop, proved equal to a function.
Properties of the code are then lemmas about those functions.

The code differs in places from what its documentation describes; the model
follows the code:

- An array parameter whose items only hold a `$ref` gets the type
  `array[None]`, not the referenced schema. `.get('type')` never raises
  `KeyError`, so the `$ref` fallback never runs.
- An array property whose items are scalars gets the type `""`, not the
  item type.
- `parse_language` keeps the last JSON object of the action input, not the
  first, and falls back to the text when that value is `None`.
- In `process_cmd`, a `HEADER` segment without `HEADER ` raises
  `IndexError`, because the split is outside the `try`. Only a header that
  does not decode is swallowed (left as `None`).

## Model

| member | source | states |
|---|---|---|
| PyValue.SetElements | api_doc_gpt/openapi_parser.py:196 | `set(v)` holds the elements `v` iterates over; the first element that cannot be hashed raises `TypeError("unhashable type: '<type>'")` |
| Csv.DictToCsv | api_doc_gpt/openapi_parser.py:5-21 | the loop writes exactly `CsvOf(data)`: the header row, then one row per dict |
| Csv.CsvOf | api_doc_gpt/openapi_parser.py:12 | the text is empty exactly when the list is empty |
| Csv.CsvRoundTrip | api_doc_gpt/openapi_parser.py:14-17 | reading the text back gives the first dict's keys, then each dict's values as cell texts, in list order (quoting, doubled quotes, CR LF endings and `None` as an empty field all undone) |
| OpenApi.Dicts | api_doc_gpt/openapi_parser.py:47-48 | one dict per record, in record order |
| OpenApi.ListCsv | api_doc_gpt/openapi_parser.py:50-51 | a record list renders as the empty text exactly when it has no records |
| OpenApi.SecurityOf | api_doc_gpt/openapi_parser.py:135-137 | no `security` key gives `None`; with the key, a success always names a scheme, the first key of the first entry of the `security` list |
| OpenApi.ChosenResponse | api_doc_gpt/openapi_parser.py:139-141 | the `"200"` response when truthy, otherwise the first response; it fails exactly when responses is not a dict or has neither |
| OpenApi.ResponseRef | api_doc_gpt/openapi_parser.py:142-149 | a response without truthy `content` has no schema reference; otherwise the first content entry's `schema.$ref` is reported with every `#/components/schemas/` removed when it is truthy, and as it is (`None`) when not |
| OpenApi.ParameterTypeOf | api_doc_gpt/openapi_parser.py:153-159 | a declared type other than `array` is reported unchanged; an `array` with truthy `items` becomes `array[` + `str` of the items' `type` + `]`, and stays `array` without them |
| OpenApi.ParameterOf | api_doc_gpt/openapi_parser.py:153-167 | a parameter record carries the operation's id, the parameter's `name`, `in` and `required` values, its schema's `title`, and the `ParameterTypeOf` its schema's `type` |
| OpenApi.OperationParametersOf | api_doc_gpt/openapi_parser.py:151-167 | an operation without truthy `parameters` contributes no parameter records; otherwise one record per element, in order, each the `ParameterOf` that element |
| OpenApi.RequestBodyOf | api_doc_gpt/openapi_parser.py:169-174 | a request-body record carries the operation's id, its media type, and the schema's `$ref` (or `""`) with every `#/components/schemas/` removed |
| OpenApi.OperationRequestBodiesOf | api_doc_gpt/openapi_parser.py:168 | an operation without truthy `requestBody` contributes no request-body records |
| OpenApi.OperationOf | api_doc_gpt/openapi_parser.py:134-183 | an operation without `operationId` raises; otherwise its method record has the id, the path, the upper-cased method, the summary or `""`, the `SecurityOf` and the `ResponseSchemaOf` the operation; its parameter and request-body records are exactly `OperationParametersOf` and `OperationRequestBodiesOf` of the operation under that id |
| OpenApi.PathItemOf | api_doc_gpt/openapi_parser.py:133 | one operation per key of the path item, in key order |
| OpenApi.MethodsOf | api_doc_gpt/openapi_parser.py:184 | one method record per operation, in order |
| OpenApi.FieldOf | api_doc_gpt/openapi_parser.py:199-210 | a field record names its schema and property, has the `FieldTypeOf` its details as type, and is required exactly when the name is in the `required` list |
| OpenApi.FieldTypeOf | api_doc_gpt/openapi_parser.py:199-204 | a truthy declared type other than `array` is kept; with neither a truthy type nor a truthy `$ref` the declared value is kept; otherwise the `$ref` without prefixes; a type that is then `array` becomes the items' `$ref` (or `""`) with the prefix removed twice |
| OpenApi.SecuritySchemeOf | api_doc_gpt/openapi_parser.py:212-216 | a scheme succeeds exactly when it is a dict, and records its name and `type` |
| OpenApiParsing.ParseOperation | api_doc_gpt/openapi_parser.py:134-183 | the statements and loops for one operation compute `OperationOf` |
| OpenApiParsing.WalkOperations | api_doc_gpt/openapi_parser.py:133-183 | the loop over a path item's operations stops at the first exception and otherwise collects every operation's records |
| OpenApiParsing.SchemaFields | api_doc_gpt/openapi_parser.py:196-210 | the properties loop computes `SchemaOf` |
| OpenApiParsing.OpenApiParser.constructor | api_doc_gpt/openapi_parser.py:115-117 | the parser keeps the document and starts with five empty lists |
| OpenApiParsing.OpenApiParser.ParsePaths | api_doc_gpt/openapi_parser.py:124-186 | on an exception the stored lists are unchanged; otherwise the method, parameter and request-body lists of the whole walk are stored and nothing else changes |
| OpenApiParsing.OpenApiParser.ParseComponents | api_doc_gpt/openapi_parser.py:188-219 | on an exception the stored lists are unchanged; otherwise the schema-field and security lists are stored and nothing else changes |
| OpenApiParsing.OpenApiParser.Parse | api_doc_gpt/openapi_parser.py:119-122 | the result is `ParseOf(doc)` and is what is stored; a failing components walk leaves the paths lists stored |
| OpenApiFacts.MethodRecordsFollowDocument | api_doc_gpt/openapi_parser.py:132-183 | one method record per (path, method) pair of the document, in document order, each with that pair's path, upper-cased method, id, summary, security scheme and response schema |
| OpenApiFacts.OperationRecordsFollowDocument | api_doc_gpt/openapi_parser.py:132-186 | the parse's parameter and request-body lists are the concatenation, in document order, of what each (path, method) pair contributes, and each pair's part is `OperationParametersOf` and `OperationRequestBodiesOf` of its operation under its id |
| OpenApiFacts.MissingOperationIdFails | api_doc_gpt/openapi_parser.py:134 | any operation without `operationId` makes the whole parse fail |
| OpenApiFacts.StripSchemaPrefix | api_doc_gpt/openapi_parser.py:113 | a `$ref` made of the schema prefix and a name resolves to the name |
| OpenApiFacts.ArrayParameterType | api_doc_gpt/openapi_parser.py:153-159 | any array parameter whose items declare the type `t` is typed `array[t]` |
| OpenApiFacts.RefOnlyArrayParameterType | api_doc_gpt/openapi_parser.py:153-159 | any array parameter whose non-empty items dict has no `type` is typed `array[None]`: the `$ref` fallback never runs |
| OpenApiFacts.ArrayParameterTypes | api_doc_gpt/openapi_parser.py:154-159 | on two small documents: an array of strings is typed `array[string]`, an array of references `array[None]` |
| OpenApiFacts.RequestBodySchemaRef | api_doc_gpt/openapi_parser.py:169-174 | for any media type: a schema whose `$ref` is the schema prefix and a name without `#` records the name; a schema without `$ref` records `""` |
| OpenApiFacts.RequestBodiesPerContentType | api_doc_gpt/openapi_parser.py:168-174 | one request-body record per media type, in order, each with the operation's id, the media type and the `RequestBodyOf` that media (so its `schema_ref` is the stripped `$ref`, or `""`) |
| OpenApiFacts.RequiredIffListed | api_doc_gpt/openapi_parser.py:196-209 | a field is required exactly when its name is in the schema's `required` list |
| OpenApiFacts.NothingRequiredByDefault | api_doc_gpt/openapi_parser.py:196 | without a `required` list no field is required |
| OpenApiFacts.RequiredExample | api_doc_gpt/openapi_parser.py:195-210 | a schema requiring `a` with properties `a` and `b` gives exactly two field records, `a` required, `b` not |
| OpenApiFacts.RefPropertyType | api_doc_gpt/openapi_parser.py:199-201 | any property without a truthy `type` whose `$ref` is the schema prefix and a name is typed with that name |
| OpenApiFacts.RefArrayPropertyType | api_doc_gpt/openapi_parser.py:202-204 | any `array` property whose items' `$ref` is the schema prefix and a name is typed with that name |
| OpenApiFacts.ScalarArrayPropertyType | api_doc_gpt/openapi_parser.py:202-204 | any `array` property whose items dict has no `$ref` is typed `""` |
| OpenApiFacts.PropertyTypeExamples | api_doc_gpt/openapi_parser.py:199-204 | on small properties: a `$ref`-only property and an array of references are typed with the name, an array of strings `""` |
| OpenApiFacts.UnhashableRequiredRaises | api_doc_gpt/openapi_parser.py:196 | a `required` list holding a dict or a list makes the schema raise `TypeError("unhashable type: '<type>'")` for the first such element |
| OpenApiFacts.UnhashableRequiredExample | api_doc_gpt/openapi_parser.py:196 | `required: [{}]` raises `TypeError("unhashable type: 'dict'")` |
| OpenApiFacts.SchemaWalkFollowsDocument | api_doc_gpt/openapi_parser.py:195-210 | the schemas loop gives one field record per (schema, property) pair, in order, each with the schema's name, the property's name and its `FieldTypeOf` type |
| OpenApiFacts.ComponentsFollowDocument | api_doc_gpt/openapi_parser.py:195-216 | the whole components walk: one field record per property of each component schema in document order, and one security record per scheme in order, with its name and `type` |
| OpenApiFacts.MissingComponentsGiveEmptyLists | api_doc_gpt/openapi_parser.py:195-216 | a document without `components` yields no schema fields and no security schemes |
| OpenApiFacts.MethodTable | api_doc_gpt/openapi_parser.py:50-51 | the method table is empty for no methods and otherwise reads back as the six column names, then one row per method |
| Tools.SearchIn | api_doc_gpt/react/tools.py:9-13 | `None` exactly when no item's attribute equals the value; otherwise the first item whose attribute does |
| Tools.SearchInParts | api_doc_gpt/react/tools.py:9-13 | the early-return loop computes `SearchIn` |
| Tools.FieldsOfSchema | api_doc_gpt/react/tools.py:47-52 | exactly the schema-field records of the named schema: every one returned belongs to it and every one of it is returned |
| Tools.FieldsOfSchemaAppend | api_doc_gpt/react/tools.py:49-52 | the fields of two record lists joined are the fields of the first then those of the second: list order, each record once |
| Tools.CollectFields | api_doc_gpt/react/tools.py:49-52 | the append loop computes `FieldsOfSchema` |
| Tools.EndpointDetailsFacts | api_doc_gpt/react/tools.py:32-38 | a parse failure propagates; `ValueError("Endpoint <id> not found")` exactly when no method has the id; no other exception is raised after the parse |
| Tools.EndpointRecordsFacts | api_doc_gpt/react/tools.py:36-59 | the definition is the first method record with the id; the parameters are the first parameter record with the id, `None` exactly when there is none; the request-body schema is the `FieldsOfSchema` of the first request body with the id, `None` exactly when there is none; the security details are the first scheme with the endpoint's security name, `None` exactly when there is none |
| Tools.GetEndpointDetails | api_doc_gpt/react/tools.py:32-59 | the parse, the searches and the schema loop compute `EndpointDetailsOf` |
| Tools.RequestOf | api_doc_gpt/react/tools.py:68-70 | a non-dict argument raises `TypeError`; a dict goes to the HTTP relay as keyword arguments |
| Tools.InvokeTool | api_doc_gpt/react/tools.py:24-70 | calling a tool computes `ToolResult`, the endpoint details as a dict or the request's decoded response |
| React.FindIsNextBrace | api_doc_gpt/react/react_engine.py:53 | `text.find('{', pos)` is the first `{` at or after `pos` |
| React.ExtractJsonObjects | api_doc_gpt/react/react_engine.py:44-61 | the loop yields exactly `Objects(text, decode)` |
| React.DecodedAtBraces | api_doc_gpt/react/react_engine.py:51-61 | every object yielded was decoded at a `{`; a text with no `{` yields nothing |
| React.DecodedApart | api_doc_gpt/react/react_engine.py:56-61 | the decoded stretches do not overlap: each object starts after the previous one ends |
| React.ExtractDecoded | api_doc_gpt/react/react_engine.py:56-59 | an iteration that decodes a value appends it and resumes the search after it |
| React.ExtractSkipped | api_doc_gpt/react/react_engine.py:60-61 | an iteration whose decoding fails resumes the search one past the `{` |
| React.WholeTextObject | api_doc_gpt/react/react_engine.py:44-61 | a text that is one object yields that object only, whatever braces are nested inside it |
| React.ObjectThenPlainText | api_doc_gpt/react/react_engine.py:44-61 | an object followed by text without `{` is the only object yielded |
| React.ClassifyFacts | api_doc_gpt/react/react_engine.py:70-72 | a line is an action line exactly when it starts with `Action:`, an input line exactly when it starts with `Action Input: ` |
| React.MarkerSplits | api_doc_gpt/react/react_engine.py:71-74 | element 1 of the marker split is the text after the marker |
| React.ReadLine | api_doc_gpt/react/react_engine.py:70-76 | one iteration of the line loop is `ConsumeLine` |
| React.ReadLines | api_doc_gpt/react/react_engine.py:64-76 | the line loop computes the action and input text of `Scan` over all lines |
| React.ActionFromLastActionLine | api_doc_gpt/react/react_engine.py:69-71 | the action is the last `Action:` line's, and is `None` exactly when there is no such line |
| React.InputFromLastInputLine | api_doc_gpt/react/react_engine.py:72-76 | the input text is the last `Action Input: ` line's text followed by every later non-action line, stripped |
| React.NoInputLine | api_doc_gpt/react/react_engine.py:67-76 | without an `Action Input: ` line the input text stays empty |
| React.ArgsOf | api_doc_gpt/react/react_engine.py:77-84 | the arguments are the last value decoded, unless there is none or it is `None`; then they are the text itself |
| React.LastObjectOr | api_doc_gpt/react/react_engine.py:77-84 | the loop keeps the last value, and the `!= None` test falls back to the text |
| React.PlainTextArgs | api_doc_gpt/react/react_engine.py:77-84 | an input text without `{` is passed on as the text |
| React.ParseLanguage | api_doc_gpt/react/react_engine.py:63-85 | the whole of `parse_language` computes `ParsedOf` |
| React.ToolDescriptionLines | api_doc_gpt/react/react_engine.py:37 | the tool listing splits back into one `- name: description` line per tool, in order |
| React.DefaultToolNames | api_doc_gpt/react/react_engine.py:38 | the two standard tools are listed as `EndpointDetails, Request` |
| React.SystemPromptFields | api_doc_gpt/react/react_engine.py:33-41 | the prompt fails exactly when the document does not parse; the method list is empty exactly when there are no methods |
| React.ToolIndex | api_doc_gpt/react/react_engine.py:95 | a tool found is one of the tools |
| React.ToolIndexFacts | api_doc_gpt/react/react_engine.py:95 | no tool is found exactly when none has the action's name; otherwise the first one with that name |
| React.ObservationTurnStarts | api_doc_gpt/react/react_engine.py:100-103 | every report of a tool result or exception starts with `Observation: ` |
| React.RunStopsOnPlainReply | api_doc_gpt/react/react_engine.py:92-105 | a reply without `Action:` ends the loop at once with that reply |
| React.RunToolStep | api_doc_gpt/react/react_engine.py:95-103 | a matched tool's observation and the reply to it are sent, and the loop goes on from that reply |
| React.RunNoToolStep | api_doc_gpt/react/react_engine.py:95 | an action that names no tool sends nothing and loops again |
| React.RunEnds | api_doc_gpt/react/react_engine.py:88-106 | the loop only returns a reply without `Action:`: the first reply when nothing was sent, otherwise the last assistant turn |
| React.UnmatchedActionStalls | api_doc_gpt/react/react_engine.py:91-95 | a reply whose action names no tool is examined forever: nothing is sent and only the fuel ends the loop |
| React.AddedTurnsAreObservations | api_doc_gpt/react/react_engine.py:96-103 | the turns the loop adds come in pairs, an `Observation: ` user turn and the assistant's reply |
| React.ToolStepAddsPair | api_doc_gpt/react/react_engine.py:96-103 | a tool call puts one observation pair in front of the later turns |
| React.ReactEngine.constructor | api_doc_gpt/react/react_engine.py:15-24 | the engine keeps its tools and starts a fresh transcript holding the system prompt |
| React.ReactEngine.Ask | api_doc_gpt/react/react_engine.py:88-106 | the question is sent, then the loop runs as `Run` says: outcome and final transcript |
| SingleCommand.ProcessOutStripsPrefix | api_doc_gpt/naive/processing_engine.py:25-27 | on a reply starting with `OUT: `, exactly that prefix is removed |
| SingleCommand.ProcessOutInverse | api_doc_gpt/naive/processing_engine.py:25-27 | `process_out` undoes writing `OUT: ` before an answer |
| SingleCommand.FirstContaining | api_doc_gpt/naive/processing_engine.py:42-43 | the first segment containing the marker, or none when no segment does |
| SingleCommand.MissingPathRaises | api_doc_gpt/naive/processing_engine.py:35-36 | a first segment without a second word raises `IndexError` |
| SingleCommand.UndecodableBodyRaises | api_doc_gpt/naive/processing_engine.py:41-46 | a body that does not decode raises the decoder's exception |
| SingleCommand.UndecodableHeaderIsNone | api_doc_gpt/naive/processing_engine.py:48-57 | a header that does not decode leaves the headers `None` |
| SingleCommand.StripCommandPrefix | api_doc_gpt/naive/processing_engine.py:30 | removing the first `CMD: ` gives back the command written after it |
| SingleCommand.ParseCommandText | api_doc_gpt/naive/processing_engine.py:29-39 | parsing `CMD: METHOD PATH` gives back the method and path, with no body and no headers |
| SingleCommand.ParseCommandWithBodyText | api_doc_gpt/naive/processing_engine.py:29-46 | parsing `CMD: METHOD PATH; REQ_BODY body` gives back method and path and the decoded body; it fails exactly when the body does not decode |
| SingleCommand.UnmarkedRepliesNeverAnswer | api_doc_gpt/naive/processing_engine.py:15-19 | an oracle that never starts with `OUT: ` or `CMD: ` gets the question asked again and again, wrapped once more each time, and no answer comes |
| SingleCommand.PrefixOfRun | api_doc_gpt/naive/processing_engine.py:15-19 | asking only appends to the transcript |
| SingleCommand.CmdRunFacts | api_doc_gpt/naive/processing_engine.py:21-23 | a command that raises changes nothing; otherwise `CMD_RESP: <data>` and the reply are appended, and the answer is the reply after `process_out` |
| SingleCommand.AnswerIsLastReply | api_doc_gpt/naive/processing_engine.py:15-23 | an answer is always the last assistant reply with its first `OUT: ` removed |
| SingleCommand.ProcessingEngine.constructor | api_doc_gpt/naive/processing_engine.py:11-13 | the engine keeps the chat and the base URL |
| SingleCommand.ProcessingEngine.WithDefaultUrl | api_doc_gpt/naive/processing_engine.py:11 | without a base URL the engine uses `http://0.0.0.0:8000` |
| SingleCommand.ProcessingEngine.Ask | api_doc_gpt/naive/processing_engine.py:15-19 | the outcome and the new transcript are `AskRun`'s |
| SingleCommand.ProcessingEngine.CmdResp | api_doc_gpt/naive/processing_engine.py:21-23 | reports the server data, appends the exchange, and returns the reply after `process_out` |
| SingleCommand.ProcessingEngine.ProcessCmd | api_doc_gpt/naive/processing_engine.py:29-60 | the outcome and the new transcript are `CmdRun`'s, with `ParseCommand` and `SendRequest` as the command handling |
| SingleCommand.ProcessingEngine.FindBody | api_doc_gpt/naive/processing_engine.py:41-46 | the body loop computes `BodyOf` |
| SingleCommand.ProcessingEngine.FindHeaders | api_doc_gpt/naive/processing_engine.py:48-57 | the header loop computes `HeadersOf` |
| Conversation.ExchangeFacts | main.py:55-73 | an exchange keeps the transcript and appends the user's text, then the oracle's reply to the transcript ending with it |
| Conversation.Chat.constructor | main.py:32-40 | the transcript is the starting state when one is given, otherwise the system message |
| Conversation.Chat.WithDefaultSystemMessage | main.py:32-40 | without a starting state the transcript is the default system message "You are a helpful AI assistant" |
| Conversation.Chat.UserMessage | main.py:55-73 | appends the user turn, returns the oracle's reply to the whole transcript and appends it |
| LegacyMain.LegacyMissingPathRaises | main.py:96-98 | a command of one word raises `IndexError` |
| LegacyMain.ParseLegacyCommandText | main.py:95-102 | parsing `CMD: METHOD PATH` gives back method and path with no body |
| LegacyMain.ParseLegacyCommandWithBodyText | main.py:95-102 | parsing `CMD: METHOD PATH REQUEST_BODY: body` gives back method and path and the decoded body; it fails exactly when the body does not decode |
| LegacyMain.LegacySend | main.py:107-115 | the response text, or the exception's text when the request raises; a truthy body is sent as its JSON text |
| LegacyMain.ProcessingEngine.constructor | main.py:77-79 | the engine keeps the chat and the base URL |
| LegacyMain.ProcessingEngine.WithDefaultUrl | main.py:77 | without a base URL the engine uses `http://0.0.0.0:8000` |
| LegacyMain.ProcessingEngine.Ask | main.py:81-85 | the same conversation as the newer engine, with this engine's command handling |
| LegacyMain.ProcessingEngine.CmdResp | main.py:87-89 | reports the server data, appends the exchange, and returns the reply after `process_out` |
| LegacyMain.ProcessingEngine.ProcessCmd | main.py:95-105 | the outcome and the new transcript are `CmdRun`'s, with the older grammar and `LegacySend` |
| LegacyMain.GetMethodDefinitions | main.py:126-142 | the nested loops and `dict_to_csv` compute `MethodDefinitionsOf` |
| LegacyMain.AppendPathRows | main.py:129-139 | the inner loop computes one path item's rows |
| LegacyMain.MethodRowFacts | main.py:130-139 | a row has the five columns, the path, the upper-cased method, the summary or `''`, and the `str` of the request body and parameters |
| LegacyMain.MethodRowsFollowDocument | main.py:128-139 | one row per (path, method) pair, in document order, each describing its operation |
| LegacyMain.MethodRowsSucceedIff | main.py:128-132 | the walk raises exactly when `paths` is missing or not a dict, or some path item or operation is not a dict |
| LegacyMain.PathRowsSucceedIff | main.py:129-132 | a path item's rows exist exactly when it and all its operations are dicts |
| LegacyMain.MissingPathsRaises | main.py:128 | a document without `paths` raises `KeyError('paths')` |
| LegacyMain.MethodRowCells | main.py:130-139 | the cells written for a row are the operation's path, method, summary, request body and parameters |
| LegacyMain.MethodTableReadBack | main.py:126-142 | the method table reads back as the column names, then one row of cells per operation in document order |
| LegacyMain.GetSchemaDefinitions | main.py:144-155 | the loop and `dict_to_csv` compute `SchemaDefinitionsOf` |
| LegacyMain.SchemaRowsFollowDocument | main.py:146-153 | one row per schema in document order; the walk raises exactly when some schema is not a dict |
| LegacyMain.SchemaRowCells | main.py:147-153 | the cells written for a row are the schema's name, its required list (`[]` by default) and its properties |
| LegacyMain.SchemaTableReadBack | main.py:144-155 | the schema table reads back as the column names, then one row of cells per schema in document order |

## Left out

- `main.py` has a second copy of `dict_to_csv` (lines 11-27). It is the same code as the one in `openapi_parser.py`, so `Csv.DictToCsv` models both.
- The language model, `openai.ChatCompletion`, token counting (`total_tokens`) and the model's role field are left out. The oracle's reply is always an assistant turn.
- `Chat._messages` is a class attribute in `main.py` and in `src/chat.py`, so chats made without a starting state share one list. The package's own `Chat`, which the tool-use engine uses, is not part of this model. If it shares that class-level list as `src/chat.py` does, every `ReactEngine` adds to the same transcript, because the engine always makes its chat without a starting state (api_doc_gpt/react/react_engine.py:23). The model gives each chat its own transcript.
- `json.loads`, `json.dumps`, `JSONDecoder.raw_decode` and `requests.request` are function parameters. The model does not describe JSON text or HTTP.
- Floating-point JSON numbers are not part of `PyValue.Json`.
- `repr` is modelled for `None`, booleans, integers, strings, lists and dicts. Non-ASCII characters that Python escapes are written as they are.
- `str.upper` maps only ASCII letters here. `str.strip` removes the characters `str.isspace` accepts.
- The stop sequences the tool-use engine's chat passes to the model are part of the oracle.
- Logging calls are left out. So is the unused `resp_text` computation in `send_request`.
- `ApiMasterAI` in `main.py` is left out: `get_openapi`, `start`, `get_system_prompt` and `get_start_prompt` read files and build FastAPI schemas, and `q` only hands the question to the engine's `ask`.
- `start_api_master` is left out: it runs the `>>>` input loop on the terminal.
- `get_system_prompt` of the tool-use engine is modelled by the values it fills the template with (`React.SystemPromptFields`). The template file is not read.
- `SingleCommand.ProcessingEngine.Ask`: the source recurses without bound on replies with neither prefix; a `fuel` argument bounds the recursion here.
- `LegacyMain.ProcessingEngine.Ask`: bounded by `fuel` in the same way.
- `React.ReactEngine.Ask`: the source's `while True` loop does not end on an action that names no tool; a `fuel` argument bounds it. `React.UnmatchedActionStalls` shows such a loop never sends anything.
- `LegacyMain.ParseLegacyCommandWithBodyText`: stated only for a method and a path without `:`. Otherwise an earlier `REQUEST_BODY: ` could sit inside them.
- `SingleCommand.ParseCommandWithBodyText`: stated only for a body text without `;`, `REQ_BODY ` or `HEADER`. Otherwise the segments split differently.
- `Tools.SearchIn`: compares with structural equality of `PyValue.Json`. Python's `==` also equates `1` with `True` and dicts that differ only in key order; the ids the engine looks up are strings, where the two agree.
