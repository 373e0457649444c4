/**
 * The records the OpenAPI normaliser produces, and what `OpenApiParser.parse`
 * computes from a document, stated as functions. Every exception the Python
 * code can raise on a malformed document is a `Failure`, raised at the same
 * point of the walk as in the source, so the first one wins.
 */
module OpenApi {
  import opened Wrappers
  import opened PyText
  import opened PyValue
  import Csv

  /** One (path, method) pair of the document. */
  datatype MethodDefinition = MethodDefinition(
    operationId: Json,
    path: string,
    httpMethod: string,
    summary: Json,
    security: Option<string>,
    responseSchema: Json)

  /** One entry of an operation's `parameters` list. */
  datatype ParameterDefinition = ParameterDefinition(
    operationId: Json,
    required: Json,
    name: Json,
    location: Json,
    title: Json,
    parameterType: Json)

  /** One media type of an operation's request body. */
  datatype RequestBodyDefinition = RequestBodyDefinition(
    operationId: Json,
    contentType: string,
    schemaRef: string)

  /** One property of a component schema. */
  datatype SchemaDefinition = SchemaDefinition(
    schemaName: string,
    variableName: string,
    variableType: Json,
    required: bool)

  /** One declared security scheme. */
  datatype SecurityDefinition = SecurityDefinition(
    securityName: string,
    securityType: Json)

  /** The five record lists `parse` returns. */
  datatype OpenApiParts = OpenApiParts(
    methods: seq<MethodDefinition>,
    parameters: seq<ParameterDefinition>,
    requestBodies: seq<RequestBodyDefinition>,
    schemas: seq<SchemaDefinition>,
    securities: seq<SecurityDefinition>)

  const EmptyParts := OpenApiParts([], [], [], [], [])

  /** What one operation contributes: its method record, then the parameter
      and request-body records appended while it was walked. */
  datatype OperationRecords = OperationRecords(
    definition: MethodDefinition,
    parameters: seq<ParameterDefinition>,
    requestBodies: seq<RequestBodyDefinition>)

  function OptionalText(s: Option<string>): Json
  {
    if s.Some? then JStr(s.value) else JNull
  }

  // -----------------------------------------------------------------------
  // The records as the dicts `to_dict` returns, keys in the order the
  // dict literals of the parser give them.

  function MethodDict(m: MethodDefinition): Csv.Dict
  {
    [("operation_id", m.operationId), ("path", JStr(m.path)), ("method", JStr(m.httpMethod)),
     ("summary", m.summary), ("security", OptionalText(m.security)),
     ("response_schema", m.responseSchema)]
  }

  function ParameterDict(p: ParameterDefinition): Csv.Dict
  {
    [("operation_id", p.operationId), ("required", p.required), ("name", p.name),
     ("in", p.location), ("title", p.title), ("parameter_type", p.parameterType)]
  }

  function RequestBodyDict(b: RequestBodyDefinition): Csv.Dict
  {
    [("operation_id", b.operationId), ("content_type", JStr(b.contentType)),
     ("schema_ref", JStr(b.schemaRef))]
  }

  function SchemaDict(s: SchemaDefinition): Csv.Dict
  {
    [("schema_name", JStr(s.schemaName)), ("variable_name", JStr(s.variableName)),
     ("variable_type", s.variableType), ("required", JBool(s.required))]
  }

  function SecurityDict(s: SecurityDefinition): Csv.Dict
  {
    [("security_name", JStr(s.securityName)), ("security_type", s.securityType)]
  }

  /** `OpenApiGenericList.to_csv`: the records as dicts, rendered by `dict_to_csv`. */
  function ListCsv<R>(content: seq<R>, toDict: R -> Csv.Dict): (r: string)
    ensures r == "" <==> content == []
  {
    Csv.CsvOf(Dicts(content, toDict))
  }

  /** `OpenApiGenericList.to_dict`: every record as its dict, in order. */
  function Dicts<R>(content: seq<R>, toDict: R -> Csv.Dict): (ds: seq<Csv.Dict>)
    ensures |ds| == |content| && forall k :: 0 <= k < |content| ==> ds[k] == toDict(content[k])
  {
    seq(|content|, k requires 0 <= k < |content| => toDict(content[k]))
  }

  // -----------------------------------------------------------------------
  // The paths walk.

  /** The security scheme of an operation: the first key of the first entry
      of its `security` list, or `None` when the operation has no such field. */
  function SecurityOf(operation: Json): (r: Result<Option<string>, PyError>)
    requires operation.JObj?
    ensures !HasKey(operation, "security") ==> r == Success(None)
    ensures HasKey(operation, "security") && r.Success? ==> r.value.Some?
    ensures r.Success? && r.value.Some? ==>
      var list := Lookup(operation.fields, "security").value;
      list.JArr? && list.items != [] && list.items[0].JObj? && list.items[0].fields != []
      && r.value.value == list.items[0].fields[0].0
  {
    if HasKey(operation, "security") then
      var list := Subscript(operation, "security").value;
      var first :- Index0(list);
      var name :- FirstKey(first);
      Success(Some(name))
    else Success(None)
  }

  /** The response whose schema is reported: the "200" response when it is
      present and truthy, otherwise the first declared response. */
  function ChosenResponse(responses: Json): (r: Result<Json, PyError>)
    ensures r.Success? <==> responses.JObj? && (Truthy(Get(responses, "200").value) || responses.fields != [])
    ensures r.Success? && Truthy(Get(responses, "200").value) ==> r.value == Get(responses, "200").value
    ensures r.Success? && !Truthy(Get(responses, "200").value) ==> r.value == responses.fields[0].1
  {
    var ok :- Get(responses, "200");
    if Truthy(ok) then Success(ok) else FirstValue(responses)
  }

  /** The `$ref` of the schema of the first content entry of a response, with
      every schema prefix removed; `None` when there is no content or no `$ref`. */
  function ResponseRef(response: Json): (r: Result<Json, PyError>)
    ensures response.JObj? && !Truthy(Get(response, "content").value) ==> r == Success(JNull)
    ensures r.Success? && Truthy(r.value) ==> r.value.JStr?
    ensures r.Success? && response.JObj? && Truthy(Get(response, "content").value) ==>
      var content := Get(response, "content").value;
      && content.JObj? && content.fields != []
      && GetOr(content.fields[0].1, "schema", EmptyObj).Success?
      && Get(GetOr(content.fields[0].1, "schema", EmptyObj).value, "$ref").Success?
      && var reference := Get(GetOr(content.fields[0].1, "schema", EmptyObj).value, "$ref").value;
      && (Truthy(reference) ==> reference.JStr? && r.value == JStr(ReplaceAll(reference.s, SchemaPrefix, "")))
      && (!Truthy(reference) ==> r.value == reference)
  {
    var content :- Get(response, "content");
    var reference :-
      if Truthy(content) then
        var entries :- Items(content);
        var schema :- GetOr(entries[0].1, "schema", EmptyObj);
        Get(schema, "$ref")
      else Success(JNull);
    if Truthy(reference) then Replace(reference, SchemaPrefix, "") else Success(reference)
  }

  function ResponseSchemaOf(operation: Json): Result<Json, PyError>
  {
    var responses :- Get(operation, "responses");
    var response :- ChosenResponse(responses);
    ResponseRef(response)
  }

  /** The type reported for a parameter whose schema declares `declared`:
      the declared type, except that an `array` with truthy `items` becomes
      `array[<str of items.type>]`. */
  function ParameterTypeOf(parameter: Json, declared: Json): (r: Result<Json, PyError>)
    requires parameter.JObj?
    ensures declared != JStr("array") ==> r == Success(declared)
    ensures declared == JStr("array") && r.Success? ==>
      && Get(GetOr(parameter, "schema", EmptyObj).value, "items").Success?
      && var items := Get(GetOr(parameter, "schema", EmptyObj).value, "items").value;
      && (Truthy(items) ==> Get(items, "type").Success? && r.value == JStr("array[" + Str(Get(items, "type").value) + "]"))
      && (!Truthy(items) ==> r.value == declared)
  {
    if declared == JStr("array") then
      var schema := GetOr(parameter, "schema", EmptyObj).value;
      var items :- Get(schema, "items");
      if Truthy(items) then
        // A missing `type` is not a KeyError, so the `$ref` fallback of the
        // source never runs.
        var itemType :- Get(items, "type");
        Success(JStr("array[" + Str(itemType) + "]"))
      else Success(declared)
    else Success(declared)
  }

  function ParameterOf(operationId: Json, parameter: Json): (r: Result<ParameterDefinition, PyError>)
    ensures r.Success? ==> parameter.JObj? && r.value.operationId == operationId
    ensures r.Success? ==> r.value.name == Get(parameter, "name").value
    ensures r.Success? ==> r.value.location == Get(parameter, "in").value
    ensures r.Success? ==> r.value.required == Get(parameter, "required").value
    ensures r.Success? ==>
      && parameter.JObj?
      && var schema := Get(parameter, "schema").value;
      && schema.JObj?
      && r.value.title == Get(schema, "title").value
      && ParameterTypeOf(parameter, Get(schema, "type").value) == Success(r.value.parameterType)
  {
    var schema :- Get(parameter, "schema");
    var declared :- Get(schema, "type");
    var parameterType :- ParameterTypeOf(parameter, declared);
    var title := Get(schema, "title").value;
    Success(ParameterDefinition(operationId, Get(parameter, "required").value,
      Get(parameter, "name").value, Get(parameter, "in").value, title, parameterType))
  }

  /** The body of the parameters loop of one operation. */
  function ParameterStep(operationId: Json): Json -> Result<ParameterDefinition, PyError>
  {
    p => ParameterOf(operationId, p)
  }

  /** The parameter records of one operation, one per entry of a truthy
      `parameters` value, in order. */
  function OperationParametersOf(operationId: Json, operation: Json): (r: Result<seq<ParameterDefinition>, PyError>)
    requires operation.JObj?
    ensures !Truthy(Get(operation, "parameters").value) ==> r == Success([])
    ensures Truthy(Get(operation, "parameters").value) && r.Success? ==>
      var list := Iterate(Get(operation, "parameters").value);
      && list.Success? && |r.value| == |list.value|
      && forall k :: 0 <= k < |list.value| ==> ParameterOf(operationId, list.value[k]) == Success(r.value[k])
  {
    var parameters := Get(operation, "parameters").value;
    if Truthy(parameters) then
      var list :- Iterate(parameters);
      MapAll(ParameterStep(operationId), list)
    else Success([])
  }

  /** The request-body record of one media type. */
  function RequestBodyOf(operationId: Json, contentType: string, media: Json): (r: Result<RequestBodyDefinition, PyError>)
    ensures r.Success? ==> r.value.operationId == operationId && r.value.contentType == contentType
    ensures r.Success? ==>
      && media.JObj? && Get(media, "schema").value.JObj?
      && var reference := GetOr(Get(media, "schema").value, "$ref", JStr("")).value;
      && reference.JStr? && r.value.schemaRef == ReplaceAll(reference.s, SchemaPrefix, "")
  {
    var schema :- Get(media, "schema");
    var reference :- GetOr(schema, "$ref", JStr(""));
    var stripped :- Replace(reference, SchemaPrefix, "");
    Success(RequestBodyDefinition(operationId, contentType, stripped.s))
  }

  /** The body of the request-body loop of one operation. */
  function RequestBodyStep(operationId: Json): ((string, Json)) -> Result<RequestBodyDefinition, PyError>
  {
    (e: (string, Json)) => RequestBodyOf(operationId, e.0, e.1)
  }

  /** The request-body records of one operation: one per declared media
      type of a truthy `requestBody`, in order. */
  function OperationRequestBodiesOf(operationId: Json, operation: Json): (r: Result<seq<RequestBodyDefinition>, PyError>)
    requires operation.JObj?
    ensures !Truthy(Get(operation, "requestBody").value) ==> r == Success([])
  {
    var requestBody := Get(operation, "requestBody").value;
    if Truthy(requestBody) then
      var content :- Get(requestBody, "content");
      var media :- Items(content);
      MapAll(RequestBodyStep(operationId), media)
    else Success([])
  }

  /** Everything one (path, method, operation) triple contributes. */
  function OperationOf(path: string, httpMethod: string, operation: Json): (r: Result<OperationRecords, PyError>)
    ensures !HasKey(operation, "operationId") ==> r.Failure?
    ensures r.Success? ==>
      && operation.JObj?
      && Subscript(operation, "operationId") == Success(r.value.definition.operationId)
      && r.value.definition.path == path
      && r.value.definition.httpMethod == Upper(httpMethod)
      && GetOr(operation, "summary", JStr("")) == Success(r.value.definition.summary)
      && SecurityOf(operation) == Success(r.value.definition.security)
      && ResponseSchemaOf(operation) == Success(r.value.definition.responseSchema)
      && OperationParametersOf(r.value.definition.operationId, operation) == Success(r.value.parameters)
      && OperationRequestBodiesOf(r.value.definition.operationId, operation) == Success(r.value.requestBodies)
  {
    var operationId :- Subscript(operation, "operationId");
    var security :- SecurityOf(operation);
    var responseSchema :- ResponseSchemaOf(operation);
    var parameters :- OperationParametersOf(operationId, operation);
    var requestBodies :- OperationRequestBodiesOf(operationId, operation);
    var summary := GetOr(operation, "summary", JStr("")).value;
    Success(OperationRecords(
      MethodDefinition(operationId, path, Upper(httpMethod), summary, security, responseSchema),
      parameters, requestBodies))
  }

  /** The body of the loop over the operations of one path item. */
  function OperationStep(path: string): ((string, Json)) -> Result<OperationRecords, PyError>
  {
    (e: (string, Json)) => OperationOf(path, e.0, e.1)
  }

  /** The operations of one path item, in the item's key order. */
  function PathItemOf(path: string, pathItem: Json): (r: Result<seq<OperationRecords>, PyError>)
    ensures r.Success? ==> pathItem.JObj? && |r.value| == |pathItem.fields|
    ensures r.Success? ==> forall j :: 0 <= j < |pathItem.fields| ==>
      OperationOf(path, pathItem.fields[j].0, pathItem.fields[j].1) == Success(r.value[j])
  {
    var operations :- Items(pathItem);
    MapAll(OperationStep(path), operations)
  }

  /** The body of the loop over the `paths` section. */
  const PathItemStep: ((string, Json)) -> Result<seq<OperationRecords>, PyError> :=
    (e: (string, Json)) => PathItemOf(e.0, e.1)

  /** The operations of the whole `paths` section, path by path. */
  function PathsOf(doc: Json): Result<seq<OperationRecords>, PyError>
  {
    var paths :- Subscript(doc, "paths");
    var entries :- Items(paths);
    var groups :- MapAll(PathItemStep, entries);
    Success(Flatten(groups))
  }

  function MethodsOf(ops: seq<OperationRecords>): (ms: seq<MethodDefinition>)
    ensures |ms| == |ops| && forall k :: 0 <= k < |ops| ==> ms[k] == ops[k].definition
  {
    seq(|ops|, k requires 0 <= k < |ops| => ops[k].definition)
  }

  function ParametersOfAll(ops: seq<OperationRecords>): seq<ParameterDefinition>
  {
    if ops == [] then [] else ParametersOfAll(ops[..|ops| - 1]) + ops[|ops| - 1].parameters
  }

  function RequestBodiesOfAll(ops: seq<OperationRecords>): seq<RequestBodyDefinition>
  {
    if ops == [] then [] else RequestBodiesOfAll(ops[..|ops| - 1]) + ops[|ops| - 1].requestBodies
  }

  // -----------------------------------------------------------------------
  // The components walk.

  /** The type reported for one schema property: the declared `type`; when
      it is falsy and `$ref` is truthy, the `$ref` without schema prefixes;
      and when that gives `array`, the `items.$ref` (or "") with the prefix
      removed twice. */
  function FieldTypeOf(details: Json): (r: Result<Json, PyError>)
    ensures r.Success? ==> details.JObj?
    ensures details.JObj? && Truthy(Get(details, "type").value) && Get(details, "type").value != JStr("array") ==>
      r == Success(Get(details, "type").value)
    ensures details.JObj? && !Truthy(Get(details, "type").value) && !Truthy(Get(details, "$ref").value) ==>
      r == Success(Get(details, "type").value)
    ensures r.Success? && !Truthy(Get(details, "type").value) && Truthy(Get(details, "$ref").value) ==>
      && Get(details, "$ref").value.JStr?
      && var named := ReplaceAll(Get(details, "$ref").value.s, SchemaPrefix, "");
      (named != "array" ==> r.value == JStr(named))
    ensures r.Success? ==>
      var declared := Get(details, "type").value;
      var reference := Get(details, "$ref").value;
      var named := if !Truthy(declared) && reference.JStr? && Truthy(reference)
        then JStr(ReplaceAll(reference.s, SchemaPrefix, "")) else declared;
      named == JStr("array") ==>
        var items := GetOr(details, "items", EmptyObj).value;
        && items.JObj? && GetOr(items, "$ref", JStr("")).value.JStr?
        && r.value == JStr(ReplaceAll(ReplaceAll(GetOr(items, "$ref", JStr("")).value.s, SchemaPrefix, ""), SchemaPrefix, ""))
  {
    var declared :- Get(details, "type");
    var reference := if details.JObj? then Get(details, "$ref").value else JNull;
    var variableType :-
      if !Truthy(declared) && Truthy(reference) then Replace(reference, SchemaPrefix, "")
      else Success(declared);
    if variableType == JStr("array") then
      var items := GetOr(details, "items", EmptyObj).value;
      var itemRef :- GetOr(items, "$ref", JStr(""));
      var once :- Replace(itemRef, SchemaPrefix, "");
      Replace(once, SchemaPrefix, "")
    else Success(variableType)
  }

  function FieldOf(schemaName: string, required: seq<Json>, name: string, details: Json): (r: Result<SchemaDefinition, PyError>)
    ensures r.Success? ==> r.value.schemaName == schemaName && r.value.variableName == name
    ensures r.Success? ==> (r.value.required <==> JStr(name) in required)
    ensures r.Success? ==> FieldTypeOf(details) == Success(r.value.variableType)
  {
    var variableType :- FieldTypeOf(details);
    Success(SchemaDefinition(schemaName, name, variableType, JStr(name) in required))
  }

  /** The body of the loop over the properties of one schema. */
  function FieldStep(schemaName: string, required: seq<Json>): ((string, Json)) -> Result<SchemaDefinition, PyError>
  {
    (e: (string, Json)) => FieldOf(schemaName, required, e.0, e.1)
  }

  /** The field records of one component schema, one per property, in order. */
  function SchemaOf(schemaName: string, schema: Json): Result<seq<SchemaDefinition>, PyError>
  {
    var requiredList :- GetOr(schema, "required", JArr([]));
    var required :- SetElements(requiredList);
    var properties :- GetOr(schema, "properties", EmptyObj);
    var entries :- Items(properties);
    MapAll(FieldStep(schemaName, required), entries)
  }

  /** The body of the loop over `components.schemas`. */
  const SchemaStep: ((string, Json)) -> Result<seq<SchemaDefinition>, PyError> :=
    (e: (string, Json)) => SchemaOf(e.0, e.1)

  function SecuritySchemeOf(name: string, scheme: Json): (r: Result<SecurityDefinition, PyError>)
    ensures r.Success? <==> scheme.JObj?
    ensures r.Success? ==> r.value == SecurityDefinition(name, Get(scheme, "type").value)
  {
    var schemeType :- Get(scheme, "type");
    Success(SecurityDefinition(name, schemeType))
  }

  /** The body of the loop over `components.securitySchemes`. */
  const SecuritySchemeStep: ((string, Json)) -> Result<SecurityDefinition, PyError> :=
    (e: (string, Json)) => SecuritySchemeOf(e.0, e.1)

  function ComponentsSection(doc: Json, section: string): Result<seq<(string, Json)>, PyError>
  {
    var components :- GetOr(doc, "components", EmptyObj);
    var entries :- GetOr(components, section, EmptyObj);
    Items(entries)
  }

  /** The schema-field and security-scheme records of `components`. */
  function ComponentsOf(doc: Json): Result<(seq<SchemaDefinition>, seq<SecurityDefinition>), PyError>
  {
    var schemas :- ComponentsSection(doc, "schemas");
    var groups :- MapAll(SchemaStep, schemas);
    var schemes :- ComponentsSection(doc, "securitySchemes");
    var securities :- MapAll(SecuritySchemeStep, schemes);
    Success((Flatten(groups), securities))
  }

  /** `OpenApiParser(doc).parse()`: the paths walk, then the components walk. */
  function ParseOf(doc: Json): Result<OpenApiParts, PyError>
  {
    var ops :- PathsOf(doc);
    var components :- ComponentsOf(doc);
    Success(WithComponents(WithPaths(EmptyParts, ops), components))
  }

  /** `_parse_paths` stores the three lists of the paths walk. */
  function WithPaths(parts: OpenApiParts, ops: seq<OperationRecords>): OpenApiParts
  {
    parts.(methods := MethodsOf(ops), parameters := ParametersOfAll(ops),
           requestBodies := RequestBodiesOfAll(ops))
  }

  /** `_parse_components` stores the two lists of the components walk. */
  function WithComponents(parts: OpenApiParts, components: (seq<SchemaDefinition>, seq<SecurityDefinition>)): OpenApiParts
  {
    parts.(schemas := components.0, securities := components.1)
  }
}
