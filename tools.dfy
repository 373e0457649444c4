/**
 * The two tools the tool-use engine offers the language model: the
 * endpoint-details lookup over a freshly parsed document, and the HTTP
 * request tool. The HTTP relay is a function parameter.
 */
module Tools {
  import opened Wrappers
  import opened PyValue
  import opened OpenApi
  import opened OpenApiParsing
  import Csv

  /** `items[k]` is the first item whose attribute equals `value`. */
  predicate FirstMatchAt<R>(items: seq<R>, attribute: R -> Json, value: Json, k: nat)
  {
    k < |items| && attribute(items[k]) == value
    && forall j :: 0 <= j < k ==> attribute(items[j]) != value
  }

  /** `search_in_openapi_parts`: the first item, in list order, whose
      attribute equals `value`, or `None`. */
  function SearchIn<R(==)>(items: seq<R>, attribute: R -> Json, value: Json): (r: Option<R>)
    ensures r.None? <==> forall k :: 0 <= k < |items| ==> attribute(items[k]) != value
    ensures r.Some? ==> exists k: nat :: FirstMatchAt(items, attribute, value, k) && r.value == items[k]
    decreases |items|
  {
    if items == [] then None
    else if attribute(items[0]) == value then
      assert FirstMatchAt(items, attribute, value, 0);
      Some(items[0])
    else
      var r := SearchIn(items[1..], attribute, value);
      if r.Some? then
        var k: nat :| FirstMatchAt(items[1..], attribute, value, k) && r.value == items[1..][k];
        assert FirstMatchAt(items, attribute, value, k + 1);
        r
      else
        r
  }

  /** `search_in_openapi_parts`: the loop that returns the first match. */
  method SearchInParts<R(==)>(items: seq<R>, attribute: R -> Json, value: Json) returns (r: Option<R>)
    ensures r == SearchIn(items, attribute, value)
  {
    for i := 0 to |items|
      invariant SearchIn(items, attribute, value) == SearchIn(items[i..], attribute, value)
    {
      if attribute(items[i]) == value {
        return Some(items[i]);
      }
      assert items[i..][1..] == items[i + 1..];
    }
    return None;
  }

  const MethodOperationId: MethodDefinition -> Json := (m: MethodDefinition) => m.operationId
  const ParameterOperationId: ParameterDefinition -> Json := (p: ParameterDefinition) => p.operationId
  const RequestBodyOperationId: RequestBodyDefinition -> Json := (b: RequestBodyDefinition) => b.operationId
  const SecurityName: SecurityDefinition -> Json := (s: SecurityDefinition) => JStr(s.securityName)

  /** The schema-field records of schema `name`, in order. */
  function FieldsOfSchema(schemas: seq<SchemaDefinition>, name: string): (r: seq<SchemaDefinition>)
    ensures forall k :: 0 <= k < |r| ==> r[k] in schemas && r[k].schemaName == name
    ensures forall k :: 0 <= k < |schemas| && schemas[k].schemaName == name ==> schemas[k] in r
    decreases |schemas|
  {
    if schemas == [] then []
    else
      var init := schemas[..|schemas| - 1];
      var last := schemas[|schemas| - 1];
      var r := FieldsOfSchema(init, name) + (if last.schemaName == name then [last] else []);
      assert forall k :: 0 <= k < |init| ==> init[k] == schemas[k];
      r
  }

  /** The fields of a list of schema records followed by more records are
      the fields of the first list followed by those of the second: the
      records are kept in list order, each once. */
  lemma {:induction false} FieldsOfSchemaAppend(a: seq<SchemaDefinition>, b: seq<SchemaDefinition>, name: string)
    ensures FieldsOfSchema(a + b, name) == FieldsOfSchema(a, name) + FieldsOfSchema(b, name)
    decreases |b|
  {
    if b == [] {
      assert a + b == a;
    } else {
      var init := b[..|b| - 1];
      var last := b[|b| - 1];
      assert (a + b)[..|a + b| - 1] == a + init;
      FieldsOfSchemaAppend(a, init, name);
    }
  }

  /** What `GetEndpointDetails.__call__` returns. */
  datatype EndpointDetails = EndpointDetails(
    parameters: Option<ParameterDefinition>,
    requestBodySchema: Option<seq<SchemaDefinition>>,
    definition: MethodDefinition,
    securityDetails: Option<SecurityDefinition>)

  function NotFound(endpointId: Json): PyError
  {
    ValueError("Endpoint " + Str(endpointId) + " not found")
  }

  /** The endpoint details of `endpointId` in the document `openapiJson`;
      lemma `EndpointDetailsFacts` states what they are. */
  function EndpointDetailsOf(openapiJson: Json, endpointId: Json): Result<EndpointDetails, PyError>
  {
    var parts :- ParseOf(openapiJson);
    var definition := SearchIn(parts.methods, MethodOperationId, endpointId);
    if definition.None? then Failure(NotFound(endpointId))
    else
      var parameters := SearchIn(parts.parameters, ParameterOperationId, endpointId);
      var requestBody := SearchIn(parts.requestBodies, RequestBodyOperationId, endpointId);
      var securityDetails := SearchIn(parts.securities, SecurityName, OptionalText(definition.value.security));
      var requestBodySchema :=
        if requestBody.Some? then Some(FieldsOfSchema(parts.schemas, requestBody.value.schemaRef)) else None;
      Success(EndpointDetails(parameters, requestBodySchema, definition.value, securityDetails))
  }

  /** A document that does not parse fails with the parser's exception; an
      id no method record has raises `ValueError("Endpoint <id> not found")`;
      otherwise the lookup succeeds. */
  lemma EndpointDetailsFacts(openapiJson: Json, endpointId: Json)
    ensures var r := EndpointDetailsOf(openapiJson, endpointId);
      ParseOf(openapiJson).Failure? ==> r == Failure(ParseOf(openapiJson).error)
    ensures var r := EndpointDetailsOf(openapiJson, endpointId);
      ParseOf(openapiJson).Success? ==>
        var parts := ParseOf(openapiJson).value;
        && ((forall k :: 0 <= k < |parts.methods| ==> parts.methods[k].operationId != endpointId)
             <==> r == Failure(NotFound(endpointId)))
        && (r.Failure? ==> r == Failure(NotFound(endpointId)))
  {
  }

  /** The records the details are made of are the first records of the
      parsed document that carry the endpoint's id, or, for the security
      scheme, its name: the method record; the parameter record, absent
      exactly when no parameter has the id; the schema fields named by the
      first request-body record, absent exactly when no request body has the
      id; and the security record, absent exactly when no scheme has the
      endpoint's name (so always absent when the endpoint names none). */
  lemma EndpointRecordsFacts(openapiJson: Json, endpointId: Json)
    requires EndpointDetailsOf(openapiJson, endpointId).Success?
    ensures var parts := ParseOf(openapiJson).value;
      var d := EndpointDetailsOf(openapiJson, endpointId).value;
      && ParseOf(openapiJson).Success?
      && d.definition.operationId == endpointId
      && (exists k: nat :: FirstMatchAt(parts.methods, MethodOperationId, endpointId, k) && d.definition == parts.methods[k])
      && (d.requestBodySchema.None? <==>
           forall k :: 0 <= k < |parts.requestBodies| ==> parts.requestBodies[k].operationId != endpointId)
      && (d.parameters.None? <==>
           forall k :: 0 <= k < |parts.parameters| ==> parts.parameters[k].operationId != endpointId)
      && (d.parameters.Some? ==>
           exists k: nat :: FirstMatchAt(parts.parameters, ParameterOperationId, endpointId, k) && d.parameters.value == parts.parameters[k])
      && (d.requestBodySchema.Some? ==>
           exists k: nat :: FirstMatchAt(parts.requestBodies, RequestBodyOperationId, endpointId, k)
             && d.requestBodySchema.value == FieldsOfSchema(parts.schemas, parts.requestBodies[k].schemaRef))
      && (d.definition.security.None? ==> d.securityDetails.None?)
      && (d.securityDetails.None? <==>
           forall k :: 0 <= k < |parts.securities| ==> JStr(parts.securities[k].securityName) != OptionalText(d.definition.security))
      && (d.securityDetails.Some? ==>
           exists k: nat :: FirstMatchAt(parts.securities, SecurityName, OptionalText(d.definition.security), k)
             && d.securityDetails.value == parts.securities[k]
             && Some(d.securityDetails.value.securityName) == d.definition.security)
  {
  }

  /** `GetEndpointDetails.__call__`: parses the document anew, then looks the
      endpoint up and collects its request-body schema fields with a loop. */
  method GetEndpointDetails(openapiJson: Json, endpointId: Json) returns (r: Result<EndpointDetails, PyError>)
    ensures r == EndpointDetailsOf(openapiJson, endpointId)
  {
    var parser := new OpenApiParser(openapiJson);
    var parsed := parser.Parse();
    if parsed.Failure? {
      return Failure(parsed.error);
    }
    var parts := parsed.value;
    var definition := SearchInParts(parts.methods, MethodOperationId, endpointId);
    if definition.None? {
      return Failure(NotFound(endpointId));
    }
    var parameters := SearchInParts(parts.parameters, ParameterOperationId, endpointId);
    var requestBody := SearchInParts(parts.requestBodies, RequestBodyOperationId, endpointId);
    var requestBodySchema: Option<seq<SchemaDefinition>> := None;
    var securityDetails := SearchInParts(parts.securities, SecurityName, OptionalText(definition.value.security));
    if requestBody.Some? {
      var fields := CollectFields(parts.schemas, requestBody.value.schemaRef);
      requestBodySchema := Some(fields);
    }
    r := Success(EndpointDetails(parameters, requestBodySchema, definition.value, securityDetails));
  }

  /** The loop that appends every schema-field record of the request body's
      schema. */
  method CollectFields(schemas: seq<SchemaDefinition>, requestBodyRef: string) returns (fields: seq<SchemaDefinition>)
    ensures fields == FieldsOfSchema(schemas, requestBodyRef)
  {
    fields := [];
    for i := 0 to |schemas|
      invariant fields == FieldsOfSchema(schemas[..i], requestBodyRef)
    {
      assert schemas[..i + 1][..i] == schemas[..i];
      if schemas[i].schemaName == requestBodyRef {
        fields := fields + [schemas[i]];
      }
    }
    assert schemas[..|schemas|] == schemas;
  }

  function OptionalRecord<R>(r: Option<R>, toDict: R -> Csv.Dict): Json
  {
    if r.Some? then JObj(toDict(r.value)) else JNull
  }

  /** The returned dict as a Python value; its records print as their dicts. */
  function DetailsJson(d: EndpointDetails): Json
  {
    JObj([
      ("endpoint_parameters", OptionalRecord(d.parameters, ParameterDict)),
      ("request_body_schema",
        if d.requestBodySchema.Some? then
          JArr(seq(|d.requestBodySchema.value|, k requires 0 <= k < |d.requestBodySchema.value| =>
            JObj(SchemaDict(d.requestBodySchema.value[k]))))
        else JNull),
      ("endpoint_definition", JObj(MethodDict(d.definition))),
      ("security_details", OptionalRecord(d.securityDetails, SecurityDict))])
  }

  const EndpointDetailsName: string := "EndpointDetails"
  const EndpointDetailsDescription: string :=
    "Use this for getting details about an OpenAPI endpoint. You should use this tool to know which body or other parameters you need to use for request. Always use this tool before sending any requests. Input should be operation_id. Always start with this before doing anything else."
  const RequestName: string := "Request"
  const RequestDescription: string :=
    "Use this for making a request to an API on user's behalf. Action Input must be a dict of arguments that can be passed to `requests.request` function."

  /** A tool: the endpoint-details lookup over one document, or the request
      tool over an HTTP relay that takes the keyword arguments as a dict. */
  datatype Tool =
    | EndpointDetailsTool(openapiJson: Json)
    | RequestTool(relay: Json -> Result<Json, PyError>)
  {
    function Name(): string
    {
      if EndpointDetailsTool? then EndpointDetailsName else RequestName
    }

    function Description(): string
    {
      if EndpointDetailsTool? then EndpointDetailsDescription else RequestDescription
    }
  }

  /** `requests.request(**body).json()`: a non-dict argument cannot be
      unpacked; a dict goes to the relay. */
  function RequestOf(relay: Json -> Result<Json, PyError>, body: Json): (r: Result<Json, PyError>)
    ensures !body.JObj? ==> r.Failure? && r.error.TypeError?
    ensures body.JObj? ==> r == relay(body)
  {
    if body.JObj? then relay(body)
    else Failure(TypeError("requests.api.request() argument after ** must be a mapping, not " + TypeName(body)))
  }

  /** What calling `tool(args)` returns or raises. */
  function ToolResult(tool: Tool, args: Json): Result<Json, PyError>
  {
    match tool
    case EndpointDetailsTool(openapiJson) =>
      var details :- EndpointDetailsOf(openapiJson, args);
      Success(DetailsJson(details))
    case RequestTool(relay) => RequestOf(relay, args)
  }

  method InvokeTool(tool: Tool, args: Json) returns (r: Result<Json, PyError>)
    ensures r == ToolResult(tool, args)
  {
    match tool
    case EndpointDetailsTool(openapiJson) =>
      var details := GetEndpointDetails(openapiJson, args);
      if details.Failure? {
        return Failure(details.error);
      }
      r := Success(DetailsJson(details.value));
    case RequestTool(relay) =>
      r := RequestOf(relay, args);
  }

  /** The text after "Observation: ": `str` of the result, or of the exception. */
  function ObservationText(result: Result<Json, PyError>): string
  {
    if result.Success? then Str(result.value) else ErrorText(result.error)
  }
}
