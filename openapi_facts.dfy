/**
 * What the normaliser guarantees about its output, stated over the
 * functions of module `OpenApi`.
 */
module OpenApiFacts {
  import opened Wrappers
  import opened PyText
  import opened PyValue
  import opened OpenApi
  import Csv

  /** The (path, method, operation) triples of one path item, in key order. */
  function PathOperations(entry: (string, Json)): seq<(string, string, Json)>
  {
    var item := entry.1;
    if item.JObj? then
      seq(|item.fields|, j requires 0 <= j < |item.fields| => (entry.0, item.fields[j].0, item.fields[j].1))
    else []
  }

  /** The (path, method, operation) triples of a `paths` section, in document order. */
  function AllOperations(pathItems: seq<(string, Json)>): seq<(string, string, Json)>
  {
    if pathItems == [] then []
    else AllOperations(pathItems[..|pathItems| - 1]) + PathOperations(pathItems[|pathItems| - 1])
  }

  function DocumentOperations(doc: Json): seq<(string, string, Json)>
  {
    match Subscript(doc, "paths")
    case Success(JObj(pathItems)) => AllOperations(pathItems)
    case _ => []
  }

  /** A method record describes the (path, method, operation) triple it
      came from: path, upper-cased method, id, summary, security scheme and
      response schema. */
  predicate Describes(m: MethodDefinition, t: (string, string, Json))
  {
    && m.path == t.0
    && m.httpMethod == Upper(t.1)
    && Subscript(t.2, "operationId") == Success(m.operationId)
    && GetOr(t.2, "summary", JStr("")) == Success(m.summary)
    && t.2.JObj?
    && SecurityOf(t.2) == Success(m.security)
    && ResponseSchemaOf(t.2) == Success(m.responseSchema)
  }

  /** Everything an operation contributes comes from the (path, method,
      operation) triple: its method record, and its parameter and
      request-body records under the operation's id. */
  predicate Contributes(o: OperationRecords, t: (string, string, Json))
  {
    && Describes(o.definition, t)
    && t.2.JObj?
    && OperationParametersOf(o.definition.operationId, t.2) == Success(o.parameters)
    && OperationRequestBodiesOf(o.definition.operationId, t.2) == Success(o.requestBodies)
  }

  lemma {:induction false} WalkFollowsDocument(pathItems: seq<(string, Json)>, groups: seq<seq<OperationRecords>>)
    requires MapAll(PathItemStep, pathItems) == Success(groups)
    ensures |Flatten(groups)| == |AllOperations(pathItems)|
    ensures forall k :: 0 <= k < |Flatten(groups)| ==>
      Contributes(Flatten(groups)[k], AllOperations(pathItems)[k])
    decreases |pathItems|
  {
    if pathItems != [] {
      var init := pathItems[..|pathItems| - 1];
      var last := pathItems[|pathItems| - 1];
      var front := groups[..|groups| - 1];
      var group := groups[|groups| - 1];
      assert MapAll(PathItemStep, init) == Success(front);
      WalkFollowsDocument(init, front);
      assert PathItemStep(last) == Success(group);
      var ops := PathOperations(last);
      assert |group| == |ops|;
      forall j | 0 <= j < |group|
        ensures Contributes(group[j], ops[j])
      {
        var e := last.1.fields[j];
        assert ops[j] == (last.0, e.0, e.1);
        assert OperationStep(last.0)(e) == Success(group[j]);
        assert OperationOf(last.0, e.0, e.1) == Success(group[j]);
      }
      assert Flatten(groups) == Flatten(front) + group;
      assert AllOperations(pathItems) == AllOperations(init) + ops;
    }
  }

  /** One method record per (path, method) pair, in document order, with the
      method upper-cased, the operation's id and its summary or "". */
  lemma MethodRecordsFollowDocument(doc: Json, parts: OpenApiParts)
    requires ParseOf(doc) == Success(parts)
    ensures |parts.methods| == |DocumentOperations(doc)|
    ensures forall k :: 0 <= k < |parts.methods| ==> Describes(parts.methods[k], DocumentOperations(doc)[k])
  {
    var paths := Subscript(doc, "paths").value;
    var groups := MapAll(PathItemStep, paths.fields).value;
    WalkFollowsDocument(paths.fields, groups);
  }

  /** The parameter and request-body lists of the parse are the
      concatenation, in document order, of what each (path, method) pair
      contributes, and each pair's part is its operation's
      `OperationParametersOf` and `OperationRequestBodiesOf`. */
  lemma OperationRecordsFollowDocument(doc: Json, parts: OpenApiParts)
    requires ParseOf(doc) == Success(parts)
    ensures PathsOf(doc).Success?
    ensures var ops := PathsOf(doc).value;
      && parts.parameters == ParametersOfAll(ops)
      && parts.requestBodies == RequestBodiesOfAll(ops)
      && |ops| == |DocumentOperations(doc)|
      && forall k :: 0 <= k < |ops| ==> Contributes(ops[k], DocumentOperations(doc)[k])
  {
    var paths := Subscript(doc, "paths").value;
    var groups := MapAll(PathItemStep, paths.fields).value;
    WalkFollowsDocument(paths.fields, groups);
  }

  /** An operation without `operationId` makes the whole parse fail. */
  lemma MissingOperationIdFails(doc: Json, p: nat, m: nat)
    requires Subscript(doc, "paths").Success? && Subscript(doc, "paths").value.JObj?
    requires p < |Subscript(doc, "paths").value.fields|
    requires Subscript(doc, "paths").value.fields[p].1.JObj?
    requires m < |Subscript(doc, "paths").value.fields[p].1.fields|
    requires !HasKey(Subscript(doc, "paths").value.fields[p].1.fields[m].1, "operationId")
    ensures ParseOf(doc).Failure?
  {
    var pathItems := Subscript(doc, "paths").value.fields;
    var entry := pathItems[p];
    assert OperationStep(entry.0)(entry.1.fields[m]).Failure?;
    assert PathItemStep(entry).Failure?;
  }

  /** The second key of a two-entry dict is found under its own name. */
  lemma SecondKey(k1: string, v1: Json, k2: string, v2: Json, default: Json)
    requires k1 != k2
    ensures GetOr(JObj([(k1, v1), (k2, v2)]), k2, default) == Success(v2)
  {
    var fields := [(k1, v1), (k2, v2)];
    assert fields[1..] == [(k2, v2)];
    assert KeyIndex([(k2, v2)], k2) == Some(0);
    assert KeyIndex(fields, k2) == Some(1);
  }

  /** A `$ref` made of the schema prefix and a name without `#` resolves to the name. */
  lemma StripSchemaPrefix(name: string)
    requires '#' !in name
    ensures Replace(JStr(SchemaPrefix + name), SchemaPrefix, "") == Success(JStr(name))
  {
    ReplaceLeadingPrefix(SchemaPrefix, name);
  }

  /** The `items` of an array parameter's schema. */
  function ParameterItems(parameter: Json): Result<Json, PyError>
    requires parameter.JObj?
  {
    Get(GetOr(parameter, "schema", EmptyObj).value, "items")
  }

  /** An array parameter whose items declare a string type `t` has the type
      `array[t]`. */
  lemma ArrayParameterType(parameter: Json, items: Json, t: string)
    requires parameter.JObj? && ParameterItems(parameter) == Success(items)
    requires items.JObj? && Lookup(items.fields, "type") == Some(JStr(t))
    ensures ParameterTypeOf(parameter, JStr("array")) == Success(JStr("array[" + t + "]"))
  {
    assert items.fields != [];
  }

  /** An array parameter whose items dict declares no `type` (a schema
      reference, say) has the type `array[None]`: the `$ref` fallback sits
      behind a `KeyError` that `.get` never raises. */
  lemma RefOnlyArrayParameterType(parameter: Json, items: Json)
    requires parameter.JObj? && ParameterItems(parameter) == Success(items)
    requires items.JObj? && items.fields != [] && !HasKey(items, "type")
    ensures ParameterTypeOf(parameter, JStr("array")) == Success(JStr("array[None]"))
  {
    assert Get(items, "type") == Success(JNull);
    assert Str(JNull) == "None";
    assert "array[" + "None" + "]" == "array[None]";
  }

  /** The parameter types of an array of strings and of an array of schema
      references, on two small documents. */
  lemma ArrayParameterTypes()
    ensures var items := JObj([("type", JStr("string"))]);
      var parameter := JObj([("schema", JObj([("type", JStr("array")), ("items", items)]))]);
      ParameterTypeOf(parameter, JStr("array")) == Success(JStr("array[string]"))
    ensures var items := JObj([("$ref", JStr(SchemaPrefix + "Pet"))]);
      var parameter := JObj([("schema", JObj([("type", JStr("array")), ("items", items)]))]);
      ParameterTypeOf(parameter, JStr("array")) == Success(JStr("array[None]"))
  {
    var scalarItems := JObj([("type", JStr("string"))]);
    var scalarSchema := JObj([("type", JStr("array")), ("items", scalarItems)]);
    assert GetOr(JObj([("schema", scalarSchema)]), "schema", EmptyObj) == Success(scalarSchema);
    SecondKey("type", JStr("array"), "items", scalarItems, JNull);
    assert ParameterItems(JObj([("schema", scalarSchema)])) == Success(scalarItems);
    ArrayParameterType(JObj([("schema", scalarSchema)]), scalarItems, "string");
    assert "array[" + "string" + "]" == "array[string]";
    var refItems := JObj([("$ref", JStr(SchemaPrefix + "Pet"))]);
    var refSchema := JObj([("type", JStr("array")), ("items", refItems)]);
    assert GetOr(JObj([("schema", refSchema)]), "schema", EmptyObj) == Success(refSchema);
    SecondKey("type", JStr("array"), "items", refItems, JNull);
    assert ParameterItems(JObj([("schema", refSchema)])) == Success(refItems);
    assert !HasKey(refItems, "type");
    RefOnlyArrayParameterType(JObj([("schema", refSchema)]), refItems);
  }

  /** A media type whose schema refers to `name` records `name`; one whose
      schema has no `$ref` records "". */
  lemma RequestBodySchemaRef(operationId: Json, contentType: string, media: Json, schema: Json, name: string)
    requires media.JObj? && Get(media, "schema") == Success(schema) && schema.JObj?
    requires '#' !in name
    ensures Lookup(schema.fields, "$ref") == Some(JStr(SchemaPrefix + name)) ==>
      RequestBodyOf(operationId, contentType, media) == Success(RequestBodyDefinition(operationId, contentType, name))
    ensures Lookup(schema.fields, "$ref").None? ==>
      RequestBodyOf(operationId, contentType, media) == Success(RequestBodyDefinition(operationId, contentType, ""))
  {
    StripSchemaPrefix(name);
    ReplaceAllAbsent("", SchemaPrefix, "");
  }

  /** One request-body record per declared media type, in order. */
  lemma RequestBodiesPerContentType(operationId: Json, operation: Json, bodies: seq<RequestBodyDefinition>)
    requires operation.JObj?
    requires OperationRequestBodiesOf(operationId, operation) == Success(bodies)
    requires Truthy(Get(operation, "requestBody").value)
    ensures var content := Get(Get(operation, "requestBody").value, "content").value;
      content.JObj? && |bodies| == |content.fields|
      && forall k :: 0 <= k < |bodies| ==>
           && bodies[k].operationId == operationId && bodies[k].contentType == content.fields[k].0
           && RequestBodyOf(operationId, content.fields[k].0, content.fields[k].1) == Success(bodies[k])
  {
    var content := Get(Get(operation, "requestBody").value, "content").value;
    forall k | 0 <= k < |bodies|
      ensures && bodies[k].operationId == operationId && bodies[k].contentType == content.fields[k].0
              && RequestBodyOf(operationId, content.fields[k].0, content.fields[k].1) == Success(bodies[k])
    {
      assert RequestBodyStep(operationId)(content.fields[k]) == Success(bodies[k]);
    }
  }

  /** A field is required exactly when its name is listed in the schema's
      `required` list of names. */
  lemma RequiredIffListed(schemaName: string, schema: Json, names: seq<string>, fields: seq<SchemaDefinition>)
    requires schema.JObj?
    requires Lookup(schema.fields, "required") == Some(JArr(seq(|names|, k requires 0 <= k < |names| => JStr(names[k]))))
    requires SchemaOf(schemaName, schema) == Success(fields)
    ensures forall k :: 0 <= k < |fields| ==> (fields[k].required <==> fields[k].variableName in names)
  {
    var listed := seq(|names|, k requires 0 <= k < |names| => JStr(names[k]));
    var properties := GetOr(schema, "properties", EmptyObj).value;
    var required := SetElements(JArr(listed)).value;
    forall k | 0 <= k < |fields|
      ensures fields[k].required <==> fields[k].variableName in names
    {
      assert FieldStep(schemaName, required)(properties.fields[k]) == Success(fields[k]);
      var name := fields[k].variableName;
      if name in names {
        var i :| 0 <= i < |names| && names[i] == name;
        assert listed[i] == JStr(name);
      }
      if JStr(name) in listed {
        var i :| 0 <= i < |listed| && listed[i] == JStr(name);
        assert names[i] == name;
      }
    }
  }

  /** Without a `required` list no field is required. */
  lemma NothingRequiredByDefault(schemaName: string, schema: Json, fields: seq<SchemaDefinition>)
    requires schema.JObj? && !HasKey(schema, "required")
    requires SchemaOf(schemaName, schema) == Success(fields)
    ensures forall k :: 0 <= k < |fields| ==> !fields[k].required
  {
    var properties := GetOr(schema, "properties", EmptyObj).value;
    forall k | 0 <= k < |fields|
      ensures !fields[k].required
    {
      assert FieldStep(schemaName, [])(properties.fields[k]) == Success(fields[k]);
    }
  }

  /** Schema `S` requiring `a`, with properties `a` and `b`. */
  lemma RequiredExample()
    ensures var schema := JObj([
        ("required", JArr([JStr("a")])),
        ("properties", JObj([("a", JObj([("type", JStr("string"))])), ("b", JObj([("type", JStr("integer"))]))]))]);
      SchemaOf("S", schema) == Success([
        SchemaDefinition("S", "a", JStr("string"), true),
        SchemaDefinition("S", "b", JStr("integer"), false)])
  {
    var properties := [("a", JObj([("type", JStr("string"))])), ("b", JObj([("type", JStr("integer"))]))];
    var schema := JObj([("required", JArr([JStr("a")])), ("properties", JObj(properties))]);
    assert GetOr(schema, "required", JArr([])) == Success(JArr([JStr("a")]));
    assert SetElements(JArr([JStr("a")])) == Success([JStr("a")]);
    SecondKey("required", JArr([JStr("a")]), "properties", JObj(properties), EmptyObj);
    var step := FieldStep("S", [JStr("a")]);
    assert Get(properties[0].1, "type") == Success(JStr("string"));
    assert Get(properties[1].1, "type") == Success(JStr("integer"));
    assert step(properties[0]) == Success(SchemaDefinition("S", "a", JStr("string"), true));
    assert step(properties[1]) == Success(SchemaDefinition("S", "b", JStr("integer"), false));
    MapAllPair(step, properties[0], properties[1]);
    assert Items(JObj(properties)) == Success(properties);
    assert SchemaOf("S", schema) == MapAll(step, properties);
  }

  /** A property without a truthy `type` whose `$ref` is the schema prefix
      followed by a name has that name as its type. */
  lemma RefPropertyType(details: Json, name: string)
    requires details.JObj? && !Truthy(Get(details, "type").value)
    requires Get(details, "$ref") == Success(JStr(SchemaPrefix + name))
    requires '#' !in name && name != "array"
    ensures FieldTypeOf(details) == Success(JStr(name))
  {
    StripSchemaPrefix(name);
  }

  /** An array property whose items refer to a schema has that schema's
      name as its type. */
  lemma RefArrayPropertyType(details: Json, name: string)
    requires details.JObj? && Get(details, "type") == Success(JStr("array"))
    requires GetOr(GetOr(details, "items", EmptyObj).value, "$ref", JStr("")) == Success(JStr(SchemaPrefix + name))
    requires '#' !in name
    ensures FieldTypeOf(details) == Success(JStr(name))
  {
    StripSchemaPrefix(name);
    AbsentWithoutFirstChar(name, SchemaPrefix);
    ReplaceAllAbsent(name, SchemaPrefix, "");
  }

  /** An array property whose items dict has no `$ref` (an array of
      scalars, say) has the empty type "", not the item type. */
  lemma ScalarArrayPropertyType(details: Json)
    requires details.JObj? && Get(details, "type") == Success(JStr("array"))
    requires GetOr(details, "items", EmptyObj).value.JObj?
    requires !HasKey(GetOr(details, "items", EmptyObj).value, "$ref")
    ensures FieldTypeOf(details) == Success(JStr(""))
  {
    ReplaceAllAbsent("", SchemaPrefix, "");
  }

  /** The three rules on small properties: a `$ref`-only property, an array
      of references and an array of strings. */
  lemma PropertyTypeExamples(name: string)
    requires '#' !in name && name != "array"
    ensures FieldTypeOf(JObj([("$ref", JStr(SchemaPrefix + name))])) == Success(JStr(name))
    ensures FieldTypeOf(JObj([("type", JStr("array")), ("items", JObj([("$ref", JStr(SchemaPrefix + name))]))]))
      == Success(JStr(name))
    ensures FieldTypeOf(JObj([("type", JStr("array")), ("items", JObj([("type", JStr("string"))]))]))
      == Success(JStr(""))
  {
    var reference := JObj([("$ref", JStr(SchemaPrefix + name))]);
    assert Get(reference, "type") == Success(JNull);
    assert Get(reference, "$ref") == Success(JStr(SchemaPrefix + name));
    RefPropertyType(reference, name);
    var refArray := JObj([("type", JStr("array")), ("items", reference)]);
    assert Get(refArray, "type") == Success(JStr("array"));
    SecondKey("type", JStr("array"), "items", reference, EmptyObj);
    assert GetOr(reference, "$ref", JStr("")) == Success(JStr(SchemaPrefix + name));
    RefArrayPropertyType(refArray, name);
    var scalarItems := JObj([("type", JStr("string"))]);
    var scalarArray := JObj([("type", JStr("array")), ("items", scalarItems)]);
    assert Get(scalarArray, "type") == Success(JStr("array"));
    SecondKey("type", JStr("array"), "items", scalarItems, EmptyObj);
    assert !HasKey(scalarItems, "$ref");
    ScalarArrayPropertyType(scalarArray);
  }

  /** A `required` list holding a dict or a list makes the schema raise the
      `TypeError` of `set`, naming the type of the first such element. */
  lemma UnhashableRequiredRaises(schemaName: string, schema: Json, listed: seq<Json>, k: nat)
    requires schema.JObj? && Lookup(schema.fields, "required") == Some(JArr(listed))
    requires k < |listed| && !Hashable(listed[k]) && forall j :: 0 <= j < k ==> Hashable(listed[j])
    ensures SchemaOf(schemaName, schema) == Failure(Unhashable(listed[k]))
  {
    var first := FirstUnhashable(listed);
    assert first.Some?;
    assert !(first.value < k) && !(k < first.value);
  }

  /** `required: [{}]` raises `TypeError("unhashable type: 'dict'")`. */
  lemma UnhashableRequiredExample()
    ensures SchemaOf("S", JObj([("required", JArr([EmptyObj]))])) == Failure(TypeError("unhashable type: 'dict'"))
  {
    UnhashableRequiredRaises("S", JObj([("required", JArr([EmptyObj]))]), [EmptyObj], 0);
    assert "unhashable type: '" + "dict" + "'" == "unhashable type: 'dict'";
  }

  /** The (schema, property, details) triples of one component schema, in
      property order. */
  function SchemaProperties(entry: (string, Json)): seq<(string, string, Json)>
  {
    var properties := if entry.1.JObj? then GetOr(entry.1, "properties", EmptyObj).value else JNull;
    if properties.JObj? then
      seq(|properties.fields|, j requires 0 <= j < |properties.fields| =>
        (entry.0, properties.fields[j].0, properties.fields[j].1))
    else []
  }

  /** The (schema, property, details) triples of `components.schemas`, in
      document order. */
  function AllProperties(schemas: seq<(string, Json)>): seq<(string, string, Json)>
  {
    if schemas == [] then []
    else AllProperties(schemas[..|schemas| - 1]) + SchemaProperties(schemas[|schemas| - 1])
  }

  /** A field record describes the (schema, property, details) triple it
      came from: the schema's name, the property's name and its type. */
  predicate DescribesField(f: SchemaDefinition, t: (string, string, Json))
  {
    f.schemaName == t.0 && f.variableName == t.1 && FieldTypeOf(t.2) == Success(f.variableType)
  }

  lemma {:induction false} SchemaWalkFollowsDocument(schemas: seq<(string, Json)>, groups: seq<seq<SchemaDefinition>>)
    requires MapAll(SchemaStep, schemas) == Success(groups)
    ensures |Flatten(groups)| == |AllProperties(schemas)|
    ensures forall k :: 0 <= k < |Flatten(groups)| ==> DescribesField(Flatten(groups)[k], AllProperties(schemas)[k])
    decreases |schemas|
  {
    if schemas != [] {
      var init := schemas[..|schemas| - 1];
      var last := schemas[|schemas| - 1];
      var front := groups[..|groups| - 1];
      var group := groups[|groups| - 1];
      assert MapAll(SchemaStep, init) == Success(front);
      SchemaWalkFollowsDocument(init, front);
      assert SchemaStep(last) == Success(group);
      assert SchemaOf(last.0, last.1) == Success(group);
      var required := SetElements(GetOr(last.1, "required", JArr([])).value).value;
      var properties := GetOr(last.1, "properties", EmptyObj).value;
      assert MapAll(FieldStep(last.0, required), properties.fields) == Success(group);
      var props := SchemaProperties(last);
      assert |group| == |props|;
      forall j | 0 <= j < |group|
        ensures DescribesField(group[j], props[j])
      {
        assert FieldStep(last.0, required)(properties.fields[j]) == Success(group[j]);
      }
      assert Flatten(groups) == Flatten(front) + group;
      assert AllProperties(schemas) == AllProperties(init) + props;
    }
  }

  /** The components walk: one field record per property of each component
      schema, in document order, each with its schema's name, the property's
      name and its type; and one security record per scheme, in order, with
      the scheme's name and `type`. */
  lemma ComponentsFollowDocument(doc: Json, fields: seq<SchemaDefinition>, securities: seq<SecurityDefinition>)
    requires ComponentsOf(doc) == Success((fields, securities))
    ensures var schemas := ComponentsSection(doc, "schemas").value;
      && |fields| == |AllProperties(schemas)|
      && forall k :: 0 <= k < |fields| ==> DescribesField(fields[k], AllProperties(schemas)[k])
    ensures var schemes := ComponentsSection(doc, "securitySchemes").value;
      && |securities| == |schemes|
      && forall k :: 0 <= k < |schemes| ==>
           securities[k] == SecurityDefinition(schemes[k].0, Get(schemes[k].1, "type").value)
  {
    var schemas := ComponentsSection(doc, "schemas").value;
    var groups := MapAll(SchemaStep, schemas).value;
    SchemaWalkFollowsDocument(schemas, groups);
    var schemes := ComponentsSection(doc, "securitySchemes").value;
    forall k | 0 <= k < |schemes|
      ensures securities[k] == SecurityDefinition(schemes[k].0, Get(schemes[k].1, "type").value)
    {
      assert SecuritySchemeStep(schemes[k]) == Success(securities[k]);
    }
  }

  /** A document without `components` yields no schema fields and no security schemes. */
  lemma MissingComponentsGiveEmptyLists(doc: Json)
    requires doc.JObj? && !HasKey(doc, "components")
    ensures ComponentsOf(doc) == Success(([], []))
  {
  }

  const MethodColumns: seq<string> :=
    ["operation_id", "path", "method", "summary", "security", "response_schema"]

  /** The cells of the method rows, one row per method. */
  function MethodRows(methods: seq<MethodDefinition>): seq<seq<string>>
  {
    seq(|methods|, i requires 0 <= i < |methods| => Csv.Cells(MethodDict(methods[i])))
  }

  /** The rendered method table: nothing for no methods; otherwise the fixed
      header, then one row per method in order. */
  lemma MethodTable(methods: seq<MethodDefinition>)
    ensures methods == [] ==> ListCsv(methods, MethodDict) == ""
    ensures methods != [] ==> Csv.ReadCsv(ListCsv(methods, MethodDict)) == [MethodColumns] + MethodRows(methods)
  {
    var data := Dicts(methods, MethodDict);
    Csv.CsvRoundTrip(data);
    if methods != [] {
      MethodColumnsAreKeys(methods[0]);
      assert Csv.CellRows(data) == MethodRows(methods);
    }
  }

  lemma MethodColumnsAreKeys(m: MethodDefinition)
    ensures Csv.Keys(MethodDict(m)) == MethodColumns
  {
    var d := MethodDict(m);
    assert Csv.Keys(d) == [d[0].0, d[1].0, d[2].0, d[3].0, d[4].0, d[5].0];
  }
}
