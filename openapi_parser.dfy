/**
 * `OpenApiParser`: the object that walks a document and stores the record
 * lists it finds in its `openapiParts` field. Each walk is proved to compute
 * what the functions of module `OpenApi` say, and a walk that raises leaves
 * the stored lists as they were.
 */
module OpenApiParsing {
  import opened Wrappers
  import opened PyText
  import opened PyValue
  import opened OpenApi

  /** The records of one operation, built statement by statement with the
      parameters and request-body loops. */
  method ParseOperation(path: string, httpMethod: string, operation: Json) returns (r: Result<OperationRecords, PyError>)
    ensures r == OperationOf(path, httpMethod, operation)
  {
    var operationId :- Subscript(operation, "operationId");
    var security :- SecurityOf(operation);
    var responseSchema :- ResponseSchemaOf(operation);
    var parameters: seq<ParameterDefinition> := [];
    var parameterValue := Get(operation, "parameters").value;
    if Truthy(parameterValue) {
      var list :- Iterate(parameterValue);
      parameters :- CollectAll(ParameterStep(operationId), list);
    }
    var requestBodies: seq<RequestBodyDefinition> := [];
    var requestBody := Get(operation, "requestBody").value;
    if Truthy(requestBody) {
      var content :- Get(requestBody, "content");
      var media :- Items(content);
      requestBodies :- CollectAll(RequestBodyStep(operationId), media);
    }
    var summary := GetOr(operation, "summary", JStr("")).value;
    var definition := MethodDefinition(operationId, path, Upper(httpMethod), summary, security, responseSchema);
    r := Success(OperationRecords(definition, parameters, requestBodies));
  }

  /** The field records of one component schema, built with the properties loop. */
  method SchemaFields(schemaName: string, schema: Json) returns (r: Result<seq<SchemaDefinition>, PyError>)
    ensures r == SchemaOf(schemaName, schema)
  {
    var requiredList :- GetOr(schema, "required", JArr([]));
    var required :- SetElements(requiredList);
    var properties := GetOr(schema, "properties", EmptyObj).value;
    var entries :- Items(properties);
    r := CollectAll(FieldStep(schemaName, required), entries);
  }

  lemma FlattenSnoc<T>(groups: seq<seq<T>>, group: seq<T>)
    ensures Flatten(groups + [group]) == Flatten(groups) + group
  {
    assert (groups + [group])[..|groups|] == groups;
  }

  /** The per-record projections distribute over concatenation. */
  lemma OperationsAppend(ops: seq<OperationRecords>, more: seq<OperationRecords>)
    ensures MethodsOf(ops + more) == MethodsOf(ops) + MethodsOf(more)
    ensures ParametersOfAll(ops + more) == ParametersOfAll(ops) + ParametersOfAll(more)
    ensures RequestBodiesOfAll(ops + more) == RequestBodiesOfAll(ops) + RequestBodiesOfAll(more)
  {
    ParametersAppend(ops, more);
    RequestBodiesAppend(ops, more);
  }

  lemma {:induction false} ParametersAppend(ops: seq<OperationRecords>, more: seq<OperationRecords>)
    ensures ParametersOfAll(ops + more) == ParametersOfAll(ops) + ParametersOfAll(more)
    decreases |more|
  {
    if more == [] {
      assert ops + more == ops;
    } else {
      var init := more[..|more| - 1];
      ParametersAppend(ops, init);
      assert (ops + more)[..|ops + more| - 1] == ops + init;
      assert (ops + more)[|ops + more| - 1] == more[|more| - 1];
    }
  }

  lemma {:induction false} RequestBodiesAppend(ops: seq<OperationRecords>, more: seq<OperationRecords>)
    ensures RequestBodiesOfAll(ops + more) == RequestBodiesOfAll(ops) + RequestBodiesOfAll(more)
    decreases |more|
  {
    if more == [] {
      assert ops + more == ops;
    } else {
      var init := more[..|more| - 1];
      RequestBodiesAppend(ops, init);
      assert (ops + more)[..|ops + more| - 1] == ops + init;
      assert (ops + more)[|ops + more| - 1] == more[|more| - 1];
    }
  }

  /** The loop over the operations of one path item. */
  method WalkOperations(path: string, operations: seq<(string, Json)>) returns (r: Result<seq<OperationRecords>, PyError>)
    ensures r == MapAll(OperationStep(path), operations)
  {
    var group: seq<OperationRecords> := [];
    for j := 0 to |operations|
      invariant MapAll(OperationStep(path), operations[..j]) == Success(group)
    {
      MapAllStep(OperationStep(path), operations, j);
      var records := ParseOperation(path, operations[j].0, operations[j].1);
      if records.Failure? {
        MapAllFailureExtends(OperationStep(path), operations, j + 1);
        return Failure(records.error);
      }
      group := group + [records.value];
    }
    assert operations[..|operations|] == operations;
    r := Success(group);
  }

  class OpenApiParser {
    const openapiJson: Json
    var openapiParts: OpenApiParts

    constructor (openapiJson: Json)
      ensures this.openapiJson == openapiJson && openapiParts == EmptyParts
    {
      this.openapiJson := openapiJson;
      openapiParts := EmptyParts;
    }

    /** `_parse_paths`: walks every operation of every path and then stores
        the method, parameter and request-body lists. */
    method ParsePaths() returns (outcome: Result<(), PyError>)
      modifies this
      ensures PathsOf(openapiJson).Failure? ==>
        outcome == Failure(PathsOf(openapiJson).error) && openapiParts == old(openapiParts)
      ensures PathsOf(openapiJson).Success? ==>
        outcome == Success(()) && openapiParts == WithPaths(old(openapiParts), PathsOf(openapiJson).value)
    {
      var paths := Subscript(openapiJson, "paths");
      if paths.Failure? {
        return Failure(paths.error);
      }
      var entries := Items(paths.value);
      if entries.Failure? {
        return Failure(entries.error);
      }
      var pathItems := entries.value;
      var methodData: seq<MethodDefinition> := [];
      var parameterList: seq<ParameterDefinition> := [];
      var requestBodyList: seq<RequestBodyDefinition> := [];
      ghost var groups: seq<seq<OperationRecords>> := [];
      for i := 0 to |pathItems|
        invariant MapAll(PathItemStep, pathItems[..i]) == Success(groups)
        invariant methodData == MethodsOf(Flatten(groups))
        invariant parameterList == ParametersOfAll(Flatten(groups))
        invariant requestBodyList == RequestBodiesOfAll(Flatten(groups))
        invariant openapiParts == old(openapiParts)
      {
        MapAllStep(PathItemStep, pathItems, i);
        var (path, pathItem) := pathItems[i];
        var operations := Items(pathItem);
        if operations.Failure? {
          MapAllFailureExtends(PathItemStep, pathItems, i + 1);
          return Failure(operations.error);
        }
        var group := WalkOperations(path, operations.value);
        if group.Failure? {
          MapAllFailureExtends(PathItemStep, pathItems, i + 1);
          return Failure(group.error);
        }
        OperationsAppend(Flatten(groups), group.value);
        methodData := methodData + MethodsOf(group.value);
        parameterList := parameterList + ParametersOfAll(group.value);
        requestBodyList := requestBodyList + RequestBodiesOfAll(group.value);
        FlattenSnoc(groups, group.value);
        groups := groups + [group.value];
      }
      assert pathItems[..|pathItems|] == pathItems;
      openapiParts := openapiParts.(methods := methodData, parameters := parameterList, requestBodies := requestBodyList);
      outcome := Success(());
    }

    /** `_parse_components`: walks the component schemas and the security
        schemes and then stores their lists. */
    method ParseComponents() returns (outcome: Result<(), PyError>)
      modifies this
      ensures ComponentsOf(openapiJson).Failure? ==>
        outcome == Failure(ComponentsOf(openapiJson).error) && openapiParts == old(openapiParts)
      ensures ComponentsOf(openapiJson).Success? ==>
        outcome == Success(()) && openapiParts == WithComponents(old(openapiParts), ComponentsOf(openapiJson).value)
    {
      var schemas := ComponentsSection(openapiJson, "schemas");
      if schemas.Failure? {
        return Failure(schemas.error);
      }
      var schemaData: seq<SchemaDefinition> := [];
      ghost var groups: seq<seq<SchemaDefinition>> := [];
      for i := 0 to |schemas.value|
        invariant MapAll(SchemaStep, schemas.value[..i]) == Success(groups)
        invariant schemaData == Flatten(groups)
        invariant openapiParts == old(openapiParts)
      {
        MapAllStep(SchemaStep, schemas.value, i);
        var fields := SchemaFields(schemas.value[i].0, schemas.value[i].1);
        if fields.Failure? {
          MapAllFailureExtends(SchemaStep, schemas.value, i + 1);
          return Failure(fields.error);
        }
        FlattenSnoc(groups, fields.value);
        schemaData := schemaData + fields.value;
        groups := groups + [fields.value];
      }
      assert schemas.value[..|schemas.value|] == schemas.value;
      var schemes := ComponentsSection(openapiJson, "securitySchemes");
      if schemes.Failure? {
        return Failure(schemes.error);
      }
      var securityData := CollectAll(SecuritySchemeStep, schemes.value);
      if securityData.Failure? {
        return Failure(securityData.error);
      }
      openapiParts := openapiParts.(schemas := schemaData, securities := securityData.value);
      outcome := Success(());
    }

    /** `parse`: the paths walk, then the components walk; the stored parts
        are returned. */
    method Parse() returns (r: Result<OpenApiParts, PyError>)
      modifies this
      ensures r == ParseOf(openapiJson)
      ensures r.Success? ==> openapiParts == r.value
      ensures PathsOf(openapiJson).Failure? ==> openapiParts == old(openapiParts)
      ensures PathsOf(openapiJson).Success? && ComponentsOf(openapiJson).Failure? ==>
        openapiParts == WithPaths(old(openapiParts), PathsOf(openapiJson).value)
    {
      var paths := ParsePaths();
      if paths.Failure? {
        return Failure(paths.error);
      }
      var components := ParseComponents();
      if components.Failure? {
        return Failure(components.error);
      }
      r := Success(openapiParts);
    }
  }
}
