/**
 * Python values as they come out of `json.loads`, and the handful of
 * dictionary, list and string operations the program applies to them,
 * each with the exception Python raises when the value has the wrong shape.
 */
module PyValue {
  import opened Wrappers
  import opened PyText

  /** A JSON-shaped Python value. Object entries keep their insertion order,
      which is the order Python iterates a dict in. */
  datatype Json =
    | JNull
    | JBool(b: bool)
    | JInt(i: int)
    | JStr(s: string)
    | JArr(items: seq<Json>)
    | JObj(fields: seq<(string, Json)>)

  /** The exceptions the modelled code can raise while walking such values. */
  datatype PyError =
    | KeyError(key: Json)
    | TypeError(message: string)
    | AttributeError(message: string)
    | IndexError(message: string)
    | ValueError(message: string)

  const EmptyObj: Json := JObj([])

  /** `type(v).__name__` */
  function TypeName(v: Json): string
  {
    match v
    case JNull => "NoneType"
    case JBool(_) => "bool"
    case JInt(_) => "int"
    case JStr(_) => "str"
    case JArr(_) => "list"
    case JObj(_) => "dict"
  }

  /** `bool(v)` */
  predicate Truthy(v: Json)
  {
    match v
    case JNull => false
    case JBool(b) => b
    case JInt(i) => i != 0
    case JStr(s) => s != ""
    case JArr(xs) => xs != []
    case JObj(fs) => fs != []
  }

  /** The index of the first entry whose key is `key`. */
  function KeyIndex(fields: seq<(string, Json)>, key: string): (r: Option<nat>)
    ensures r.Some? ==> r.value < |fields| && fields[r.value].0 == key
    ensures r.Some? ==> forall j :: 0 <= j < r.value ==> fields[j].0 != key
    ensures r.None? ==> forall j :: 0 <= j < |fields| ==> fields[j].0 != key
  {
    if fields == [] then None
    else if fields[0].0 == key then Some(0)
    else match KeyIndex(fields[1..], key)
      case None => None
      case Some(i) => Some(i + 1)
  }

  /** The value stored under `key`, if any. */
  function Lookup(fields: seq<(string, Json)>, key: string): Option<Json>
  {
    match KeyIndex(fields, key)
    case None => None
    case Some(i) => Some(fields[i].1)
  }

  function AttributeMissing(v: Json, attribute: string): PyError
  {
    AttributeError("'" + TypeName(v) + "' object has no attribute '" + attribute + "'")
  }

  /** `v.get(key, default)` */
  function GetOr(v: Json, key: string, default: Json): (r: Result<Json, PyError>)
    ensures r.Success? <==> v.JObj?
    ensures r.Success? && Lookup(v.fields, key).None? ==> r.value == default
    ensures r.Success? && Lookup(v.fields, key).Some? ==> r.value == Lookup(v.fields, key).value
  {
    if v.JObj? then
      match Lookup(v.fields, key)
      case None => Success(default)
      case Some(x) => Success(x)
    else Failure(AttributeMissing(v, "get"))
  }

  /** `v.get(key)` */
  function Get(v: Json, key: string): Result<Json, PyError>
  {
    GetOr(v, key, JNull)
  }

  /** `key in v` for a dict `v`. */
  predicate HasKey(v: Json, key: string)
  {
    v.JObj? && Lookup(v.fields, key).Some?
  }

  /** `v[key]` with a string key. */
  function Subscript(v: Json, key: string): (r: Result<Json, PyError>)
    ensures r.Success? <==> HasKey(v, key)
    ensures r.Failure? && v.JObj? ==> r.error == KeyError(JStr(key))
  {
    match v
    case JObj(fs) =>
      (match Lookup(fs, key)
       case Some(x) => Success(x)
       case None => Failure(KeyError(JStr(key))))
    case JArr(_) => Failure(TypeError("list indices must be integers or slices, not str"))
    case JStr(_) => Failure(TypeError("string indices must be integers, not 'str'"))
    case _ => Failure(TypeError("'" + TypeName(v) + "' object is not subscriptable"))
  }

  /** `v[0]` */
  function Index0(v: Json): (r: Result<Json, PyError>)
    ensures v.JArr? && v.items != [] ==> r == Success(v.items[0])
    ensures v.JArr? && v.items == [] ==> r.Failure? && r.error.IndexError?
  {
    match v
    case JArr(xs) => if xs == [] then Failure(IndexError("list index out of range")) else Success(xs[0])
    case JStr(s) => if s == [] then Failure(IndexError("string index out of range")) else Success(JStr([s[0]]))
    case JObj(_) => Failure(KeyError(JInt(0)))
    case _ => Failure(TypeError("'" + TypeName(v) + "' object is not subscriptable"))
  }

  /** `v.items()` */
  function Items(v: Json): (r: Result<seq<(string, Json)>, PyError>)
    ensures r.Success? <==> v.JObj?
    ensures r.Success? ==> r.value == v.fields
  {
    if v.JObj? then Success(v.fields) else Failure(AttributeMissing(v, "items"))
  }

  /** `list(v.keys())[0]` */
  function FirstKey(v: Json): (r: Result<string, PyError>)
    ensures r.Success? <==> v.JObj? && v.fields != []
    ensures r.Success? ==> r.value == v.fields[0].0
  {
    if !v.JObj? then Failure(AttributeMissing(v, "keys"))
    else if v.fields == [] then Failure(IndexError("list index out of range"))
    else Success(v.fields[0].0)
  }

  /** `list(v.values())[0]` */
  function FirstValue(v: Json): (r: Result<Json, PyError>)
    ensures r.Success? <==> v.JObj? && v.fields != []
    ensures r.Success? ==> r.value == v.fields[0].1
  {
    if !v.JObj? then Failure(AttributeMissing(v, "values"))
    else if v.fields == [] then Failure(IndexError("list index out of range"))
    else Success(v.fields[0].1)
  }

  /** `list(v)`: what a `for` loop over `v` visits. A dict yields its keys,
      a string its characters; scalars are not iterable. */
  function Iterate(v: Json): (r: Result<seq<Json>, PyError>)
    ensures v.JArr? ==> r == Success(v.items)
    ensures r.Success? <==> v.JArr? || v.JObj? || v.JStr?
    ensures r.Success? && v.JObj? ==> |r.value| == |v.fields|
  {
    match v
    case JArr(xs) => Success(xs)
    case JObj(fs) => Success(seq(|fs|, k requires 0 <= k < |fs| => JStr(fs[k].0)))
    case JStr(s) => Success(seq(|s|, k requires 0 <= k < |s| => JStr([s[k]])))
    case _ => Failure(TypeError("'" + TypeName(v) + "' object is not iterable"))
  }

  predicate Hashable(v: Json)
  {
    !v.JArr? && !v.JObj?
  }

  /** The index of the first element that cannot go into a set, if any. */
  function FirstUnhashable(xs: seq<Json>): (r: Option<nat>)
    ensures r.Some? ==> r.value < |xs| && !Hashable(xs[r.value])
    ensures r.Some? ==> forall j :: 0 <= j < r.value ==> Hashable(xs[j])
    ensures r.None? ==> forall j :: 0 <= j < |xs| ==> Hashable(xs[j])
  {
    if xs == [] then None
    else if !Hashable(xs[0]) then Some(0)
    else match FirstUnhashable(xs[1..])
      case None => None
      case Some(i) => Some(i + 1)
  }

  /** The exception `set` raises on an element it cannot hash. */
  function Unhashable(v: Json): PyError
  {
    TypeError("unhashable type: '" + TypeName(v) + "'")
  }

  /** The elements of `set(v)`, in iteration order (duplicates are harmless
      because the set is only asked for membership). The first element that
      cannot be hashed raises `TypeError`, naming its type. */
  function SetElements(v: Json): (r: Result<seq<Json>, PyError>)
    ensures r.Success? ==> Iterate(v) == r
    ensures r.Success? ==> forall k :: 0 <= k < |r.value| ==> Hashable(r.value[k])
    ensures Iterate(v).Failure? ==> r == Iterate(v)
    ensures Iterate(v).Success? && r.Failure? ==>
      exists k :: 0 <= k < |Iterate(v).value| && !Hashable(Iterate(v).value[k])
        && (forall j :: 0 <= j < k ==> Hashable(Iterate(v).value[j]))
        && r.error == Unhashable(Iterate(v).value[k])
  {
    var xs :- Iterate(v);
    match FirstUnhashable(xs)
    case None => Success(xs)
    case Some(k) => Failure(Unhashable(xs[k]))
  }

  const SchemaPrefix: string := "#/components/schemas/"

  /** `v.replace(target, replacement)` for a string `v`. */
  function Replace(v: Json, target: string, replacement: string): (r: Result<Json, PyError>)
    requires |target| > 0
    ensures r.Success? <==> v.JStr?
    ensures r.Success? ==> r.value == JStr(ReplaceAll(v.s, target, replacement))
  {
    if v.JStr? then Success(JStr(ReplaceAll(v.s, target, replacement)))
    else Failure(AttributeMissing(v, "replace"))
  }

  /** The escaped form of one character inside a quoted Python string literal. */
  function EscapeChar(c: char, quote: char): string
  {
    if c == '\\' then "\\\\"
    else if c == quote then ['\\', quote]
    else if c == '\n' then "\\n"
    else if c == '\r' then "\\r"
    else if c == '\t' then "\\t"
    else if (c as int) < 0x20 || c as int == 0x7F then
      "\\x" + [HexDigit(c as int / 16), HexDigit(c as int % 16)]
    else [c]
  }

  function HexDigit(d: nat): char
    requires d < 16
  {
    "0123456789abcdef"[d]
  }

  function EscapeAll(s: string, quote: char): string
  {
    if s == [] then "" else EscapeChar(s[0], quote) + EscapeAll(s[1..], quote)
  }

  /** `repr(s)` of a string: single quotes unless the text holds a single
      quote and no double quote. */
  function ReprString(s: string): (r: string)
    ensures |r| >= 2 && (r[0] == '\'' || r[0] == '"') && r[|r| - 1] == r[0]
  {
    var quote := if '\'' in s && '"' !in s then '"' else '\'';
    [quote] + EscapeAll(s, quote) + [quote]
  }

  /** `repr(v)` */
  function Repr(v: Json): string
  {
    match v
    case JNull => "None"
    case JBool(b) => if b then "True" else "False"
    case JInt(i) => IntToString(i)
    case JStr(s) => ReprString(s)
    case JArr(xs) =>
      "[" + Join(seq(|xs|, k requires 0 <= k < |xs| => Repr(xs[k])), ", ") + "]"
    case JObj(fs) =>
      "{" + Join(seq(|fs|, k requires 0 <= k < |fs| => ReprString(fs[k].0) + ": " + Repr(fs[k].1)), ", ") + "}"
  }

  /** `str(v)`: a string is itself, everything else is its `repr`. */
  function Str(v: Json): (r: string)
    ensures v.JStr? ==> r == v.s
    ensures !v.JStr? ==> r == Repr(v)
  {
    if v.JStr? then v.s else Repr(v)
  }

  /** `str(e)` of a raised exception. */
  function ErrorText(e: PyError): string
  {
    match e
    case KeyError(k) => Repr(k)
    case TypeError(m) => m
    case AttributeError(m) => m
    case IndexError(m) => m
    case ValueError(m) => m
  }
}
