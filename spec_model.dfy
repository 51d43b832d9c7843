/**
 * The parsed form of an OpenAPI 3.x or Swagger 2.0 document, and the
 * helpers that build it from the decoded document: `$ref` lookup,
 * parameter parsing and merging, security schemes, base URLs, and the
 * read-through spec cache.
 *
 * The decoded document is a `Json` value.  A field of the wrong JSON type
 * is read as if it were absent.
 */
module SpecModel {
  import opened Wrappers
  import opened Strings
  import opened JsonValue
  import OrderedDict

  // ---------------------------------------------------------------------------
  // Data model
  // ---------------------------------------------------------------------------

  datatype ParamSpec = ParamSpec(name: string, location: string, required: bool, schemaType: string)

  /** `type` is a keyword here, so the scheme's type is called `kind`. */
  datatype SecurityScheme = SecurityScheme(
    kind: string,
    name: Option<string>,
    location: Option<string>,
    scheme: Option<string>)

  /** `security` is `Null` when the operation has none. */
  datatype OperationSpec = OperationSpec(
    httpMethod: string,
    path: string,
    operationId: Option<string>,
    summary: Option<string>,
    parameters: seq<ParamSpec>,
    hasRequestBody: bool,
    security: Json)

  datatype ApiSpec = ApiSpec(
    title: string,
    version: string,
    baseUrl: string,
    operations: seq<OperationSpec>,
    securitySchemes: OrderedDict.Dict<SecurityScheme>,
    globalSecurity: Json)

  /** The lower-case method names a path item may hold (`HTTP_METHODS`). */
  const HttpMethods: set<string> := {"get", "put", "post", "delete", "patch", "options", "head", "trace"}

  // ---------------------------------------------------------------------------
  // `$ref` lookup: a JSON Pointer (section 4 of RFC 6901) into the document,
  // without the `~0`/`~1` unescaping of section 3
  // ---------------------------------------------------------------------------

  /** Walking `parts` from `node`: a missing key steps to `{}`, a non-dict ends in `{}`. */
  function Walk(parts: seq<string>, node: Json): (r: Json)
    ensures r.Obj?
  {
    if |parts| == 0 then (if node.Obj? then node else EmptyObj)
    else if node.Obj? then Walk(parts[1..], MemberOr(node, parts[0], EmptyObj))
    else EmptyObj
  }

  /** What `_resolve_ref` returns for `ref` in `root`. */
  function RefTarget(ref: string, root: Json): (r: Json)
    ensures r.Obj?
    ensures !StartsWith(ref, "#/") ==> r == EmptyObj
  {
    if StartsWith(ref, "#/") then Walk(SplitOn(ref[2..], '/'), root) else EmptyObj
  }

  /** `_resolve_ref`. */
  method ResolveRef(ref: string, root: Json) returns (r: Json)
    ensures r == RefTarget(ref, root)
  {
    if !StartsWith(ref, "#/") {
      return EmptyObj;
    }
    var parts := SplitOn(ref[2..], '/');
    var node := root;
    for i := 0 to |parts|
      invariant Walk(parts[i..], node) == Walk(parts, root)
    {
      assert parts[i..][1..] == parts[i + 1..];
      if node.Obj? {
        node := MemberOr(node, parts[i], EmptyObj);
      } else {
        return EmptyObj;
      }
    }
    r := if node.Obj? then node else EmptyObj;
  }

  /** The node reached by following `keys` through dicts, if every key is present. */
  function Follow(node: Json, keys: seq<string>): Option<Json> {
    if |keys| == 0 then Some(node)
    else if node.Obj? && HasKey(node, keys[0]) then Follow(MemberOr(node, keys[0], Null), keys[1..])
    else None
  }

  /** A dict node reached by `Follow`, or `{}`. */
  function DictOrEmpty(r: Option<Json>): Json {
    match r
    case Some(Obj(fields)) => Obj(fields)
    case _ => EmptyObj
  }

  lemma {:induction false} WalkFromEmpty(parts: seq<string>)
    ensures Walk(parts, EmptyObj) == EmptyObj
  {
    if |parts| > 0 {
      assert MemberOr(EmptyObj, parts[0], EmptyObj) == EmptyObj;
      WalkFromEmpty(parts[1..]);
    }
  }

  lemma {:induction false} WalkFollows(keys: seq<string>, node: Json)
    ensures Walk(keys, node) == DictOrEmpty(Follow(node, keys))
  {
    if |keys| > 0 && node.Obj? {
      if HasKey(node, keys[0]) {
        WalkFollows(keys[1..], MemberOr(node, keys[0], Null));
      } else {
        WalkFromEmpty(keys[1..]);
      }
    }
  }

  /**
   * The pointer `#/k1/k2/…` names the dict reached by following k1, k2, …
   * from the root, and `{}` when a key is missing or the node reached is
   * not a dict.
   */
  lemma RefOfKeys(keys: seq<string>, root: Json)
    requires |keys| >= 1
    requires forall i :: 0 <= i < |keys| ==> '/' !in keys[i]
    ensures RefTarget("#/" + Join(keys, "/"), root) == DictOrEmpty(Follow(root, keys))
  {
    var ref := "#/" + Join(keys, "/");
    assert ref[..2] == "#/" && ref[2..] == Join(keys, "/");
    SplitJoin(keys, '/');
    WalkFollows(keys, root);
  }

  // ---------------------------------------------------------------------------
  // Parameters
  // ---------------------------------------------------------------------------

  /** A raw parameter after `$ref` resolution (only when the root is non-empty). */
  function ResolvedParam(p: Json, root: Json): Json {
    if HasKey(p, "$ref") && Truthy(root) then RefTarget(StrMemberOr(p, "$ref", ""), root) else p
  }

  /** `schema.get("type", "string")` when the schema is a dict, else "string". */
  function SchemaType(q: Json): string {
    var schema := MemberOr(q, "schema", EmptyObj);
    if schema.Obj? then StrMemberOr(schema, "type", "string") else "string"
  }

  /** The `ParamSpec` built from one raw parameter, or nothing when it has no name. */
  function ParamOf(p: Json, root: Json): (r: Option<ParamSpec>)
    ensures r.Some? <==> Member(ResolvedParam(p, root), "name").Some?
                         && Member(ResolvedParam(p, root), "name").value.Str?
  {
    var q := ResolvedParam(p, root);
    match Member(q, "name")
    case Some(Str(n)) =>
      Some(ParamSpec(n, StrMemberOr(q, "in", "query"), BoolMemberOr(q, "required", false), SchemaType(q)))
    case _ => None
  }

  /** `_parse_params` as a function: one `ParamSpec` per named raw parameter, in input order. */
  function ParamsOf(raw: seq<Json>, root: Json): (r: seq<ParamSpec>)
    ensures |r| <= |raw|
  {
    if |raw| == 0 then []
    else ParamsOf(raw[..|raw| - 1], root) + Listed(ParamOf(raw[|raw| - 1], root))
  }

  function Listed<T>(o: Option<T>): seq<T> {
    match o
    case Some(x) => [x]
    case None => []
  }

  lemma ParamsOfSnoc(raw: seq<Json>, i: nat, root: Json)
    requires i < |raw|
    ensures ParamsOf(raw[..i + 1], root) == ParamsOf(raw[..i], root) + Listed(ParamOf(raw[i], root))
  {
    assert raw[..i + 1][..i] == raw[..i];
  }

  /** `_parse_params`. */
  method ParseParams(raw: seq<Json>, root: Json) returns (out: seq<ParamSpec>)
    ensures out == ParamsOf(raw, root)
  {
    out := [];
    for i := 0 to |raw|
      invariant out == ParamsOf(raw[..i], root)
    {
      ParamsOfSnoc(raw, i, root);
      var p := raw[i];
      if HasKey(p, "$ref") && Truthy(root) {
        p := ResolveRef(StrMemberOr(p, "$ref", ""), root);
      }
      assert p == ResolvedParam(raw[i], root);
      match Member(p, "name")
      case Some(Str(n)) =>
        var spec := ParamSpec(n, StrMemberOr(p, "in", "query"), BoolMemberOr(p, "required", false), SchemaType(p));
        assert Listed(ParamOf(raw[i], root)) == [spec];
        out := out + [spec];
      case _ =>
        assert Listed(ParamOf(raw[i], root)) == [];
    }
    assert raw[..|raw|] == raw;
  }

  /** Parsing a concatenation parses each part in turn: input order is kept. */
  lemma {:induction false} ParamsOfAppend(a: seq<Json>, b: seq<Json>, root: Json)
    ensures ParamsOf(a + b, root) == ParamsOf(a, root) + ParamsOf(b, root)
    decreases |b|
  {
    if |b| == 0 {
      assert a + b == a;
    } else {
      var b', last := b[..|b| - 1], b[|b| - 1];
      DropLastOfConcat(a, b);
      assert ParamsOf(a + b, root) == ParamsOf(a + b', root) + Listed(ParamOf(last, root));
      ParamsOfAppend(a, b', root);
      ConcatAssoc(ParamsOf(a, root), ParamsOf(b', root), Listed(ParamOf(last, root)));
    }
  }

  /** A parameter with only a name gets location "query", not required, type "string". */
  lemma ParamDefaults(n: string, root: Json)
    ensures ParamsOf([Obj([("name", Str(n))])], root) == [ParamSpec(n, "query", false, "string")]
  {
    var p := Obj([("name", Str(n))]);
    assert !HasKey(p, "$ref");
    assert [p][..0] == [];
  }

  /** An entry without a name, after `$ref` resolution, is dropped. */
  lemma ParamWithoutName(p: Json, root: Json)
    requires !HasKey(ResolvedParam(p, root), "name")
    ensures ParamsOf([p], root) == []
  {
    assert [p][..0] == [];
  }

  /** `{p.name for p in op_params}`. */
  function Names(ps: seq<ParamSpec>): set<string> {
    set i | 0 <= i < |ps| :: ps[i].name
  }

  /** The path-level parameters whose names are not in `seen`, in order. */
  function Unseen(ps: seq<ParamSpec>, seen: set<string>): (r: seq<ParamSpec>)
    ensures forall i :: 0 <= i < |r| ==> r[i] in ps && r[i].name !in seen
    ensures forall p :: p in ps && p.name !in seen ==> p in r
  {
    if |ps| == 0 then []
    else if ps[0].name in seen then Unseen(ps[1..], seen)
    else [ps[0]] + Unseen(ps[1..], seen)
  }

  /** A single parameter is kept exactly when its name is not seen. */
  lemma UnseenOne(p: ParamSpec, seen: set<string>)
    ensures Unseen([p], seen) == if p.name in seen then [] else [p]
  {
    assert [p][1..] == [];
  }

  /** Filtering distributes over concatenation: order and multiplicity are kept. */
  lemma {:induction false} UnseenAppend(a: seq<ParamSpec>, b: seq<ParamSpec>, seen: set<string>)
    ensures Unseen(a + b, seen) == Unseen(a, seen) + Unseen(b, seen)
    decreases |a|
  {
    if |a| == 0 {
      assert a + b == b;
    } else {
      assert (a + b)[0] == a[0];
      assert (a + b)[1..] == a[1..] + b;
      UnseenAppend(a[1..], b, seen);
    }
  }

  /** With nothing seen every path-level parameter is kept, in order. */
  lemma {:induction false} UnseenNothingSeen(ps: seq<ParamSpec>)
    ensures Unseen(ps, {}) == ps
  {
    if |ps| > 0 {
      UnseenNothingSeen(ps[1..]);
      assert ps == [ps[0]] + ps[1..];
    }
  }

  /**
   * Operation-level parameters followed by the path-level ones whose names
   * the operation does not declare: the operation's declaration wins.
   */
  function MergeParams(opParams: seq<ParamSpec>, pathParams: seq<ParamSpec>): (r: seq<ParamSpec>)
    ensures |r| >= |opParams| && r[..|opParams|] == opParams
    ensures forall i :: |opParams| <= i < |r| ==> r[i] in pathParams && r[i].name !in Names(opParams)
    ensures forall p :: p in pathParams && p.name !in Names(opParams) ==> p in r
    ensures r[|opParams|..] == Unseen(pathParams, Names(opParams))
  {
    opParams + Unseen(pathParams, Names(opParams))
  }

  /** Without operation-level parameters the path-level list is kept as it is: same order, each once. */
  lemma MergeNoOperationParams(pathParams: seq<ParamSpec>)
    ensures MergeParams([], pathParams) == pathParams
  {
    assert Names([]) == {};
    UnseenNothingSeen(pathParams);
  }

  /** The path-level tail of a merge follows the path-level list piece by piece. */
  lemma MergeTailAppend(opParams: seq<ParamSpec>, a: seq<ParamSpec>, b: seq<ParamSpec>)
    ensures MergeParams(opParams, a + b) == MergeParams(opParams, a) + Unseen(b, Names(opParams))
  {
    UnseenAppend(a, b, Names(opParams));
  }

  // ---------------------------------------------------------------------------
  // Security schemes
  // ---------------------------------------------------------------------------

  /** One OpenAPI 3 `securitySchemes` entry. */
  function SchemeV3(raw: Json): SecurityScheme {
    SecurityScheme(StrMemberOr(raw, "type", ""), OptStrMember(raw, "name"),
                   OptStrMember(raw, "in"), OptStrMember(raw, "scheme"))
  }

  /** One Swagger 2 `securityDefinitions` entry, mapped to the OpenAPI 3 vocabulary. */
  function SchemeV2(defn: Json): (r: SecurityScheme)
    ensures StrMemberOr(defn, "type", "") == "basic" ==> r == SecurityScheme("http", None, None, Some("basic"))
    ensures StrMemberOr(defn, "type", "") == "apiKey" ==>
              r == SecurityScheme("apiKey", OptStrMember(defn, "name"), OptStrMember(defn, "in"), None)
    ensures StrMemberOr(defn, "type", "") == "oauth2" ==> r == SecurityScheme("oauth2", None, None, None)
    ensures StrMemberOr(defn, "type", "") !in {"basic", "apiKey", "oauth2"} ==>
              r == SecurityScheme(StrMemberOr(defn, "type", ""), None, None, None)
  {
    var kind := StrMemberOr(defn, "type", "");
    if kind == "basic" then SecurityScheme("http", None, None, Some("basic"))
    else if kind == "apiKey" then SecurityScheme("apiKey", OptStrMember(defn, "name"), OptStrMember(defn, "in"), None)
    else if kind == "oauth2" then SecurityScheme("oauth2", None, None, None)
    else SecurityScheme(kind, None, None, None)
  }

  function SchemeOf(raw: Json, swagger2: bool): SecurityScheme {
    if swagger2 then SchemeV2(raw) else SchemeV3(raw)
  }

  /** `schemes[name] = …` for each entry in turn. */
  function SchemesOf(entries: seq<(string, Json)>, swagger2: bool): (r: OrderedDict.Dict<SecurityScheme>) {
    if |entries| == 0 then []
    else
      var last := entries[|entries| - 1];
      OrderedDict.Put(SchemesOf(entries[..|entries| - 1], swagger2), last.0, SchemeOf(last.1, swagger2))
  }

  /** The loop shared by `_parse_security_schemes_v2` and `_v3`. */
  method CollectSchemes(entries: seq<(string, Json)>, swagger2: bool) returns (schemes: OrderedDict.Dict<SecurityScheme>)
    ensures schemes == SchemesOf(entries, swagger2)
  {
    schemes := [];
    for i := 0 to |entries|
      invariant schemes == SchemesOf(entries[..i], swagger2)
    {
      assert entries[..i + 1][..i] == entries[..i];
      schemes := OrderedDict.Put(schemes, entries[i].0, SchemeOf(entries[i].1, swagger2));
    }
    assert entries[..|entries|] == entries;
  }

  /** `_parse_security_schemes_v3(components)`. */
  method ParseSecuritySchemesV3(components: Json) returns (schemes: OrderedDict.Dict<SecurityScheme>)
    ensures schemes == SchemesOf(Fields(MemberOr(components, "securitySchemes", EmptyObj)), false)
  {
    schemes := CollectSchemes(Fields(MemberOr(components, "securitySchemes", EmptyObj)), false);
  }

  /** `_parse_security_schemes_v2(raw)`. */
  method ParseSecuritySchemesV2(raw: Json) returns (schemes: OrderedDict.Dict<SecurityScheme>)
    ensures schemes == SchemesOf(Fields(MemberOr(raw, "securityDefinitions", EmptyObj)), true)
  {
    schemes := CollectSchemes(Fields(MemberOr(raw, "securityDefinitions", EmptyObj)), true);
  }

  /**
   * Every scheme name of a document (whose keys are distinct) is mapped to
   * the scheme built from its own definition, and the names keep their order.
   */
  lemma {:induction false} SchemesLookup(entries: seq<(string, Json)>, swagger2: bool)
    requires OrderedDict.NoDupKeys(entries)
    ensures OrderedDict.Keys(SchemesOf(entries, swagger2)) == OrderedDict.Keys(entries)
    ensures forall i :: 0 <= i < |entries| ==>
              OrderedDict.Get(SchemesOf(entries, swagger2), entries[i].0) == Some(SchemeOf(entries[i].1, swagger2))
  {
    if |entries| > 0 {
      var init := entries[..|entries| - 1];
      var last := entries[|entries| - 1];
      LastKeyFresh(entries);
      SchemesLookup(init, swagger2);
      var prev := SchemesOf(init, swagger2);
      var v := SchemeOf(last.1, swagger2);
      assert SchemesOf(entries, swagger2) == OrderedDict.Put(prev, last.0, v);
      OrderedDict.PutKeys(prev, last.0, v);
      forall i | 0 <= i < |entries|
        ensures OrderedDict.Get(OrderedDict.Put(prev, last.0, v), entries[i].0) == Some(SchemeOf(entries[i].1, swagger2))
      {
        if i < |entries| - 1 {
          assert entries[i] == init[i];
        }
      }
    }
  }

  /** The last key of a dict's entries is not among the earlier ones. */
  lemma LastKeyFresh<V>(entries: seq<(string, V)>)
    requires |entries| > 0 && OrderedDict.NoDupKeys(entries)
    ensures OrderedDict.NoDupKeys(entries[..|entries| - 1])
    ensures entries[|entries| - 1].0 !in OrderedDict.Keys(entries[..|entries| - 1])
    ensures OrderedDict.Keys(entries) == OrderedDict.Keys(entries[..|entries| - 1]) + [entries[|entries| - 1].0]
  {
    var n := |entries| - 1;
    var init := entries[..n];
    var ki := OrderedDict.Keys(init);
    OrderedDict.KeysSnoc(entries);
  }

  // ---------------------------------------------------------------------------
  // Base URLs
  // ---------------------------------------------------------------------------

  /** `_build_base_url_v3`: the first server's URL, or "". */
  function BuildBaseUrlV3(raw: Json): (r: string)
    ensures |Items(MemberOr(raw, "servers", Arr([])))| == 0 ==> r == ""
    ensures |Items(MemberOr(raw, "servers", Arr([])))| > 0 ==>
              r == StrMemberOr(Items(MemberOr(raw, "servers", Arr([])))[0], "url", "")
  {
    var servers := Items(MemberOr(raw, "servers", Arr([])));
    if |servers| > 0 then StrMemberOr(servers[0], "url", "") else ""
  }

  /** The first of the document's `schemes`, or "https". */
  function FirstScheme(raw: Json): string {
    var schemes := MemberOr(raw, "schemes", Arr([Str("https")]));
    if |Items(schemes)| > 0 && Items(schemes)[0].Str? then Items(schemes)[0].s else "https"
  }

  /** `_build_base_url_v2`: `scheme://host basePath` with a host, else the base path alone. */
  function BuildBaseUrlV2(raw: Json): (r: string)
    ensures StrMemberOr(raw, "host", "") == "" ==> r == StrMemberOr(raw, "basePath", "")
    ensures StrMemberOr(raw, "host", "") != "" ==>
              StartsWith(r, FirstScheme(raw) + "://") && EndsWith(r, StrMemberOr(raw, "basePath", ""))
    ensures StrMemberOr(raw, "host", "") != "" ==>
              r == FirstScheme(raw) + "://" + StrMemberOr(raw, "host", "") + StrMemberOr(raw, "basePath", "")
  {
    var host := StrMemberOr(raw, "host", "");
    var basePath := StrMemberOr(raw, "basePath", "");
    if host != "" then
      Affixes(FirstScheme(raw) + "://", host, basePath);
      FirstScheme(raw) + "://" + host + basePath
    else basePath
  }

  // ---------------------------------------------------------------------------
  // parse_spec
  // ---------------------------------------------------------------------------

  /** `raw.get("swagger", "").startswith("2")`. */
  predicate IsSwagger2(raw: Json) {
    StartsWith(StrMemberOr(raw, "swagger", ""), "2")
  }

  /** Some raw Swagger 2 parameter is `in: body`. */
  predicate HasBodyParam(rawParams: seq<Json>) {
    exists i :: 0 <= i < |rawParams| && Member(rawParams[i], "in") == Some(Str("body"))
  }

  /** `any(p.get("in") == "body" for p in params)`. */
  method AnyBodyParam(rawParams: seq<Json>) returns (found: bool)
    ensures found <==> HasBodyParam(rawParams)
  {
    found := false;
    for i := 0 to |rawParams|
      invariant found <==> exists k :: 0 <= k < i && Member(rawParams[k], "in") == Some(Str("body"))
    {
      if Member(rawParams[i], "in") == Some(Str("body")) {
        found := true;
      }
    }
  }

  /** The raw `parameters` list of a path item or operation. */
  function RawParams(item: Json): seq<Json> {
    Items(MemberOr(item, "parameters", Arr([])))
  }

  /** The operation stored under `method` in a path item, if it is a non-empty dict. */
  function OperationOf(raw: Json, path: string, item: Json, pathParams: seq<ParamSpec>, httpMethod: string): (r: Option<OperationSpec>)
    ensures r.Some? ==> r.value.httpMethod == Upper(httpMethod) && r.value.path == path
    ensures r.Some? <==> Member(item, httpMethod).Some? && Member(item, httpMethod).value.Obj?
                         && Truthy(Member(item, httpMethod).value)
    ensures r.Some? ==>
              var opRaw := Member(item, httpMethod).value;
              r.value.parameters == MergeParams(ParamsOf(RawParams(opRaw), raw), pathParams)
              && r.value.hasRequestBody
                 == (if IsSwagger2(raw) then HasBodyParam(RawParams(opRaw)) else HasKey(opRaw, "requestBody"))
              && r.value.operationId == OptStrMember(opRaw, "operationId")
              && r.value.summary == OptStrMember(opRaw, "summary")
              && r.value.security == MemberOr(opRaw, "security", Null)
  {
    match Member(item, httpMethod)
    case Some(opRaw) =>
      if !Truthy(opRaw) || !opRaw.Obj? then None
      else
        var hasBody := if IsSwagger2(raw) then HasBodyParam(RawParams(opRaw)) else HasKey(opRaw, "requestBody");
        Some(OperationSpec(Upper(httpMethod), path, OptStrMember(opRaw, "operationId"), OptStrMember(opRaw, "summary"),
                           MergeParams(ParamsOf(RawParams(opRaw), raw), pathParams), hasBody,
                           MemberOr(opRaw, "security", Null)))
    case None => None
  }

  /** The operations of one path item, one per method in `methods` that it holds. */
  function OpsOfMethods(raw: Json, path: string, item: Json, pathParams: seq<ParamSpec>, methods: seq<string>): seq<OperationSpec> {
    if |methods| == 0 then []
    else
      OpsOfMethods(raw, path, item, pathParams, methods[..|methods| - 1]) +
        match OperationOf(raw, path, item, pathParams, methods[|methods| - 1])
        case Some(op) => [op]
        case None => []
  }

  /** The operations of one `paths` entry; nothing when the path item is not a dict. */
  function OpsOfPath(raw: Json, entry: (string, Json), methodOrder: seq<string>): seq<OperationSpec> {
    if entry.1.Obj? then OpsOfMethods(raw, entry.0, entry.1, ParamsOf(RawParams(entry.1), raw), methodOrder)
    else []
  }

  function OpsOfPaths(raw: Json, entries: seq<(string, Json)>, methodOrder: seq<string>): seq<OperationSpec> {
    if |entries| == 0 then []
    else OpsOfPaths(raw, entries[..|entries| - 1], methodOrder) + OpsOfPath(raw, entries[|entries| - 1], methodOrder)
  }

  /**
   * The order in which a path item's methods are visited: the eight names
   * of `HTTP_METHODS`, each once, in the unspecified order of Python's set
   * iteration.
   */
  predicate IsMethodOrder(methodOrder: seq<string>) {
    |methodOrder| == 8
    && (forall i :: 0 <= i < |methodOrder| ==> methodOrder[i] in HttpMethods)
    && (forall i, j :: 0 <= i < j < |methodOrder| ==> methodOrder[i] != methodOrder[j])
  }

  /** The operations of one path item, visiting the methods in `methodOrder`. */
  method ParsePathItem(raw: Json, path: string, item: Json, methodOrder: seq<string>) returns (ops: seq<OperationSpec>)
    requires item.Obj?
    ensures ops == OpsOfPath(raw, (path, item), methodOrder)
  {
    var pathParams := ParseParams(RawParams(item), raw);
    ops := [];
    for k := 0 to |methodOrder|
      invariant ops == OpsOfMethods(raw, path, item, pathParams, methodOrder[..k])
    {
      assert methodOrder[..k + 1][..k] == methodOrder[..k];
      var httpMethod := methodOrder[k];
      var opRaw := Member(item, httpMethod);
      if opRaw.None? || !Truthy(opRaw.value) || !opRaw.value.Obj? {
        continue;
      }
      var opParams := ParseParams(RawParams(opRaw.value), raw);
      var merged := MergeParams(opParams, pathParams);
      var hasBody := false;
      if IsSwagger2(raw) {
        hasBody := AnyBodyParam(RawParams(opRaw.value));
      } else {
        hasBody := HasKey(opRaw.value, "requestBody");
      }
      ops := ops + [OperationSpec(Upper(httpMethod), path, OptStrMember(opRaw.value, "operationId"),
                                  OptStrMember(opRaw.value, "summary"), merged, hasBody,
                                  MemberOr(opRaw.value, "security", Null))];
    }
    assert methodOrder[..|methodOrder|] == methodOrder;
  }

  /** The loop of `parse_spec` over the `paths` entries. */
  method ParseOperations(raw: Json, entries: seq<(string, Json)>, methodOrder: seq<string>) returns (operations: seq<OperationSpec>)
    ensures operations == OpsOfPaths(raw, entries, methodOrder)
  {
    operations := [];
    for i := 0 to |entries|
      invariant operations == OpsOfPaths(raw, entries[..i], methodOrder)
    {
      assert entries[..i + 1][..i] == entries[..i];
      var (path, item) := entries[i];
      if !item.Obj? {
        continue;
      }
      var ops := ParsePathItem(raw, path, item, methodOrder);
      operations := operations + ops;
    }
    assert entries[..|entries|] == entries;
  }

  /** `parse_spec`, visiting each path item's methods in `methodOrder`. */
  method ParseSpec(raw: Json, methodOrder: seq<string>) returns (spec: ApiSpec)
    requires IsMethodOrder(methodOrder)
    ensures spec.operations == OpsOfPaths(raw, Fields(MemberOr(raw, "paths", EmptyObj)), methodOrder)
    ensures IsSwagger2(raw) ==> spec.baseUrl == BuildBaseUrlV2(raw)
                                && spec.securitySchemes == SchemesOf(Fields(MemberOr(raw, "securityDefinitions", EmptyObj)), true)
    ensures !IsSwagger2(raw) ==> spec.baseUrl == BuildBaseUrlV3(raw)
                                 && spec.securitySchemes == SchemesOf(Fields(MemberOr(MemberOr(raw, "components", EmptyObj), "securitySchemes", EmptyObj)), false)
    ensures spec.title == StrMemberOr(MemberOr(raw, "info", EmptyObj), "title", "")
    ensures spec.version == StrMemberOr(MemberOr(raw, "info", EmptyObj), "version", "")
    ensures spec.globalSecurity == MemberOr(raw, "security", Arr([]))
  {
    var info := MemberOr(raw, "info", EmptyObj);
    var baseUrl: string;
    var schemes: OrderedDict.Dict<SecurityScheme>;
    if IsSwagger2(raw) {
      baseUrl := BuildBaseUrlV2(raw);
      schemes := ParseSecuritySchemesV2(raw);
    } else {
      baseUrl := BuildBaseUrlV3(raw);
      schemes := ParseSecuritySchemesV3(MemberOr(raw, "components", EmptyObj));
    }
    var operations := ParseOperations(raw, Fields(MemberOr(raw, "paths", EmptyObj)), methodOrder);
    spec := ApiSpec(StrMemberOr(info, "title", ""), StrMemberOr(info, "version", ""), baseUrl,
                    operations, schemes, MemberOr(raw, "security", Arr([])));
  }

  /** `op` carries the upper-cased method `m`, under which `item` holds a dict. */
  predicate StoredUnder(op: OperationSpec, item: Json, m: string) {
    op.httpMethod == Upper(m) && Member(item, m).Some? && Member(item, m).value.Obj?
  }

  /** Where an operation came from: a dict path item holding a dict under one of the methods. */
  predicate FromPathItem(op: OperationSpec, entries: seq<(string, Json)>, methodOrder: seq<string>) {
    exists i, k :: 0 <= i < |entries| && 0 <= k < |methodOrder| && entries[i].0 == op.path
                   && entries[i].1.Obj? && StoredUnder(op, entries[i].1, methodOrder[k])
  }

  lemma {:induction false} OpsOfMethodsOrigin(raw: Json, path: string, item: Json, pathParams: seq<ParamSpec>, methods: seq<string>)
    ensures forall op :: op in OpsOfMethods(raw, path, item, pathParams, methods) ==>
              op.path == path && exists k :: 0 <= k < |methods| && StoredUnder(op, item, methods[k])
  {
    if |methods| > 0 {
      var init := methods[..|methods| - 1];
      OpsOfMethodsOrigin(raw, path, item, pathParams, init);
      forall op | op in OpsOfMethods(raw, path, item, pathParams, methods)
        ensures op.path == path && exists k :: 0 <= k < |methods| && StoredUnder(op, item, methods[k])
      {
        if op in OpsOfMethods(raw, path, item, pathParams, init) {
          var k :| 0 <= k < |init| && StoredUnder(op, item, init[k]);
          assert methods[k] == init[k];
        } else {
          assert StoredUnder(op, item, methods[|methods| - 1]);
        }
      }
    }
  }

  /**
   * Every parsed operation comes from a dict path item and a dict stored
   * under one of the HTTP methods, and its method is that name upper-cased.
   */
  lemma {:induction false} OperationsOrigin(raw: Json, entries: seq<(string, Json)>, methodOrder: seq<string>)
    requires IsMethodOrder(methodOrder)
    ensures forall op :: op in OpsOfPaths(raw, entries, methodOrder) ==> FromPathItem(op, entries, methodOrder)
    ensures forall op :: op in OpsOfPaths(raw, entries, methodOrder) ==>
              exists m :: m in HttpMethods && op.httpMethod == Upper(m)
  {
    if |entries| > 0 {
      var init := entries[..|entries| - 1];
      var last := entries[|entries| - 1];
      OperationsOrigin(raw, init, methodOrder);
      forall op | op in OpsOfPaths(raw, entries, methodOrder)
        ensures FromPathItem(op, entries, methodOrder)
      {
        if op in OpsOfPaths(raw, init, methodOrder) {
          var i, k :| 0 <= i < |init| && 0 <= k < |methodOrder| && init[i].0 == op.path
                      && init[i].1.Obj? && StoredUnder(op, init[i].1, methodOrder[k]);
          assert entries[i] == init[i];
        } else {
          assert last.1.Obj?;
          OpsOfMethodsOrigin(raw, last.0, last.1, ParamsOf(RawParams(last.1), raw), methodOrder);
          var k :| 0 <= k < |methodOrder| && StoredUnder(op, last.1, methodOrder[k]);
          assert FromPathItem(op, entries, methodOrder) by {
            assert entries[|entries| - 1] == last;
          }
        }
      }
      forall op | op in OpsOfPaths(raw, entries, methodOrder)
        ensures exists m :: m in HttpMethods && op.httpMethod == Upper(m)
      {
        var i, k :| 0 <= i < |entries| && 0 <= k < |methodOrder| && entries[i].0 == op.path
                    && entries[i].1.Obj? && StoredUnder(op, entries[i].1, methodOrder[k]);
        assert methodOrder[k] in HttpMethods;
      }
    }
  }

  // ---------------------------------------------------------------------------
  // The read-through cache of `load_spec` / `clear_cache`
  // ---------------------------------------------------------------------------

  /**
   * `_cache` together with `load_spec` and `clear_cache`.  `load(ref, n)`
   * stands for reading, decoding and parsing the document named by `ref`
   * (and resolving its base URL against it) as the `n`-th load of the
   * process: the document behind a reference may change between loads.
   * `None` is a load that raises.
   */
  class SpecCache {
    var entries: map<string, ApiSpec>
    /**
     * How many times `load` has been called: the loads the cache did not
     * save, and the index that picks the document's state for the next load.
     */
    var loads: nat
    /** Which load produced each cached spec. */
    ghost var loadedBy: map<string, nat>
    const load: (string, nat) -> Option<ApiSpec>

    /** Every cached spec is what an earlier load of its reference gave. */
    ghost predicate Valid()
      reads this
    {
      forall ref :: ref in entries ==>
        ref in loadedBy && loadedBy[ref] < loads && load(ref, loadedBy[ref]) == Some(entries[ref])
    }

    constructor(load: (string, nat) -> Option<ApiSpec>)
      ensures this.load == load && entries == map[] && loads == 0
      ensures Valid()
    {
      this.load := load;
      entries := map[];
      loads := 0;
      loadedBy := map[];
    }

    /**
     * `load_spec`: the cached spec when there is one, however the document
     * has changed since; else a fresh load, cached when it succeeds.
     */
    method LoadSpec(ref: string) returns (r: Option<ApiSpec>)
      requires Valid()
      modifies this
      ensures Valid()
      ensures ref in old(entries) ==>
                r == Some(old(entries)[ref]) && r == load(ref, old(loadedBy)[ref])
                && entries == old(entries) && loads == old(loads)
      ensures ref !in old(entries) ==> r == load(ref, old(loads)) && loads == old(loads) + 1
      ensures ref !in old(entries) && r.Some? ==> entries == old(entries)[ref := r.value]
      ensures ref !in old(entries) && r.None? ==> entries == old(entries)
    {
      if ref in entries {
        return Some(entries[ref]);
      }
      r := load(ref, loads);
      if r.Some? {
        entries := entries[ref := r.value];
        loadedBy := loadedBy[ref := loads];
      }
      loads := loads + 1;
    }

    /** `clear_cache`: the next load of every reference reads the document again. */
    method ClearCache()
      modifies this
      ensures entries == map[] && loads == old(loads)
      ensures Valid()
    {
      entries := map[];
    }
  }

  /**
   * Two `load_spec` calls with the same reference: once a load succeeds the
   * second call returns the very same spec, whatever a fresh load would
   * give now, and it loads nothing.
   */
  method LoadTwice(cache: SpecCache, ref: string) returns (first: Option<ApiSpec>, second: Option<ApiSpec>)
    requires cache.Valid()
    modifies cache
    ensures cache.Valid()
    ensures first.Some? ==> second == first
    ensures first.None? ==> cache.loads > 0 && second == cache.load(ref, cache.loads - 1)
  {
    first := cache.LoadSpec(ref);
    second := cache.LoadSpec(ref);
  }
}
