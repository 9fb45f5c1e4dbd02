/**
 * The OpenAPI 3.0.0 document builder: the objects that the fluent API
 * fills in place, and the `components` getter derived from them.
 *
 * A Kotlin builder function takes the caller's block `init` and runs it on
 * a child object. The model keeps the order in which the source runs the
 * block and attaches the child:
 *  - `code`, `get`, `post` and the other method builders make the child,
 *    run the block, and only then attach it. Here the caller makes the child
 *    with its constructor and applies the block's calls to it, and the
 *    builder method attaches it.
 *  - `requestBody` and `parameter` first test whether the slot is empty.
 *    Here the builder method tests, attaches a fresh child and returns it,
 *    and the caller then applies the block's calls to it.
 */
module OpenApiObject {
  import opened Wrappers
  import opened Json
  import opened TypedSchemas
  import opened JsonPointer
  import opened ComponentsRegistry

  /** A Response Object: a description and a schema wrapper per media type. */
  class Response {
    var description: string
    var content: map<string, TypedSchema>

    constructor ()
      ensures description == "" && content == map[]
    {
      description := "";
      content := map[];
    }

    /** `response<T>(mediaType)`: put a wrapper over class T under the media type. */
    method PutResponse(mediaType: string, clazz: ClassRef, generate: Generator)
      modifies this`content
      ensures content == old(content)[mediaType := NewTypedSchema(clazz, generate)]
    {
      content := content[mediaType := NewTypedSchema(clazz, generate)];
    }
  }

  /** A Request Body Object: an optional description and a schema wrapper per media type. */
  class RequestBody {
    var content: map<string, TypedSchema>
    var description: Option<string>

    constructor ()
      ensures content == map[] && description == None
    {
      content := map[];
      description := None;
    }

    /** `request<T>(mediaType)`: put a wrapper over class T under the media type. */
    method PutRequest(mediaType: string, clazz: ClassRef, generate: Generator)
      modifies this`content
      ensures content == old(content)[mediaType := NewTypedSchema(clazz, generate)]
    {
      content := content[mediaType := NewTypedSchema(clazz, generate)];
    }
  }

  /** A Parameter Object. The Kotlin property `in` is called `location` here. */
  class Parameter {
    var name: string
    var location: string
    var description: string
    var required: bool
    var style: string
    var schema: TypedParameterSchema

    /** The defaults: a required path parameter in simple style whose schema is `String`. */
    constructor (generate: Generator)
      ensures name == "" && location == "path" && description == "" && required && style == "simple"
      ensures schema == NewTypedParameterSchema(StringClass, generate)
    {
      name := "";
      location := "path";
      description := "";
      required := true;
      style := "simple";
      schema := NewTypedParameterSchema(StringClass, generate);
    }

    /** `schema<T>()`: replace the schema by a wrapper over class T. */
    method Schema(clazz: ClassRef, generate: Generator)
      modifies this`schema
      ensures schema == NewTypedParameterSchema(clazz, generate)
    {
      schema := NewTypedParameterSchema(clazz, generate);
    }
  }

  /** An Operation Object (its servers, externalDocs and security lists are not modelled). */
  class Operation {
    var description: string
    var operationId: string
    var tags: seq<string>
    var summary: string
    var deprecated: bool
    var responses: map<string, Response>
    var requestBody: RequestBody?
    var parameters: Option<seq<Parameter>>

    constructor ()
      ensures description == "" && operationId == "" && tags == [] && summary == "" && !deprecated
      ensures responses == map[] && requestBody == null && parameters == None
    {
      description := "";
      operationId := "";
      tags := [];
      summary := "";
      deprecated := false;
      responses := map[];
      requestBody := null;
      parameters := None;
    }

    /**
     * `code(code, init)`: the response, made by the constructor and already
     * configured by the block, goes under `code`, replacing any earlier one.
     */
    method Code(code: string, response: Response)
      modifies this`responses
      ensures responses == old(responses)[code := response]
    {
      responses := responses[code := response];
    }

    /** `created(init)`, that is `code("201", init)`. */
    method Created(response: Response)
      modifies this`responses
      ensures responses == old(responses)["201" := response]
    {
      Code("201", response);
    }

    /** `ok(init)`, that is `code("200", init)`. */
    method Ok(response: Response)
      modifies this`responses
      ensures responses == old(responses)["200" := response]
    {
      Code("200", response);
    }

    /**
     * `requestBody(init)`: the first call attaches a fresh body and hands it
     * to `init`; once a body is present, a call changes nothing and `init`
     * does not run (the result is then null).
     */
    method OpenRequestBody() returns (body: RequestBody?)
      modifies this`requestBody
      ensures old(requestBody) == null ==> body != null && fresh(body) && body.content == map[] && body.description == None
      ensures old(requestBody) == null ==> requestBody == body
      ensures old(requestBody) != null ==> body == null && requestBody == old(requestBody)
    {
      if requestBody == null {
        body := new RequestBody();
        requestBody := body;
      } else {
        body := null;
      }
    }

    /**
     * `parameter(init)`: the first call makes the parameter list a single
     * fresh parameter; once a list is present, a call changes nothing.
     */
    method OpenParameter(generate: Generator) returns (parameter: Parameter?)
      modifies this`parameters
      ensures old(parameters).None? ==> parameter != null && fresh(parameter) && parameters == Some([parameter])
      ensures old(parameters).None? ==> parameter.name == "" && parameter.location == "path" && parameter.description == ""
      ensures old(parameters).None? ==> parameter.required && parameter.style == "simple"
      ensures old(parameters).None? ==> parameter.schema == NewTypedParameterSchema(StringClass, generate)
      ensures old(parameters).Some? ==> parameter == null && parameters == old(parameters)
    {
      if parameters.None? {
        parameter := new Parameter(generate);
        parameters := Some([parameter]);
      } else {
        parameter := null;
      }
    }
  }

  /**
   * Registering `v` under `outer`, then `inner`, in a two-level map: only
   * that inner key is set or replaced; a missing outer key gets a map with
   * that one entry.
   */
  function PutNested<V>(m: map<string, map<string, V>>, outer: string, inner: string, v: V): (r: map<string, map<string, V>>)
    ensures r.Keys == m.Keys + {outer}
    ensures inner in r[outer] && r[outer][inner] == v
    ensures forall p :: p in m && p != outer ==> r[p] == m[p]
    ensures outer !in m ==> r[outer].Keys == {inner}
    ensures outer in m ==> r[outer].Keys == m[outer].Keys + {inner}
    ensures outer in m ==> forall k :: k in m[outer] && k != inner ==> r[outer][k] == m[outer][k]
  {
    if outer in m then m[outer := m[outer][inner := v]]
    else m[outer := map[inner := v]]
  }

  /** A path together with the method token it is registered under. */
  datatype PathItem = PathItem(path: Operation, jsonKey: string)

  /** The Paths Object: operations by path, then by lower-case HTTP method token. */
  class Paths {
    var paths: map<string, map<string, Operation>>

    constructor ()
      ensures paths == map[]
    {
      paths := map[];
    }

    /** `values.flatMap { it.values }`: exactly the registered operations. */
    function Operations(): (ops: set<Operation>)
      reads this
      ensures forall p, m :: p in paths && m in paths[p] ==> paths[p][m] in ops
      ensures forall o :: o in ops ==> exists p, m :: p in paths && m in paths[p] && paths[p][m] == o
    {
      set p, m | p in paths && m in paths[p] :: paths[p][m]
    }

    /** `putPath`: register the item's operation under the path and its method token. */
    method PutPath(path: string, pathItem: PathItem)
      modifies this
      ensures paths == PutNested(old(paths), path, pathItem.jsonKey, pathItem.path)
    {
      if path in paths {
        paths := paths[path := paths[path][pathItem.jsonKey := pathItem.path]];
      } else {
        paths := paths[path := map[pathItem.jsonKey := pathItem.path]];
      }
    }

    /*
     * `get(path, init)` and its seven siblings: `makeOperation(init)` makes an
     * operation and runs the block on it, and `putPath` then registers it
     * under the path and the method token. Here `op` is that operation, made
     * by the constructor and already configured by the block.
     */

    method Get(path: string, op: Operation)
      modifies this
      ensures paths == PutNested(old(paths), path, "get", op)
    {
      PutPath(path, PathItem(op, "get"));
    }

    method Put(path: string, op: Operation)
      modifies this
      ensures paths == PutNested(old(paths), path, "put", op)
    {
      PutPath(path, PathItem(op, "put"));
    }

    method Post(path: string, op: Operation)
      modifies this
      ensures paths == PutNested(old(paths), path, "post", op)
    {
      PutPath(path, PathItem(op, "post"));
    }

    method Delete(path: string, op: Operation)
      modifies this
      ensures paths == PutNested(old(paths), path, "delete", op)
    {
      PutPath(path, PathItem(op, "delete"));
    }

    method Patch(path: string, op: Operation)
      modifies this
      ensures paths == PutNested(old(paths), path, "patch", op)
    {
      PutPath(path, PathItem(op, "patch"));
    }

    method Head(path: string, op: Operation)
      modifies this
      ensures paths == PutNested(old(paths), path, "head", op)
    {
      PutPath(path, PathItem(op, "head"));
    }

    method Options(path: string, op: Operation)
      modifies this
      ensures paths == PutNested(old(paths), path, "options", op)
    {
      PutPath(path, PathItem(op, "options"));
    }

    method Trace(path: string, op: Operation)
      modifies this
      ensures paths == PutNested(old(paths), path, "trace", op)
    {
      PutPath(path, PathItem(op, "trace"));
    }
  }

  /**
   * The root OpenAPI Object (its info, tags, externalDocs and servers are
   * not modelled). `components` is not stored: it is derived from the tree
   * each time it is read.
   */
  class OpenApi {
    var openapi: string
    var paths: Paths

    constructor ()
      ensures openapi == "3.0.0" && fresh(paths) && paths.paths == map[]
    {
      openapi := "3.0.0";
      paths := new Paths();
    }

    function Operations(): set<Operation>
      reads this, paths
    {
      paths.Operations()
    }

    /** The responses of all registered operations. */
    function ResponseObjects(): set<Response>
      reads this, paths, Operations()
    {
      ResponsesOf(Operations())
    }

    /** The request bodies of all registered operations. */
    function RequestBodies(): set<RequestBody>
      reads this, paths, Operations()
    {
      BodiesOf(Operations())
    }

    /** The parameters of all registered operations. */
    function ParameterObjects(): set<Parameter>
      reads this, paths, Operations()
    {
      ParametersOf(Operations())
    }

    /** Everything the derivation reads. */
    function Tree(): set<object>
      reads this, paths, Operations()
    {
      {this, paths} + Operations() + ResponseObjects() + RequestBodies() + ParameterObjects()
    }

    /** The wrappers the response fold runs over. */
    function ResponseSchemas(): set<TypedSchema>
      reads Tree()
    {
      ResponseContents(ResponseObjects())
    }

    /** The wrappers the request-body fold runs over. */
    function RequestSchemas(): set<TypedSchema>
      reads Tree()
    {
      RequestContents(RequestBodies())
    }

    /** The wrappers the parameter fold runs over. */
    function ParameterSchemas(): set<TypedParameterSchema>
      reads Tree()
    {
      ParameterSchemasOf(ParameterObjects())
    }

    /** The `components` getter: `Components(schemas)`, as the name-to-body map `schemas`. */
    ghost function Components(): (schemas: map<string, JsonObject>)
      reads Tree()
      ensures schemas.Keys == Names(SchemaEntries(ResponseSchemas())) + Names(SchemaEntries(RequestSchemas()))
        + Names(ParameterEntries(ParameterSchemas()))
      ensures forall n :: n in schemas ==>
        Entry(n, schemas[n]) in SchemaEntries(ResponseSchemas()) + SchemaEntries(RequestSchemas()) + ParameterEntries(ParameterSchemas())
    {
      Merge(SchemaEntries(ResponseSchemas()), SchemaEntries(RequestSchemas()), ParameterEntries(ParameterSchemas()))
    }
  
    /** Some response content, reached by path, method, status code and media type, wraps a class named `n`. */
    ghost predicate ResponseNames(n: string)
      reads Tree()
    {
      exists p, m, c, mt ::
        && p in paths.paths && m in paths.paths[p]
        && c in paths.paths[p][m].responses
        && mt in paths.paths[p][m].responses[c].content
        && paths.paths[p][m].responses[c].content[mt].clazz.simpleName == n
    }

    /** Some request-body content, reached by path, method and media type, wraps a class named `n`. */
    ghost predicate RequestNames(n: string)
      reads Tree()
    {
      exists p, m, mt ::
        && p in paths.paths && m in paths.paths[p]
        && paths.paths[p][m].requestBody != null
        && mt in paths.paths[p][m].requestBody.content
        && paths.paths[p][m].requestBody.content[mt].clazz.simpleName == n
    }

    /** Some parameter, reached by path, method and list position, has a schema over a class named `n`. */
    ghost predicate ParameterNames(n: string)
      reads Tree()
    {
      exists p, m, i ::
        && p in paths.paths && m in paths.paths[p]
        && paths.paths[p][m].parameters.Some?
        && 0 <= i < |paths.paths[p][m].parameters.value|
        && paths.paths[p][m].parameters.value[i].schema.clazz.simpleName == n
    }

    /** The classes of all reachable schema wrappers. */
    function ReachableClasses(): set<ClassRef>
      reads Tree()
    {
      (set w | w in ResponseSchemas() :: w.clazz) + (set w | w in RequestSchemas() :: w.clazz)
        + (set w | w in ParameterSchemas() :: w.clazz)
    }

    /** No two distinct reachable classes share a simple name. */
    ghost predicate NoNameClash()
      reads Tree()
    {
      forall c, d :: c in ReachableClasses() && d in ReachableClasses() && c.simpleName == d.simpleName ==> c == d
    }

    /** Every reachable wrapper was made by its constructor over the one shared generator. */
    ghost predicate GeneratedBy(generate: Generator)
      reads Tree()
    {
      && (forall w :: w in ResponseSchemas() + RequestSchemas() ==> Generated(w, generate))
      && (forall w :: w in ParameterSchemas() ==> ParameterGenerated(w, generate))
    }
  }

  /** `.flatMap { it.responses.values }`: exactly the responses of the operations. */
  function ResponsesOf(ops: set<Operation>): (rs: set<Response>)
    reads ops
    ensures forall o, c :: o in ops && c in o.responses ==> o.responses[c] in rs
    ensures forall r :: r in rs ==> exists o, c :: o in ops && c in o.responses && o.responses[c] == r
  {
    set o, c | o in ops && c in o.responses :: o.responses[c]
  }

  /** `.mapNotNull { it.requestBody }`: exactly the request bodies that are set. */
  function BodiesOf(ops: set<Operation>): (bs: set<RequestBody>)
    reads ops
    ensures forall o :: o in ops && o.requestBody != null ==> o.requestBody in bs
    ensures forall b :: b in bs ==> exists o :: o in ops && o.requestBody == b
  {
    set o | o in ops && o.requestBody != null :: o.requestBody
  }

  /** `.mapNotNull { it.parameters }.flatMap { it }`: exactly the parameters of the lists that are set. */
  function ParametersOf(ops: set<Operation>): (qs: set<Parameter>)
    reads ops
    ensures forall o, i :: o in ops && o.parameters.Some? && 0 <= i < |o.parameters.value| ==> o.parameters.value[i] in qs
    ensures forall q :: q in qs ==>
      exists o, i :: o in ops && o.parameters.Some? && 0 <= i < |o.parameters.value| && o.parameters.value[i] == q
  {
    set o, i | o in ops && o.parameters.Some? && 0 <= i < |o.parameters.value| :: o.parameters.value[i]
  }

  /** `.flatMap { it.content.values }` over responses: exactly the wrappers of their content. */
  function ResponseContents(rs: set<Response>): (ws: set<TypedSchema>)
    reads rs
    ensures forall r, mt :: r in rs && mt in r.content ==> r.content[mt] in ws
    ensures forall w :: w in ws ==> exists r, mt :: r in rs && mt in r.content && r.content[mt] == w
  {
    set r, mt | r in rs && mt in r.content :: r.content[mt]
  }

  /** `.flatMap { it.content.values }` over request bodies: exactly the wrappers of their content. */
  function RequestContents(bs: set<RequestBody>): (ws: set<TypedSchema>)
    reads bs
    ensures forall b, mt :: b in bs && mt in b.content ==> b.content[mt] in ws
    ensures forall w :: w in ws ==> exists b, mt :: b in bs && mt in b.content && b.content[mt] == w
  {
    set b, mt | b in bs && mt in b.content :: b.content[mt]
  }

  /** `.map { it.schema }` over parameters: exactly their schemas. */
  function ParameterSchemasOf(qs: set<Parameter>): (ws: set<TypedParameterSchema>)
    reads qs
    ensures forall q :: q in qs ==> q.schema in ws
    ensures forall w :: w in ws ==> exists q :: q in qs && q.schema == w
  {
    set q | q in qs :: q.schema
  }

  /** The keys of `components.schemas` are exactly the simple names reachable from the tree: no orphans, no omissions. */
  lemma ComponentsKeys(api: OpenApi, n: string)
    ensures n in api.Components() <==> api.ResponseNames(n) || api.RequestNames(n) || api.ParameterNames(n)
  {
    ResponseSiteNames(api, n);
    RequestSiteNames(api, n);
    ParameterSiteNames(api, n);
  }

  lemma ResponseSiteNames(api: OpenApi, n: string)
    ensures n in Names(SchemaEntries(api.ResponseSchemas())) <==> api.ResponseNames(n)
  {
    if api.ResponseNames(n) {
      ResponseRouteNamed(api, n);
    }
    if n in Names(SchemaEntries(api.ResponseSchemas())) {
      ResponseNamedRoute(api, n);
    }
  }

  lemma ResponseRouteNamed(api: OpenApi, n: string)
    requires api.ResponseNames(n)
    ensures n in Names(SchemaEntries(api.ResponseSchemas()))
  {
    var pm: map<string, map<string, Operation>> := api.paths.paths;
    var p: string, m: string, c: string, mt: string :| p in pm && m in pm[p] && c in pm[p][m].responses
      && mt in pm[p][m].responses[c].content && pm[p][m].responses[c].content[mt].clazz.simpleName == n;
    var o := pm[p][m];
    assert o in api.Operations();
    var r := o.responses[c];
    assert r in api.ResponseObjects();
    var w := r.content[mt];
    assert w in api.ResponseSchemas();
    assert Entry(n, w.body) in SchemaEntries(api.ResponseSchemas());
  }

  lemma ResponseNamedRoute(api: OpenApi, n: string)
    requires n in Names(SchemaEntries(api.ResponseSchemas()))
    ensures api.ResponseNames(n)
  {
    var pm: map<string, map<string, Operation>> := api.paths.paths;
    var e :| e in SchemaEntries(api.ResponseSchemas()) && e.name == n;
    var w :| w in api.ResponseSchemas() && e == Entry(w.clazz.simpleName, w.body);
    var r: Response, mt: string :| r in api.ResponseObjects() && mt in r.content && r.content[mt] == w;
    var o: Operation, c: string :| o in api.Operations() && c in o.responses && o.responses[c] == r;
    var p: string, m: string :| p in pm && m in pm[p] && pm[p][m] == o;
    assert pm[p][m].responses[c].content[mt].clazz.simpleName == n;
  }

  lemma RequestSiteNames(api: OpenApi, n: string)
    ensures n in Names(SchemaEntries(api.RequestSchemas())) <==> api.RequestNames(n)
  {
    if api.RequestNames(n) {
      RequestRouteNamed(api, n);
    }
    if n in Names(SchemaEntries(api.RequestSchemas())) {
      RequestNamedRoute(api, n);
    }
  }

  lemma RequestRouteNamed(api: OpenApi, n: string)
    requires api.RequestNames(n)
    ensures n in Names(SchemaEntries(api.RequestSchemas()))
  {
    var pm: map<string, map<string, Operation>> := api.paths.paths;
    var p: string, m: string, mt: string :| p in pm && m in pm[p] && pm[p][m].requestBody != null
      && mt in pm[p][m].requestBody.content && pm[p][m].requestBody.content[mt].clazz.simpleName == n;
    var o := pm[p][m];
    assert o in api.Operations();
    var b := o.requestBody;
    assert b in api.RequestBodies();
    var w := b.content[mt];
    assert w in api.RequestSchemas();
    assert Entry(n, w.body) in SchemaEntries(api.RequestSchemas());
  }

  lemma RequestNamedRoute(api: OpenApi, n: string)
    requires n in Names(SchemaEntries(api.RequestSchemas()))
    ensures api.RequestNames(n)
  {
    var pm: map<string, map<string, Operation>> := api.paths.paths;
    var e :| e in SchemaEntries(api.RequestSchemas()) && e.name == n;
    var w :| w in api.RequestSchemas() && e == Entry(w.clazz.simpleName, w.body);
    var b: RequestBody, mt: string :| b in api.RequestBodies() && mt in b.content && b.content[mt] == w;
    var o: Operation :| o in api.Operations() && o.requestBody == b;
    var p: string, m: string :| p in pm && m in pm[p] && pm[p][m] == o;
    assert pm[p][m].requestBody.content[mt].clazz.simpleName == n;
  }

  lemma ParameterSiteNames(api: OpenApi, n: string)
    ensures n in Names(ParameterEntries(api.ParameterSchemas())) <==> api.ParameterNames(n)
  {
    if api.ParameterNames(n) {
      ParameterRouteNamed(api, n);
    }
    if n in Names(ParameterEntries(api.ParameterSchemas())) {
      ParameterNamedRoute(api, n);
    }
  }

  lemma ParameterRouteNamed(api: OpenApi, n: string)
    requires api.ParameterNames(n)
    ensures n in Names(ParameterEntries(api.ParameterSchemas()))
  {
    var pm: map<string, map<string, Operation>> := api.paths.paths;
    var p: string, m: string, i: int :| p in pm && m in pm[p] && pm[p][m].parameters.Some?
      && 0 <= i < |pm[p][m].parameters.value| && pm[p][m].parameters.value[i].schema.clazz.simpleName == n;
    var o := pm[p][m];
    assert o in api.Operations();
    var q := o.parameters.value[i];
    assert q in api.ParameterObjects();
    assert q.schema in api.ParameterSchemas();
    assert Entry(n, q.schema.body) in ParameterEntries(api.ParameterSchemas());
  }

  lemma ParameterNamedRoute(api: OpenApi, n: string)
    requires n in Names(ParameterEntries(api.ParameterSchemas()))
    ensures api.ParameterNames(n)
  {
    var pm: map<string, map<string, Operation>> := api.paths.paths;
    var e :| e in ParameterEntries(api.ParameterSchemas()) && e.name == n;
    var w :| w in api.ParameterSchemas() && e == Entry(w.clazz.simpleName, w.body);
    var q: Parameter :| q in api.ParameterObjects() && q.schema == w;
    var o: Operation, i: int :| o in api.Operations() && o.parameters.Some? && 0 <= i < |o.parameters.value| && o.parameters.value[i] == q;
    var p: string, m: string :| p in pm && m in pm[p] && pm[p][m] == o;
    assert pm[p][m].parameters.value[i].schema.clazz.simpleName == n;
  }

  /**
   * On a name clash the parameter schema wins over the request-body schema,
   * which wins over the response schema; within one source some wrapper of
   * that name supplies the body.
   */
  lemma ComponentsPrecedence(api: OpenApi, n: string)
    requires n in api.Components()
    ensures api.ParameterNames(n) ==>
      exists w :: w in api.ParameterSchemas() && w.clazz.simpleName == n && w.body == api.Components()[n]
    ensures !api.ParameterNames(n) && api.RequestNames(n) ==>
      exists w :: w in api.RequestSchemas() && w.clazz.simpleName == n && w.body == api.Components()[n]
    ensures !api.ParameterNames(n) && !api.RequestNames(n) ==>
      exists w :: w in api.ResponseSchemas() && w.clazz.simpleName == n && w.body == api.Components()[n]
  {
    ResponseSiteNames(api, n);
    RequestSiteNames(api, n);
    ParameterSiteNames(api, n);
    var b := api.Components()[n];
    if api.ParameterNames(n) {
      assert Entry(n, b) in ParameterEntries(api.ParameterSchemas());
    } else if api.RequestNames(n) {
      assert Entry(n, b) in SchemaEntries(api.RequestSchemas());
    } else {
      assert Entry(n, b) in SchemaEntries(api.ResponseSchemas());
    }
  }

  /**
   * Without a name clash, the entry of every reachable class is its
   * generated schema without "id", wherever in the tree it was referenced.
   */
  lemma ComponentsSchema(api: OpenApi, generate: Generator, c: ClassRef)
    requires api.GeneratedBy(generate) && api.NoNameClash()
    requires c in api.ReachableClasses()
    ensures c.simpleName in api.Components()
    ensures api.Components()[c.simpleName] == SchemaFrom(c, generate).body
  {
    var rs, qs, ps := SchemaEntries(api.ResponseSchemas()), SchemaEntries(api.RequestSchemas()), ParameterEntries(api.ParameterSchemas());
    var e := Entry(c.simpleName, SchemaFrom(c, generate).body);
    ClassEntry(api, generate, c);
    forall f: Entry | f in rs + qs + ps && f.name == e.name
      ensures f.body == e.body
    {
      var d := EntryClass(api, generate, f);
    }
    MergeAgreed(rs, qs, ps, e);
  }

  /** A reachable class contributes its generated body under its simple name. */
  lemma ClassEntry(api: OpenApi, generate: Generator, c: ClassRef)
    requires api.GeneratedBy(generate)
    requires c in api.ReachableClasses()
    ensures Entry(c.simpleName, SchemaFrom(c, generate).body)
      in SchemaEntries(api.ResponseSchemas()) + SchemaEntries(api.RequestSchemas()) + ParameterEntries(api.ParameterSchemas())
  {
    ClassEntryOf(api.ResponseSchemas(), api.RequestSchemas(), api.ParameterSchemas(), generate, c);
  }

  /** `ClassEntry` on the three wrapper sets themselves. */
  lemma ClassEntryOf(rs: set<TypedSchema>, qs: set<TypedSchema>, ps: set<TypedParameterSchema>, generate: Generator, c: ClassRef)
    requires forall w :: w in rs + qs ==> Generated(w, generate)
    requires forall w :: w in ps ==> ParameterGenerated(w, generate)
    requires c in (set w | w in rs :: w.clazz) + (set w | w in qs :: w.clazz) + (set w | w in ps :: w.clazz)
    ensures Entry(c.simpleName, SchemaFrom(c, generate).body) in SchemaEntries(rs) + SchemaEntries(qs) + ParameterEntries(ps)
  {
    if w :| w in rs && w.clazz == c {
      assert Generated(w, generate);
    } else if w :| w in qs && w.clazz == c {
      assert Generated(w, generate);
    } else {
      var w :| w in ps && w.clazz == c;
      assert ParameterGenerated(w, generate);
    }
  }

  /** Every folded entry is the generated body of some reachable class. */
  lemma EntryClass(api: OpenApi, generate: Generator, f: Entry) returns (d: ClassRef)
    requires api.GeneratedBy(generate)
    requires f in SchemaEntries(api.ResponseSchemas()) + SchemaEntries(api.RequestSchemas()) + ParameterEntries(api.ParameterSchemas())
    ensures d in api.ReachableClasses()
    ensures f == Entry(d.simpleName, SchemaFrom(d, generate).body)
  {
    d := EntryClassOf(api.ResponseSchemas(), api.RequestSchemas(), api.ParameterSchemas(), generate, f);
  }

  /** `EntryClass` on the three wrapper sets themselves. */
  lemma EntryClassOf(rs: set<TypedSchema>, qs: set<TypedSchema>, ps: set<TypedParameterSchema>, generate: Generator, f: Entry)
    returns (d: ClassRef)
    requires forall w :: w in rs + qs ==> Generated(w, generate)
    requires forall w :: w in ps ==> ParameterGenerated(w, generate)
    requires f in SchemaEntries(rs) + SchemaEntries(qs) + ParameterEntries(ps)
    ensures d in (set w | w in rs :: w.clazz) + (set w | w in qs :: w.clazz) + (set w | w in ps :: w.clazz)
    ensures f == Entry(d.simpleName, SchemaFrom(d, generate).body)
  {
    if f in SchemaEntries(rs) {
      var w :| w in rs && f == Entry(w.clazz.simpleName, w.body);
      assert Generated(w, generate);
      d := w.clazz;
    } else if f in SchemaEntries(qs) {
      var w :| w in qs && f == Entry(w.clazz.simpleName, w.body);
      assert Generated(w, generate);
      d := w.clazz;
    } else {
      var w :| w in ps && f == Entry(w.clazz.simpleName, w.body);
      assert ParameterGenerated(w, generate);
      d := w.clazz;
    }
  }

  /**
   * The `$ref` that `SchemaSerializer` writes for a response or request-body
   * wrapper resolves, in the serialized document, to that wrapper's entry of
   * `components.schemas`; without a name clash the entry is the wrapper's own body.
   */
  lemma MediaTypeRefResolves(api: OpenApi, generate: Generator, w: TypedSchema)
    requires api.GeneratedBy(generate)
    requires w in api.ResponseSchemas() + api.RequestSchemas()
    requires '/' !in w.clazz.simpleName && '~' !in w.clazz.simpleName
    ensures w.clazz.simpleName in api.Components()
    ensures Resolve(MediaTypeJson(w)["schema"].fields["$ref"].s, ComponentsJson(api.Components()))
      == Some(JObject(api.Components()[w.clazz.simpleName]))
    ensures api.NoNameClash() ==>
      Resolve(MediaTypeJson(w)["schema"].fields["$ref"].s, ComponentsJson(api.Components())) == Some(JObject(w.body))
  {
    var n := w.clazz.simpleName;
    assert Generated(w, generate);
    if w in api.ResponseSchemas() {
      assert Entry(n, w.body) in SchemaEntries(api.ResponseSchemas());
    } else {
      assert Entry(n, w.body) in SchemaEntries(api.RequestSchemas());
    }
    SchemaRefResolves(n, api.Components());
    if api.NoNameClash() {
      assert w.clazz in api.ReachableClasses();
      ComponentsSchema(api, generate, w.clazz);
    }
  }

  /** The same for the `$ref` that `ParameterSchemaSerializer` writes for a parameter's schema. */
  lemma ParameterRefResolves(api: OpenApi, generate: Generator, w: TypedParameterSchema)
    requires api.GeneratedBy(generate)
    requires w in api.ParameterSchemas()
    requires '/' !in w.clazz.simpleName && '~' !in w.clazz.simpleName
    ensures w.clazz.simpleName in api.Components()
    ensures Resolve(ParameterSchemaJson(w)["$ref"].s, ComponentsJson(api.Components()))
      == Some(JObject(api.Components()[w.clazz.simpleName]))
    ensures api.NoNameClash() ==>
      Resolve(ParameterSchemaJson(w)["$ref"].s, ComponentsJson(api.Components())) == Some(JObject(w.body))
  {
    var n := w.clazz.simpleName;
    assert ParameterGenerated(w, generate);
    assert Entry(n, w.body) in ParameterEntries(api.ParameterSchemas());
    SchemaRefResolves(n, api.Components());
    if api.NoNameClash() {
      assert w.clazz in api.ReachableClasses();
      ComponentsSchema(api, generate, w.clazz);
    }
  }

}
