/**
 * A client of the builder: the document of the repository's own builder
 * test, reduced to the two operations whose schemas differ.
 */
module BuilderExample {
  import opened Wrappers
  import opened Json
  import opened JsonPointer
  import opened TypedSchemas
  import opened ComponentsRegistry
  import opened OpenApiObject

  const Example := ClassRef("ExampleSchema", "ExampleSchema")
  const AnotherExample := ClassRef("AnotherExampleSchema", "AnotherExampleSchema")
  const ExampleRequest := ClassRef("ExampleRequestSchema", "ExampleRequestSchema")

  /**
   * The builder used as the repository's test uses it: GET /get answers 200
   * with ExampleSchema; POST /post takes ExampleRequestSchema and answers
   * 200 with AnotherExampleSchema.
   *  - The derived components hold exactly those three names.
   *  - Every wrapper in the tree comes from the one generator, and no two
   *    classes share a simple name.
   *  - The `$ref` written for the GET's "application/json" content resolves,
   *    in the written components, to that content's own schema body.
   */
  method BuildExample(generate: Generator) returns (api: OpenApi)
    ensures api.Components().Keys == {"ExampleSchema", "ExampleRequestSchema", "AnotherExampleSchema"}
    ensures api.GeneratedBy(generate) && api.NoNameClash()
    ensures "/get" in api.paths.paths && "get" in api.paths.paths["/get"]
    ensures "200" in api.paths.paths["/get"]["get"].responses
    ensures "application/json" in api.paths.paths["/get"]["get"].responses["200"].content
    ensures var w := api.paths.paths["/get"]["get"].responses["200"].content["application/json"];
      Resolve(MediaTypeJson(w)["schema"].fields["$ref"].s, ComponentsJson(api.Components())) == Some(JObject(w.body))
  {
    api := new OpenApi();
    var get, ok := MakeGet(generate);
    api.paths.Get("/get", get);
    var post, body, postOk := MakePost(generate);
    api.paths.Post("/post", post);
    assert api.paths.paths == map["/get" := map["get" := get], "/post" := map["post" := post]];
    ExampleDocument(api, get, post, ok, postOk, body, generate);
  }

  /** The GET block: `description = "fooo"; code("200") { ...; response<ExampleSchema>("application/json") }`. */
  method MakeGet(generate: Generator) returns (get: Operation, ok: Response)
    ensures fresh(get) && fresh(ok)
    ensures get.responses == map["200" := ok] && get.requestBody == null && get.parameters == None
    ensures ok.content == map["application/json" := NewTypedSchema(Example, generate)]
  {
    get := new Operation();
    get.description := "fooo";
    ok := new Response();
    ok.description := "some response";
    ok.PutResponse("application/json", Example, generate);
    get.Code("200", ok);
  }

  /**
   * The POST block: a request body with ExampleRequestSchema, then
   * `code("200")` with AnotherExampleSchema.
   */
  method MakePost(generate: Generator) returns (post: Operation, body: RequestBody, postOk: Response)
    ensures fresh(post) && fresh(body) && fresh(postOk)
    ensures post.responses == map["200" := postOk] && post.requestBody == body && post.parameters == None
    ensures body.content == map["application/json" := NewTypedSchema(ExampleRequest, generate)]
    ensures postOk.content == map["application/json" := NewTypedSchema(AnotherExample, generate)]
  {
    post := new Operation();
    post.description := "bar";
    var b := post.OpenRequestBody();
    body := b;
    body.description := Some("example request");
    body.PutRequest("application/json", ExampleRequest, generate);
    postOk := new Response();
    postOk.description := "some response";
    postOk.PutResponse("application/json", AnotherExample, generate);
    post.Code("200", postOk);
  }

  /** The promises of `BuildExample`, about the tree it builds. */
  lemma ExampleDocument(api: OpenApi, get: Operation, post: Operation, ok: Response, postOk: Response,
                        body: RequestBody, generate: Generator)
    requires api.paths.paths == map["/get" := map["get" := get], "/post" := map["post" := post]]
    requires get.responses == map["200" := ok] && get.requestBody == null && get.parameters == None
    requires post.responses == map["200" := postOk] && post.requestBody == body && post.parameters == None
    requires ok.content == map["application/json" := NewTypedSchema(Example, generate)]
    requires postOk.content == map["application/json" := NewTypedSchema(AnotherExample, generate)]
    requires body.content == map["application/json" := NewTypedSchema(ExampleRequest, generate)]
    ensures api.Components().Keys == {"ExampleSchema", "ExampleRequestSchema", "AnotherExampleSchema"}
    ensures api.GeneratedBy(generate) && api.NoNameClash()
    ensures "/get" in api.paths.paths && "get" in api.paths.paths["/get"]
    ensures "200" in api.paths.paths["/get"]["get"].responses
    ensures "application/json" in api.paths.paths["/get"]["get"].responses["200"].content
    ensures var w := api.paths.paths["/get"]["get"].responses["200"].content["application/json"];
      Resolve(MediaTypeJson(w)["schema"].fields["$ref"].s, ComponentsJson(api.Components())) == Some(JObject(w.body))
  {
    var wo, wc, wb := ok.content["application/json"], postOk.content["application/json"], body.content["application/json"];
    ExampleSchemaSets(api, get, post, ok, postOk, body, wo, wc, wb);
    ExampleKeys(api, wo, wc, wb, generate);
    ExampleGenerated(api, wo, wc, wb, generate);
    ExampleNoClash(api, wo, wc, wb, generate);
    ExampleRef(api, wo, generate);
    ExampleGetContent(api, get, post, ok);
  }

  /** The route /get, "get", "200", "application/json" leads to the GET response's content. */
  lemma ExampleGetContent(api: OpenApi, get: Operation, post: Operation, ok: Response)
    requires api.paths.paths == map["/get" := map["get" := get], "/post" := map["post" := post]]
    requires get.responses == map["200" := ok] && "application/json" in ok.content
    ensures "/get" in api.paths.paths && "get" in api.paths.paths["/get"]
    ensures "200" in api.paths.paths["/get"]["get"].responses
    ensures "application/json" in api.paths.paths["/get"]["get"].responses["200"].content
    ensures api.paths.paths["/get"]["get"].responses["200"].content["application/json"] == ok.content["application/json"]
  {
  }

  /** The GET's wrapper is a response wrapper over ExampleSchema, so its reference resolves to its body. */
  lemma ExampleRef(api: OpenApi, w: TypedSchema, generate: Generator)
    requires api.GeneratedBy(generate) && api.NoNameClash()
    requires w in api.ResponseSchemas() && w.clazz == Example
    ensures Resolve(MediaTypeJson(w)["schema"].fields["$ref"].s, ComponentsJson(api.Components())) == Some(JObject(w.body))
  {
    PlainName();
    assert w in api.ResponseSchemas() + api.RequestSchemas();
    MediaTypeRefResolves(api, generate, w);
  }

  lemma PlainName()
    ensures '/' !in Example.simpleName && '~' !in Example.simpleName
  {
  }

  /** The wrappers each fold runs over. */
  lemma ExampleSchemaSets(api: OpenApi, get: Operation, post: Operation, ok: Response, postOk: Response,
                          body: RequestBody, wo: TypedSchema, wc: TypedSchema, wb: TypedSchema)
    requires api.paths.paths == map["/get" := map["get" := get], "/post" := map["post" := post]]
    requires get.responses == map["200" := ok] && get.requestBody == null && get.parameters == None
    requires post.responses == map["200" := postOk] && post.requestBody == body && post.parameters == None
    requires ok.content == map["application/json" := wo] && postOk.content == map["application/json" := wc]
    requires body.content == map["application/json" := wb]
    ensures api.ResponseSchemas() == {wo, wc} && api.RequestSchemas() == {wb} && api.ParameterSchemas() == {}
  {
    ExampleOperations(api, get, post);
    ExampleResponses(get, post, ok, postOk);
    ExampleBodies(get, post, body);
    ExampleParameters(get, post);
    ContentsOfTwo(ok, postOk, wo, wc);
    RequestContentsOfOne(body, wb);
  }

  lemma ExampleOperations(api: OpenApi, get: Operation, post: Operation)
    requires api.paths.paths == map["/get" := map["get" := get], "/post" := map["post" := post]]
    ensures api.Operations() == {get, post}
  {
    var pm := api.paths.paths;
    assert pm.Keys == {"/get", "/post"};
    assert pm["/get"].Keys == {"get"} && pm["/post"].Keys == {"post"};
    assert get in api.Operations() && post in api.Operations();
  }

  lemma ExampleResponses(get: Operation, post: Operation, ok: Response, postOk: Response)
    requires get.responses == map["200" := ok] && post.responses == map["200" := postOk]
    ensures ResponsesOf({get, post}) == {ok, postOk}
  {
    ResponsesOfOne(get, ok);
    ResponsesOfOne(post, postOk);
    ResponsesUnion({get}, {post});
    assert {get} + {post} == {get, post};
  }

  /** The responses of two groups of operations are those of each. */
  lemma ResponsesUnion(a: set<Operation>, b: set<Operation>)
    ensures ResponsesOf(a + b) == ResponsesOf(a) + ResponsesOf(b)
  {
  }

  lemma ResponsesOfOne(o: Operation, r: Response)
    requires o.responses == map["200" := r]
    ensures ResponsesOf({o}) == {r}
  {
    assert o.responses.Keys == {"200"};
  }

  lemma ExampleBodies(get: Operation, post: Operation, body: RequestBody)
    requires get.requestBody == null && post.requestBody == body
    ensures BodiesOf({get, post}) == {body}
  {
    assert body in BodiesOf({get, post});
  }

  lemma ExampleParameters(get: Operation, post: Operation)
    requires get.parameters == None && post.parameters == None
    ensures ParametersOf({get, post}) == {}
  {
  }

  lemma ContentsOfOne(r: Response, w: TypedSchema)
    requires r.content == map["application/json" := w]
    ensures ResponseContents({r}) == {w}
  {
    assert r.content.Keys == {"application/json"};
  }

  lemma ContentsOfTwo(ok: Response, postOk: Response, wo: TypedSchema, wc: TypedSchema)
    requires ok.content == map["application/json" := wo] && postOk.content == map["application/json" := wc]
    ensures ResponseContents({ok, postOk}) == {wo, wc}
  {
    ContentsOfOne(ok, wo);
    ContentsOfOne(postOk, wc);
    ContentsUnion({ok}, {postOk});
    assert {ok} + {postOk} == {ok, postOk};
  }

  /** The content wrappers of two groups of responses are those of each. */
  lemma ContentsUnion(a: set<Response>, b: set<Response>)
    ensures ResponseContents(a + b) == ResponseContents(a) + ResponseContents(b)
  {
  }

  lemma RequestContentsOfOne(b: RequestBody, w: TypedSchema)
    requires b.content == map["application/json" := w]
    ensures RequestContents({b}) == {w}
  {
    assert b.content.Keys == {"application/json"};
  }

  lemma ExampleKeys(api: OpenApi, wo: TypedSchema, wc: TypedSchema, wb: TypedSchema, generate: Generator)
    requires api.ResponseSchemas() == {wo, wc} && api.RequestSchemas() == {wb} && api.ParameterSchemas() == {}
    requires wo == NewTypedSchema(Example, generate) && wc == NewTypedSchema(AnotherExample, generate)
    requires wb == NewTypedSchema(ExampleRequest, generate)
    ensures api.Components().Keys == {"ExampleSchema", "ExampleRequestSchema", "AnotherExampleSchema"}
  {
    ExampleNames(api.ResponseSchemas(), api.RequestSchemas(), api.ParameterSchemas(), wo, wc, wb);
  }

  lemma ExampleNames(rs: set<TypedSchema>, qs: set<TypedSchema>, ps: set<TypedParameterSchema>,
                     wo: TypedSchema, wc: TypedSchema, wb: TypedSchema)
    requires rs == {wo, wc} && qs == {wb} && ps == {}
    requires wo.clazz == Example && wc.clazz == AnotherExample && wb.clazz == ExampleRequest
    ensures Names(SchemaEntries(rs)) + Names(SchemaEntries(qs)) + Names(ParameterEntries(ps))
      == {"ExampleSchema", "ExampleRequestSchema", "AnotherExampleSchema"}
  {
    assert SchemaEntries(rs) == {Entry("ExampleSchema", wo.body), Entry("AnotherExampleSchema", wc.body)};
    assert SchemaEntries(qs) == {Entry("ExampleRequestSchema", wb.body)};
  }

  lemma ExampleGenerated(api: OpenApi, wo: TypedSchema, wc: TypedSchema, wb: TypedSchema, generate: Generator)
    requires api.ResponseSchemas() == {wo, wc} && api.RequestSchemas() == {wb} && api.ParameterSchemas() == {}
    requires wo == NewTypedSchema(Example, generate) && wc == NewTypedSchema(AnotherExample, generate)
    requires wb == NewTypedSchema(ExampleRequest, generate)
    ensures api.GeneratedBy(generate)
  {
    ExampleGenerators(api.ResponseSchemas(), api.RequestSchemas(), api.ParameterSchemas(), wo, wc, wb, generate);
  }

  lemma ExampleGenerators(rs: set<TypedSchema>, qs: set<TypedSchema>, ps: set<TypedParameterSchema>,
                          wo: TypedSchema, wc: TypedSchema, wb: TypedSchema, generate: Generator)
    requires rs == {wo, wc} && qs == {wb} && ps == {}
    requires wo == NewTypedSchema(Example, generate) && wc == NewTypedSchema(AnotherExample, generate)
    requires wb == NewTypedSchema(ExampleRequest, generate)
    ensures forall w :: w in rs + qs ==> Generated(w, generate)
    ensures forall w :: w in ps ==> ParameterGenerated(w, generate)
  {
    assert rs + qs == {wo, wc, wb};
  }

  lemma ExampleNoClash(api: OpenApi, wo: TypedSchema, wc: TypedSchema, wb: TypedSchema, generate: Generator)
    requires api.ResponseSchemas() == {wo, wc} && api.RequestSchemas() == {wb} && api.ParameterSchemas() == {}
    requires wo.clazz == Example && wc.clazz == AnotherExample && wb.clazz == ExampleRequest
    ensures api.NoNameClash()
  {
    ExampleClasses(api.ResponseSchemas(), api.RequestSchemas(), api.ParameterSchemas(), wo, wc, wb);
    DistinctNames(api.ReachableClasses());
  }

  lemma DistinctNames(classes: set<ClassRef>)
    requires classes == {Example, AnotherExample, ExampleRequest}
    ensures forall c, d :: c in classes && d in classes && c.simpleName == d.simpleName ==> c == d
  {
  }

  lemma ExampleClasses(rs: set<TypedSchema>, qs: set<TypedSchema>, ps: set<TypedParameterSchema>,
                       wo: TypedSchema, wc: TypedSchema, wb: TypedSchema)
    requires rs == {wo, wc} && qs == {wb} && ps == {}
    requires wo.clazz == Example && wc.clazz == AnotherExample && wb.clazz == ExampleRequest
    ensures (set w | w in rs :: w.clazz) + (set w | w in qs :: w.clazz) + (set w | w in ps :: w.clazz)
      == {Example, AnotherExample, ExampleRequest}
  {
  }
}
