# kotlin-openapi3-dsl, modelled in Dafny

kotlin-openapi3-dsl is a Kotlin DSL for building an OpenAPI 3.0.0 document in
memory. Nested builder blocks fill a tree of mutable objects:
`openapi3 { paths { get("/x") { ok { response<T>("application/json") } } } }`.
A body, response or parameter type is given as a Kotlin class. Its JSON Schema
is generated when the schema wrapper is made. The serialized document refers to
it with a `$ref` of the form `#/components/schemas/<simple name>`. The
`components` getter collects every schema reachable from the paths into one
name-to-schema map.

This project models that core:

- `TypedSchemas` (typed_schemas.dfy) holds `schemaFrom`, the two schema
  wrappers and the JSON that the three custom serializers write. The schema
  generator is a parameter, `Generator = ClassRef -> JsonObject`.
- `OpenApiObject` (openapi_object.dfy) holds the builder classes `Response`,
  `RequestBody`, `Parameter`, `Operation`, `Paths` and `OpenApi`. Their
  builder methods update fields in place, and `OpenApi.Components` is the
  `components` getter.
  - `code`, `get`, `post` and the other method builders make a fresh child,
    run the caller's block on it, and only then attach it. Here the caller
    makes the child with its constructor and makes the block's calls on it,
    and the builder method attaches it.
  - `requestBody` and `parameter` first test whether the slot is empty. Here
    the builder method tests, attaches a fresh child and returns it, and the
    caller then makes the block's calls on it.
  - `components` is a ghost function of the tree. The collectors behind it
    (`ResponsesOf`, `BodiesOf`, `ParametersOf`, `ResponseContents`,
    `RequestContents`, `ParameterSchemasOf`) are functions over sets of
    objects, each stating exactly which elements it collects.
- A class is a `ClassRef`, its binary name together with its simple name.
  Two different classes (say, nested classes of different outer classes) can
  share a simple name, and the simple name alone names a component.
- `ComponentsRegistry` (components_registry.dfy) holds the fold and merge
  behind the getter, on plain values.
  - Each of the three sources (response content, request-body content,
    parameter schemas) is folded over a `HashMap`'s values, whose order is
    unspecified.
  - So the fold promises that every name is a key, and that each key holds the
    body of some entry with that name.
  - The three maps are then combined with `Map.plus`. On a clash a parameter
    beats a request body, which beats a response.
- `JsonPointer` (json_pointer.dfy) is an RFC 6901 JSON Pointer evaluator. It
  gives the written `$ref` strings their meaning: a reference resolves to the
  entry of `components.schemas` it names.
- `BuilderExample` (builder_example.dfy) builds the GET and POST operations of
  the repository's builder test with the model's methods.
- `Json` and `Wrappers` are the JSON value type and `Option`.

## Model

All source paths below are relative to the repository root.

| member | source | states |
|---|---|---|
| TypedSchemas.SchemaFrom | src/main/kotlin/cc/vileda/openapi3/OpenApiObject.kt:32-38 | The reference is `#/components/schemas/` followed by the class's simple name. The body has no "id" member and otherwise holds exactly the generated schema's members and values. |
| TypedSchemas.NewTypedSchema | src/main/kotlin/cc/vileda/openapi3/OpenApiObject.kt:40-53 | The wrapper keeps its class, and takes its body and reference from `schemaFrom` on that class when it is constructed. |
| TypedSchemas.NewTypedParameterSchema | src/main/kotlin/cc/vileda/openapi3/OpenApiObject.kt:55-68 | The same for the parameter wrapper. |
| TypedSchemas.SameClassSameSchema | src/main/kotlin/cc/vileda/openapi3/OpenApiObject.kt:32-68 | Two wrappers over one class, of either kind, are the same body with the same reference. The reference names the simple name, and the body has no "id". |
| TypedSchemas.MediaTypeJson | src/main/kotlin/cc/vileda/openapi3/OpenApiObject.kt:70-74 | A media-type wrapper is written as `{"schema": {"$ref": <reference>}}` and nothing else. The body is never inlined. |
| TypedSchemas.ParameterSchemaJson | src/main/kotlin/cc/vileda/openapi3/OpenApiObject.kt:76-80 | A parameter's schema is written as the bare `{"$ref": <reference>}`. |
| TypedSchemas.ComponentsJson | src/main/kotlin/cc/vileda/openapi3/OpenApiObject.kt:82-86 | Components are written as an object under "components" that holds the name-to-body map as "schemas". |
| TypedSchemas.SchemaRefResolves | src/main/kotlin/cc/vileda/openapi3/OpenApiObject.kt:37 | Take a name without '/' or '~'. Its reference resolves (RFC 6901) in the written components to the body stored under that name. It resolves to nothing when the name is absent. |
| ComponentsRegistry.SchemaEntries | src/main/kotlin/cc/vileda/openapi3/OpenApiObject.kt:281 | Each wrapper contributes exactly the pair (simple name, body), and every pair comes from some wrapper. |
| ComponentsRegistry.ParameterEntries | src/main/kotlin/cc/vileda/openapi3/OpenApiObject.kt:298-300 | The same for parameter schemas. |
| ComponentsRegistry.Fold | src/main/kotlin/cc/vileda/openapi3/OpenApiObject.kt:280-283 | The folded map's keys are exactly the names of the entries. Each key holds the body of some entry with that name. |
| ComponentsRegistry.Merge | src/main/kotlin/cc/vileda/openapi3/OpenApiObject.kt:304-306 | The keys are the union of the three sources' names. A parameter entry beats a request-body entry, which beats a response entry. |
| ComponentsRegistry.MergeAgreed | src/main/kotlin/cc/vileda/openapi3/OpenApiObject.kt:276-306 | When all entries with one name agree on the body, the merged map holds that body under the name. |
| OpenApiObject.Response.constructor | src/main/kotlin/cc/vileda/openapi3/OpenApiObject.kt:105-108 | A new response has an empty description and no content. |
| OpenApiObject.Response.PutResponse | src/main/kotlin/cc/vileda/openapi3/OpenApiObject.kt:109-112 | `response<T>(mediaType)` sets or replaces that media type's wrapper with one over T. The other media types are unchanged. |
| OpenApiObject.RequestBody.constructor | src/main/kotlin/cc/vileda/openapi3/OpenApiObject.kt:115-118 | A new request body has no content and a null description. |
| OpenApiObject.RequestBody.PutRequest | src/main/kotlin/cc/vileda/openapi3/OpenApiObject.kt:119-122 | `request<T>(mediaType)` sets or replaces that media type's wrapper. The other media types are unchanged. |
| OpenApiObject.Parameter.constructor | src/main/kotlin/cc/vileda/openapi3/OpenApiObject.kt:92-98 | The defaults: empty name and description, location "path", required, style "simple", and a schema over `String`. |
| OpenApiObject.Parameter.Schema | src/main/kotlin/cc/vileda/openapi3/OpenApiObject.kt:100-102 | `schema<T>()` replaces the schema with a wrapper over T. |
| OpenApiObject.Operation.constructor | src/main/kotlin/cc/vileda/openapi3/OpenApiObject.kt:129-141 | The defaults: empty strings and tags, not deprecated, no responses, no request body, no parameter list. |
| OpenApiObject.Operation.Code | src/main/kotlin/cc/vileda/openapi3/OpenApiObject.kt:142-146 | The response, already configured by the block, goes under the code and replaces any earlier one. The other codes are unchanged. |
| OpenApiObject.Operation.Created | src/main/kotlin/cc/vileda/openapi3/OpenApiObject.kt:148 | The same under "201". |
| OpenApiObject.Operation.Ok | src/main/kotlin/cc/vileda/openapi3/OpenApiObject.kt:149 | The same under "200". |
| OpenApiObject.Operation.OpenRequestBody | src/main/kotlin/cc/vileda/openapi3/OpenApiObject.kt:151-156 | The first call attaches a fresh empty body with a null description and hands it out. Later calls leave the body as it was and hand out nothing, so the block does not run. |
| OpenApiObject.Operation.OpenParameter | src/main/kotlin/cc/vileda/openapi3/OpenApiObject.kt:158-164 | The first call sets the list to one fresh parameter with all its defaults (empty name and description, "path", required, "simple", a `String` schema). Later calls leave the list as it was and hand out nothing. |
| OpenApiObject.PutNested | src/main/kotlin/cc/vileda/openapi3/OpenApiObject.kt:183-189 | Registering under (path, method) sets exactly that inner entry. Other paths and other methods of the path are kept. A new path gets a one-entry map. |
| OpenApiObject.Paths.constructor | src/main/kotlin/cc/vileda/openapi3/OpenApiObject.kt:174-176 | A new Paths Object is empty. |
| OpenApiObject.Paths.Operations | src/main/kotlin/cc/vileda/openapi3/OpenApiObject.kt:276-277 | The operations are exactly those registered: each one under a path and method is among them, and each of them is registered under some path and method. |
| OpenApiObject.Paths.PutPath | src/main/kotlin/cc/vileda/openapi3/OpenApiObject.kt:167-189 | A `PathItem` (an operation with its method token) is registered: the paths map becomes `PutNested` of the old one, so no other path or method is touched. |
| OpenApiObject.Paths.Get | src/main/kotlin/cc/vileda/openapi3/OpenApiObject.kt:177-193 | The operation made and configured by the block is registered under the path and "get"; nothing else changes. |
| OpenApiObject.Paths.Put | src/main/kotlin/cc/vileda/openapi3/OpenApiObject.kt:195-197 | The same for "put". |
| OpenApiObject.Paths.Post | src/main/kotlin/cc/vileda/openapi3/OpenApiObject.kt:199-201 | The same for "post". |
| OpenApiObject.Paths.Delete | src/main/kotlin/cc/vileda/openapi3/OpenApiObject.kt:203-205 | The same for "delete". |
| OpenApiObject.Paths.Patch | src/main/kotlin/cc/vileda/openapi3/OpenApiObject.kt:207-209 | The same for "patch". |
| OpenApiObject.Paths.Head | src/main/kotlin/cc/vileda/openapi3/OpenApiObject.kt:211-213 | The same for "head". |
| OpenApiObject.Paths.Options | src/main/kotlin/cc/vileda/openapi3/OpenApiObject.kt:215-217 | The same for "options". |
| OpenApiObject.Paths.Trace | src/main/kotlin/cc/vileda/openapi3/OpenApiObject.kt:219-221 | The same for "trace". |
| OpenApiObject.OpenApi.constructor | src/main/kotlin/cc/vileda/openapi3/OpenApiObject.kt:251-258 | A new document has version "3.0.0" and a fresh empty Paths Object. |
| OpenApiObject.ResponsesOf | src/main/kotlin/cc/vileda/openapi3/OpenApiObject.kt:278 | Exactly the responses of the operations: each response under each code is collected, and each collected response sits under some code of some operation. |
| OpenApiObject.BodiesOf | src/main/kotlin/cc/vileda/openapi3/OpenApiObject.kt:287 | Exactly the non-null request bodies of the operations, in both directions. |
| OpenApiObject.ParametersOf | src/main/kotlin/cc/vileda/openapi3/OpenApiObject.kt:296-297 | Exactly the parameters at every position of every present list, in both directions. |
| OpenApiObject.ResponseContents | src/main/kotlin/cc/vileda/openapi3/OpenApiObject.kt:279 | Exactly the wrappers in the responses' content maps, in both directions. |
| OpenApiObject.RequestContents | src/main/kotlin/cc/vileda/openapi3/OpenApiObject.kt:288 | Exactly the wrappers in the request bodies' content maps, in both directions. |
| OpenApiObject.ParameterSchemasOf | src/main/kotlin/cc/vileda/openapi3/OpenApiObject.kt:298 | Exactly the parameters' schemas, in both directions. |
| OpenApiObject.OpenApi.Components | src/main/kotlin/cc/vileda/openapi3/OpenApiObject.kt:274-307 | The keys are the union of the simple names in the three folds. Each key holds the body of some entry with that name from one of the three sources. |
| OpenApiObject.ComponentsKeys | src/main/kotlin/cc/vileda/openapi3/OpenApiObject.kt:274-307 | A name is a key of `components.schemas` if and only if some route names a class with that simple name. The route is path, method, then a response code and media type, a request-body media type, or a parameter position. |
| OpenApiObject.ResponseSiteNames | src/main/kotlin/cc/vileda/openapi3/OpenApiObject.kt:276-283 | The response fold's names are exactly the names reached through path, method, code and media type. |
| OpenApiObject.RequestSiteNames | src/main/kotlin/cc/vileda/openapi3/OpenApiObject.kt:285-292 | The request-body fold's names are exactly the names reached through path, method and media type of a present body. |
| OpenApiObject.ParameterSiteNames | src/main/kotlin/cc/vileda/openapi3/OpenApiObject.kt:294-302 | The parameter fold's names are exactly the names reached through path, method and list position. |
| OpenApiObject.ResponseRouteNamed | src/main/kotlin/cc/vileda/openapi3/OpenApiObject.kt:276-283 | A class named n under some path, method, code and media type puts n among the response fold's names. |
| OpenApiObject.ResponseNamedRoute | src/main/kotlin/cc/vileda/openapi3/OpenApiObject.kt:276-283 | Every name of the response fold is reached through some path, method, code and media type. |
| OpenApiObject.RequestRouteNamed | src/main/kotlin/cc/vileda/openapi3/OpenApiObject.kt:285-292 | A class named n in some present request body puts n among the request fold's names. |
| OpenApiObject.RequestNamedRoute | src/main/kotlin/cc/vileda/openapi3/OpenApiObject.kt:285-292 | Every name of the request fold is reached through some path, method and media type of a present body. |
| OpenApiObject.ParameterRouteNamed | src/main/kotlin/cc/vileda/openapi3/OpenApiObject.kt:294-302 | A parameter schema named n at some list position puts n among the parameter fold's names. |
| OpenApiObject.ParameterNamedRoute | src/main/kotlin/cc/vileda/openapi3/OpenApiObject.kt:294-302 | Every name of the parameter fold is reached through some path, method and list position. |
| OpenApiObject.ComponentsPrecedence | src/main/kotlin/cc/vileda/openapi3/OpenApiObject.kt:304-306 | A name held by a parameter gets a parameter schema's body. Otherwise a name held by a request body gets a request schema's body. Otherwise it gets a response schema's body. |
| OpenApiObject.ComponentsSchema | src/main/kotlin/cc/vileda/openapi3/OpenApiObject.kt:274-307 | Suppose no two reachable classes share a simple name. Then every reachable class's name is a key, and its entry is that class's generated schema without "id". |
| OpenApiObject.ClassEntry | src/main/kotlin/cc/vileda/openapi3/OpenApiObject.kt:281 | A reachable class puts (simple name, generated body) into one of the folds. |
| OpenApiObject.EntryClass | src/main/kotlin/cc/vileda/openapi3/OpenApiObject.kt:281 | Every folded entry is (simple name, generated body) of some reachable class. |
| OpenApiObject.ClassEntryOf | src/main/kotlin/cc/vileda/openapi3/OpenApiObject.kt:276-302 | For wrappers made by one generator, every class among them contributes (simple name, generated body) to one of the three entry sets. |
| OpenApiObject.EntryClassOf | src/main/kotlin/cc/vileda/openapi3/OpenApiObject.kt:276-302 | For wrappers made by one generator, every entry is (simple name, generated body) of one of their classes. |
| OpenApiObject.MediaTypeRefResolves | src/main/kotlin/cc/vileda/openapi3/OpenApiObject.kt:72 | The `$ref` written for a response or request-body wrapper resolves in the written components to its name's entry. With no name clash, that entry is the wrapper's own body. |
| OpenApiObject.ParameterRefResolves | src/main/kotlin/cc/vileda/openapi3/OpenApiObject.kt:78 | The same for a parameter's `$ref`. |
| BuilderExample.BuildExample | src/test/kotlin/OpenApi3BuilderTest.kt:13-91 | Building the test's GET /get and POST /post yields components with exactly the keys ExampleSchema, ExampleRequestSchema and AnotherExampleSchema. Every wrapper comes from the one generator and no two classes share a simple name. The `$ref` written for the GET's 200 "application/json" content resolves in the written components to that content's own body. |
| BuilderExample.MakeGet | src/test/kotlin/OpenApi3BuilderTest.kt:20-26 | The GET block yields a fresh operation whose only response is a fresh "200" holding an ExampleSchema wrapper for "application/json", with no request body and no parameters. |
| BuilderExample.MakePost | src/test/kotlin/OpenApi3BuilderTest.kt:34-44 | The POST block yields a fresh operation whose request body holds ExampleRequestSchema and whose only response, "200", holds AnotherExampleSchema. |
| BuilderExample.ExampleDocument | src/test/kotlin/OpenApi3BuilderTest.kt:13-91 | For any tree of that shape: the exact components keys, the generator and no-clash facts, and the resolution of the GET content's `$ref`. |
| BuilderExample.ExampleSchemaSets | src/test/kotlin/OpenApi3BuilderTest.kt:20-44 | The response fold runs over exactly the two response wrappers, the request fold over the one body wrapper, and the parameter fold over nothing. |
| BuilderExample.ExampleKeys | src/test/kotlin/OpenApi3BuilderTest.kt:91 | Those wrappers give exactly three component names. |
| BuilderExample.ExampleGetContent | src/test/kotlin/OpenApi3BuilderTest.kt:20-26 | The route /get, "get", "200", "application/json" leads to the GET response's wrapper. |
| BuilderExample.ExampleRef | src/test/kotlin/OpenApi3BuilderTest.kt:20-26 | The GET's ExampleSchema wrapper has a `$ref` that resolves to its own body. |

## Left out

- Schema generation: Jackson's `JsonSchemaGenerator` and the `JSONObject` round trip are the caller-supplied `Generator`. Generation failures (exceptions) are not modelled.
- The mapper configuration (inclusion rules, serializer registration) and the full serialization of the document are not modelled. Only the JSON each custom serializer writes for its value is modelled.
- `asFile`, `asJson` and `toJson` are left out: they write a temporary file and call an external OpenAPI parser.
- The metadata records are left out: `Info`, `Tag`, `Server`, `ServerVariable`, `ExternalDocumentation` and `SecurityRequirement`. So are the operation fields and document fields that hold them (`servers`, `externalDocs`, `security`, `info`, `tags`). They play no part in paths or components.
- `OpenApi.info(init)` and `OpenApi.paths(init)` only run the caller's block on an existing object, so the caller makes those calls directly on it. `openapi3(init)` makes a fresh `OpenApi` and runs the block on it: the constructor followed by the caller's calls.
- Which entry wins among several with the same simple name within one source is not modelled. The order of a `HashMap`'s values is unspecified, so the model promises only that some entry with that name wins.
- SchemaRefResolves: holds only for simple names without '/' or '~'. The source writes the name into the reference without RFC 6901 escaping. A name with those characters points elsewhere or nowhere.
- MediaTypeRefResolves: the same restriction on the simple name.
- ParameterRefResolves: the same restriction on the simple name.
- The pointer evaluator follows object members only. Array indices and URI percent-encoding of the fragment are not modelled, because the references written here never need them.
- Re-entrant blocks are not modelled. The model attaches a `requestBody` or `parameter` child before the block's calls, as the caller makes them afterwards. In Kotlin a `parameter` block that itself calls `parameter` on the same operation runs that inner call first, and the outer call then overwrites the list. A `get` block that registers the same path and method again, or a `code` block that sets the same code again, is likewise overwritten by the outer call once its block returns; the model's caller simply makes the outer call last.
- The builder methods accept any object as the child. So the model admits one operation or response registered in two places, which the Kotlin blocks cannot produce, since each block's child is fresh. The lemmas about the components hold for such shared trees as well.
- The builder objects' maps are exposed as Dafny fields. The model does not capture mutation of a child through one of the source's public maps outside the builder methods.
- BuildExample: builds only the GET and POST operations of the test. The test's other operations repeat ExampleSchema, so the components keys are the same.
- The test file's checks that cast to `OpenApi3GetPath`, `OpenApi3PostPath` and `OpenApi3Response` name types the source does not define. They are not modelled.
- JSON numbers are integers in the JSON value type. The model never inspects a generated schema's numbers.
