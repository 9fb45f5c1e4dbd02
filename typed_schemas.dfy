/**
 * Schema wrappers: `TypedSchema` and `TypedParameterSchema` pair a Kotlin
 * class with the JSON Schema generated for it, computed once when the
 * wrapper is made, and with the `$ref` string that points at it.
 */
module TypedSchemas {
  import opened Wrappers
  import opened Json
  import opened JsonPointer

  /**
   * A `Class<T>`, identified by its binary name (`Class.getName()`, such as
   * "p.Outer$Item"), which tells nested classes of one package apart. Only
   * its `simpleName` ("Item") names it in components, so distinct classes
   * may share that name.
   */
  datatype ClassRef = ClassRef(binaryName: string, simpleName: string)

  /** `String::class.java`, the default schema type of a parameter. */
  const StringClass := ClassRef("java.lang.String", "String")

  /**
   * The external schema generator: Jackson's `JsonSchemaGenerator` over the
   * shared mapper, followed by the round trip through `JSONObject`. It is
   * supplied by the caller; the model assumes nothing about it.
   */
  type Generator = ClassRef -> JsonObject

  /** Where every wrapper's reference points: the `schemas` map of the Components Object. */
  const SchemaRefPrefix := "#/components/schemas/"

  /**
   * What `schemaFrom` returns. Kotlin keeps the body inside a JSON object as
   * the member "schema" and takes it out again with `getJSONObject("schema")`;
   * the model keeps the body itself.
   */
  datatype SchemaGen = SchemaGen(body: JsonObject, schema: string)

  /** `schemaFrom`: generate the schema, drop its "id" member, and reference it by simple name. */
  function SchemaFrom(clazz: ClassRef, generate: Generator): (g: SchemaGen)
    ensures g.schema == SchemaRefPrefix + clazz.simpleName
    ensures "id" !in g.body
    ensures forall k :: k != "id" ==> (k in g.body <==> k in generate(clazz))
    ensures forall k :: k in g.body ==> g.body[k] == generate(clazz)[k]
  {
    SchemaGen(generate(clazz) - {"id"}, SchemaRefPrefix + clazz.simpleName)
  }

  /** A wrapper used for response and request-body content. */
  datatype TypedSchema = TypedSchema(clazz: ClassRef, body: JsonObject, schema: string)

  /** A wrapper used for a parameter's schema. */
  datatype TypedParameterSchema = TypedParameterSchema(clazz: ClassRef, body: JsonObject, schema: string)

  /** The `TypedSchema(clazz)` constructor: its `init` block runs `schemaFrom` once. */
  function NewTypedSchema(clazz: ClassRef, generate: Generator): (w: TypedSchema)
    ensures w.clazz == clazz
    ensures w.body == SchemaFrom(clazz, generate).body && w.schema == SchemaFrom(clazz, generate).schema
  {
    var g := SchemaFrom(clazz, generate);
    TypedSchema(clazz, g.body, g.schema)
  }

  /** The `TypedParameterSchema(clazz)` constructor. */
  function NewTypedParameterSchema(clazz: ClassRef, generate: Generator): (w: TypedParameterSchema)
    ensures w.clazz == clazz
    ensures w.body == SchemaFrom(clazz, generate).body && w.schema == SchemaFrom(clazz, generate).schema
  {
    var g := SchemaFrom(clazz, generate);
    TypedParameterSchema(clazz, g.body, g.schema)
  }

  /** The wrapper was made by its constructor with generator `generate`. */
  ghost predicate Generated(w: TypedSchema, generate: Generator)
  {
    w == NewTypedSchema(w.clazz, generate)
  }

  ghost predicate ParameterGenerated(w: TypedParameterSchema, generate: Generator)
  {
    w == NewTypedParameterSchema(w.clazz, generate)
  }

  /**
   * A wrapper's identity is its class: two wrappers over the same class, of
   * either kind, carry the same reference and the same body.
   */
  lemma SameClassSameSchema(w: TypedSchema, v: TypedSchema, p: TypedParameterSchema, generate: Generator)
    requires Generated(w, generate) && Generated(v, generate) && ParameterGenerated(p, generate)
    requires w.clazz == v.clazz == p.clazz
    ensures w == v
    ensures p.body == w.body && p.schema == w.schema
    ensures w.schema == SchemaRefPrefix + w.clazz.simpleName && "id" !in w.body
  {
  }

  /** `SchemaSerializer`: a media-type entry is written as a reference, never as the body. */
  function MediaTypeJson(w: TypedSchema): (j: JsonObject)
    ensures j.Keys == {"schema"} && j["schema"].JObject?
    ensures j["schema"].fields == map["$ref" := JString(w.schema)]
  {
    map["schema" := JObject(map["$ref" := JString(w.schema)])]
  }

  /** `ParameterSchemaSerializer`: a parameter's schema is written as a bare reference. */
  function ParameterSchemaJson(w: TypedParameterSchema): (j: JsonObject)
    ensures j == map["$ref" := JString(w.schema)]
  {
    map["$ref" := JString(w.schema)]
  }

  /** `ComponentsSerializer`, placed in a document: `{"components": {"schemas": {name: body, ...}}}`. */
  function ComponentsJson(schemas: map<string, JsonObject>): (doc: Json)
    ensures doc.JObject? && doc.fields.Keys == {"components"}
    ensures doc.fields["components"].JObject? && doc.fields["components"].fields.Keys == {"schemas"}
    ensures doc.fields["components"].fields["schemas"].JObject?
    ensures doc.fields["components"].fields["schemas"].fields.Keys == schemas.Keys
    ensures forall n :: n in schemas ==> doc.fields["components"].fields["schemas"].fields[n] == JObject(schemas[n])
  {
    JObject(map["components" := JObject(map["schemas" := JObject(map n | n in schemas :: JObject(schemas[n]))])])
  }

  /**
   * A reference "#/components/schemas/<name>" resolves, as a JSON Pointer,
   * to the body stored under <name>, provided <name> needs no RFC 6901 escaping.
   */
  lemma {:induction false} SchemaRefResolves(name: string, schemas: map<string, JsonObject>)
    requires '/' !in name && '~' !in name
    ensures name in schemas ==> Resolve(SchemaRefPrefix + name, ComponentsJson(schemas)) == Some(JObject(schemas[name]))
    ensures name !in schemas ==> Resolve(SchemaRefPrefix + name, ComponentsJson(schemas)) == None
  {
    var tokens := ["components", "schemas", name];
    var doc := ComponentsJson(schemas);
    PrefixJoin(name);
    ResolveJoined(tokens, doc);
    EvaluateSchemas(name, schemas);
  }

  lemma PrefixJoin(name: string)
    ensures SchemaRefPrefix + name == "#/" + Join(["components", "schemas", name])
  {
    JoinThree(["components", "schemas", name]);
    assert SchemaRefPrefix == "#/" + "components/schemas/";
  }

  lemma EvaluateSchemas(name: string, schemas: map<string, JsonObject>)
    requires '~' !in name
    ensures name in schemas ==> Evaluate(["components", "schemas", name], ComponentsJson(schemas)) == Some(JObject(schemas[name]))
    ensures name !in schemas ==> Evaluate(["components", "schemas", name], ComponentsJson(schemas)) == None
  {
    var named := map n | n in schemas :: JObject(schemas[n]);
    EvaluatePrefix(name, schemas, named);
    UnescapePlain(name);
    assert [name] == [name] + [];
    EvaluateMember(name, [], named);
  }

  /** The first two tokens lead from the document to the `schemas` object. */
  lemma EvaluatePrefix(name: string, schemas: map<string, JsonObject>, named: map<string, Json>)
    requires named == map n | n in schemas :: JObject(schemas[n])
    ensures Evaluate(["components", "schemas", name], ComponentsJson(schemas)) == Evaluate([name], JObject(named))
  {
    var inner := JObject(named);
    var middle := JObject(map["schemas" := inner]);
    assert ComponentsJson(schemas) == JObject(map["components" := middle]);
    UnescapePlain("components");
    UnescapePlain("schemas");
    assert ["components", "schemas", name] == ["components"] + ["schemas", name];
    assert ["schemas", name] == ["schemas"] + [name];
    EvaluateMember("components", ["schemas", name], map["components" := middle]);
    EvaluateMember("schemas", [name], map["schemas" := inner]);
  }

  lemma JoinThree(tokens: seq<string>)
    requires |tokens| == 3 && tokens[0] == "components" && tokens[1] == "schemas"
    ensures Join(tokens) == "components/schemas/" + tokens[2]
  {
    assert Join(tokens[1..][1..]) == tokens[2];
    assert Join(tokens[1..]) == "schemas/" + tokens[2];
  }

}
