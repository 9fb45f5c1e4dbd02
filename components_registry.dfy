/**
 * The derivation behind the `components` getter, on plain values: each of
 * the three sources (responses, request bodies, parameters) is folded into
 * a name-to-body map, and the three maps are combined with `Map.plus`.
 */
module ComponentsRegistry {
  import opened Json
  import opened TypedSchemas

  /** What one step of a fold puts: the class's simple name and the stored body. */
  datatype Entry = Entry(name: string, body: JsonObject)

  function Names(es: set<Entry>): set<string>
  {
    set e | e in es :: e.name
  }

  function SchemaEntries(ws: set<TypedSchema>): (es: set<Entry>)
    ensures forall w :: w in ws ==> Entry(w.clazz.simpleName, w.body) in es
    ensures forall e :: e in es ==> exists w :: w in ws && e == Entry(w.clazz.simpleName, w.body)
  {
    set w | w in ws :: Entry(w.clazz.simpleName, w.body)
  }

  function ParameterEntries(ws: set<TypedParameterSchema>): (es: set<Entry>)
    ensures forall w :: w in ws ==> Entry(w.clazz.simpleName, w.body) in es
    ensures forall e :: e in es ==> exists w :: w in ws && e == Entry(w.clazz.simpleName, w.body)
  {
    set w | w in ws :: Entry(w.clazz.simpleName, w.body)
  }

  /**
   * `fold(mutableMapOf()) { m, o -> m.put(name, body); m }` over a `HashMap`'s
   * values. Their order is unspecified, so the fold puts the entries in some
   * order: every name present is a key, and each key holds the body of some
   * entry with that name. Which entry wins among several with one name is
   * not promised.
   */
  ghost function Fold(es: set<Entry>): (m: map<string, JsonObject>)
    ensures m.Keys == Names(es)
    ensures forall n :: n in m ==> Entry(n, m[n]) in es
    decreases |es|
  {
    if es == {} then map[]
    else
      var e :| e in es;
      Fold(es - {e})[e.name := e.body]
  }

  /**
   * `responseSchemas.plus(requestSchemas).plus(parameterSchemas)`: every
   * folded name is a key, and on a clash a parameter entry beats a
   * request-body entry, which beats a response entry.
   */
  ghost function Merge(responses: set<Entry>, requests: set<Entry>, parameters: set<Entry>): (m: map<string, JsonObject>)
    ensures m.Keys == Names(responses) + Names(requests) + Names(parameters)
    ensures forall n :: n in m && n in Names(parameters) ==> Entry(n, m[n]) in parameters
    ensures forall n :: n in m && n !in Names(parameters) && n in Names(requests) ==> Entry(n, m[n]) in requests
    ensures forall n :: n in m && n !in Names(parameters) && n !in Names(requests) ==> Entry(n, m[n]) in responses
  {
    Fold(responses) + Fold(requests) + Fold(parameters)
  }

  /** When every entry that carries a name agrees on its body, the merged map holds that body. */
  lemma MergeAgreed(responses: set<Entry>, requests: set<Entry>, parameters: set<Entry>, e: Entry)
    requires e in responses + requests + parameters
    requires forall f :: f in responses + requests + parameters && f.name == e.name ==> f.body == e.body
    ensures e.name in Merge(responses, requests, parameters)
    ensures Merge(responses, requests, parameters)[e.name] == e.body
  {
    var m := Merge(responses, requests, parameters);
    assert e.name in Names(responses) + Names(requests) + Names(parameters);
    assert Entry(e.name, m[e.name]) in responses + requests + parameters;
  }

}
