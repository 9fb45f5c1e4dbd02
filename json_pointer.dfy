/**
 * JSON Pointer (RFC 6901) in its URI fragment form, the syntax of the
 * `$ref` strings of a Reference Object (section 4.7.23 of the OpenAPI
 * Specification 3.0.0).
 */
module JsonPointer {
  import opened Wrappers
  import opened Json

  /** Cuts `s` at every '/' (section 3 of RFC 6901); there is always one more piece than there are slashes. */
  function Split(s: string): (pieces: seq<string>)
    ensures |pieces| >= 1
    ensures forall i :: 0 <= i < |pieces| ==> '/' !in pieces[i]
    decreases |s|
  {
    if s == [] then [""]
    else
      var rest := Split(s[1..]);
      if s[0] == '/' then [""] + rest
      else [[s[0]] + rest[0]] + rest[1..]
  }

  /** Joins reference tokens with '/'. */
  function Join(tokens: seq<string>): string
    requires |tokens| >= 1
    decreases |tokens|
  {
    if |tokens| == 1 then tokens[0] else tokens[0] + "/" + Join(tokens[1..])
  }

  lemma {:induction false} SplitPlain(t: string, suffix: seq<string>, s: string)
    requires '/' !in t
    requires |suffix| >= 1 && Split(s) == suffix
    ensures Split(t + s) == [t + suffix[0]] + suffix[1..]
    decreases |t|
  {
    if t != [] {
      SplitPlain(t[1..], suffix, s);
      assert (t + s)[1..] == t[1..] + s;
      assert (t + s)[0] == t[0];
      assert [t[0]] + (t[1..] + suffix[0]) == t + suffix[0];
    } else {
      assert t + s == s;
      assert t + suffix[0] == suffix[0];
      assert [suffix[0]] + suffix[1..] == suffix;
    }
  }

  /** Splitting undoes joining when no token holds a '/'. */
  lemma {:induction false} SplitJoin(tokens: seq<string>)
    requires |tokens| >= 1
    requires forall i :: 0 <= i < |tokens| ==> '/' !in tokens[i]
    ensures Split(Join(tokens)) == tokens
    decreases |tokens|
  {
    if |tokens| == 1 {
      SplitPlain(tokens[0], [""], "");
      assert tokens[0] + "" == tokens[0];
    } else {
      var rest := Join(tokens[1..]);
      SplitJoin(tokens[1..]);
      assert Split("/" + rest) == [""] + tokens[1..] by {
        assert ("/" + rest)[1..] == rest;
      }
      SplitPlain(tokens[0], [""] + tokens[1..], "/" + rest);
      assert tokens[0] + "/" + rest == tokens[0] + ("/" + rest);
      assert tokens[0] + "" == tokens[0];
    }
  }

  /** Decodes "~1" to '/' and "~0" to '~'; a '~' followed by anything else is not a valid token. */
  function Unescape(t: string): Option<string>
    decreases |t|
  {
    if t == [] then Some("")
    else if t[0] != '~' then
      match Unescape(t[1..])
      case Some(u) => Some([t[0]] + u)
      case None => None
    else if |t| >= 2 && (t[1] == '0' || t[1] == '1') then
      match Unescape(t[2..])
      case Some(u) => Some([if t[1] == '0' then '~' else '/'] + u)
      case None => None
    else None
  }

  /** A token with no '~' needs no decoding. */
  lemma {:induction false} UnescapePlain(t: string)
    requires '~' !in t
    ensures Unescape(t) == Some(t)
    decreases |t|
  {
    if t != [] {
      assert forall i :: 0 <= i < |t[1..]| ==> t[1..][i] == t[i + 1];
      UnescapePlain(t[1..]);
      assert [t[0]] + t[1..] == t;
    }
  }

  /** Walks `doc` one object member per token (array indices are not modelled). */
  function Evaluate(tokens: seq<string>, doc: Json): Option<Json>
    decreases |tokens|
  {
    if tokens == [] then Some(doc)
    else
      match Unescape(tokens[0])
      case None => None
      case Some(key) =>
        if doc.JObject? && key in doc.fields then Evaluate(tokens[1..], doc.fields[key]) else None
  }

  /** One step of evaluation: a plain token selects that member of an object. */
  lemma EvaluateMember(key: string, rest: seq<string>, fields: map<string, Json>)
    requires Unescape(key) == Some(key)
    ensures key in fields ==> Evaluate([key] + rest, JObject(fields)) == Evaluate(rest, fields[key])
    ensures key !in fields ==> Evaluate([key] + rest, JObject(fields)) == None
  {
    assert ([key] + rest)[1..] == rest;
  }

  /** Resolves a local reference "#<pointer>" against the document it occurs in. */
  function Resolve(ref: string, doc: Json): Option<Json>
  {
    if |ref| == 0 || ref[0] != '#' then None
    else
      var pointer := ref[1..];
      if pointer == "" then Some(doc)
      else if pointer[0] != '/' then None
      else Evaluate(Split(pointer[1..]), doc)
  }

  /** A fragment "#/" followed by joined plain tokens resolves member by member. */
  lemma ResolveJoined(tokens: seq<string>, doc: Json)
    requires |tokens| >= 1
    requires forall i :: 0 <= i < |tokens| ==> '/' !in tokens[i]
    ensures Resolve("#/" + Join(tokens), doc) == Evaluate(tokens, doc)
  {
    var ref := "#/" + Join(tokens);
    assert ref[1..] == "/" + Join(tokens);
    assert ref[1..][1..] == Join(tokens);
    SplitJoin(tokens);
  }

}
