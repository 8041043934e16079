/** `TypedSchema` (drf_hello/auth/views.py): the documentation record the
    OpenAPI generator asks of a view whose handler is `fn`. */
module TypedSchema {
  import opened Python
  import opened Json
  import opened Annotations
  import opened Translate

  /** One entry of `inspect.signature(fn).parameters`: an unannotated
      parameter has the annotation `Empty`; `hasDefault` is
      `default is not inspect.Signature.empty`. */
  datatype Param = Param(name: string, annotation: TypeDesc, hasDefault: bool)

  /** What the view module reads off a handler function: `__module__`,
      `__name__`, `__doc__`, its signature's parameters in declaration
      order, and `__annotations__.get("return")` (None both when the return
      is unannotated; a written `-> None` is `Some(NoneValue)`). */
  datatype Handler = Handler(
    modulePath: string,
    name: string,
    doc: Option<string>,
    params: seq<Param>,
    returnAnnotation: Option<TypeDesc>)

  /** The parameter names in declaration order. */
  function Names(ps: seq<Param>): (ns: seq<string>)
    ensures |ns| == |ps|
    ensures forall i :: 0 <= i < |ps| ==> ns[i] == ps[i].name
  {
    if ps == [] then [] else Names(ps[..|ps| - 1]) + [ps[|ps| - 1].name]
  }

  /** Python guarantees that the parameters of a signature have distinct names. */
  predicate UniqueNames(ps: seq<Param>)
  {
    forall i, j :: 0 <= i < j < |ps| ==> ps[i].name != ps[j].name
  }

  /** `get_operation_id`: the second dotted segment of the defining module,
      a dot, and the function name; IndexError for a module path without a dot. */
  function OperationId(fn: Handler): Result<string>
  {
    var parts := Split(fn.modulePath, '.', 2);
    if |parts| < 2 then Err(IndexError) else Ok(parts[1] + "." + fn.name)
  }

  /** `get_description`: the docstring, or None. */
  function Description(fn: Handler): Option<string>
  {
    fn.doc
  }

  /** The operation id fails exactly for a module path without a dot;
      otherwise it is the text between the first dot and the next one (or
      the end), a dot, and the handler's name. */
  lemma OperationIdShape(fn: Handler, prefix: string, segment: string, rest: string)
    requires fn.modulePath == prefix + "." + segment + rest
    requires '.' !in prefix && '.' !in segment
    requires rest == [] || rest[0] == '.'
    ensures OperationId(fn) == Ok(segment + "." + fn.name)
  {
    assert fn.modulePath == prefix + ['.'] + (segment + rest);
    SplitSecond(prefix, '.', segment, rest);
  }

  /** A module path without a dot has no second segment. */
  lemma OperationIdFails(fn: Handler)
    ensures OperationId(fn).Err? <==> '.' !in fn.modulePath
    ensures OperationId(fn).Err? ==> OperationId(fn).error == IndexError
  {
    SplitCuts(fn.modulePath, '.', 2);
  }

  /** The `properties` dict after `properties[p.name] = get_schema_for_type(p.annotation)`
      for each parameter in turn; the first failing parameter's exception. */
  function Properties(ps: seq<Param>): Result<Dict>
    decreases |ps|
  {
    if ps == [] then Ok([])
    else
      var props :- Properties(ps[..|ps| - 1]);
      var p := ps[|ps| - 1];
      var fragment :- SchemaFor(p.annotation);
      Ok(Put(props, p.name, fragment))
  }

  /** Whether a parameter is listed as required: no default and not `Optional`. */
  predicate IsRequired(p: Param)
  {
    !p.hasDefault && !IsOptional(p.annotation)
  }

  /** The `required` list comprehension. */
  function Required(ps: seq<Param>): seq<string>
  {
    if ps == [] then []
    else (if IsRequired(ps[0]) then [ps[0].name] else []) + Required(ps[1..])
  }

  /** The object schema assigned to each media type. */
  function ObjectSchemaOf(properties: Dict, required: seq<string>): Json
  {
    Object([
      ("type", Text("object")),
      ("properties", Object(properties)),
      ("required", Array(TextArray(required)))])
  }

  /** The object schema for a handler's parameters, or the exception that
      computing its properties raises. */
  function ObjectSchema(ps: seq<Param>): Result<Json>
  {
    var props :- Properties(ps);
    Ok(ObjectSchemaOf(props, Required(ps)))
  }

  /** Whether every media-type entry supports `entry["schema"] = ...`. */
  predicate AllObjects(entries: Dict)
  {
    forall i :: 0 <= i < |entries| ==> entries[i].1.Object?
  }

  /** The media-type entries with `schema` set to `schema` in each. */
  function FilledEntries(entries: Dict, schema: Json): (r: Dict)
    requires AllObjects(entries)
    ensures |r| == |entries|
    ensures forall i :: 0 <= i < |entries| ==>
      r[i] == (entries[i].0, Object(Put(entries[i].1.fields, "schema", schema)))
  {
    if entries == [] then []
    else
      var (mediaType, entry) := entries[0];
      [(mediaType, Object(Put(entry.fields, "schema", schema)))] + FilledEntries(entries[1..], schema)
  }

  /** The media-type entries after the loop of `get_request_body`: with no
      entries nothing is computed; otherwise the object schema is computed
      (and may raise) and stored under `schema` in every entry, an entry
      that is not a dict raising TypeError. */
  function FillContent(ps: seq<Param>, entries: Dict): Result<Dict>
  {
    if entries == [] then Ok(entries)
    else
      var schema :- ObjectSchema(ps);
      if !AllObjects(entries) then Err(TypeError)
      else Ok(FilledEntries(entries, schema))
  }

  /** `get_request_body` on the result `base` of the framework's own
      `get_request_body`. An empty (falsy) result comes back as it is; a
      result without `content` raises KeyError, one whose `content` is not a
      dict AttributeError; otherwise the media-type entries are filled in
      place, so an empty `content` leaves the result as it was. */
  function RequestBody(fn: Handler, base: Dict): Result<Dict>
  {
    if base == [] then Ok(base)
    else match Get(base, "content")
      case None => Err(KeyError("content"))
      case Some(content) =>
        if !content.Object? then Err(AttributeError("items"))
        else if content.fields == [] then Ok(base)
        else
          var filled :- FillContent(fn.params, content.fields);
          Ok(Put(base, "content", Object(filled)))
  }

  /** The last parameter's step of building `properties`. */
  lemma PropertiesLast(ps: seq<Param>)
    requires ps != [] && Properties(ps).Ok?
    ensures Properties(ps[..|ps| - 1]).Ok? && SchemaFor(ps[|ps| - 1].annotation).Ok?
    ensures Properties(ps).value ==
      Put(Properties(ps[..|ps| - 1]).value, ps[|ps| - 1].name, SchemaFor(ps[|ps| - 1].annotation).value)
  {
  }

  /** An exception raised for a prefix of the parameters is the exception
      raised for all of them. */
  lemma {:induction false} PropertiesFailEarly(ps: seq<Param>, k: nat)
    requires k <= |ps| && Properties(ps[..k]).Err?
    ensures Properties(ps) == Properties(ps[..k])
    decreases |ps| - k
  {
    if k < |ps| {
      var m := |ps| - 1;
      assert ps[..m][..k] == ps[..k];
      PropertiesFailEarly(ps[..m], k);
      assert Properties(ps[..m]).Err?;
    } else {
      assert ps[..k] == ps;
    }
  }

  /** The properties can be built exactly when every parameter's annotation
      has a schema. */
  lemma {:induction false} PropertiesSucceed(ps: seq<Param>)
    ensures Properties(ps).Ok? <==> forall i :: 0 <= i < |ps| ==> SchemaFor(ps[i].annotation).Ok?
    decreases |ps|
  {
    if ps != [] {
      var m := |ps| - 1;
      var init := ps[..m];
      PropertiesSucceed(init);
      var last := SchemaFor(ps[m].annotation);
      if Properties(ps).Ok? {
        assert Properties(init).Ok? && last.Ok?;
        forall i | 0 <= i < |ps| ensures SchemaFor(ps[i].annotation).Ok? {
          if i < m {
            assert init[i] == ps[i];
          }
        }
      } else if Properties(init).Ok? {
        assert last.Err?;
      } else {
        var i :| 0 <= i < m && SchemaFor(init[i].annotation).Err?;
        assert init[i] == ps[i];
      }
    }
  }

  /** When they cannot be built, the exception is the one raised for the
      first parameter whose annotation has no schema. */
  lemma {:induction false} PropertiesFailure(ps: seq<Param>)
    requires Properties(ps).Err?
    ensures exists k ::
      && 0 <= k < |ps|
      && SchemaFor(ps[k].annotation).Err?
      && Properties(ps).error == SchemaFor(ps[k].annotation).error
      && forall i :: 0 <= i < k ==> SchemaFor(ps[i].annotation).Ok?
    decreases |ps|
  {
    var m := |ps| - 1;
    assert forall i :: 0 <= i < m ==> ps[..m][i] == ps[i];
    if Properties(ps[..m]).Err? {
      PropertiesFailure(ps[..m]);
      var k :| 0 <= k < m && SchemaFor(ps[..m][k].annotation).Err? &&
        Properties(ps[..m]).error == SchemaFor(ps[..m][k].annotation).error &&
        forall i :: 0 <= i < k ==> SchemaFor(ps[..m][i].annotation).Ok?;
      assert ps[..m][k] == ps[k];
    } else {
      PropertiesSucceed(ps[..m]);
    }
  }

  /** Dropping the last parameter keeps the names distinct, and the last
      name is not among the others. */
  lemma UniqueInit(ps: seq<Param>)
    requires ps != [] && UniqueNames(ps)
    ensures UniqueNames(ps[..|ps| - 1])
    ensures ps[|ps| - 1].name !in Names(ps[..|ps| - 1])
  {
    var m := |ps| - 1;
    var init := ps[..m];
    forall i, j | 0 <= i < j < m ensures init[i].name != init[j].name {
      assert init[i] == ps[i] && init[j] == ps[j];
    }
  }

  /** With distinct parameter names, `properties` has one key per
      parameter, in declaration order. */
  lemma {:induction false} PropertiesKeys(ps: seq<Param>)
    requires UniqueNames(ps) && Properties(ps).Ok?
    ensures Keys(Properties(ps).value) == Names(ps)
    decreases |ps|
  {
    if ps != [] {
      var m := |ps| - 1;
      var init, p := ps[..m], ps[m];
      UniqueInit(ps);
      PropertiesLast(ps);
      PropertiesKeys(init);
      PutKeys(Properties(init).value, p.name, SchemaFor(p.annotation).value);
    }
  }

  /** With distinct parameter names, each parameter's key holds the schema
      of its own annotation. */
  lemma {:induction false} PropertiesValue(ps: seq<Param>, i: nat)
    requires UniqueNames(ps) && Properties(ps).Ok? && i < |ps|
    ensures SchemaFor(ps[i].annotation).Ok?
    ensures Get(Properties(ps).value, ps[i].name) == Some(SchemaFor(ps[i].annotation).value)
    decreases |ps|
  {
    var m := |ps| - 1;
    var init, p := ps[..m], ps[m];
    PropertiesLast(ps);
    var props := Properties(init).value;
    var fragment := SchemaFor(p.annotation).value;
    if i == m {
      PutGetSame(props, p.name, fragment);
    } else {
      assert init[i] == ps[i];
      UniqueInit(ps);
      PropertiesValue(init, i);
      PutGetOther(props, p.name, fragment, ps[i].name);
    }
  }

  /** `required` keeps declaration order: it distributes over concatenation. */
  lemma {:induction false} RequiredAppend(a: seq<Param>, b: seq<Param>)
    ensures Required(a + b) == Required(a) + Required(b)
    decreases |a|
  {
    if a == [] {
      assert a + b == b;
    } else {
      var head := if IsRequired(a[0]) then [a[0].name] else [];
      var x, y := Required(a[1..]), Required(b);
      assert (a + b)[0] == a[0] && (a + b)[1..] == a[1..] + b;
      assert Required(a + b) == head + Required(a[1..] + b);
      RequiredAppend(a[1..], b);
      assert head + (x + y) == (head + x) + y;
    }
  }

  /** A name is in `required` exactly when some parameter of that name has
      no default and an annotation that is not `Optional`. */
  lemma {:induction false} RequiredMembers(ps: seq<Param>, x: string)
    ensures x in Required(ps) <==>
      exists i :: 0 <= i < |ps| && ps[i].name == x && IsRequired(ps[i])
    decreases |ps|
  {
    if ps != [] {
      RequiredMembers(ps[1..], x);
      if x in Required(ps[1..]) {
        var i :| 0 <= i < |ps| - 1 && ps[1..][i].name == x && IsRequired(ps[1..][i]);
        assert ps[i + 1] == ps[1..][i];
      }
      if exists i :: 0 <= i < |ps| && ps[i].name == x && IsRequired(ps[i]) {
        var i :| 0 <= i < |ps| && ps[i].name == x && IsRequired(ps[i]);
        if 0 < i {
          assert ps[1..][i - 1] == ps[i];
        }
      }
    }
  }

  /** When the framework's result has media types, every one of them gets the
      same object schema under `schema`; the entries keep their other keys,
      the media types keep their order, and the rest of the result is
      untouched. */
  lemma RequestBodyShape(fn: Handler, base: Dict, entries: Dict, out: Dict)
    requires Get(base, "content") == Some(Object(entries)) && entries != []
    requires RequestBody(fn, base) == Ok(out)
    ensures ObjectSchema(fn.params).Ok? && AllObjects(entries)
    ensures Keys(out) == Keys(base)
    ensures forall k :: k != "content" ==> Get(out, k) == Get(base, k)
    ensures Get(out, "content").Some? && Get(out, "content").value.Object?
    ensures var filled := Get(out, "content").value.fields;
      && Keys(filled) == Keys(entries)
      && forall i :: 0 <= i < |entries| ==>
        && filled[i].1.Object?
        && Get(filled[i].1.fields, "schema") == Some(ObjectSchema(fn.params).value)
        && forall k :: k != "schema" ==> Get(filled[i].1.fields, k) == Get(entries[i].1.fields, k)
  {
    var schema, filled := RequestBodyFilled(fn, base, entries, out);
    PutKeys(base, "content", Object(filled));
    PutGetSame(base, "content", Object(filled));
    forall k | k != "content" ensures Get(out, k) == Get(base, k) {
      PutGetOther(base, "content", Object(filled), k);
    }
    FilledEntriesShape(entries, schema);
  }

  /** The branches of `get_request_body` that never reach the media types:
      a falsy result comes back as it is, a result without `content` raises
      KeyError, a `content` that is not a dict raises AttributeError on
      `.items()`, and an empty `content` leaves the result unchanged whatever
      the parameters' annotations are. */
  lemma RequestBodyEdges(fn: Handler, base: Dict)
    ensures base == [] ==> RequestBody(fn, base) == Ok(base)
    ensures base != [] && "content" !in Keys(base) ==> RequestBody(fn, base) == Err(KeyError("content"))
    ensures Get(base, "content").Some? && !Get(base, "content").value.Object? ==>
      RequestBody(fn, base) == Err(AttributeError("items"))
    ensures Get(base, "content") == Some(Object([])) ==> RequestBody(fn, base) == Ok(base)
  {
  }

  /** With media types present, the request body succeeds exactly when every
      annotation translates and every media-type entry is a dict; an entry
      that is not a dict makes `schema["schema"] = ...` raise TypeError. */
  lemma RequestBodySucceeds(fn: Handler, base: Dict, entries: Dict)
    requires Get(base, "content") == Some(Object(entries)) && entries != []
    ensures RequestBody(fn, base).Ok? <==> ObjectSchema(fn.params).Ok? && AllObjects(entries)
    ensures ObjectSchema(fn.params).Ok? && !AllObjects(entries) ==> RequestBody(fn, base) == Err(TypeError)
  {
    assert base != [];
  }

  /** What a successful request body with media types is made of. */
  lemma RequestBodyFilled(fn: Handler, base: Dict, entries: Dict, out: Dict)
    returns (schema: Json, filled: Dict)
    requires Get(base, "content") == Some(Object(entries)) && entries != []
    requires RequestBody(fn, base) == Ok(out)
    ensures ObjectSchema(fn.params) == Ok(schema) && AllObjects(entries)
    ensures filled == FilledEntries(entries, schema)
    ensures out == Put(base, "content", Object(filled)) && "content" in Keys(base)
  {
    assert base != [];
    schema := ObjectSchema(fn.params).value;
    filled := FilledEntries(entries, schema);
  }

  /** Filling keeps the media types in order, sets `schema` in every entry
      and leaves each entry's other keys alone. */
  lemma FilledEntriesShape(entries: Dict, schema: Json)
    requires AllObjects(entries)
    ensures var filled := FilledEntries(entries, schema);
      && Keys(filled) == Keys(entries)
      && forall i :: 0 <= i < |entries| ==>
        && filled[i].1.Object?
        && Get(filled[i].1.fields, "schema") == Some(schema)
        && forall k :: k != "schema" ==> Get(filled[i].1.fields, k) == Get(entries[i].1.fields, k)
  {
    var filled := FilledEntries(entries, schema);
    forall i | 0 <= i < |entries|
      ensures Get(filled[i].1.fields, "schema") == Some(schema)
      ensures forall k :: k != "schema" ==> Get(filled[i].1.fields, k) == Get(entries[i].1.fields, k)
    {
      PutGetSame(entries[i].1.fields, "schema", schema);
      forall k | k != "schema" ensures Get(filled[i].1.fields, k) == Get(entries[i].1.fields, k) {
        PutGetOther(entries[i].1.fields, "schema", schema, k);
      }
    }
    assert Keys(filled) == Keys(entries);
  }

  /** The object schema lists every parameter under `properties` and the
      required ones, in order, under `required`. */
  lemma ObjectSchemaContent(ps: seq<Param>)
    requires UniqueNames(ps) && ObjectSchema(ps).Ok?
    ensures var schema := ObjectSchema(ps).value;
      schema.Object? && Keys(schema.fields) == ["type", "properties", "required"] &&
      Get(schema.fields, "type") == Some(Text("object")) &&
      Get(schema.fields, "properties") == Some(Object(Properties(ps).value)) &&
      Keys(Properties(ps).value) == Names(ps) &&
      Get(schema.fields, "required") == Some(Array(TextArray(Required(ps))))
  {
    PropertiesKeys(ps);
  }

  /** An annotation without a schema makes the request body fail, with the
      first such parameter's exception, as soon as there is a media type to
      fill; with none, it goes unnoticed and the result comes back unchanged. */
  lemma RequestBodyUnsupported(fn: Handler, base: Dict, entries: Dict, k: nat)
    requires Get(base, "content") == Some(Object(entries))
    requires k < |fn.params| && SchemaFor(fn.params[k].annotation).Err?
    ensures entries == [] ==> RequestBody(fn, base) == Ok(base)
    ensures entries != [] ==>
      && RequestBody(fn, base).Err?
      && exists j ::
        && 0 <= j < |fn.params|
        && SchemaFor(fn.params[j].annotation).Err?
        && RequestBody(fn, base).error == SchemaFor(fn.params[j].annotation).error
        && forall i :: 0 <= i < j ==> SchemaFor(fn.params[i].annotation).Ok?
  {
    assert base != [];
    PropertiesSucceed(fn.params);
    if entries != [] {
      PropertiesFailure(fn.params);
    }
  }

  /** The loop that fills `properties`, one parameter at a time. */
  method CollectProperties(ps: seq<Param>) returns (r: Result<Dict>)
    ensures r == Properties(ps)
  {
    var properties: Dict := [];
    var j := 0;
    while j < |ps|
      invariant 0 <= j <= |ps|
      invariant Properties(ps[..j]) == Ok(properties)
    {
      var p := ps[j];
      var fragment := SchemaFor(p.annotation);
      assert ps[..j + 1][..j] == ps[..j];
      if fragment.Err? {
        PropertiesFailEarly(ps, j + 1);
        return Err(fragment.error);
      }
      properties := Put(properties, p.name, fragment.value);
      j := j + 1;
    }
    assert ps[..j] == ps;
    return Ok(properties);
  }

  /** The loop of `get_request_body` over the media types of `content`:
      for each one, the object schema is built afresh and stored under
      `schema` in that entry. */
  method FillMediaTypes(ps: seq<Param>, content: Dict) returns (r: Result<Dict>)
    ensures r == FillContent(ps, content)
  {
    var entries := content;
    var i := 0;
    ghost var built := Null;
    while i < |entries|
      invariant 0 <= i <= |entries| == |content|
      invariant 0 < i ==> ObjectSchema(ps) == Ok(built)
      invariant forall k :: 0 <= k < i ==>
        content[k].1.Object? && entries[k] == (content[k].0, Object(Put(content[k].1.fields, "schema", built)))
      invariant forall k :: i <= k < |content| ==> entries[k] == content[k]
    {
      var (mediaType, entry) := entries[i];
      var properties := CollectProperties(ps);
      if properties.Err? {
        return Err(properties.error);
      }
      var required := Required(ps);
      var schema := ObjectSchemaOf(properties.value, required);
      if !entry.Object? {
        return Err(TypeError);
      }
      entries := entries[i := (mediaType, Object(Put(entry.fields, "schema", schema)))];
      built := schema;
      i := i + 1;
    }
    if 0 < i {
      assert entries == FilledEntries(content, built);
    }
    return Ok(entries);
  }

  /** `get_request_body`: hands the framework's result back when it is
      empty, otherwise fills in the schema of every media type in place. */
  method GetRequestBody(fn: Handler, base: Dict) returns (r: Result<Dict>)
    ensures r == RequestBody(fn, base)
  {
    if base == [] {
      return Ok(base);
    }
    var content := Get(base, "content");
    if content.None? {
      return Err(KeyError("content"));
    }
    if !content.value.Object? {
      return Err(AttributeError("items"));
    }
    var filled := FillMediaTypes(fn.params, content.value.fields);
    if filled.Err? {
      return Err(filled.error);
    }
    if content.value.fields == [] {
      PutSame(base, "content", content.value);
    }
    return Ok(Put(base, "content", Object(filled.value)));
  }
}
