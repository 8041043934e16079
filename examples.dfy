/** The two handlers that drf_hello/auth/views.py itself declares, and a few
    variations on them, worked through the model. */
module Examples {
  import opened Python
  import opened Json
  import opened Annotations
  import opened Translate
  import opened TypedSchema
  import opened Views

  /** What pydantic's `.schema()` gives for `SendSmsResponse`, a model with
      the single field `account_found: bool`. */
  const SendSmsSchema: Json := Object([
    ("title", Text("SendSmsResponse")),
    ("type", Text("object")),
    ("properties", Object([
      ("account_found", Object([("title", Text("Account Found")), ("type", Text("boolean"))]))])),
    ("required", Array([Text("account_found")]))])

  const SendSmsResponse: TypeDesc := Model("SendSmsResponse", SendSmsSchema)

  /** `send_sms_code1(bare: Optional[str], mobile: str = "foo") -> SendSmsResponse`. */
  const SendSmsCode1: Handler := Handler(
    "drf_hello.auth.views", "send_sms_code1", Some(" Docs n shit "),
    [Param("bare", OptionalOf(Str), false), Param("mobile", Str, true)],
    Some(SendSmsResponse))

  /** `send_sms_code2(mobile: str = 'bar') -> SendSmsResponse`, without a docstring. */
  const SendSmsCode2: Handler := Handler(
    "drf_hello.auth.views", "send_sms_code2", None,
    [Param("mobile", Str, true)],
    Some(SendSmsResponse))

  /** The framework's request body for a POST to a view without a
      serializer: an empty schema for each of the default parsers' media types. */
  const PostBody: Dict := [("content", Object([
    ("application/json", Object([("schema", Object([]))])),
    ("application/x-www-form-urlencoded", Object([("schema", Object([]))])),
    ("multipart/form-data", Object([("schema", Object([]))]))]))]

  /** The object schema of `send_sms_code1`: both parameters are strings,
      and neither is required (one is optional, the other has a default). */
  const SendSmsCode1Schema: Json := ObjectSchemaOf(
    [("bare", TypeSchema("string")), ("mobile", TypeSchema("string"))], [])

  lemma SendSmsCode1Names()
    ensures OperationId(SendSmsCode1) == Ok("auth" + "." + "send_sms_code1")
    ensures Description(SendSmsCode1) == Some(" Docs n shit ")
  {
    OperationIdShape(SendSmsCode1, "drf_hello", "auth", ".views");
  }

  lemma SendSmsCode1ObjectSchema()
    ensures Required(SendSmsCode1.params) == []
    ensures ObjectSchema(SendSmsCode1.params) == Ok(SendSmsCode1Schema)
  {
    var ps := SendSmsCode1.params;
    var text := TypeSchema("string");
    OptionalOfSchema(Str);
    PrimitiveSchemas();
    UnwrapOptionalOf(Str);
    assert ps[..1] == [ps[0]] && ps[..1][..0] == [];
    assert Properties(ps[..1]) == Ok([("bare", text)]);
    PropertiesLast(ps);
    assert ps[..|ps| - 1] == ps[..1];
    assert Put([("bare", text)], "mobile", text) == [("bare", text), ("mobile", text)];
  }

  /** The POST body with `schema` stored in each of its media types. */
  function PostBodyWith(schema: Json): Dict
  {
    [("content", Object([
      ("application/json", Object([("schema", schema)])),
      ("application/x-www-form-urlencoded", Object([("schema", schema)])),
      ("multipart/form-data", Object([("schema", schema)]))]))]
  }

  /** Whatever handler it documents, a successful object schema lands in
      every media type of the POST body. */
  lemma PostRequestBody(fn: Handler, schema: Json)
    requires ObjectSchema(fn.params) == Ok(schema)
    ensures RequestBody(fn, PostBody) == Ok(PostBodyWith(schema))
  {
    var entries := PostBody[0].1.fields;
    var filled := PostBodyWith(schema)[0].1.fields;
    assert Get(PostBody, "content") == Some(Object(entries));
    assert AllObjects(entries);
    assert Put([("schema", Object([]))], "schema", schema) == [("schema", schema)];
    assert FilledEntries(entries, schema) == filled;
    assert FillContent(fn.params, entries) == Ok(filled);
    assert Put(PostBody, "content", Object(filled)) == [("content", Object(filled))];
  }

  /** Every media type of the POST body gets the object schema of
      `send_sms_code1`. */
  lemma SendSmsCode1RequestBody()
    ensures RequestBody(SendSmsCode1, PostBody) == Ok(PostBodyWith(SendSmsCode1Schema))
  {
    SendSmsCode1ObjectSchema();
    PostRequestBody(SendSmsCode1, SendSmsCode1Schema);
  }

  /** `@derive_view(["POST"])` registers the view for POST; the handler's
      model result is flattened into the response. */
  lemma SendSmsCode1View()
    ensures BuildView(DecorateHandler(false, Some(["POST"]), SendSmsCode1))
      == Ok(ViewBinding(Some(["POST"]), true, SendSmsCode1))
    ensures View(true, Ok(Instance("SendSmsResponse", [("account_found", Boolean(true))])))
      == Ok(Response(Plain(Object([("account_found", Boolean(true))]))))
  {
  }

  /** Bare `@derive_view` registers `send_sms_code2` for GET. */
  lemma SendSmsCode2View()
    ensures BuildView(DecorateHandler(true, None, SendSmsCode2))
      == Ok(ViewBinding(Some(["GET"]), true, SendSmsCode2))
    ensures Required(SendSmsCode2.params) == []
  {
  }

  lemma SendSmsCode2Names()
    ensures OperationId(SendSmsCode2) == Ok("auth" + "." + "send_sms_code2")
    ensures Description(SendSmsCode2) == None
  {
    OperationIdShape(SendSmsCode2, "drf_hello", "auth", ".views");
  }

  /** A `List[int]` parameter builds a view, but documenting its POST body
      raises TypeError. */
  lemma GenericParameter()
    ensures var fn := SendSmsCode2.(params := [Param("codes", Alias("List[int]"), false)]);
      && BuildView(ViewSpec(fn, Some(["POST"]))).Ok?
      && RequestBody(fn, PostBody) == Err(TypeError)
  {
    var fn := SendSmsCode2.(params := [Param("codes", Alias("List[int]"), false)]);
    UnsupportedSchemas("List[int]", Str);
    assert fn.params[..0] == [];
    assert Properties(fn.params) == Err(TypeError);
    assert FillContent(fn.params, PostBody[0].1.fields) == Err(TypeError);
  }

  /** A `Union[None, str]` parameter unwraps to type(None), so documenting
      the POST body raises NotImplementedError. */
  lemma NoneFirstParameter()
    ensures var fn := SendSmsCode2.(params := [Param("code", Union([NoneType, Str]), false)]);
      RequestBody(fn, PostBody) == Err(NotImplementedError)
  {
    var fn := SendSmsCode2.(params := [Param("code", Union([NoneType, Str]), false)]);
    UnsupportedSchemas("", Str);
    assert fn.params[..0] == [];
    assert Properties(fn.params) == Err(NotImplementedError);
    assert FillContent(fn.params, PostBody[0].1.fields) == Err(NotImplementedError);
  }

  /** An `Optional[SendSmsResponse]` return annotation makes building the
      view raise TypeError. */
  lemma OptionalReturn()
    ensures BuildView(ViewSpec(SendSmsCode2.(returnAnnotation := Some(OptionalOf(SendSmsResponse))), None))
      == Err(TypeError)
  {
  }

  /** A handler defined in a top-level module has no operation id. */
  lemma TopLevelModule()
    ensures OperationId(SendSmsCode2.(modulePath := "views")) == Err(IndexError)
  {
    OperationIdFails(SendSmsCode2.(modulePath := "views"));
  }
}
