/** `get_schema_for_type` (drf_hello/auth/views.py): from one parameter
    annotation to the JSON schema fragment that documents it. */
module Translate {
  import opened Python
  import opened Json
  import opened Annotations

  /** The fragment `{"type": name}`. */
  function TypeSchema(name: string): Json
  {
    Object([("type", Text(name))])
  }

  /** The annotations, after unwrapping, that have a schema mapping. */
  predicate Supported(u: TypeDesc)
  {
    u.Model? || u in {Str, Int, Float, Bool, Empty}
  }

  /** `get_schema_for_type`: unwrap an optional, then classify. The
      `issubclass(type_, BaseModel)` test comes first, so an annotation that
      is not a class fails there with TypeError; a class without a mapping
      reaches the final NotImplementedError. */
  function SchemaFor(t: TypeDesc): Result<Json>
  {
    var u := UnwrapOptional(t);
    if !IsClass(u) then Err(TypeError)
    else if u.Model? then Ok(u.schema)
    else if u == Str then Ok(TypeSchema("string"))
    else if u == Int then Ok(TypeSchema("integer"))
    else if u == Float then Ok(TypeSchema("number"))
    else if u == Bool then Ok(TypeSchema("boolean"))
    else if u == Empty then Ok(Object([]))
    else Err(NotImplementedError)
  }

  /** The translation is total on the supported annotations and fails on
      every other one, with TypeError for a non-class and NotImplementedError
      for a class without a mapping; a model's own schema and the empty
      fragment for a missing annotation pass through unchanged. */
  lemma SchemaForMeaning(t: TypeDesc)
    ensures SchemaFor(t).Ok? <==> Supported(UnwrapOptional(t))
    ensures SchemaFor(t).Err? ==>
      SchemaFor(t).error == (if IsClass(UnwrapOptional(t)) then NotImplementedError else TypeError)
    ensures UnwrapOptional(t).Model? ==> SchemaFor(t) == Ok(UnwrapOptional(t).schema)
    ensures UnwrapOptional(t) == Empty ==> SchemaFor(t) == Ok(Object([]))
  {
  }

  /** Annotations that unwrap alike translate alike. */
  lemma SameUnwrapSameSchema(t: TypeDesc, u: TypeDesc)
    requires UnwrapOptional(t) == UnwrapOptional(u)
    ensures SchemaFor(t) == SchemaFor(u)
  {
  }

  /** The four primitive classes map to their JSON Schema type names. */
  lemma PrimitiveSchemas()
    ensures SchemaFor(Str) == Ok(Object([("type", Text("string"))]))
    ensures SchemaFor(Int) == Ok(Object([("type", Text("integer"))]))
    ensures SchemaFor(Float) == Ok(Object([("type", Text("number"))]))
    ensures SchemaFor(Bool) == Ok(Object([("type", Text("boolean"))]))
  {
  }

  /** Unwrapping comes before classification, so an optional union has the
      schema of its first argument; in particular `Optional[X]` has the
      schema of X. */
  lemma OptionalSchema(t: TypeDesc)
    requires Normal(t) && IsOptional(t)
    ensures SchemaFor(t) == SchemaFor(t.args[0])
  {
    UnwrapIsFirstArgument(t);
    NonUnionNotOptional(t.args[0]);
    SameUnwrapSameSchema(t, t.args[0]);
  }

  /** `Optional[X]` documents exactly like X, for X that is not a union and
      not `None` (for those, see OptionalOfUnion). */
  lemma OptionalOfSchema(x: TypeDesc)
    requires !x.Union? && x != NoneType && x != NoneValue
    ensures SchemaFor(OptionalOf(x)) == SchemaFor(x)
  {
    UnwrapOptionalOf(x);
    NonUnionNotOptional(x);
    SameUnwrapSameSchema(OptionalOf(x), x);
  }

  /** `Optional` of a union is not documented like the union: the union
      alone fails `issubclass` with TypeError, while `Optional[Union[A, B]]`
      unwraps to A and is documented as A, dropping the other alternatives. */
  lemma OptionalOfUnion(u: TypeDesc)
    requires Normal(u) && u.Union? && NoneType !in u.args
    ensures SchemaFor(u) == Err(TypeError)
    ensures SchemaFor(OptionalOf(u)) == SchemaFor(u.args[0])
  {
    var t := OptionalOf(u);
    assert t.args == u.args + [NoneType];
    assert NoneType in t.args;
    OptionalSchema(t);
  }

  /** `None` fails `issubclass` with TypeError, but `Optional[None]` is the
      class type(None) and fails with NotImplementedError. */
  lemma OptionalOfNone()
    ensures SchemaFor(NoneValue) == Err(TypeError)
    ensures SchemaFor(OptionalOf(NoneValue)) == Err(NotImplementedError)
  {
  }

  /** The instance `Optional[Union[int, str]]`: documented as an integer. */
  lemma OptionalOfIntOrStr()
    ensures SchemaFor(Union([Int, Str])) == Err(TypeError)
    ensures SchemaFor(OptionalOf(Union([Int, Str]))) == Ok(TypeSchema("integer"))
  {
    OptionalOfUnion(Union([Int, Str]));
  }

  /** A model class, bare or optional, contributes its own `.schema()`
      unchanged; no annotation at all contributes `{}`. */
  lemma ModelAndEmptySchemas(name: string, schema: Json)
    ensures SchemaFor(Model(name, schema)) == Ok(schema)
    ensures SchemaFor(OptionalOf(Model(name, schema))) == Ok(schema)
    ensures SchemaFor(Empty) == Ok(Object([]))
  {
    UnwrapOptionalOf(Model(name, schema));
  }

  /** Everything else is rejected: a generic such as `List[int]` or a
      non-optional union with TypeError, the class type(None) (which is
      what `Union[None, X]` unwraps to) and any other class with
      NotImplementedError. */
  lemma UnsupportedSchemas(name: string, x: TypeDesc)
    requires x != NoneType && x != NoneValue && !x.Union?
    ensures SchemaFor(Alias(name)) == Err(TypeError)
    ensures SchemaFor(Union([Int, Str])) == Err(TypeError)
    ensures SchemaFor(OtherClass(name)) == Err(NotImplementedError)
    ensures SchemaFor(Union([NoneType, x])) == Err(NotImplementedError)
  {
    NoneFirstUnwrapsToNoneType(x);
  }
}
