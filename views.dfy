/** `build_view` and `derive_view` (drf_hello/auth/views.py): turning a
    handler into the view Django routes to, with the `TypedSchema` that
    documents it. */
module Views {
  import opened Python
  import opened Json
  import opened Annotations
  import opened TypedSchema

  /** What a handler returns: an instance of a pydantic model (its field
      values), or any other value. */
  datatype Value = Instance(model: string, fields: Dict) | Plain(data: Json)

  /** DRF's `Response(data)`, holding the payload it was given. */
  datatype Response = Response(data: Value)

  /** The `call_dict` decision: a return annotation that is present (not
      None) must pass `issubclass(return_val, BaseModel)`, which raises
      TypeError for an annotation that is not a class. */
  function CallDict(returnAnnotation: Option<TypeDesc>): (r: Result<bool>)
    ensures r == Ok(true) <==> returnAnnotation.Some? && returnAnnotation.value.Model?
    ensures r.Err? <==> returnAnnotation.Some? && (returnAnnotation.value.Union? || returnAnnotation.value.Alias?)
    ensures r.Err? ==> r.error == TypeError
  {
    match returnAnnotation
    case None => Ok(false)
    case Some(t) =>
      if t == NoneValue then Ok(false)
      else if !IsClass(t) then Err(TypeError)
      else Ok(t.Model?)
  }

  /** pydantic's `.dict()`: a model instance becomes the dict of its fields;
      any other value has no such method. */
  function ToDict(v: Value): Result<Value>
  {
    if v.Instance? then Ok(Plain(Object(v.fields))) else Err(AttributeError("dict"))
  }

  /** The body of `view`: `outcome` is what calling the handler with the
      request gave (its value or its exception); the value is flattened with
      `.dict()` when `callDict` holds and wrapped in a Response. */
  function View(callDict: bool, outcome: Result<Value>): (r: Result<Response>)
    ensures outcome.Err? ==> r == Err(outcome.error)
    ensures outcome.Ok? && !callDict ==> r == Ok(Response(outcome.value))
    ensures outcome.Ok? && callDict ==> (r.Ok? <==> outcome.value.Instance?)
    ensures outcome.Ok? && callDict && r.Ok? ==> r.value.data == Plain(Object(outcome.value.fields))
  {
    var result :- outcome;
    if callDict then
      var flat :- ToDict(result);
      Ok(Response(flat))
    else Ok(Response(result))
  }

  /** What the `f.view` closure holds: the handler and the method list it
      will pass to `build_view`. */
  datatype ViewSpec = ViewSpec(fn: Handler, methods: Option<seq<string>>)

  /** What `build_view` produces: the method list handed to `api_view`, the
      `call_dict` flag of the wrapped `view`, and the handler of the
      `TypedSchema` attached as `view.schema`. */
  datatype ViewBinding = ViewBinding(methods: Option<seq<string>>, callDict: bool, schema: Handler)

  /** `build_view(f, methods)`, run when `f.view()` is called. */
  function BuildView(spec: ViewSpec): Result<ViewBinding>
  {
    var callDict :- CallDict(spec.fn.returnAnnotation);
    Ok(ViewBinding(spec.methods, callDict, spec.fn))
  }

  /** The argument of `derive_view`: the handler itself, when it is used
      as a bare decorator, or a method list (possibly None). */
  datatype DeriveArg = Bare(fn: Handler) | Methods(methods: Option<seq<string>>)

  /** What `derive_view` returns: the handler with its view attached, or a
      decorator that will attach one. */
  datatype Derived = Decorated(view: ViewSpec) | Decorator(methods: Option<seq<string>>)

  /** `derive_view`: bare use fixes the methods to `["GET"]`. */
  function DeriveView(arg: DeriveArg): Derived
  {
    match arg
    case Bare(f) => Decorated(ViewSpec(f, Some(["GET"])))
    case Methods(methods) => Decorator(methods)
  }

  /** The inner `decorator`: attaches a view with `methods` to `f`. */
  function Decorate(methods: Option<seq<string>>, f: Handler): ViewSpec
  {
    ViewSpec(f, methods)
  }

  /** The view that the decorator line leaves on `f`: `@derive_view` when
      `bare`, `@derive_view(methods)` otherwise. */
  function DecorateHandler(bare: bool, methods: Option<seq<string>>, f: Handler): ViewSpec
  {
    match DeriveView(if bare then Bare(f) else Methods(methods))
    case Decorated(view) => view
    case Decorator(m) => Decorate(m, f)
  }

  /** Bare use registers the view for GET only; an explicit list (or None)
      reaches `api_view` unchanged; and bare use is the same as writing
      `@derive_view(["GET"])`. Either way the schema documents `f`. */
  lemma DecoratorMethods(f: Handler, methods: Option<seq<string>>)
    ensures DecorateHandler(true, methods, f) == ViewSpec(f, Some(["GET"]))
    ensures DecorateHandler(false, methods, f) == ViewSpec(f, methods)
    ensures DecorateHandler(true, methods, f) == DecorateHandler(false, Some(["GET"]), f)
    ensures forall b :: BuildView(DecorateHandler(true, methods, f)) == Ok(b) ==>
      b.methods == Some(["GET"]) && b.schema == f
    ensures forall b :: BuildView(DecorateHandler(false, methods, f)) == Ok(b) ==>
      b.methods == methods && b.schema == f
  {
  }

  /** The view flattens the handler's result with `.dict()` exactly when
      the return annotation is a model class; building fails, with
      TypeError, exactly when it is a union (such as `Optional[Model]`) or
      a non-class other than `None`, which skips the `issubclass` test. */
  lemma FlattensExactlyForModels(spec: ViewSpec, outcome: Result<Value>)
    ensures BuildView(spec).Err? <==>
      spec.fn.returnAnnotation.Some? && (spec.fn.returnAnnotation.value.Union? || spec.fn.returnAnnotation.value.Alias?)
    ensures BuildView(spec).Ok? ==>
      (BuildView(spec).value.callDict <==> spec.fn.returnAnnotation.Some? && spec.fn.returnAnnotation.value.Model?)
    ensures BuildView(spec).Ok? && !BuildView(spec).value.callDict ==>
      View(BuildView(spec).value.callDict, outcome) == (if outcome.Ok? then Ok(Response(outcome.value)) else Err(outcome.error))
  {
  }

  /** Building a view never translates a parameter annotation: two handlers
      that differ only in their parameters build alike, so an unsupported
      parameter type only surfaces when the request body is documented. */
  lemma BuildViewIgnoresParameters(f: Handler, ps: seq<Param>, methods: Option<seq<string>>)
    ensures BuildView(ViewSpec(f, methods)).Ok? == BuildView(ViewSpec(f.(params := ps), methods)).Ok?
    ensures BuildView(ViewSpec(f, methods)).Ok? ==>
      BuildView(ViewSpec(f.(params := ps), methods)).value
        == BuildView(ViewSpec(f, methods)).value.(schema := f.(params := ps))
  {
  }

  /** Registering one handler under two method lists yields two bindings that
      agree on everything but the methods, and so document the same
      operation id, description and request body. */
  lemma RegisteredTwice(f: Handler, m1: Option<seq<string>>, m2: Option<seq<string>>, base: Dict)
    ensures BuildView(ViewSpec(f, m1)).Ok? <==> BuildView(ViewSpec(f, m2)).Ok?
    ensures BuildView(ViewSpec(f, m1)).Ok? ==>
      var b1, b2 := BuildView(ViewSpec(f, m1)).value, BuildView(ViewSpec(f, m2)).value;
      && b1.methods == m1 && b2.methods == m2
      && b1.callDict == b2.callDict
      && OperationId(b1.schema) == OperationId(b2.schema)
      && Description(b1.schema) == Description(b2.schema)
      && RequestBody(b1.schema, base) == RequestBody(b2.schema, base)
  {
  }
}
