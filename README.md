# drf_hello views: typed handlers to DRF views and OpenAPI request bodies

This project is a Dafny model of `drf_hello/auth/views.py`. That module lets a
developer write a plain Python function with annotated parameters and an
annotated return type, and derive two things from it:

- **The documentation record.** `TypedSchema`, a DRF `AutoSchema` subclass, supplies:
  - the operation id, from the second segment of the defining module's dotted path plus the function name;
  - the description, from the docstring;
  - the request body. For every media type that the framework's own `get_request_body` lists, it stores an object schema with one property per parameter (`get_schema_for_type` of its annotation) and the list of required parameters (those with no default whose annotation is not `Optional`).
- **The view.** `build_view` wraps the handler for `api_view`. When the return annotation is a pydantic model class, the handler's result is flattened with `.dict()` before it goes into a `Response`. `derive_view` attaches a `view()` factory to the function, either as a bare decorator (methods `["GET"]`) or with an explicit method list.

The modules follow that pipeline:

| module | file | what it holds |
|---|---|---|
| `Python` | python.dfy | `Option`, `Result` and the exceptions raised; `str.split` with `maxsplit` |
| `Json` | json.dfy | JSON values; a Python dict as an insertion-ordered list of pairs, with `d.get(k)` and `d[k] = v` |
| `Annotations` | annotations.dfy | annotation objects; `is_optional` and `unwrap_optional` |
| `Translate` | translate.dfy | `get_schema_for_type` |
| `TypedSchema` | typed_schema.dfy | `get_operation_id`, `get_description` and `get_request_body`, including its loops as methods |
| `Views` | views.dfy | the `call_dict` decision, the `view` body, `build_view` and `derive_view` |
| `Examples` | examples.dfy | `send_sms_code1`, `send_sms_code2` and variations, worked through the model |

Three behaviours of the code worth knowing:

- **Translation is not eager.** `build_view` never translates parameter annotations. Only the return annotation is examined, through `issubclass`. An unsupported parameter type is therefore not a registration-time failure. It surfaces only when the request body is documented, and not at all when the framework's result lists no media type. `BuildViewIgnoresParameters` and `RequestBodyUnsupported` state this.
- **`required` is a list.** It keeps parameter declaration order (`RequiredAppend`).
- **`Optional` of a union documents only its first alternative.** `Union[int, str]` fails `issubclass` with TypeError, but `Optional[Union[int, str]]` is `Union[int, str, None]`, which unwraps to `int` and is documented as an integer; the other alternatives are silently dropped (`OptionalOfUnion`, `OptionalOfIntOrStr`).

The model follows Python 3.8 to 3.12 with pydantic 1.x (`.schema()`, `.dict()`): in those versions a docstring keeps its leading whitespace, and `X | Y` is not a `typing.Union`.

Annotations are modelled as follows:

- `Optional[X]` is `Union[X, type(None)]`, with typing's normalisation: flattened, de-duplicated, and `None` replaced by `type(None)`.
- The filter in `unwrap_optional` drops only the *value* `None`. It never drops the class `type(None)`, so on every union typing builds, unwrapping returns the first argument.
- As a result, `Union[None, X]` unwraps to `type(None)`, and `get_schema_for_type` raises `NotImplementedError` for it (`UnsupportedSchemas`, `NoneFirstParameter`).
- A non-class annotation (a union, a generic alias such as `List[int]`) fails `issubclass` with `TypeError` before any other test.

## Model

| member | source | states |
|---|---|---|
| Python.Split | drf_hello/auth/views.py:51 | `split(sep, maxsplit)` yields between 1 and `maxsplit + 1` parts |
| Python.SplitJoin | drf_hello/auth/views.py:51 | splitting loses nothing: joining the parts with the separator gives back the module path |
| Python.SplitCuts | drf_hello/auth/views.py:51 | with cuts allowed there are at least two parts exactly when the separator occurs, which is when `[1]` does not raise IndexError |
| Python.SplitSecond | drf_hello/auth/views.py:51 | with `maxsplit = 2`, part `[1]` is the text between the first dot and the next dot or the end |
| Json.Keys | drf_hello/auth/views.py:70 | the keys of a dict, in insertion order, one per entry |
| Json.Get | drf_hello/auth/views.py:70 | a lookup finds nothing exactly when the key is absent |
| Json.PutGetSame | drf_hello/auth/views.py:74 | after `d[k] = v`, `k` holds `v` |
| Json.PutGetOther | drf_hello/auth/views.py:78 | after `d[k] = v`, every other key holds what it held before |
| Json.PutKeys | drf_hello/auth/views.py:74 | `d[k] = v` keeps the existing keys in order and appends `k` only when it is new |
| Json.PutSame | drf_hello/auth/views.py:70-83 | storing the value a key already holds leaves the dict unchanged |
| Json.TextArray | drf_hello/auth/views.py:81 | the `required` names become a JSON array of the same length holding those strings in order |
| Annotations.OptionalOf | drf_hello/auth/views.py:137 | `Optional[x]` of a normalised annotation is a normalised annotation |
| Annotations.IsOptional | drf_hello/auth/views.py:13-15 | no contract; characterised by NonUnionNotOptional, UnwrapOptionalOf and NoneFirstUnwrapsToNoneType |
| Annotations.DropNoneValues | drf_hello/auth/views.py:21 | the filter never drops `type(None)` and drops nothing from arguments without the value `None` |
| Annotations.DropNoneValuesMembers | drf_hello/auth/views.py:21 | an argument survives the filter exactly when it is not the value `None` |
| Annotations.UnwrapOptional | drf_hello/auth/views.py:18-23 | no contract; characterised by UnwrapIsFirstArgument, UnwrapOptionalOf, NonUnionNotOptional, NotOptionalUnchanged and NoneFirstUnwrapsToNoneType |
| Annotations.NonUnionNotOptional | drf_hello/auth/views.py:13-23 | a non-union annotation is never optional, and unwrapping returns it unchanged |
| Annotations.NotOptionalUnchanged | drf_hello/auth/views.py:18-23 | every annotation that is not optional, including a union without `type(None)`, comes back from unwrapping unchanged |
| Annotations.UnwrapIsFirstArgument | drf_hello/auth/views.py:18-23 | an optional union unwraps to its first argument, and the result is no longer optional |
| Annotations.UnwrapOptionalOf | drf_hello/auth/views.py:13-21 | for X that is not a union and not `None`, `Optional[X]` is optional and unwraps to `X` |
| Annotations.NoneFirstUnwrapsToNoneType | drf_hello/auth/views.py:21 | `Union[None, X]` is optional but unwraps to `type(None)`, not to `X` |
| Translate.SchemaFor | drf_hello/auth/views.py:26-42 | no contract; characterised by SchemaForMeaning, PrimitiveSchemas, OptionalSchema, OptionalOfSchema, ModelAndEmptySchemas and UnsupportedSchemas |
| Translate.SchemaForMeaning | drf_hello/auth/views.py:26-42 | translation succeeds exactly for models, str, int, float, bool and a missing annotation (after unwrapping); it fails with TypeError for a non-class and NotImplementedError for any other class; a model yields its `.schema()`, a missing annotation `{}` |
| Translate.SameUnwrapSameSchema | drf_hello/auth/views.py:28 | translation depends only on the unwrapped annotation |
| Translate.PrimitiveSchemas | drf_hello/auth/views.py:31-38 | str, int, float and bool map to the JSON Schema types string, integer, number and boolean |
| Translate.OptionalSchema | drf_hello/auth/views.py:28-42 | an optional union translates like its first argument |
| Translate.OptionalOfSchema | drf_hello/auth/views.py:28-42 | for X that is not a union and not `None`, `Optional[X]` translates exactly like `X` |
| Translate.OptionalOfUnion | drf_hello/auth/views.py:21-29 | a union without `None` raises TypeError, but `Optional` of it translates as its first alternative |
| Translate.OptionalOfNone | drf_hello/auth/views.py:28-42 | `None` raises TypeError, but `Optional[None]` (the class type(None)) raises NotImplementedError |
| Translate.OptionalOfIntOrStr | drf_hello/auth/views.py:21-34 | `Union[int, str]` raises TypeError, while `Optional[Union[int, str]]` is documented as `{"type": "integer"}` |
| Translate.ModelAndEmptySchemas | drf_hello/auth/views.py:28-40 | a model, bare or optional, yields its own schema; a missing annotation yields `{}` |
| Translate.UnsupportedSchemas | drf_hello/auth/views.py:28-42 | `List[int]` and `Union[int, str]` raise TypeError; another class and `Union[None, X]` raise NotImplementedError |
| TypedSchema.Names | drf_hello/auth/views.py:72-73 | one name per parameter, in declaration order |
| TypedSchema.OperationId | drf_hello/auth/views.py:50-51 | no contract; characterised by OperationIdShape and OperationIdFails |
| TypedSchema.Description | drf_hello/auth/views.py:53-54 | no contract; the docstring or None, as SendSmsCode1Names and SendSmsCode2Names show |
| TypedSchema.OperationIdShape | drf_hello/auth/views.py:50-51 | for a module path `a.b…`, the operation id is `b` + "." + the function name |
| TypedSchema.OperationIdFails | drf_hello/auth/views.py:51 | the operation id raises exactly when the module path has no dot, and then raises IndexError |
| TypedSchema.Properties | drf_hello/auth/views.py:71-74 | no contract; characterised by PropertiesSucceed, PropertiesFailure, PropertiesKeys and PropertiesValue, and computed by CollectProperties |
| TypedSchema.IsRequired | drf_hello/auth/views.py:76 | no contract; characterised by RequiredMembers |
| TypedSchema.Required | drf_hello/auth/views.py:75-76 | no contract; characterised by RequiredAppend and RequiredMembers |
| TypedSchema.ObjectSchemaOf | drf_hello/auth/views.py:78-82 | no contract; characterised by ObjectSchemaContent |
| TypedSchema.ObjectSchema | drf_hello/auth/views.py:71-82 | no contract; characterised by ObjectSchemaContent and PropertiesSucceed |
| TypedSchema.FillContent | drf_hello/auth/views.py:70-82 | no contract; characterised by FilledEntriesShape and RequestBodyShape, and computed by FillMediaTypes |
| TypedSchema.RequestBody | drf_hello/auth/views.py:65-83 | no contract; characterised by RequestBodyEdges, RequestBodySucceeds, RequestBodyShape and RequestBodyUnsupported, and computed by GetRequestBody |
| TypedSchema.PropertiesLast | drf_hello/auth/views.py:72-74 | each parameter stores its fragment into the properties built for the preceding parameters |
| TypedSchema.PropertiesFailEarly | drf_hello/auth/views.py:72-74 | an exception raised for a prefix of the parameters is the exception of the whole loop |
| TypedSchema.PropertiesSucceed | drf_hello/auth/views.py:71-74 | the properties can be built exactly when every parameter's annotation translates |
| TypedSchema.PropertiesFailure | drf_hello/auth/views.py:71-74 | otherwise the loop raises the exception of the first parameter whose annotation does not translate |
| TypedSchema.UniqueInit | drf_hello/auth/views.py:72 | dropping the last parameter keeps names distinct, and the last name is not among the rest |
| TypedSchema.PropertiesKeys | drf_hello/auth/views.py:71-74 | with distinct names, `properties` has exactly the parameter names as keys, in declaration order |
| TypedSchema.PropertiesValue | drf_hello/auth/views.py:73-74 | with distinct names, each parameter's key holds the translation of its own annotation |
| TypedSchema.RequiredAppend | drf_hello/auth/views.py:75-76 | `required` preserves declaration order and distributes over concatenation of parameter lists |
| TypedSchema.RequiredMembers | drf_hello/auth/views.py:75-76 | a name is required exactly when some parameter with that name has no default and a non-optional annotation |
| TypedSchema.FilledEntries | drf_hello/auth/views.py:78-82 | each media-type entry keeps its media type and has `schema` set to the object schema |
| TypedSchema.RequestBodySucceeds | drf_hello/auth/views.py:65-83 | with media types present, the body succeeds exactly when every annotation translates and every entry is a dict; a non-dict entry with translatable annotations raises TypeError |
| TypedSchema.RequestBodyShape | drf_hello/auth/views.py:65-83 | when media types exist and the body succeeds (exactly the case RequestBodySucceeds gives): the result keeps its keys, only `content` changes, media types keep their order, each entry holds the handler's object schema under `schema` and keeps its other keys |
| TypedSchema.RequestBodyFilled | drf_hello/auth/views.py:70-83 | a successful body with media types is the base with `content` replaced by the filled entries |
| TypedSchema.FilledEntriesShape | drf_hello/auth/views.py:78-82 | filling keeps the media types, sets `schema` in every entry and leaves each entry's other keys alone |
| TypedSchema.ObjectSchemaContent | drf_hello/auth/views.py:71-82 | the object schema has keys type, properties and required; `"object"`, the per-parameter properties keyed by parameter name, and the required names |
| TypedSchema.RequestBodyEdges | drf_hello/auth/views.py:66-70 | a falsy base result comes back unchanged, a result without `content` raises KeyError, a `content` that is not a dict raises AttributeError, and an empty `content` leaves the result unchanged for any parameters |
| TypedSchema.RequestBodyUnsupported | drf_hello/auth/views.py:65-83 | an untranslatable parameter makes the body raise exactly when there is a media type, with the exception of the first parameter whose annotation does not translate; with no media type the base comes back unchanged |
| TypedSchema.CollectProperties | drf_hello/auth/views.py:71-74 | the properties loop computes the specified properties dict, or raises at the first failing parameter |
| TypedSchema.FillMediaTypes | drf_hello/auth/views.py:70-82 | the media-type loop rebuilds the object schema per entry and stores it, as specified by FillContent |
| TypedSchema.GetRequestBody | drf_hello/auth/views.py:65-83 | `get_request_body`: falsy results returned as they are, KeyError without `content`, AttributeError when `content` is not a dict, otherwise the filled result; it equals `RequestBody`, whose edge cases RequestBodyEdges states |
| Views.CallDict | drf_hello/auth/views.py:94-97 | `call_dict` holds exactly when the return annotation is a model class; it raises TypeError exactly for a non-class annotation other than `None` |
| Views.ToDict | drf_hello/auth/views.py:103 | no contract; characterised by View |
| Views.View | drf_hello/auth/views.py:100-104 | handler exceptions propagate unchanged; without `call_dict` the result is wrapped unchanged; with it, a model instance's fields become the payload and anything else raises |
| Views.BuildView | drf_hello/auth/views.py:86-108 | no contract; characterised by FlattensExactlyForModels, BuildViewIgnoresParameters and RegisteredTwice |
| Views.DeriveView | drf_hello/auth/views.py:111-129 | no contract; characterised by DecoratorMethods |
| Views.Decorate | drf_hello/auth/views.py:125-127 | no contract; characterised by DecoratorMethods |
| Views.DecorateHandler | drf_hello/auth/views.py:111-129 | no contract; characterised by DecoratorMethods |
| Views.DecoratorMethods | drf_hello/auth/views.py:111-129 | bare `@derive_view` registers for GET only and equals `@derive_view(["GET"])`; an explicit method list reaches `api_view` unchanged; the schema documents the decorated handler |
| Views.FlattensExactlyForModels | drf_hello/auth/views.py:94-108 | building fails exactly for a union or a non-class return annotation other than `None` (which skips `issubclass`); the view flattens exactly for a model return annotation and otherwise passes results through |
| Views.BuildViewIgnoresParameters | drf_hello/auth/views.py:86-108 | building a view never looks at parameter annotations: handlers that differ only in parameters build alike |
| Views.RegisteredTwice | drf_hello/auth/views.py:106-108 | one handler under two method lists gives bindings that agree on everything but the methods, including operation id, description and request body |
| Examples.SendSmsCode1Names | drf_hello/auth/views.py:136-138 | `send_sms_code1` has operation id `auth.send_sms_code1` and its docstring as description |
| Examples.SendSmsCode1ObjectSchema | drf_hello/auth/views.py:136-137 | both of its parameters are strings and neither is required |
| Examples.PostRequestBody | drf_hello/auth/views.py:65-83 | on a POST body with three media types, a handler's object schema lands under every one of them |
| Examples.SendSmsCode1RequestBody | drf_hello/auth/views.py:136-137 | the complete request body documented for `send_sms_code1` |
| Examples.SendSmsCode1View | drf_hello/auth/views.py:132-140 | `@derive_view(["POST"])` registers POST with `call_dict`; the returned model becomes `{"account_found": true}` |
| Examples.SendSmsCode2View | drf_hello/auth/views.py:143-145 | bare `@derive_view` registers `send_sms_code2` for GET with `call_dict`; nothing is required |
| Examples.SendSmsCode2Names | drf_hello/auth/views.py:143-145 | operation id `auth.send_sms_code2`, no description |
| Examples.GenericParameter | drf_hello/auth/views.py:29 | a `List[int]` parameter builds a view but makes the POST body raise TypeError |
| Examples.NoneFirstParameter | drf_hello/auth/views.py:21 | a `Union[None, str]` parameter makes the POST body raise NotImplementedError |
| Examples.OptionalReturn | drf_hello/auth/views.py:96 | an `Optional[SendSmsResponse]` return annotation makes building the view raise TypeError |
| Examples.TopLevelModule | drf_hello/auth/views.py:51 | a handler in a module path without a dot has no operation id (IndexError) |

## Left out

- Reflection (`inspect.signature`, `__annotations__`, `__module__`, `__name__`, `__doc__`) is replaced by an explicit `Handler` value carrying the same information.
- The handler call `f(request)` is a parameter of `View`: its value or its exception. The request object is opaque and never inspected.
- The `print` in `send_sms_code1` is left out because it is I/O.
- The framework's own `AutoSchema.get_request_body` is not modelled; its result is the `base` parameter, always a dict. `AutoSchema.__init__` is left out as well.
- `get_filter_parameters` and `get_pagination_parameters` only delegate to the framework, so they are left out.
- `get_responses` has a `pass` body and returns None, so the schema documents no responses. There is nothing to state about it.
- `api_view` and `Response` internals (dispatch, content negotiation, rendering) are not modelled. A `ViewBinding` records what is handed to `api_view`: the methods, the `call_dict` flag and the schema's handler.
- pydantic's `.schema()` and `.dict()` are not modelled. A model annotation carries its schema as data, and a model instance carries its field values.
- Exception messages (the `NotImplementedError` f-string, Python's own messages) are not modelled. Only the exception class is kept, plus the key or attribute name.
- Mutation in place is modelled on values:
  - `properties[field] = …` and `schema["schema"] = …` return a new dict (`Json.Put`);
  - the `f.view = lambda: …` attribute is modelled as the `ViewSpec` the decorator returns.
  - Aliasing between media-type entries is not modelled; it has no visible effect, because every entry receives an equal object schema.
- Python dicts never hold a key twice, but a `Json.Dict` can. Lookups take the first occurrence, and the lemmas about `properties` assume distinct parameter names, as a Python signature guarantees.
- URL registration (`drf_hello/urls.py`, `drf_hello/auth/urls.py`) and `test.py` are not part of this model.
- Annotations.DropNoneValues: its own contract states only the two facts the unwrapping uses. The full membership characterisation is the separate lemma `DropNoneValuesMembers`.
