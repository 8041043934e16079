/** Type annotations as `inspect.signature` and `__annotations__` hand them
    over, and the two helpers that recognise and strip `Optional`
    (drf_hello/auth/views.py, `is_optional` and `unwrap_optional`). */
module Annotations {
  import opened Json

  /** A Python annotation object. */
  datatype TypeDesc =
    | Str | Int | Float | Bool           // the classes str, int, float, bool
    | NoneType                           // the class type(None), as typing stores it in a Union
    | NoneValue                          // the value None itself, as a bare `-> None` or `: None` leaves it
    | Model(name: string, schema: Json)  // a pydantic BaseModel subclass and what its `.schema()` returns
    | OtherClass(name: string)           // any other class: list, dict, bytes, a plain user class
    | Empty                              // inspect.Signature.empty, the marker for "no annotation"
    | Union(args: seq<TypeDesc>)         // typing.Union[...], which typing.Optional[X] also produces
    | Alias(name: string)                // any other non-class object: List[int], a string

  /** Whether `issubclass` accepts the annotation as its first argument. */
  predicate IsClass(t: TypeDesc)
  {
    !(t.NoneValue? || t.Union? || t.Alias?)
  }

  /** What typing guarantees of a `Union` it builds: nested unions are
      flattened, `None` is replaced by `type(None)`, duplicates are removed,
      and a union of a single type collapses to that type. */
  predicate Normal(t: TypeDesc)
  {
    t.Union? ==>
      2 <= |t.args| &&
      (forall i :: 0 <= i < |t.args| ==> !t.args[i].Union? && !t.args[i].NoneValue?) &&
      (forall i, j :: 0 <= i < j < |t.args| ==> t.args[i] != t.args[j])
  }

  /** `typing.Optional[x]`, that is `Union[x, None]` after typing's normalisation. */
  function OptionalOf(x: TypeDesc): (t: TypeDesc)
    ensures Normal(x) ==> Normal(t)
  {
    match x
    case NoneType => NoneType
    case NoneValue => NoneType
    case Union(args) => if NoneType in args then x else Union(args + [NoneType])
    case _ => Union([x, NoneType])
  }

  /** `is_optional`: a typing.Union among whose arguments is `type(None)`. */
  predicate IsOptional(t: TypeDesc)
  {
    t.Union? && NoneType in t.args
  }

  /** The filter `[t for t in ts if not isinstance(t, type(None))]`: it drops
      the value None, and never the class type(None). */
  function DropNoneValues(ts: seq<TypeDesc>): (r: seq<TypeDesc>)
    ensures NoneType in ts ==> NoneType in r
    ensures NoneValue !in ts ==> r == ts
  {
    if ts == [] then []
    else (if ts[0] == NoneValue then [] else [ts[0]]) + DropNoneValues(ts[1..])
  }

  /** The filter keeps exactly the arguments that are not the value None. */
  lemma {:induction false} DropNoneValuesMembers(ts: seq<TypeDesc>, t: TypeDesc)
    ensures t in DropNoneValues(ts) <==> t in ts && t != NoneValue
  {
    if ts != [] {
      DropNoneValuesMembers(ts[1..], t);
      assert ts == [ts[0]] + ts[1..];
    }
  }

  /** `unwrap_optional`: the first surviving argument of an optional union,
      any other annotation unchanged. */
  function UnwrapOptional(t: TypeDesc): TypeDesc
  {
    if IsOptional(t) then
      var kept := DropNoneValues(t.args);
      assert NoneType in kept;
      kept[0]
    else t
  }

  /** Only a union can be optional: a primitive, a model, `None` or a
      missing annotation never is, and unwrapping leaves them unchanged. */
  lemma NonUnionNotOptional(t: TypeDesc)
    requires !t.Union?
    ensures !IsOptional(t) && UnwrapOptional(t) == t
  {
  }

  /** A type that is not optional, union or not, passes through
      `unwrap_optional` unchanged: `Union[int, str]` stays a union. */
  lemma NotOptionalUnchanged(t: TypeDesc)
    requires !IsOptional(t)
    ensures UnwrapOptional(t) == t
  {
  }

  /** For every union typing can build, the filter removes nothing, so the
      unwrapped type is simply the first union argument, whatever its
      position relative to `type(None)`. */
  lemma {:induction false} UnwrapIsFirstArgument(t: TypeDesc)
    requires Normal(t) && IsOptional(t)
    ensures UnwrapOptional(t) == t.args[0]
    ensures !IsOptional(UnwrapOptional(t))
  {
    assert NoneValue !in t.args;
  }

  /** `Optional[X]` unwraps to `X` for every X that is not itself a union or None. */
  lemma UnwrapOptionalOf(x: TypeDesc)
    requires !x.Union? && x != NoneType && x != NoneValue
    ensures IsOptional(OptionalOf(x)) && UnwrapOptional(OptionalOf(x)) == x
  {
    assert OptionalOf(x).args == [x, NoneType];
  }

  /** Because the filter removes nothing, `Union[None, X]` unwraps to
      type(None) itself, not to X. */
  lemma NoneFirstUnwrapsToNoneType(x: TypeDesc)
    requires x != NoneType && x != NoneValue && !x.Union?
    ensures IsOptional(Union([NoneType, x]))
    ensures UnwrapOptional(Union([NoneType, x])) == NoneType
  {
    assert Union([NoneType, x]).args[0] == NoneType;
  }
}
