/** JSON-like values as the view module builds them: schema fragments,
    request-body descriptions and response payloads. A Python `dict` keeps
    insertion order, so it is an ordered list of key/value pairs here. */
module Json {
  import opened Python

  datatype Json =
    | Null
    | Boolean(b: bool)
    | Number(n: int)
    | Text(s: string)
    | Array(items: seq<Json>)
    | Object(fields: seq<(string, Json)>)

  /** A Python dict: pairs in insertion order. */
  type Dict = seq<(string, Json)>

  /** The dict's keys, in order (`list(d.keys())`). */
  function Keys(d: Dict): (ks: seq<string>)
    ensures |ks| == |d|
    ensures forall i :: 0 <= i < |d| ==> ks[i] == d[i].0
  {
    if d == [] then [] else [d[0].0] + Keys(d[1..])
  }

  /** `d.get(k)`: the value stored under the first occurrence of `k`. */
  function Get(d: Dict, k: string): (r: Option<Json>)
    ensures r.None? <==> k !in Keys(d)
  {
    if d == [] then None
    else if d[0].0 == k then Some(d[0].1)
    else Get(d[1..], k)
  }

  /** `d[k] = v`: replaces the value of an existing key where it stands, or
      appends a new key at the end. */
  function Put(d: Dict, k: string, v: Json): Dict
  {
    if d == [] then [(k, v)]
    else if d[0].0 == k then [(k, v)] + d[1..]
    else [d[0]] + Put(d[1..], k, v)
  }

  /** After `d[k] = v`, `k` holds `v`. */
  lemma {:induction false} PutGetSame(d: Dict, k: string, v: Json)
    ensures Get(Put(d, k, v), k) == Some(v)
  {
    if d != [] && d[0].0 != k {
      PutGetSame(d[1..], k, v);
    }
  }

  /** After `d[k] = v`, every other key holds what it held before. */
  lemma {:induction false} PutGetOther(d: Dict, k: string, v: Json, other: string)
    requires other != k
    ensures Get(Put(d, k, v), other) == Get(d, other)
  {
    if d != [] && d[0].0 != k {
      PutGetOther(d[1..], k, v, other);
    }
  }

  /** `d[k] = v` keeps the keys and their order, adding a new key at the end. */
  lemma {:induction false} PutKeys(d: Dict, k: string, v: Json)
    ensures Keys(Put(d, k, v)) == if k in Keys(d) then Keys(d) else Keys(d) + [k]
  {
    if d != [] && d[0].0 != k {
      PutKeys(d[1..], k, v);
      assert Put(d, k, v)[1..] == Put(d[1..], k, v);
      assert Keys(d) == [d[0].0] + Keys(d[1..]);
    }
  }

  /** Storing the value a key already has changes nothing. */
  lemma {:induction false} PutSame(d: Dict, k: string, v: Json)
    requires Get(d, k) == Some(v)
    ensures Put(d, k, v) == d
  {
    if d != [] && d[0].0 != k {
      PutSame(d[1..], k, v);
    }
  }

  /** `["a", "b"]` as a JSON array of strings. */
  function TextArray(names: seq<string>): (r: seq<Json>)
    ensures |r| == |names|
    ensures forall i :: 0 <= i < |names| ==> r[i] == Text(names[i])
  {
    if names == [] then [] else [Text(names[0])] + TextArray(names[1..])
  }
}
