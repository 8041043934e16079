/** The parts of Python's runtime that the view module relies on: the
    exceptions it can raise, `None`-or-a-value, and `str.split` with a
    `maxsplit` argument. */
module Python {

  /** A value or Python's `None`. */
  datatype Option<+T> = None | Some(value: T)

  /** The exceptions that the view module raises or lets through. */
  datatype Error =
    | TypeError                        // issubclass() on a non-class; item assignment on a non-dict
    | NotImplementedError              // get_schema_for_type on a class it has no mapping for
    | IndexError                       // indexing past the end of a list
    | KeyError(key: string)            // a missing dict key
    | AttributeError(attribute: string) // a missing method such as `.items` or `.dict`
    | Raised(exception: string)        // anything a handler's own body raises

  /** The outcome of a Python call: its value, or the exception it raised. */
  datatype Result<+T> = Ok(value: T) | Err(error: Error) {
    predicate IsFailure() { Err? }

    function PropagateFailure<U>(): Result<U>
      requires Err?
    {
      Err(error)
    }

    function Extract(): T
      requires Ok?
    {
      value
    }
  }

  /** Index of the first `c` in `s`, or `|s|` when there is none. */
  function IndexOf(s: string, c: char): (i: nat)
    ensures i <= |s|
    ensures i < |s| ==> s[i] == c
    ensures c !in s[..i]
  {
    if s == [] then 0
    else if s[0] == c then 0
    else 1 + IndexOf(s[1..], c)
  }

  /** `s.split(sep, maxsplit)` for a one-character separator: at most
      `maxsplit` cuts, made at the leftmost occurrences of `sep`. */
  function Split(s: string, sep: char, maxsplit: nat): (parts: seq<string>)
    ensures 1 <= |parts| <= maxsplit + 1
    decreases maxsplit
  {
    var i := IndexOf(s, sep);
    if maxsplit == 0 || i == |s| then [s]
    else [s[..i]] + Split(s[i + 1..], sep, maxsplit - 1)
  }

  /** `sep.join(parts)`. */
  function Join(parts: seq<string>, sep: char): string
  {
    if |parts| == 0 then ""
    else if |parts| == 1 then parts[0]
    else parts[0] + [sep] + Join(parts[1..], sep)
  }

  /** Joining puts one separator between the first part and the rest. */
  lemma JoinCons(head: string, rest: seq<string>, sep: char)
    requires rest != []
    ensures Join([head] + rest, sep) == head + [sep] + Join(rest, sep)
  {
    assert ([head] + rest)[1..] == rest;
  }

  /** A string is what comes before a position, the character there, and
      what comes after. */
  lemma CutAt(s: string, i: nat)
    requires i < |s|
    ensures s == s[..i] + [s[i]] + s[i + 1..]
  {
  }

  /** One cut: the part before the first separator, then the rest split
      with one cut fewer. */
  lemma SplitStep(s: string, sep: char, maxsplit: nat)
    requires maxsplit != 0 && IndexOf(s, sep) < |s|
    ensures Split(s, sep, maxsplit)
            == [s[..IndexOf(s, sep)]] + Split(s[IndexOf(s, sep) + 1..], sep, maxsplit - 1)
  {
  }

  /** No cut: the whole string is the only part. */
  lemma SplitNone(s: string, sep: char, maxsplit: nat)
    requires maxsplit == 0 || IndexOf(s, sep) == |s|
    ensures Split(s, sep, maxsplit) == [s]
    ensures Join(Split(s, sep, maxsplit), sep) == s
  {
  }

  /** The step of the round trip: if what follows the first cut joins
      back, so does the whole string. */
  lemma SplitJoinStep(s: string, sep: char, maxsplit: nat, i: nat)
    requires maxsplit != 0 && i == IndexOf(s, sep) && i < |s|
    requires Join(Split(s[i + 1..], sep, maxsplit - 1), sep) == s[i + 1..]
    ensures Join(Split(s, sep, maxsplit), sep) == s
  {
    var head, tail := s[..i], s[i + 1..];
    var rest := Split(tail, sep, maxsplit - 1);
    SplitStep(s, sep, maxsplit);
    JoinCons(head, rest, sep);
    CutAt(s, i);
  }

  /** Splitting loses nothing: joining the parts again gives back the string. */
  lemma {:induction false} SplitJoin(s: string, sep: char, maxsplit: nat)
    ensures Join(Split(s, sep, maxsplit), sep) == s
    decreases maxsplit
  {
    var i := IndexOf(s, sep);
    if maxsplit == 0 || i == |s| {
      SplitNone(s, sep, maxsplit);
    } else {
      SplitJoin(s[i + 1..], sep, maxsplit - 1);
      SplitJoinStep(s, sep, maxsplit, i);
    }
  }

  /** With cuts allowed, a string splits into several parts exactly when it
      contains the separator. */
  lemma SplitCuts(s: string, sep: char, maxsplit: nat)
    requires 0 < maxsplit
    ensures 2 <= |Split(s, sep, maxsplit)| <==> sep in s
  {
    var i := IndexOf(s, sep);
    if sep in s {
      var k :| 0 <= k < |s| && s[k] == sep;
      assert i <= k;
    }
  }

  /** A string without the separator is not cut. */
  lemma SplitWhole(s: string, sep: char, maxsplit: nat)
    requires sep !in s
    ensures Split(s, sep, maxsplit) == [s]
  {
    assert IndexOf(s, sep) == |s|;
  }

  /** The first part is everything before the first separator. */
  lemma SplitFirst(prefix: string, sep: char, rest: string, maxsplit: nat)
    requires sep !in prefix && 0 < maxsplit
    ensures Split(prefix + [sep] + rest, sep, maxsplit)
            == [prefix] + Split(rest, sep, maxsplit - 1)
  {
    var s := prefix + [sep] + rest;
    var i := IndexOf(s, sep);
    assert s[|prefix|] == sep;
    assert i == |prefix|;
    assert s[..i] == prefix && s[i + 1..] == rest;
  }

  /** With one cut allowed, the first part runs up to the next separator
      (or the end). */
  lemma SplitOnceFirst(segment: string, sep: char, rest: string)
    requires sep !in segment
    requires rest == [] || rest[0] == sep
    ensures Split(segment + rest, sep, 1)[0] == segment
  {
    if rest == [] {
      assert segment + rest == segment;
      SplitWhole(segment, sep, 1);
    } else {
      var after := rest[1..];
      assert segment + rest == segment + [sep] + after;
      SplitFirst(segment, sep, after, 1);
    }
  }

  /** With two cuts allowed, the second part is the text between the first
      separator and the next one (or the end). */
  lemma SplitSecond(prefix: string, sep: char, segment: string, rest: string)
    requires sep !in prefix && sep !in segment
    requires rest == [] || rest[0] == sep
    ensures |Split(prefix + [sep] + (segment + rest), sep, 2)| >= 2
    ensures Split(prefix + [sep] + (segment + rest), sep, 2)[1] == segment
  {
    SplitFirst(prefix, sep, segment + rest, 2);
    SplitOnceFirst(segment, sep, rest);
  }
}
