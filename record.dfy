/** The applicant record (decoded JSON) and dotted-path lookup into it. */
module Record {
  import opened Strings

  datatype Option<+T> = None | Some(value: T)

  /** A JSON value as the form filler sees it. Strings and objects are kept
      as they are; every other JSON value (number, boolean, array, null) is
      represented only by what the filler can observe of it: the text that
      `str()` gives for it and its Python truthiness. */
  datatype Value =
    | Str(s: string)
    | Dict(fields: map<string, Value>)
    | Scalar(shown: string, truthy: bool)

  /** Python truthiness (`if value:`). */
  predicate Truthy(v: Value) {
    match v
    case Str(s) => s != ""
    case Dict(fields) => fields != map[]
    case Scalar(_, truthy) => truthy
  }

  /** `str(value)`; the rendering of an object is supplied by the caller. */
  function Show(v: Value, showDict: map<string, Value> -> string): string {
    match v
    case Str(s) => s
    case Dict(fields) => showDict(fields)
    case Scalar(shown, _) => shown
  }

  /** One step of the lookup loop: descend into `key` when the current value
      is an object holding it. */
  function Step(v: Value, key: string): Option<Value> {
    if v.Dict? && key in v.fields then Some(v.fields[key]) else None
  }

  /** The lookup loop over already split path segments. */
  function Walk(v: Value, keys: seq<string>): Option<Value>
    decreases |keys|
  {
    if keys == [] then Some(v)
    else match Step(v, keys[0])
      case None => None
      case Some(w) => Walk(w, keys[1..])
  }

  /** `get_nested_value(data, path)`: `None` both when the path is missing
      and when it leads through a non-object. */
  function GetNestedValue(data: map<string, Value>, path: string): Option<Value> {
    Walk(Dict(data), Split(path, '.'))
  }

  /** Looking up `a + b` is looking up `a`, then `b` from where `a` ended;
      a failure on the way to `a` is final. */
  lemma {:induction false} WalkAppend(v: Value, a: seq<string>, b: seq<string>)
    ensures Walk(v, a + b) == match Walk(v, a)
                              case None => None
                              case Some(w) => Walk(w, b)
  {
    if a != [] {
      assert (a + b)[0] == a[0];
      assert (a + b)[1..] == a[1..] + b;
      match Step(v, a[0])
      case None =>
      case Some(w) => WalkAppend(w, a[1..], b);
    } else {
      assert a + b == b;
    }
  }

  /** The lookup follows the segments in order: once the first `i` segments
      lead to `w`, segment `i` either descends into `w` or ends the whole
      lookup with `None`, whatever segments follow. */
  lemma WalkFollowsSegments(v: Value, keys: seq<string>, i: nat, w: Value)
    requires i < |keys|
    requires Walk(v, keys[..i]) == Some(w)
    ensures Walk(v, keys[..i + 1]) == Step(w, keys[i])
    ensures Step(w, keys[i]) == None ==> Walk(v, keys) == None
  {
    assert keys[..i + 1] == keys[..i] + [keys[i]];
    WalkAppend(v, keys[..i], [keys[i]]);
    assert keys == keys[..i] + keys[i..];
    WalkAppend(v, keys[..i], keys[i..]);
    assert keys[i..][1..] == keys[i + 1..];
  }

  /** A lookup succeeds exactly when every prefix of the path reaches an
      object holding the next segment. */
  lemma {:induction false} WalkSomeIff(v: Value, keys: seq<string>)
    ensures Walk(v, keys).Some? <==>
            forall i :: 0 <= i < |keys| ==>
              Walk(v, keys[..i]).Some? && Step(Walk(v, keys[..i]).value, keys[i]).Some?
  {
    if keys != [] {
      WalkSomeIff(v, keys[..|keys| - 1]);
      var n := |keys| - 1;
      assert keys[..n + 1] == keys;
      if Walk(v, keys[..n]).Some? {
        WalkFollowsSegments(v, keys, n, Walk(v, keys[..n]).value);
      } else {
        assert keys == keys[..n] + [keys[n]];
        WalkAppend(v, keys[..n], [keys[n]]);
      }
      forall i | 0 <= i < n ensures keys[..n][..i] == keys[..i] { }
    }
  }

  /** A lookup along a path that contains no dot is a lookup along its one
      segment. */
  lemma GetNestedValueTopLevel(data: map<string, Value>, key: string)
    requires '.' !in key
    ensures GetNestedValue(data, key) == if key in data then Some(data[key]) else None
  {
    SplitNoSep(key, '.');
    if key in data {
      assert Walk(data[key], [key][1..]) == Some(data[key]);
    }
  }

  /** A dotted lookup descends one object at a time: `head.rest` is `rest`
      looked up inside the object at `head`, and nothing when `head` is
      missing or not an object. */
  lemma GetNestedValueDotted(data: map<string, Value>, head: string, rest: string)
    requires '.' !in head
    ensures GetNestedValue(data, head + "." + rest) ==
            if head in data && data[head].Dict? then GetNestedValue(data[head].fields, rest) else None
  {
    SplitPrefix(head, rest, '.');
    var keys := Split(head + "." + rest, '.');
    assert keys == [head] + Split(rest, '.');
    assert keys[1..] == Split(rest, '.');
    if head in data {
      var inner := data[head];
      assert Walk(Dict(data), keys) == Walk(inner, Split(rest, '.'));
      if inner.Dict? {
        assert Dict(inner.fields) == inner;
      } else {
        assert Step(inner, Split(rest, '.')[0]) == None;
      }
    }
  }
}
