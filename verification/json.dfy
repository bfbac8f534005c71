/** The JSON value a model replies with, before the output schema checks it. */
module Json {
  import opened Wrappers

  datatype Value =
    | Null
    | Bool(b: bool)
    | Int(n: int)
    | Str(s: string)
    | Arr(items: seq<Value>)
    | Obj(fields: map<string, Value>)

  /** The member stored under `key`; absent when `v` is not an object or lacks the key. */
  function Member(v: Value, key: string): Option<Value> {
    if v.Obj? && key in v.fields then Some(v.fields[key]) else None
  }

  function AsStr(v: Value): Option<string> {
    if v.Str? then Some(v.s) else None
  }

  function AsInt(v: Value): Option<int> {
    if v.Int? then Some(v.n) else None
  }

  /** Decodes every item of an array, failing if any single item fails. */
  function DecodeAll<T>(items: seq<Value>, decode: Value -> Option<T>): (r: Option<seq<T>>)
    ensures r.Some? <==> forall k :: 0 <= k < |items| ==> decode(items[k]).Some?
    ensures r.Some? ==> |r.value| == |items| && forall k :: 0 <= k < |items| ==> decode(items[k]) == Some(r.value[k])
  {
    if |items| == 0 then Some([])
    else
      var head :- decode(items[0]);
      var tail :- DecodeAll(items[1..], decode);
      Some([head] + tail)
  }

  /** Encodes every element, keeping order. */
  function EncodeAll<T>(xs: seq<T>, encode: T -> Value): (vs: seq<Value>)
    ensures |vs| == |xs|
  {
    if |xs| == 0 then [] else [encode(xs[0])] + EncodeAll(xs[1..], encode)
  }

  /** Every element decodes back to itself. */
  ghost predicate RoundTrips<T>(xs: seq<T>, encode: T -> Value, decode: Value -> Option<T>) {
    forall k :: 0 <= k < |xs| ==> decode(encode(xs[k])) == Some(xs[k])
  }

  lemma {:induction false} EncodeAllAt<T>(xs: seq<T>, encode: T -> Value, k: int)
    requires 0 <= k < |xs|
    ensures EncodeAll(xs, encode)[k] == encode(xs[k])
  {
    if k > 0 {
      EncodeAllAt(xs[1..], encode, k - 1);
    }
  }

  /** Decoding an encoded array gives the elements back exactly when each of
      them decodes back to itself. */
  lemma DecodeEncodeAll<T>(xs: seq<T>, encode: T -> Value, decode: Value -> Option<T>)
    ensures DecodeAll(EncodeAll(xs, encode), decode) == Some(xs) <==> RoundTrips(xs, encode, decode)
  {
    var vs := EncodeAll(xs, encode);
    forall k | 0 <= k < |xs|
      ensures vs[k] == encode(xs[k])
    {
      EncodeAllAt(xs, encode, k);
    }
    var r := DecodeAll(vs, decode);
    if RoundTrips(xs, encode, decode) {
      assert r.Some?;
      assert r.value == xs;
    }
  }

  function StrValue(s: string): Value {
    Str(s)
  }

  function StrList(xs: seq<string>): Value {
    Arr(EncodeAll(xs, StrValue))
  }

  /** A JSON array of strings as `List[str]`. */
  function AsStrList(v: Value): Option<seq<string>> {
    if v.Arr? then DecodeAll(v.items, AsStr) else None
  }

  lemma StrListRoundTrip(xs: seq<string>)
    ensures AsStrList(StrList(xs)) == Some(xs)
  {
    assert RoundTrips(xs, StrValue, AsStr);
    DecodeEncodeAll(xs, StrValue, AsStr);
  }
}
