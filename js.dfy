/** JavaScript values as the provider sees them: the JSON-like records that travel
    between the CRUD contract, the query builder and the GraphQL client, the property
    reads the provider performs on replies, and the way failures surface. */
module Js {

  datatype Option<+T> = None | Some(value: T)

  /** What a call can throw. */
  datatype Error =
    | TypeError(reason: string)   // raised by the JavaScript runtime on a malformed reply
    | Thrown(message: string)     // `throw Error(message)` in the provider itself
    | Transport(detail: string)   // anything the GraphQL client rejects with

  datatype Result<+T> = Ok(value: T) | Err(error: Error) {
    predicate IsFailure() { Err? }
    function PropagateFailure<U>(): Result<U> requires Err? { Err(error) }
    function Extract(): T requires Ok? { value }
  }

  /** A JavaScript value without functions or identity. `Num` is restricted to integers. */
  datatype Json =
    | Undefined
    | Null
    | Bool(b: bool)
    | Num(n: int)
    | Str(s: string)
    | Arr(items: seq<Json>)
    | Obj(props: map<string, Json>)

  predicate IsDigits(k: string) {
    forall i :: 0 <= i < |k| ==> '0' <= k[i] <= '9'
  }

  function DigitsValue(k: string): nat
    requires IsDigits(k)
  {
    if k == [] then 0
    else DigitsValue(k[..|k| - 1]) * 10 + (k[|k| - 1] as int - '0' as int)
  }

  /** The array index a property name denotes, if it is one: a canonical decimal numeral. */
  function ArrayIndex(k: string): (r: Option<nat>)
    ensures r.Some? ==> k != [] && IsDigits(k)
    ensures k == "0" ==> r == Some(0)
  {
    if k == "0" then Some(0)
    else if k != [] && IsDigits(k) && k[0] != '0' then Some(DigitsValue(k))
    else None
  }

  /** `j[key]`: reading any property of `undefined` or `null` throws a TypeError; a property
      that is not there reads as `undefined`. Arrays and strings expose `length` and their
      indices; numbers and booleans have no own properties. */
  function Prop(j: Json, key: string): (r: Result<Json>)
    ensures r.Err? <==> j.Undefined? || j.Null?
    ensures r.Err? ==> r.error.TypeError?
    ensures j.Obj? ==> r == Ok(if key in j.props then j.props[key] else Undefined)
  {
    match j
    case Undefined => Err(TypeError("Cannot read properties of undefined (reading '" + key + "')"))
    case Null => Err(TypeError("Cannot read properties of null (reading '" + key + "')"))
    case Obj(m) => Ok(if key in m then m[key] else Undefined)
    case Arr(xs) =>
      if key == "length" then Ok(Num(|xs|))
      else (match ArrayIndex(key)
            case Some(i) => Ok(if i < |xs| then xs[i] else Undefined)
            case None => Ok(Undefined))
    case Str(s) =>
      if key == "length" then Ok(Num(|s|))
      else (match ArrayIndex(key)
            case Some(i) => Ok(if i < |s| then Str([s[i]]) else Undefined)
            case None => Ok(Undefined))
    case _ => Ok(Undefined)
  }

  /** The property `key` of every element, in order, as mapping a property read over an
      array does: the first read that throws ends the map with its error. */
  function MapProp(xs: seq<Json>, key: string): (r: Result<seq<Json>>)
    ensures r.Ok? <==> forall i :: 0 <= i < |xs| ==> Prop(xs[i], key).Ok?
    ensures r.Ok? ==> |r.value| == |xs| &&
                      forall i :: 0 <= i < |xs| ==> Prop(xs[i], key) == Ok(r.value[i])
    ensures r.Err? ==> exists i :: 0 <= i < |xs| && Prop(xs[i], key) == Err(r.error) &&
                                   forall j :: 0 <= j < i ==> Prop(xs[j], key).Ok?
  {
    if xs == [] then Ok([])
    else
      var head :- Prop(xs[0], key);
      var tail :- MapProp(xs[1..], key);
      Ok([head] + tail)
  }

  /** `Promise.all` over outcomes that are already settled: every value, in input order,
      when all succeed; otherwise the error of one that failed. Which failure wins depends on
      timing in JavaScript; this model reports the one with the lowest index. */
  function AllOk(outcomes: seq<Result<Json>>): (r: Result<seq<Json>>)
    ensures r.Ok? <==> forall i :: 0 <= i < |outcomes| ==> outcomes[i].Ok?
    ensures r.Ok? ==> |r.value| == |outcomes| &&
                      forall i :: 0 <= i < |outcomes| ==> outcomes[i] == Ok(r.value[i])
    ensures r.Err? ==> exists i :: 0 <= i < |outcomes| && outcomes[i] == Err(r.error)
  {
    if outcomes == [] then Ok([])
    else
      var head :- outcomes[0];
      var tail :- AllOk(outcomes[1..]);
      Ok([head] + tail)
  }
}
