/**
 * The pieces of JavaScript's runtime that the drive relies on: optional
 * values, synchronous throws, settled promises, the error values that
 * travel through them, JSON values, the two global decoders (`atob` and
 * `JSON.parse`, kept abstract as parameters), `String.prototype.indexOf`
 * and `Array.prototype.map` with a callback that may throw.
 */
module Js {

  datatype Option<+T> = None | Some(value: T)

  /** The outcome of a synchronous computation: a value, or a thrown error. */
  datatype Completion<+T> = Normal(value: T) | Abrupt(error: Error)

  /** A promise once it has settled. */
  datatype Settled<+T> = Resolved(value: T) | Rejected(reason: Error)

  /** Every value that a rejection or a throw carries in the modelled code. */
  datatype Error =
    | Response(status: int, responseText: string)  // a failed HTTP request, passed on as received
    | Message(text: string)                         // a bare string given to Promise.reject
    | ErrorObject(message: string)                  // `throw Error(message)`
    | SyntaxError                                   // JSON.parse on text that is not JSON
    | TypeError(message: string)                    // a property read on undefined, a for..of over a non-iterable

  /** A parsed JSON document. Numbers keep their lexeme: no floating point here. */
  datatype Json =
    | JNull
    | JBool(b: bool)
    | JNumber(lexeme: string)
    | JString(s: string)
    | JArray(items: seq<Json>)
    | JObject(members: seq<(string, Json)>)

  /**
   * The two global decoders. `atob` decodes base64 (section 4 of RFC 4648)
   * and is treated as total; `parse` is `JSON.parse`, which throws (None)
   * on malformed text.
   */
  datatype Codecs = Codecs(atob: string -> string, parse: string -> Option<Json>)

  /** JavaScript truthiness of an optional string: present and not "". */
  predicate Truthy(s: Option<string>)
  {
    s.Some? && s.value != ""
  }

  /** `needle` occurs in `s` at index `j`. */
  predicate OccursAt(s: string, needle: string, j: int)
  {
    0 <= j && j + |needle| <= |s| && s[j..j + |needle|] == needle
  }

  /** `s.indexOf(needle, from)`: the first occurrence at or after `from`, or -1. */
  function IndexFrom(s: string, needle: string, from: nat): (r: int)
    ensures r == -1 || (from <= r && OccursAt(s, needle, r))
    ensures r == -1 ==> forall j :: from <= j ==> !OccursAt(s, needle, j)
    ensures r != -1 ==> forall j :: from <= j < r ==> !OccursAt(s, needle, j)
    decreases |s| - from
  {
    if from + |needle| > |s| then -1
    else if s[from..from + |needle|] == needle then from
    else IndexFrom(s, needle, from + 1)
  }

  /** `s.indexOf(needle)`. */
  function IndexOf(s: string, needle: string): (r: int)
    ensures r == -1 <==> forall j :: !OccursAt(s, needle, j)
    ensures r != -1 ==> OccursAt(s, needle, r) && forall j :: 0 <= j < r ==> !OccursAt(s, needle, j)
  {
    IndexFrom(s, needle, 0)
  }

  /** `s.indexOf(needle) !== -1`. */
  predicate Contains(s: string, needle: string)
  {
    IndexOf(s, needle) != -1
  }

  /**
   * `xs.map(f)` where `f` may throw: the first throw, in list order, ends
   * the map and is rethrown; otherwise one result per element, in order.
   */
  function MapCompletion<A, B>(xs: seq<A>, f: A -> Completion<B>): (r: Completion<seq<B>>)
    ensures r.Normal? <==> forall i :: 0 <= i < |xs| ==> f(xs[i]).Normal?
    ensures r.Normal? ==> |r.value| == |xs| && forall i :: 0 <= i < |xs| ==> r.value[i] == f(xs[i]).value
    ensures r.Abrupt? ==>
      exists k :: 0 <= k < |xs| && f(xs[k]) == Abrupt(r.error) && forall j :: 0 <= j < k ==> f(xs[j]).Normal?
  {
    if xs == [] then Normal([])
    else
      match f(xs[0])
      case Abrupt(e) => Abrupt(e)
      case Normal(y) =>
        match MapCompletion(xs[1..], f)
        case Abrupt(e) =>
          assert forall k :: 0 <= k < |xs[1..]| ==> xs[1..][k] == xs[k + 1];
          Abrupt(e)
        case Normal(ys) => Normal([y] + ys)
  }
}
