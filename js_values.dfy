/**
 * The JavaScript values the core passes around: the generated OpenAPI document
 * (opaque), string-keyed configuration objects, thrown errors, and the
 * truthiness and `Object.assign` / object-spread semantics the core relies on.
 */
module JsValues {
  import opened Wrappers

  /** The OpenAPI object produced by the external document generator. Its
      contents are not modelled; `handle` only tells documents apart. */
  datatype Document = Document(handle: nat)

  /** A value stored in a configuration object. `Opaque` stands for any other
      JavaScript value a caller may pass through (numbers, objects, functions). */
  datatype Value =
    | Str(s: string)
    | Bool(b: bool)
    | Content(doc: Document)
    | Undefined
    | Opaque(handle: nat)

  /** A plain object with string keys. Key order is not modelled. */
  type Config = map<string, Value>

  /** A thrown `Error`; only its message is observable. */
  datatype Error = Error(message: string)

  /** JavaScript truthiness of an optional string: absent and "" are falsy. */
  predicate Truthy(s: Option<string>) {
    s.Some? && s.value != ""
  }

  /** `s || fallback` for an optional string. */
  function Or(s: Option<string>, fallback: string): (r: string)
    ensures Truthy(s) ==> r == s.value
    ensures !Truthy(s) ==> r == fallback
    ensures fallback != "" ==> r != ""
  {
    if Truthy(s) then s.value else fallback
  }

  /** `Object.assign(target, source)` and `{...target, ...source}`: every key of
      `source` is written over `target`, later writes winning. */
  function Assign(target: Config, source: Config): (r: Config)
    ensures r.Keys == target.Keys + source.Keys
    ensures forall k :: k in source ==> r[k] == source[k]
    ensures forall k :: k in target && k !in source ==> r[k] == target[k]
  {
    target + source
  }
}
