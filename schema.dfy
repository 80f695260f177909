/** The values the engine consumes and produces: schema nodes of a
    Swagger 2.0 document and the example values built from them. */
module Schemas {
  import opened Wrappers

  /** A schema node: a named definition or one of its properties or items.
      String attributes that the document leaves out are "" here, which is
      how JavaScript treats them: falsy in a test, empty in a join. */
  datatype Schema = Schema(
    ref: Option<string>,               // "$ref"
    typ: string,                       // "type"
    format: string,
    title: string,
    description: string,
    default: string,
    enum: Option<seq<string>>,
    properties: Option<seq<(string, Schema)>>, // in Object.keys enumeration order
    items: Option<Schema>)

  /** The example value: a descriptor string, an object whose fields may be
      absent (`undefined`), or an array whose elements may be absent. */
  datatype Value =
    | VStr(text: string)
    | VObj(fields: seq<(string, Option<Value>)>)
    | VArr(elems: seq<Option<Value>>)

  /** `node['$ref']` is truthy: present and not the empty string. */
  predicate HasRef(s: Schema) {
    s.ref.Some? && s.ref.value != ""
  }

  /** The keys of an ordered key/value list, in order. */
  function Keys<V>(kvs: seq<(string, V)>): seq<string> {
    seq(|kvs|, i requires 0 <= i < |kvs| => kvs[i].0)
  }

  /** An array-typed node has `items`; reading `items` of one that does
      not throws a TypeError. */
  predicate ItemsPresent(s: Schema) {
    s.typ == "array" ==> s.items.Some?
  }

  /** A property the object builder can handle without throwing: it is
      followed as a reference, or else its `items` exist when it is an array. */
  predicate PropertyOk(p: Schema) {
    HasRef(p) || ItemsPresent(p)
  }

  /** A definition the resolver can build without throwing: an object
      has `properties` (`Object.keys(undefined)` throws) and each of them is
      a property the object builder can handle; an array has `items`. */
  predicate DefinitionOk(d: Schema) {
    && ItemsPresent(d)
    && (d.typ == "object" ==>
          && d.properties.Some?
          && forall i :: 0 <= i < |d.properties.value| ==> PropertyOk(d.properties.value[i].1))
  }

  /** No definition of the registry makes the builders throw. */
  predicate WellFormedDefs(defs: map<string, Schema>) {
    forall n :: n in defs ==> DefinitionOk(defs[n])
  }
}
