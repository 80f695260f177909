/** The global `Definitions` registry and the builders that read it. The
    registry is state that a document load overwrites; the builders are
    written as the source writes them (a loop over the properties that
    assigns field after field, an array filled by `push`) and proved equal
    to the functions of `Resolver`. */
module DefinitionRegistry {
  import opened Wrappers
  import opened Schemas
  import opened KeyContent
  import opened Resolver

  class Registry {
    /** The named schema definitions of the document currently shown. */
    var defs: map<string, Schema>

    /** `let Definitions = {}`: nothing is loaded yet. */
    constructor ()
      ensures defs == map[]
    {
      defs := map[];
    }

    /** `Definitions = jsonBody.definitions || {}`: the whole registry is
        replaced, with the empty one when the document has no definitions. */
    method Load(definitions: Option<map<string, Schema>>)
      modifies this
      ensures defs == match definitions case Some(d) => d case None => map[]
    {
      defs := match definitions case Some(d) => d case None => map[];
    }

    /** `buildResponseJSON`: the example value of a response schema, which
        must carry a `$ref`. */
    method BuildResponseJSON(schema: Schema, fuel: nat) returns (obj: Option<Value>)
      requires WellFormedDefs(defs)
      requires schema.ref.Some?
      ensures obj == ResolveRef(defs, schema.ref.value, fuel)
    {
      var refId := schema.ref.value;
      obj := BuildJSONByRef(refId, fuel);
    }

    /** `buildJSONByRef`: look the name up and dispatch on the type. An
        array definition's array is built and dropped, as in the source. */
    method BuildJSONByRef(refId: string, fuel: nat) returns (obj: Option<Value>)
      requires WellFormedDefs(defs)
      ensures obj == ResolveRef(defs, refId, fuel)
      decreases fuel, 0
    {
      if fuel == 0 {
        return None;
      }
      var refKey := RefKey(refId);
      if refKey !in defs {
        return None;
      }
      var refDef := defs[refKey];
      obj := None;
      if refDef.typ == "object" {
        var fields := BuildJSONObject(refDef, fuel - 1);
        obj := Some(VObj(fields));
      } else if refDef.typ == "array" {
        var dropped := BuildJSONArray(refDef, fuel - 1);
      }
    }

    /** `buildJSONArray`, returning the contents of `arr` that the source
        builds and then loses. */
    method BuildJSONArray(refDef: Schema, fuel: nat) returns (arr: seq<Option<Value>>)
      requires WellFormedDefs(defs)
      requires refDef.typ == "array" && refDef.items.Some?
      ensures arr == ArrayElems(defs, refDef, fuel)
      decreases fuel, 1
    {
      arr := [];
      if HasRef(refDef.items.value) {
        var elem := BuildJSONByRef(refDef.items.value.ref.value, fuel);
        arr := arr + [elem];
      } else {
        var desc := BuildKeyContent(refDef);
        arr := arr + [Some(VStr(desc))];
      }
    }

    /** `buildJSONObject`: walk the properties in enumeration order and
        assign each one's value under its key. */
    method BuildJSONObject(refDef: Schema, fuel: nat) returns (obj: seq<(string, Option<Value>)>)
      requires WellFormedDefs(defs)
      requires refDef.properties.Some?
      requires forall i :: 0 <= i < |refDef.properties.value| ==> PropertyOk(refDef.properties.value[i].1)
      ensures obj == BuildObject(defs, refDef.properties.value, fuel)
      decreases fuel, 2
    {
      var props := refDef.properties.value;
      obj := [];
      var i := 0;
      while i < |props|
        invariant 0 <= i <= |props|
        invariant |obj| == i
        invariant forall j :: 0 <= j < i ==> obj[j] == (props[j].0, PropValue(defs, props[j].1, fuel))
      {
        var (key, prop) := props[i];
        var value := AssignProperty(prop, fuel);
        obj := obj + [(key, value)];
        i := i + 1;
      }
    }

    /** The body of the `forEach` callback in `buildJSONObject`: the value
        assigned to one property's key. */
    method AssignProperty(prop: Schema, fuel: nat) returns (value: Option<Value>)
      requires WellFormedDefs(defs) && PropertyOk(prop)
      ensures value == PropValue(defs, prop, fuel)
      decreases fuel, 1
    {
      if HasRef(prop) {
        value := BuildJSONByRef(prop.ref.value, fuel);
        return;
      }
      if prop.typ == "array" && HasRef(prop.items.value) {
        var elem := BuildJSONByRef(prop.items.value.ref.value, fuel);
        value := Some(VArr([elem]));
        return;
      }
      var desc := BuildKeyContent(prop);
      value := Some(VStr(desc));
    }
  }

  /** Loading a second document forgets the first: a reference that the
      first document resolved but whose name the second lacks is absent
      afterwards. */
  method ReloadForgetsOldDefinitions(first: map<string, Schema>, second: map<string, Schema>,
                                     ref: string, fuel: nat)
    returns (before: Option<Value>, after: Option<Value>)
    requires WellFormedDefs(first) && WellFormedDefs(second)
    requires RefKey(ref) !in second
    ensures before == ResolveRef(first, ref, fuel)
    ensures after == None
  {
    var registry := new Registry();
    registry.Load(Some(first));
    before := registry.BuildJSONByRef(ref, fuel);
    registry.Load(Some(second));
    after := registry.BuildJSONByRef(ref, fuel);
  }

  /** A document without definitions leaves every reference absent. */
  method LoadWithoutDefinitions(ref: string, fuel: nat) returns (r: Option<Value>)
    ensures r == None
  {
    var registry := new Registry();
    registry.Load(None);
    r := registry.BuildJSONByRef(ref, fuel);
  }

  /** Between loads resolution is a function of the registry: resolving the
      same reference twice gives equal results. */
  method ResolveTwice(registry: Registry, ref: string, fuel: nat) returns (r1: Option<Value>, r2: Option<Value>)
    requires WellFormedDefs(registry.defs)
    ensures r1 == r2
  {
    r1 := registry.BuildJSONByRef(ref, fuel);
    r2 := registry.BuildJSONByRef(ref, fuel);
  }
}
