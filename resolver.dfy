/** `buildJSONByRef`, `buildJSONObject` and `buildJSONArray` as functions of
    the definitions registry: the specification the imperative builders of
    `DefinitionRegistry` are proved against.

    The source has no guard against definitions that refer to each other
    in a cycle. Every function here takes a `fuel` bound on the depth of
    reference resolution and yields absent when it is used up;
    `FuelAdequate` shows that on an acyclic registry any fuel above the
    depth of the reference gives the same result. */
module Resolver {
  import opened Wrappers
  import opened Strings
  import opened Schemas
  import opened KeyContent

  const DefinitionsPrefix: string := "#/definitions/"

  /** `refId.replace('#/definitions/', '')`: the definition name a reference
      is looked up under. */
  function RefKey(ref: string): (key: string)
    ensures DefinitionsPrefix <= ref ==> key == ref[|DefinitionsPrefix|..]
  {
    assert DefinitionsPrefix <= ref ==> FirstOccurrence(ref, DefinitionsPrefix, 0);
    ReplaceFirst(ref, DefinitionsPrefix, "")
  }

  /** `buildJSONByRef`: absent for an unknown name or for a definition that
      is not an object (an array definition included, whose array is built
      but never returned); otherwise the object built from its properties,
      with exactly their keys in their order. */
  function ResolveRef(defs: map<string, Schema>, ref: string, fuel: nat): (r: Option<Value>)
    requires WellFormedDefs(defs)
    ensures RefKey(ref) !in defs ==> r == None
    ensures RefKey(ref) in defs && defs[RefKey(ref)].typ != "object" ==> r == None
    ensures fuel > 0 && RefKey(ref) in defs && defs[RefKey(ref)].typ == "object" ==> r.Some?
    ensures r.Some? ==> && RefKey(ref) in defs
                        && r.value.VObj?
                        && Keys(r.value.fields) == Keys(defs[RefKey(ref)].properties.value)
    decreases fuel, 0
  {
    var key := RefKey(ref);
    if fuel == 0 || key !in defs then None
    else
      var d := defs[key];
      if d.typ == "object" then
        var fields := BuildObject(defs, d.properties.value, fuel - 1);
        assert Keys(fields) == Keys(d.properties.value);
        Some(VObj(fields))
      else None
  }

  /** `buildJSONObject` over the property list: one field per property, under
      the same key and in the same order, whose value follows the
      per-property rule. */
  function BuildObject(defs: map<string, Schema>, props: seq<(string, Schema)>, fuel: nat)
    : (obj: seq<(string, Option<Value>)>)
    requires WellFormedDefs(defs)
    requires forall i :: 0 <= i < |props| ==> PropertyOk(props[i].1)
    ensures |obj| == |props|
    ensures forall i :: 0 <= i < |props| ==>
              obj[i].0 == props[i].0 && obj[i].1 == PropValue(defs, props[i].1, fuel)
    decreases fuel, 2, |props|
  {
    if props == [] then []
    else [(props[0].0, PropValue(defs, props[0].1, fuel))] + BuildObject(defs, props[1..], fuel)
  }

  /** The value of one property: its reference resolved; for an array
      whose items are a reference, a one-element list of the items'
      reference resolved; otherwise its descriptor. Conversely, only a
      property that is itself a reference can be absent, and the shape of
      the value tells which rule applied. */
  function PropValue(defs: map<string, Schema>, p: Schema, fuel: nat): (v: Option<Value>)
    requires WellFormedDefs(defs) && PropertyOk(p)
    ensures HasRef(p) ==> v == ResolveRef(defs, p.ref.value, fuel)
    ensures !HasRef(p) && p.typ == "array" && HasRef(p.items.value) ==>
              v == Some(VArr([ResolveRef(defs, p.items.value.ref.value, fuel)]))
    ensures !HasRef(p) && !(p.typ == "array" && HasRef(p.items.value)) ==> v == Some(VStr(Descriptor(p)))
    ensures v.None? ==> HasRef(p)
    ensures v.Some? && v.value.VObj? ==> HasRef(p)
    ensures v.Some? && v.value.VArr? ==>
              && !HasRef(p) && p.typ == "array" && p.items.Some? && HasRef(p.items.value)
              && v.value.elems == [ResolveRef(defs, p.items.value.ref.value, fuel)]
    ensures v.Some? && v.value.VStr? ==>
              && !HasRef(p) && !(p.typ == "array" && HasRef(p.items.value))
              && v.value.text == Descriptor(p)
    decreases fuel, 1, 0
  {
    if HasRef(p) then ResolveRef(defs, p.ref.value, fuel)
    else if p.typ == "array" && HasRef(p.items.value) then
      Some(VArr([ResolveRef(defs, p.items.value.ref.value, fuel)]))
    else Some(VStr(Descriptor(p)))
  }

  /** The contents of `arr` in `buildJSONArray`: exactly one element, the
      items' reference resolved or else the definition's own descriptor. */
  function ArrayElems(defs: map<string, Schema>, d: Schema, fuel: nat): (arr: seq<Option<Value>>)
    requires WellFormedDefs(defs)
    requires d.typ == "array" && d.items.Some?
    ensures |arr| == 1
    ensures arr[0].None? ==> HasRef(d.items.value)
    ensures HasRef(d.items.value) ==> arr[0] == ResolveRef(defs, d.items.value.ref.value, fuel)
    ensures !HasRef(d.items.value) ==> arr[0] == Some(VStr(Descriptor(d)))
  {
    if HasRef(d.items.value) then [ResolveRef(defs, d.items.value.ref.value, fuel)]
    else [Some(VStr(Descriptor(d)))]
  }

  /** A reference of the form `#/definitions/<name>` is looked up under
      exactly `name`; only the first occurrence of the prefix is removed,
      so `#/definitions/#/definitions/X` is looked up under `#/definitions/X`. */
  lemma RefKeyOfDefinitionPath(name: string)
    ensures RefKey(DefinitionsPrefix + name) == name
  {
    var s := DefinitionsPrefix + name;
    assert s[0..|DefinitionsPrefix|] == DefinitionsPrefix;
    assert FirstOccurrence(s, DefinitionsPrefix, 0);
    assert s[|DefinitionsPrefix|..] == name;
  }
  /** A reference without the prefix, such as a bare definition name, is
      looked up as written. */
  lemma RefKeyWithoutPrefix(ref: string)
    requires forall k: nat :: !OccursAt(ref, DefinitionsPrefix, k)
    ensures RefKey(ref) == ref
  {
  }


  /** The value of each field of a resolved object, stated from the
      property's side: a `$ref` property holds its reference resolved one
      level deeper; an array whose items are a `$ref` holds the one-element
      list of that reference resolved; any other property holds its
      descriptor. */
  lemma ResolveObjectFields(defs: map<string, Schema>, ref: string, fuel: nat)
    requires WellFormedDefs(defs)
    requires fuel > 0 && RefKey(ref) in defs && defs[RefKey(ref)].typ == "object"
    ensures var props := defs[RefKey(ref)].properties.value;
            && ResolveRef(defs, ref, fuel).Some?
            && ResolveRef(defs, ref, fuel).value.VObj?
            && var fields := ResolveRef(defs, ref, fuel).value.fields;
            && |fields| == |props|
            && forall i :: 0 <= i < |props| ==>
                 var p := props[i].1;
                 && fields[i].0 == props[i].0
                 && (HasRef(p) ==> fields[i].1 == ResolveRef(defs, p.ref.value, fuel - 1))
                 && (!HasRef(p) && p.typ == "array" && HasRef(p.items.value) ==>
                       fields[i].1 == Some(VArr([ResolveRef(defs, p.items.value.ref.value, fuel - 1)])))
                 && (!HasRef(p) && !(p.typ == "array" && HasRef(p.items.value)) ==>
                       fields[i].1 == Some(VStr(Descriptor(p))))
  {
    var props := defs[RefKey(ref)].properties.value;
    var fields := BuildObject(defs, props, fuel - 1);
    assert ResolveRef(defs, ref, fuel) == Some(VObj(fields));
  }

  /** An object definition whose properties are all leaves resolves to a
      mapping from each property name to that property's descriptor. */
  lemma ResolveLeafObject(defs: map<string, Schema>, ref: string, fuel: nat)
    requires WellFormedDefs(defs)
    requires fuel > 0 && RefKey(ref) in defs && defs[RefKey(ref)].typ == "object"
    requires forall i :: 0 <= i < |defs[RefKey(ref)].properties.value| ==>
               var p := defs[RefKey(ref)].properties.value[i].1;
               !HasRef(p) && p.typ != "array"
    ensures var props := defs[RefKey(ref)].properties.value;
            && ResolveRef(defs, ref, fuel).Some?
            && ResolveRef(defs, ref, fuel).value.VObj?
            && var fields := ResolveRef(defs, ref, fuel).value.fields;
            && |fields| == |props|
            && forall i :: 0 <= i < |props| ==>
                 fields[i] == (props[i].0, Some(VStr(Descriptor(props[i].1))))
  {
    var props := defs[RefKey(ref)].properties.value;
    var fields := BuildObject(defs, props, fuel - 1);
    assert ResolveRef(defs, ref, fuel) == Some(VObj(fields));
    forall i | 0 <= i < |props| ensures fields[i] == (props[i].0, Some(VStr(Descriptor(props[i].1)))) {
      assert fields[i].1 == PropValue(defs, props[i].1, fuel - 1);
    }
  }

  /** The reference a property leads the object builder to, if any. */
  function PropTarget(p: Schema): Option<string> {
    if HasRef(p) then Some(p.ref.value)
    else if p.typ == "array" && p.items.Some? && HasRef(p.items.value) then Some(p.items.value.ref.value)
    else None
  }

  /** `rank` orders the definitions so that every reference a builder
      follows, from an object's properties or an array's items, leads to a
      definition of lower rank: the registry has no reference cycle. */
  ghost predicate Ranked(defs: map<string, Schema>, rank: map<string, nat>) {
    && defs.Keys <= rank.Keys
    && (forall n, i ::
          n in defs && defs[n].typ == "object" && defs[n].properties.Some?
          && 0 <= i < |defs[n].properties.value|
          && PropTarget(defs[n].properties.value[i].1).Some?
          && RefKey(PropTarget(defs[n].properties.value[i].1).value) in defs
          ==> rank[RefKey(PropTarget(defs[n].properties.value[i].1).value)] < rank[n])
    && (forall n ::
          n in defs && defs[n].typ == "array" && defs[n].items.Some? && HasRef(defs[n].items.value)
          && RefKey(defs[n].items.value.ref.value) in defs
          ==> rank[RefKey(defs[n].items.value.ref.value)] < rank[n])
  }

  /** On an acyclic registry the fuel bound does not matter once it exceeds
      the rank of the referenced definition: resolution then computes what
      the unbounded recursion of the source computes. */
  lemma {:induction false} FuelAdequate(defs: map<string, Schema>, rank: map<string, nat>,
                                        ref: string, f1: nat, f2: nat)
    requires WellFormedDefs(defs) && Ranked(defs, rank)
    requires RefKey(ref) in defs ==> rank[RefKey(ref)] < f1 && rank[RefKey(ref)] < f2
    ensures ResolveRef(defs, ref, f1) == ResolveRef(defs, ref, f2)
    decreases f1
  {
    var key := RefKey(ref);
    if key in defs && defs[key].typ == "object" {
      var props := defs[key].properties.value;
      forall i | 0 <= i < |props|
        ensures PropValue(defs, props[i].1, f1 - 1) == PropValue(defs, props[i].1, f2 - 1)
      {
        var p := props[i].1;
        if HasRef(p) {
          assert PropTarget(p) == Some(p.ref.value);
          FuelAdequate(defs, rank, p.ref.value, f1 - 1, f2 - 1);
        } else if p.typ == "array" && HasRef(p.items.value) {
          assert PropTarget(p) == Some(p.items.value.ref.value);
          FuelAdequate(defs, rank, p.items.value.ref.value, f1 - 1, f2 - 1);
        }
      }
      var o1 := BuildObject(defs, props, f1 - 1);
      var o2 := BuildObject(defs, props, f2 - 1);
      assert o1 == o2;
    }
  }
}
