# Swagger 2.0 example-value engine

This project models the schema-resolution engine of a Swagger 2.0 documentation viewer (`src/swagger_viewer.js`), and proves properties of that model.
The viewer shows an example payload for each response. It takes the response's `$ref`, such as `#/definitions/Reply`, and looks the name up in the document's `definitions` registry. It then builds a value from the definition:

- an object definition becomes a mapping from each property name to a value;
- a property that is itself a `$ref` is resolved recursively;
- an array property whose `items` are a `$ref` becomes a one-element list holding the resolved item;
- any other property becomes a one-line descriptor string such as `Type: string (Format:int64) Title: Match ID`.

The registry is a global. Loading a document replaces it wholesale.

Modules:

- `Wrappers`: `Option`. `None` stands for JavaScript's `undefined`.
- `Strings`: the two library operations the engine uses.
  - `ReplaceFirst` is `String.prototype.replace` with a string pattern, which replaces only the first occurrence. `IndexOf` finds that occurrence.
  - `Join` is `Array.prototype.join`. `JoinConcat` splits a join of two lists at the separator between them.
- `Schemas`: the `Schema` node, the `Value` result, and the conditions under which the builders do not throw.
- `KeyContent`: `buildKeyContent`.
  - `Fields` lists the labelled fields a property shows, in push order. `Tokens` flattens them. `Descriptor` joins the tokens with spaces.
  - `Shown` is an independent, per-label statement of the omission rules. `Lookup` reads a label out of a field list, and `InLabelOrder` states the label order.
  - `BuildKeyContent` is the push-by-push method proved equal to `Descriptor`.
- `Resolver`: `buildJSONByRef`, `buildJSONObject` and `buildJSONArray` as functions of the registry, with lemmas about them.
- `DefinitionRegistry`: the `Registry` class. Its `defs` field is the global `Definitions`, and `Load` is the reload at line 198. Its methods are the builders written as the source writes them: a loop that assigns field after field, and an array filled by `push`. Each is proved equal to the matching `Resolver` function.

Quirks of the code that the model reproduces:

- The format suffix is `(Format:int64)`, with no space after the colon.
- An absent format still contributes an empty token to the join. So `{type: "string"}` describes as `"Type: string "`, and an enum follows after two spaces.
- `buildJSONArray` builds its one-element array but has no `return`. An array-typed definition therefore resolves to absent. `ResolveRef` states this. `ArrayElems` and `Registry.BuildJSONArray` state the one-element contents of the array that is built and then dropped.

JavaScript truthiness is modelled for strings:

- An attribute that is absent or `""` is `""` in the model.
- An empty `title`, `description` or `default` is left out of the descriptor, label and all.
- An empty `type` or `format`, and an empty `type` or `format` of the `items`, still takes its slot and joins as an empty token.
- `$ref` is an `Option<string>`. The `$ref` of a property or of its `items` is followed only when present and non-empty (`HasRef`).
- The response schema's `$ref` has no truthiness test. It is followed whenever it is present, even when it is empty.
- `enum` is an `Option`, because even an empty array is truthy.

Cyclic definitions make the source recurse without bound. Each resolver therefore takes a `fuel` bound on reference depth and yields absent once the fuel is used up. `FuelAdequate` proves that on a registry without reference cycles, any fuel above the referenced definition's rank gives the same result.

## Model

| member | source | states |
|---|---|---|
| `Strings.IndexOf` | src/swagger_viewer.js:41 | The result is the first index at or after `from` where the pattern occurs: it occurs there and nowhere before. The result is absent only when the pattern occurs nowhere at or after `from`. |
| `Strings.Join` | src/swagger_viewer.js:110-113 | `join`: the parts with the separator between neighbours; no parts give the empty string, and one part gives that part. `JoinConcat` characterises it: joining two non-empty lists is joining each, with one separator between. |
| `Strings.JoinConcat` | src/swagger_viewer.js:113 | The join of two non-empty lists is the join of the first, the separator, then the join of the second. |
| `Strings.ReplaceFirst` | src/swagger_viewer.js:41 | `replace` with a string pattern: the first occurrence is removed and the text around it is kept; later occurrences are untouched. Without any occurrence the string is unchanged. |
| `Resolver.RefKey` | src/swagger_viewer.js:41 | The name a reference is looked up under. A reference that starts with `#/definitions/` is looked up under the rest of it. `RefKeyOfDefinitionPath` and `RefKeyWithoutPrefix` characterise it. |
| `Resolver.RefKeyWithoutPrefix` | src/swagger_viewer.js:41 | A reference that does not contain `#/definitions/`, such as a bare definition name, is looked up as written. |
| `Resolver.RefKeyOfDefinitionPath` | src/swagger_viewer.js:41 | `#/definitions/` + N is looked up under exactly N. Only the leading prefix is stripped, so `#/definitions/#/definitions/X` is looked up under `#/definitions/X`. |
| `Resolver.ResolveRef` | src/swagger_viewer.js:40-58 | A name that is not in the registry yields absent, not an error. A definition whose type is not `object` yields absent; this includes `array`, whose array is never returned. With fuel left, an object definition yields an object, and any object it yields has exactly the keys of the definition's `properties`, in order. |
| `Resolver.ResolveObjectFields` | src/swagger_viewer.js:69-86 | Each field of a resolved object definition, under its property's key and in order, holds the per-property rule's value. A `$ref` property holds that reference resolved one level deeper. An array whose `items` carry a `$ref` holds the one-element list of that reference resolved. Any other property holds its descriptor. |
| `Resolver.BuildObject` | src/swagger_viewer.js:69-86 | One field per property, in enumeration order, under the same key, so no key is added or dropped. Each field's value is the per-property value. The `__proto__` key is an exception in the source; see Left out. |
| `Resolver.PropValue` | src/swagger_viewer.js:72-83 | A property with a `$ref` yields that reference resolved. Otherwise, an array whose `items` carry a `$ref` yields `[resolve(items.$ref)]`. Any other property yields its descriptor. Conversely, only a `$ref` property can be absent or yield an object. A list means the array-of-`$ref` rule applied. A string means neither reference rule applied. |
| `Resolver.ArrayElems` | src/swagger_viewer.js:60-67 | The array `buildJSONArray` builds has exactly one element. When the items carry a `$ref`, that element is the reference resolved; only then can it be absent. When they carry none, it is the descriptor of the definition itself, not of its items. |
| `Resolver.ResolveLeafObject` | src/swagger_viewer.js:69-86 | An object definition whose properties are all non-reference, non-array leaves resolves to a mapping from each property name, in order, to that property's descriptor. |
| `Resolver.FuelAdequate` | src/swagger_viewer.js:40-86 | On a registry whose references follow a rank (no cycles), any two fuel bounds above the referenced definition's rank give equal results. The bound therefore does not change what the source's unbounded recursion computes. |
| `KeyContent.Descriptor` | src/swagger_viewer.js:89-113 | The string `buildKeyContent` returns: the tokens of `Fields`, joined by single spaces. It always opens with `Type: `. `FieldsByLabel`, `FieldsInLabelOrder` and `DescriptorCharacterised` characterise it independently of how it is built. |
| `KeyContent.FieldsInLabelOrder` | src/swagger_viewer.js:89-113 | Descriptor fields appear in the fixed order `Type:`, `Items Type:`, `Title:`, `Desc:`, `Default:`, `Enum:`. |
| `KeyContent.FieldsByLabel` | src/swagger_viewer.js:89-113 | For each label, the descriptor shows what the omission rules say. `Type:` is always shown, with the type and format token. `Items Type:` appears only for `type === 'array'`. `Title:`, `Desc:` and `Default:` appear only when non-empty. `Enum:` appears whenever `enum` is present, with its values joined by `", "`. No other label appears. |
| `KeyContent.LabelOrderDetermines` | src/swagger_viewer.js:89-113 | Two field lists in label order that show the same thing under every label are equal. So the order and the per-label rules together pin the field list down. |
| `KeyContent.DescriptorCharacterised` | src/swagger_viewer.js:89-113 | Take any field list that is in label order and obeys the per-label rules. Joining its tokens with spaces gives the descriptor. |
| `KeyContent.DescriptorStartsWithType` | src/swagger_viewer.js:91 | The descriptor starts with `Type: <type> <format token>`. Each further field follows after one more space. |
| `KeyContent.BuildKeyContent` | src/swagger_viewer.js:89-113 | The push-by-push construction of `descArr`, joined by single spaces, equals the descriptor. |
| `KeyContent.PushIfSet` | src/swagger_viewer.js:97-107 | Pushing a label with its value appends exactly that field's two tokens when the value is set, and nothing when it is empty. |
| `KeyContent.DescriptorOfFormattedTitledString` | src/swagger_viewer.js:91-99 | `{type: string, format: int64, title: "Match ID"}` describes as `Type: string (Format:int64) Title: Match ID`. |
| `KeyContent.DescriptorOfBareString` | src/swagger_viewer.js:91 | `{type: string}` describes as `Type: string `, with the trailing space left by the empty format token. |
| `KeyContent.DescriptorOfEnum` | src/swagger_viewer.js:109-110 | `{type: string, enum: [WIN, LOSE]}` describes as `Type: string  Enum: WIN, LOSE`. |
| `KeyContent.DescriptorOfArray` | src/swagger_viewer.js:93-95 | An array of `int32` integers describes as `Type: array  Items Type: integer (Format:int32)`. |
| `DefinitionRegistry.Registry.constructor` | src/swagger_viewer.js:32 | The registry starts empty. |
| `DefinitionRegistry.Registry.Load` | src/swagger_viewer.js:198 | The registry becomes exactly the document's definitions, or the empty map when there are none. Nothing of the previous registry is kept. |
| `DefinitionRegistry.Registry.BuildResponseJSON` | src/swagger_viewer.js:34-38 | The example of a response schema carrying a `$ref` is the resolution of that reference against the current registry. |
| `DefinitionRegistry.Registry.BuildJSONByRef` | src/swagger_viewer.js:40-58 | The lookup-and-dispatch method computes `ResolveRef` of the current registry. It still builds and drops an array definition's array. |
| `DefinitionRegistry.Registry.BuildJSONArray` | src/swagger_viewer.js:60-67 | The contents pushed into `arr` are `ArrayElems`: one element. |
| `DefinitionRegistry.Registry.BuildJSONObject` | src/swagger_viewer.js:69-87 | The loop over the properties, assigning each key in turn, computes `BuildObject`. |
| `DefinitionRegistry.Registry.AssignProperty` | src/swagger_viewer.js:72-83 | The value the `forEach` callback assigns under a property's key is the per-property value `PropValue`. |
| `DefinitionRegistry.ReloadForgetsOldDefinitions` | src/swagger_viewer.js:198 | After a second load, a reference the first document resolved is absent if its name is not among the second document's definitions. |
| `DefinitionRegistry.LoadWithoutDefinitions` | src/swagger_viewer.js:198 | After loading a document without `definitions`, every reference resolves to absent. |
| `DefinitionRegistry.ResolveTwice` | src/swagger_viewer.js:40-58 | Between loads, resolving the same reference twice gives equal results. |

## Left out

- The Vue components (`swagger-path-response`, `swagger-path-method`, `swagger-params-table`, `swagger-path`, `swagger-project`) are left out. They are presentation and template binding only.
- The DOM work and the Vue mount in `viewSwaggerJSON` are left out; they are browser I/O. Only the registry assignment at line 198 is modelled, as `Registry.Load`.
- The `JSON.stringify` pretty-printing of the example is left out. It is a library serialiser, so absent fields are not shown dropped or as `null`.
- Non-string `default` and `enum` values are not modelled: no number-to-string coercion, and no falsy `0` or `false` default. These attributes are strings, and "empty" means omitted.
- `buildResponseJSON` on a schema without `$ref` throws on `undefined.replace`. The model makes the `$ref` a precondition.
- Reading `items` of an array node that has none, and `Object.keys` of an object definition without `properties`, both throw in the source. The model makes them preconditions: `ItemsPresent`, `PropertyOk` and `WellFormedDefs`.
- Resolver.ResolveRef: requires every definition of the registry to be well formed (`WellFormedDefs`), while the source throws only on the malformed nodes it actually reaches. `BuildObject`, `PropValue`, `ArrayElems` and the `Registry` builders carry the same precondition.
- Resolver.ResolveRef: the `fuel` parameter is not in the source, which recurses without bound and overflows the stack on a reference cycle. The model yields absent when the fuel runs out. Exhausted fuel and a genuinely absent result are told apart only through `FuelAdequate` on acyclic registries.
- Schema `properties` are taken in `Object.keys` enumeration order. JavaScript lists integer-like keys first, in ascending order, then the others in insertion order. The model receives the list already in that order and does not reorder it.
- Names that JavaScript would find on `Object.prototype`, such as `constructor`, are not modelled. The source finds such a value but still resolves it to `undefined`, because its `type` is neither `object` nor `array`, so the model's plain map lookup gives the same absent result.
- Resolver.BuildObject: keeps a property named `__proto__` as an ordinary field. In the source, `obj[key] = …` with that key goes through the prototype setter and creates no own key. A string or `undefined` value is ignored, and an object value becomes the prototype of the example. So for that one key, the model's field list has an entry that the source's object lacks.
- Aliasing between the loaded document and the registry is not modelled: `Load` copies a map value, while the source keeps a reference to the same object.
