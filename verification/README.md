# harness-yaml-converter: the schema-mapping core in Dafny

This project models `convertYaml` from the Harness YAML converter. It
converts Backstage catalog entities ("IDP 1.0": `kind`, `metadata`, `spec`)
into Harness "IDP 2.0" entities and back. A 2.0 entity has `type`,
`identifier`, `name` and `owner` at the top level. The model covers:

- the identifier helpers `toIdentifier`, `sanitizeName` and
  `identifierToName`;
- the four forward mappers (`convertTemplate`, `convertAPI`,
  `convertResource`, `convertComponent`);
- the four reverse mappers (`convertWorkflowToTemplate`,
  `convertAPIToIDP1`, `convertResourceToIDP1`, `convertComponentToIDP1`);
- the dispatchers `convertToIDP2` and `convertToIDP1`;
- `convertYaml` itself: emptiness and direction checks, dropping
  `relations`, post-processing the name and namespace, and the error prefix.

The model works on parsed documents. `yaml.load` is replaced by a `Loaded`
value: the tree, or the parser's error. `yaml.dump` is replaced by the
result tree.

Modules, following the structure of `converter.js`:

- `Values` (values.dfy): the document tree. It has `null`, booleans,
  integers, strings, arrays, and mappings stored as ordered association
  lists. `Set` updates a present key in place and appends a new one, as a
  JavaScript object does. `Truthy` and `Or` give JavaScript's truthiness
  and `||`. `Prop` gives optional-chained property reads.
- `Errors` (errors.dfy): every `throw` of the converter, with its message.
- `Identifiers` (identifiers.dfy): `toIdentifier`, `sanitizeName`,
  `identifierToName`, and the TypeError a non-string name raises.
- `Coercion` (coercion.dfy): `x.length > 0` when `x` is a mapping, so
  that `x.length` is any loaded value. JavaScript converts it to a number:
  a string by the numeric-literal grammar, an array through `join`.
- `Merging` (merging.dfy): every `for ... of Object.entries(...)` copy
  loop as one `Merge` with an admission policy. Every fixed field list
  copied "when not undefined" is one `Pick`.
- `Forward` (forward.dfy) and `Reverse` (reverse.dfy): the eight mappers
  and the two dispatchers. Each returns a typed entity (`Entity2` or
  `Entity1`) that renders to a tree with its keys in the source's order.
- `Converter` (converter.dfy): `convertYaml`.
- `ForwardProperties`, `ReverseProperties`, `ConverterProperties` and
  `RoundTrip`: what the mappers and `convertYaml` promise, including the
  1.0 -> 2.0 -> 1.0 round trip.
- `Examples` (examples.dfy): documents from the repository's test script
  and sample entities.

Lemmas about converted entities assume that no mapping repeats a key.
js-yaml rejects duplicated mapping keys, so every loaded tree meets this
(`Values.WellFormed`, `Values.UniqueParts`).

Where the intent in the comments and the code differ, the model follows
the code:

- Forward `Resource` filters annotations with the four-key deny-list, as
  `Component` does. It does not use the source-location allow-list.
- Reverse `Workflow` always emits `description`, `annotations` (`{}` when
  absent) and `tags` (`[]` when absent).
- The reverse metadata pass-through copies every key outside its skip
  list. So a 2.0 `metadata.name`, `metadata.namespace` or
  `metadata.title` replaces the value the mapper computed.
- The reverse spec merge of `API`, `Resource` and `Component` writes a 2.0
  spec key only where the current value is falsy. `Workflow` copies every
  spec key unconditionally.
- The sample 2.0 Component in `sample-entities.js` has
  `name: artist-lookup`. The code sets `name` to `toIdentifier(...)`,
  which gives `artistlookup`, and the model follows the code
  (`Examples.ArtistLookupConverts`).
- A Component or Resource comes back from a round trip named after its
  identifier, cut to 63 characters. The original `metadata.name` does not
  come back.

## Model

| member | source | states |
|---|---|---|
| Errors.Message | harness-yaml-converter/src/utils/converter.js:16-631 | the text of every `throw`: the forward kind mismatch (lines 16, 70, 121, 173), the reverse "Expected kind" (315, 366, 440, 507), "Unsupported kind" with `${entity.kind}` and each direction's kind list (266, 590), "Invalid YAML content" (600) and "Invalid conversion direction" (631) |
| Identifiers.ToIdentifier | harness-yaml-converter/src/utils/converter.js:4-12 | the result is a non-empty identifier of at most 128 characters from `[a-z0-9]`; it is "unknown" when no character survives, and otherwise the first 128 surviving characters |
| Identifiers.LowerAlnum | harness-yaml-converter/src/utils/converter.js:7-8 | lower-casing one character and then filtering it leaves only `[a-z0-9]`: such a character is kept as it is, an ASCII capital becomes its lower-case letter, and the result is empty exactly when the character is none of `[A-Za-z0-9]`, U+0130 and U+212A |
| Identifiers.IdentifierOf | harness-yaml-converter/src/utils/converter.js:4-12 | `toIdentifier(v)` succeeds exactly when `v` is falsy or a string; a falsy value gives "unknown" and a string gives its identifier; a truthy non-string raises the `toLowerCase` TypeError |
| Identifiers.SlugOfIdentifierChars | harness-yaml-converter/src/utils/converter.js:7-8 | a string that is already lower-case alphanumeric passes the filter unchanged |
| Identifiers.IdentifierFixpoint | harness-yaml-converter/src/utils/converter.js:4-12 | every identifier is a fixed point of `toIdentifier` |
| Identifiers.ToIdentifierIdempotent | harness-yaml-converter/src/utils/converter.js:4-12 | `toIdentifier` is idempotent |
| Identifiers.DefaultedName | harness-yaml-converter/src/utils/converter.js:40-41 | `toIdentifier(name \|\| 'unknown')` equals `toIdentifier(name)` for every name, including the failing non-string ones |
| Identifiers.SlugAppend | harness-yaml-converter/src/utils/converter.js:7-8 | the character filter distributes over concatenation |
| Identifiers.Trim | harness-yaml-converter/src/utils/converter.js:286 | `trim` keeps one contiguous piece of its input and removes only whitespace around it (`Strips`); a non-empty result has no whitespace at either end; a string without surrounding whitespace is unchanged |
| Identifiers.TrimStrips | harness-yaml-converter/src/utils/converter.js:286 | stripping the leading whitespace and then the trailing whitespace leaves the input with only whitespace cut from each end |
| Identifiers.ReplaceInvalid | harness-yaml-converter/src/utils/converter.js:289 | after replacement every character is in `[A-Za-z0-9-_.]`; a non-empty string stays non-empty; a string with only valid characters is unchanged; on Basic Multilingual Plane text each character stays in place, kept when valid and replaced by `-` otherwise |
| Identifiers.SanitizeName | harness-yaml-converter/src/utils/converter.js:282-295 | the result is non-empty, uses only `[A-Za-z0-9-_.]`, has at most 63 characters and no surrounding whitespace; it is "unknown" when the name trims to nothing, and otherwise the first 63 characters of the trimmed name after replacement |
| Identifiers.SanitizeNameOf | harness-yaml-converter/src/utils/converter.js:282-295 | `sanitizeName(v)` succeeds exactly when `v` is falsy or a string; a falsy value gives "unknown"; a truthy non-string raises the `trim` TypeError |
| Identifiers.SanitizedFixpoint | harness-yaml-converter/src/utils/converter.js:282-295 | every sanitized name is a fixed point of `sanitizeName` |
| Identifiers.SanitizeNameIdempotent | harness-yaml-converter/src/utils/converter.js:282-295 | `sanitizeName` is idempotent |
| Identifiers.SanitizeIdentifier | harness-yaml-converter/src/utils/converter.js:282-295 | sanitizing an identifier keeps its first 63 characters |
| Identifiers.IdentifierToName | harness-yaml-converter/src/utils/converter.js:271-274 | the result is always truthy: a truthy identifier unchanged, anything else "unknown" |
| Merging.Merge | harness-yaml-converter/src/utils/converter.js:333-337 | a copy loop never loses a key of the target and adds only keys of the source; it keeps keys unique |
| Merging.MergeGet | harness-yaml-converter/src/utils/converter.js:348-350 | key by key, a copy loop leaves the value its policy admits: the source's value when admitted, else the target's |
| Merging.MergeKeepsOrder | harness-yaml-converter/src/utils/converter.js:333-337 | a copy loop keeps every existing key in its position; new keys follow them |
| Merging.PickGet | harness-yaml-converter/src/utils/converter.js:218-222 | copying a fixed field list takes exactly the listed fields the source defines; every other key is unchanged |
| Forward.ConvertTemplate | harness-yaml-converter/src/utils/converter.js:14-66 | succeeds exactly for kind Template with a string or falsy name; any other kind raises the mismatch error; the result is a `harness.io/v1` Workflow with `identifier = toIdentifier(name)` and `name = title \|\| name \|\| 'unknown'` |
| Forward.ConvertAPI | harness-yaml-converter/src/utils/converter.js:68-117 | succeeds exactly for kind API with a string or falsy name; the result is a `harness.io/v1` API with `identifier = toIdentifier(name)`, and `name` is the 1.0 name verbatim or "unknown" |
| Forward.ConvertResource | harness-yaml-converter/src/utils/converter.js:119-169 | succeeds exactly for kind Resource with a string or falsy name; the result is a `harness.io/v1` Resource whose identifier and name are both `toIdentifier(name)` |
| Forward.ConvertComponent | harness-yaml-converter/src/utils/converter.js:171-252 | succeeds exactly for kind Component with a string or falsy name; the result is a `harness.io/v1` Component whose identifier and name are both `toIdentifier(name)` |
| Forward.ConvertToIDP2 | harness-yaml-converter/src/utils/converter.js:255-268 | a kind other than the four 1.0 kinds raises "Unsupported kind"; the four kinds reach their mapper; every result carries the 2.0 kind |
| ForwardProperties.FilterAnnotationsGet | harness-yaml-converter/src/utils/converter.js:133-139 | an annotation filter keeps exactly the keys its list admits, each with its input value |
| ForwardProperties.ComponentAnnotations | harness-yaml-converter/src/utils/converter.js:185-191 | a Component's output annotations are the deny-list filter of its input annotations |
| ForwardProperties.AnnotationsShape | harness-yaml-converter/src/utils/converter.js:255-268 | every forward conversion stores the annotation filter of its kind |
| ForwardProperties.ForwardAnnotations | harness-yaml-converter/src/utils/converter.js:19-26 | output annotation keys are a subset of the input keys with the same values: only the source location for Template and API, all but the four provenance keys for Component and Resource |
| ForwardProperties.RestSpecGet | harness-yaml-converter/src/utils/converter.js:53 | the rest-spread without owner and type keeps every other key with its value |
| ForwardProperties.TemplateSpec | harness-yaml-converter/src/utils/converter.js:53 | a Workflow spec has exactly the Template spec's keys except owner and type, with their values |
| ForwardProperties.APISpec | harness-yaml-converter/src/utils/converter.js:91-105 | the 2.0 API spec is the 1.0 spec without owner and type, with a truthy definition replaced by its rebuilt form |
| ForwardProperties.ResourceSpec | harness-yaml-converter/src/utils/converter.js:152-157 | the 2.0 Resource spec holds `lifecycle` and `system` when defined, and nothing else |
| ForwardProperties.ComponentOutSpecGet | harness-yaml-converter/src/utils/converter.js:225-238 | the four common fields and then the other fields build the 1.0 spec minus owner and type, value for value |
| ForwardProperties.ComponentSpec | harness-yaml-converter/src/utils/converter.js:225-239 | the 2.0 Component spec has exactly the 1.0 spec's keys minus owner and type, with unchanged values |
| ForwardProperties.ComponentMetadataGet | harness-yaml-converter/src/utils/converter.js:203-222 | besides the three lists, the metadata holds exactly the eleven preserved fields the input defines |
| ForwardProperties.ComponentMetadata | harness-yaml-converter/src/utils/converter.js:194-222 | a Component keeps only the preserved custom metadata fields besides annotations, links and tags, so `uid`, `etag`, `name` and `namespace` are dropped |
| ForwardProperties.TemplateLifts | harness-yaml-converter/src/utils/converter.js:47-53 | Template: owner and type move to the top level, defaulting to "", and leave the spec |
| ForwardProperties.APILifts | harness-yaml-converter/src/utils/converter.js:91-113 | API: owner and type move to the top level, defaulting to "", and leave the spec |
| ForwardProperties.ResourceLifts | harness-yaml-converter/src/utils/converter.js:152-165 | Resource: owner and type move to the top level, defaulting to "", and leave the spec |
| ForwardProperties.ComponentLifts | harness-yaml-converter/src/utils/converter.js:225-248 | Component: owner and type move to the top level, defaulting to "", and leave the spec |
| ForwardProperties.ForwardLiftsOwnerAndType | harness-yaml-converter/src/utils/converter.js:255-268 | every forward conversion lifts `spec.owner` and `spec.type` (default "") and leaves neither in the output spec |
| ForwardProperties.TemplateClean | harness-yaml-converter/src/utils/converter.js:29-37 | a Workflow's metadata and spec have unique keys, and its metadata has no `name` or `namespace` |
| ForwardProperties.APIClean | harness-yaml-converter/src/utils/converter.js:83-88 | an API's 2.0 metadata and spec have unique keys, and its metadata has no `name` or `namespace` |
| ForwardProperties.ResourceClean | harness-yaml-converter/src/utils/converter.js:142-149 | a Resource's 2.0 metadata and spec have unique keys, and its metadata has no `name` or `namespace` |
| ForwardProperties.ComponentClean | harness-yaml-converter/src/utils/converter.js:194-222 | a Component's 2.0 metadata and spec have unique keys, and its metadata has no `name` or `namespace` |
| ForwardProperties.ForwardClean | harness-yaml-converter/src/utils/converter.js:255-268 | every forward result has unique keys and no `metadata.name` or `metadata.namespace` |
| ForwardProperties.DefinitionIdempotent | harness-yaml-converter/src/utils/converter.js:97-104 | rebuilding a definition twice equals rebuilding it once |
| Reverse.NameOf | harness-yaml-converter/src/utils/converter.js:319 | the chosen name is always truthy: `name`, else `identifier`, else "unknown" |
| Reverse.ConvertWorkflowToTemplate | harness-yaml-converter/src/utils/converter.js:313-362 | succeeds exactly for kind Workflow whose chosen name is a string; any other kind raises "Expected kind Workflow"; the result is a `scaffolder.backstage.io/v1beta3` Template |
| Reverse.ConvertAPIToIDP1 | harness-yaml-converter/src/utils/converter.js:364-436 | succeeds exactly for kind API; the result is a `backstage.io/v1alpha1` API |
| Reverse.ConvertResourceToIDP1 | harness-yaml-converter/src/utils/converter.js:438-500 | succeeds exactly for kind Resource; the result is a `backstage.io/v1alpha1` Resource |
| Reverse.ConvertComponentToIDP1 | harness-yaml-converter/src/utils/converter.js:505-576 | succeeds exactly for kind Component; the result is a `backstage.io/v1alpha1` Component |
| Reverse.ConvertToIDP1 | harness-yaml-converter/src/utils/converter.js:579-592 | a kind other than the four 2.0 kinds raises "Unsupported kind"; API, Resource and Component always succeed; every result carries the 1.0 kind |
| ReverseProperties.OwnerAndTypeGet | harness-yaml-converter/src/utils/converter.js:341-344 | the spec starts as exactly `owner` and `type`, from the top level or "" |
| ReverseProperties.WorkflowSpec | harness-yaml-converter/src/utils/converter.js:341-351 | a Template spec holds every 2.0 spec key with its value; owner and type come from the 2.0 spec when it has them, else from the top level |
| ReverseProperties.FillGet | harness-yaml-converter/src/utils/converter.js:490-496 | the falsy-only merge keeps a truthy top-level owner or type, and otherwise takes the 2.0 spec's field |
| ReverseProperties.ResourceSpec | harness-yaml-converter/src/utils/converter.js:484-497 | a 1.0 Resource spec holds every 2.0 spec key other than owner and type unchanged; truthy top-level owner and type are never overwritten |
| ReverseProperties.APISpec | harness-yaml-converter/src/utils/converter.js:410-433 | as for Resource, and `definition` is the rebuilt 2.0 definition when truthy |
| ReverseProperties.ComponentSpecBaseGet | harness-yaml-converter/src/utils/converter.js:553-564 | the Component spec base is owner and type plus the defined common fields |
| ReverseProperties.ComponentSpec | harness-yaml-converter/src/utils/converter.js:552-573 | a 1.0 Component spec holds every 2.0 spec key other than owner and type unchanged; truthy top-level owner and type are never overwritten |
| ReverseProperties.ReverseOwner | harness-yaml-converter/src/utils/converter.js:579-592 | every reverse result has a `spec.owner`; a truthy top-level owner survives unless a Workflow's spec has its own |
| ReverseProperties.WithListsAt | harness-yaml-converter/src/utils/converter.js:379-392 | annotations appear only when they have keys, tags and links only when their `length` is above 0 as JavaScript compares it (`Coercion.HasPositiveLength`: a mapping's own `length` key converted to a number) |
| Coercion.NumberTextPositive | harness-yaml-converter/src/utils/converter.js:385 | a number written out by `String(n)` and compared with 0 as a string is positive exactly when `n` is |
| Coercion.ForeignNotPositive | harness-yaml-converter/src/utils/converter.js:385 | a string holding a character no numeric literal contains reads as NaN, so `length > 0` is false |
| Coercion.JoinedNotPositive | harness-yaml-converter/src/utils/converter.js:390 | an array of two or more elements joins with a comma, so as a `length` it is never positive |
| Coercion.SingletonPositive | harness-yaml-converter/src/utils/converter.js:390 | an array of one number, string or array compares with 0 as its element does |
| Coercion.ObjectNotPositive | harness-yaml-converter/src/utils/converter.js:385 | a mapping as a `length` is "[object Object]", which is never positive |
| Examples.LengthFive | harness-yaml-converter/src/utils/converter.js:459-466 | tags or links whose `length` is "5" or `[5]` count as non-empty, and "1,2" does not |
| Examples.LengthLiterals | harness-yaml-converter/src/utils/converter.js:527-534 | a `length` of "0x1F" counts as positive and one of "-3" does not |
| ReverseProperties.ExtrasAt | harness-yaml-converter/src/utils/converter.js:394-401 | the pass-through copies every 2.0 metadata key outside the skip list over what was built |
| ReverseProperties.DescribedBaseGet | harness-yaml-converter/src/utils/converter.js:373-377 | the API and Resource metadata start with the chosen name, "default" and the description or "" |
| ReverseProperties.ComponentBaseGet | harness-yaml-converter/src/utils/converter.js:511-519 | the Component metadata starts with the chosen name and "default", plus a truthy description |
| ReverseProperties.ReverseMetadata | harness-yaml-converter/src/utils/converter.js:373-401 | API, Resource and Component metadata pass through every unhandled 2.0 key; name and namespace are the 2.0 ones when present; lists appear only when non-empty; description is always there except for a Component without one |
| ReverseProperties.WorkflowBaseGet | harness-yaml-converter/src/utils/converter.js:322-329 | the Template metadata starts with the sanitized name, the title, and namespace "default" |
| ReverseProperties.WorkflowPassedThrough | harness-yaml-converter/src/utils/converter.js:332-338 | every 2.0 metadata key outside the six fixed fields reaches the Template metadata unchanged |
| ReverseProperties.WorkflowNamed | harness-yaml-converter/src/utils/converter.js:322-338 | a 2.0 `metadata.name`, `title` or `namespace` overwrites the computed one |
| ReverseProperties.WorkflowMetadata | harness-yaml-converter/src/utils/converter.js:313-338 | the Template metadata passes through the unhandled keys; name, title and namespace are the 2.0 metadata's when present, else computed; description, annotations and tags are always there, as the 2.0 value or "", `{}` and `[]` |
| Converter.Finish | harness-yaml-converter/src/utils/converter.js:609-629 | post-processing fails only on a non-string name; it leaves kind, apiVersion and spec alone, stores a sanitized `metadata.name` and a truthy namespace |
| Converter.WithNamespace | harness-yaml-converter/src/utils/converter.js:629 | a truthy namespace is kept, otherwise it becomes "default"; no other key changes |
| Converter.ToIDP1 | harness-yaml-converter/src/utils/converter.js:609-629 | a 2.0 -> 1.0 result has the 1.0 kind, a sanitized name and a truthy namespace |
| Converter.DropRelations | harness-yaml-converter/src/utils/converter.js:605-607 | in the `2to1` direction no truthy `relations` is left; no other field changes |
| Converter.Convert | harness-yaml-converter/src/utils/converter.js:595-632 | a parser error, an empty document and an unknown direction are errors; every result is a mapping without `relations` |
| Converter.ConvertYaml | harness-yaml-converter/src/utils/converter.js:639-641 | the call fails exactly when the conversion does, and its message is "Conversion error: " followed by the message of the error the conversion raised |
| ConverterProperties.FinishGet | harness-yaml-converter/src/utils/converter.js:615-629 | post-processing sets exactly the sanitized `name` and the defaulted `namespace`; every other metadata key is kept |
| ConverterProperties.MappedName | harness-yaml-converter/src/utils/converter.js:319-323 | before post-processing the 1.0 name is the 2.0 `metadata.name` or the chosen name; a Workflow's may already be sanitized |
| ConverterProperties.ReverseName | harness-yaml-converter/src/utils/converter.js:615-626 | the final name is `sanitizeName` of the first truthy of `metadata.name`, `name`, `identifier` and "unknown" |
| ConverterProperties.ReverseNamespace | harness-yaml-converter/src/utils/converter.js:629 | the final namespace is the 2.0 `metadata.namespace` when truthy, else "default" |
| ConverterProperties.MappersCongruent | harness-yaml-converter/src/utils/converter.js:579-592 | the reverse mappers read only kind, metadata, spec, name, identifier, owner and type |
| ConverterProperties.ToIDP1Congruent | harness-yaml-converter/src/utils/converter.js:609-629 | two 2.0 entities that differ only in `relations` convert alike |
| ConverterProperties.RelationsIgnored | harness-yaml-converter/src/utils/converter.js:605-607 | a `2to1` conversion gives the same result with or without `relations` |
| ConverterProperties.ConvertToV1 | harness-yaml-converter/src/utils/converter.js:603-630 | a `2to1` success is the reverse conversion of the document without `relations` |
| ConverterProperties.DroppedRelations | harness-yaml-converter/src/utils/converter.js:605-607 | dropping `relations` keeps every field the reverse direction reads |
| ConverterProperties.ConvertNamed | harness-yaml-converter/src/utils/converter.js:615-629 | `convertYaml(..., '2to1')` names the result `sanitizeName` of the chosen name, in the 2.0 namespace or "default" |
| ConverterProperties.ConvertForward | harness-yaml-converter/src/utils/converter.js:608-610 | `1to2` succeeds exactly when `convertToIDP2` does on the document as loaded, and then returns its result |
| RoundTrip.ReverseLifted | harness-yaml-converter/src/utils/converter.js:341-344 | when the 2.0 spec has neither owner nor type, the 1.0 spec takes them from the top level, defaulting to "" |
| RoundTrip.NameCarried | harness-yaml-converter/src/utils/converter.js:40-44 | a forward result whose title is a string has a non-empty string name: the identifier for Component and Resource, the title or name for Template and API |
| RoundTrip.Return | harness-yaml-converter/src/utils/converter.js:579-629 | an entity shaped like a forward result converts back with the 1.0 kind and apiVersion, the sanitized 2.0 name, namespace "default", and its top-level owner and type |
| RoundTrip.ConvertReturnable | harness-yaml-converter/src/utils/converter.js:595-642 | the same holds through `convertYaml(..., '2to1')` |
| RoundTrip.ForwardReturnable | harness-yaml-converter/src/utils/converter.js:255-268 | every forward result of a well-formed document with a string-or-falsy title can be converted back, with the 2.0 kind and the lifted owner and type |
| RoundTrip.KindBack | harness-yaml-converter/src/utils/converter.js:579-592 | renaming a 1.0 kind to 2.0 and back gives the original kind |
| RoundTrip.RoundTrip | harness-yaml-converter/src/utils/converter.js:255-268 | 1.0 -> 2.0 -> 1.0 restores the kind, owner and type (defaulted to "") and gives namespace "default"; Template and API names come back sanitized, Component and Resource names as the identifier cut to 63 characters |
| RoundTrip.ConvertBack | harness-yaml-converter/src/utils/converter.js:603-630 | a reverse conversion that succeeds is what `2to1` returns |
| RoundTrip.ForwardDefinition | harness-yaml-converter/src/utils/converter.js:97-104 | the 2.0 API spec holds the rebuilt definition when truthy, else the 1.0 one |
| RoundTrip.ReverseDefinition | harness-yaml-converter/src/utils/converter.js:424-432 | the 1.0 API spec holds the rebuilt 2.0 definition when truthy |
| RoundTrip.DefinitionRoundTrip | harness-yaml-converter/src/utils/converter.js:424-432 | an API definition survives 1.0 -> 2.0 -> 1.0, a `$text` mapping as exactly `{ $text: v }` |
| RoundTrip.EntityCameBack | harness-yaml-converter/src/utils/converter.js:579-592 | the mapper round trip restores kind, name, namespace, owner and type as `RoundTrip` says |
| RoundTrip.ConvertRoundTrip | harness-yaml-converter/src/utils/converter.js:595-642 | on trees: `2to1` applied to the tree `1to2` returns for a well-formed document succeeds and restores what `RoundTrip` says |
| Examples.Stocopy2Returnable | harness-yaml-converter/src/test-conversion.js:9-23 | the 2.0 Component of the conversion test can be converted back, and its name is already sanitized |
| Examples.Stocopy2Converts | harness-yaml-converter/src/test-conversion.js:55-59 | converting it to 1.0 gives the apiVersion, kind, name, type and owner the test compares, and namespace "default" |
| Examples.SampleIdentifier | harness-yaml-converter/src/sample-entities.js:45-49 | `toIdentifier("artist-lookup")` is "artistlookup", the sample's identifier |
| Examples.ArtistLookupIdentifier | harness-yaml-converter/src/utils/converter.js:4-12 | `toIdentifier("Artist Lookup")` is "artistlookup" |
| Examples.ArtistLookupConverts | harness-yaml-converter/src/utils/converter.js:241-251 | a 1.0 Component named "Artist Lookup" converts to identifier and name "artistlookup", with type and owner lifted |
| Examples.PetstoreKeepsText | harness-yaml-converter/src/sample-entities.js:88-108 | an API named petstore whose spec holds the sample's type and `$text` definition gets that definition back unchanged from 1.0 -> 2.0 -> 1.0 |
| Examples.WidgetRefused | harness-yaml-converter/src/utils/converter.js:265-266 | an unknown kind is refused with the prefixed "Unsupported kind" message naming the four 1.0 kinds |

## Left out

- YAML parsing and dumping (js-yaml `load` and `dump`, line width, block style) are external. The model starts from the parsed tree, or from the parser's error message, and ends at the tree handed to `dump`. An error raised inside `dump` is not modelled.
- The React application, its editor, file download and clipboard only call `convertYaml`. The sample and test files are YAML text; a few documents from them appear in `Examples`.
- `restoreRelations` is never called, so it is not modelled.
- `Object.entries`, the rest-spread and `Object.keys` on a string or an array enumerate index keys. The model treats every non-mapping as having no entries. `Object.keys(...).length` is modelled on every value (`KeyCount`).
- JavaScript objects list integer-like keys first, whatever the insertion order. The model keeps plain insertion order.
- Inherited properties are not modelled. For example, `spec['constructor']` is truthy on every JavaScript object; the model reads only own keys.
- Numbers are integers; floating-point values are not modelled.
- Coercion.StringPositive: a decimal literal too small for a double, such as "1e-400", reads as 0 in JavaScript and is not positive; the model counts it positive, because it does not round to doubles.
- Coercion.Positive: a mapping with its own `toString` key makes the comparison throw a TypeError in JavaScript; the model reads every mapping as "[object Object]".
- RoundTrip.ConvertRoundTrip: the second call takes the tree the first returns. It assumes that dumping a result and loading it again gives back the same tree, which is js-yaml's behaviour and not modelled.
- `toLowerCase` is modelled for what survives the `[^a-z0-9]` filter: ASCII, and the two non-ASCII characters whose lower case holds an ASCII letter (U+0130 gives "i" and a combining dot, U+212A gives "k"). No other character lower-cases to anything in `[a-z0-9]`, so the filter sees nothing else. `sanitizeName` counts a character outside the Basic Multilingual Plane as two UTF-16 code units, as the regular expression does.
- Converter.Finish: the guard that creates a missing `metadata` is not modelled, because every reverse mapper builds one.
- The lemmas about converted entities assume that no mapping repeats a key, which js-yaml guarantees. Without that assumption a later duplicate would be invisible to `obj[k]` but still copied by `Object.entries`.
- RoundTrip.RoundTrip, RoundTrip.ConvertRoundTrip, RoundTrip.NameCarried and RoundTrip.ForwardReturnable require a Template's `metadata.title` to be a string or falsy. A truthy non-string title becomes the 2.0 `name`, and the way back then fails in `sanitizeName` with the `trim` TypeError.
- RoundTrip.RoundTrip does not promise that a Component or Resource gets its 1.0 `metadata.name` back. The forward direction replaces the name with its identifier, so only the identifier cut to 63 characters comes back.
