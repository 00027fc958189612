/** IDP 1.0 -> IDP 2.0: the four forward mappers and their dispatcher.  A
    1.0 entity nests everything under `metadata` and `spec`; the 2.0
    entity lifts `type` and `owner` out of `spec` and names itself with an
    `identifier` and a `name` at the top level. */
module Forward {
  import opened Values
  import opened Errors
  import opened Merging
  import opened Identifiers

  const ApiVersion := "harness.io/v1"
  const SourceLocation := "backstage.io/source-location"

  /** The provenance annotations Backstage adds, dropped from Components
      and Resources. */
  const ManagedAnnotations := [
    "backstage.io/managed-by-location",
    "backstage.io/managed-by-origin-location",
    "backstage.io/view-url",
    "backstage.io/edit-url"
  ]

  /** The custom Component metadata fields carried over (`uid` and `etag`
      are left behind by omission). */
  const PreservedMetadata := [
    "codeCoverageScore", "harnessData", "releaseVersion", "customField", "coverage",
    "projectIdentifier", "orgIdentifier", "branch", "version", "teamLead", "customTags"
  ]

  /** The spec keys that move to the top level. */
  const Lifted := ["owner", "type"]

  /** An IDP 2.0 entity, in the key order the mappers build it. */
  datatype Entity2 = Entity2(
    apiVersion: string,
    kind: string,
    entityType: Value,
    identifier: string,
    name: Value,
    owner: Value,
    spec: seq<Entry>,
    metadata: seq<Entry>)
  {
    function ToValue(): (r: Value)
      ensures Kind(r) == Some(Str(kind)) && Prop(Some(r), "apiVersion") == Some(Str(apiVersion))
      ensures Prop(Some(r), "type") == Some(entityType) && Prop(Some(r), "owner") == Some(owner)
      ensures Prop(Some(r), "identifier") == Some(Str(identifier)) && Prop(Some(r), "name") == Some(name)
      ensures Metadata(r) == Some(Obj(metadata)) && Spec(r) == Some(Obj(spec))
      ensures Prop(Some(r), "relations") == None
    {
      var e7 := [Entry("metadata", Obj(metadata))];
      var e6 := [Entry("spec", Obj(spec))] + e7;
      var e5 := [Entry("owner", owner)] + e6;
      var e4 := [Entry("name", name)] + e5;
      var e3 := [Entry("identifier", Str(identifier))] + e4;
      var e2 := [Entry("type", entityType)] + e3;
      var e1 := [Entry("kind", Str(kind))] + e2;
      var fs := [Entry("apiVersion", Str(apiVersion))] + e1;
      Cons(Entry("metadata", Obj(metadata)), []);
      Cons(Entry("spec", Obj(spec)), e7);
      Cons(Entry("owner", owner), e6);
      Cons(Entry("name", name), e5);
      Cons(Entry("identifier", Str(identifier)), e4);
      Cons(Entry("type", entityType), e3);
      Cons(Entry("kind", Str(kind)), e2);
      Cons(Entry("apiVersion", Str(apiVersion)), e1);
      Obj(fs)
    }
  }

  /** The annotation policy is per kind: Templates and APIs keep only the
      source location, Components and Resources drop the four provenance
      keys and keep the rest. */
  function AnnotationPolicy(kind: string): Policy
  {
    if kind == "Template" || kind == "API" then Only(SourceLocation) else Except(ManagedAnnotations)
  }

  /** `const annotations = entity.metadata?.annotations || {}` and the
      filtering loop over its entries. */
  function FilterAnnotations(metadata: Option<Value>, p: Policy): seq<Entry>
  {
    Merge([], Entries(Some(Or(Prop(metadata, "annotations"), Obj([])))), p)
  }

  /** `entity.spec?.owner || ''`. */
  function OwnerOf(spec: Option<Value>): Value
  {
    Or(Prop(spec, "owner"), Str(""))
  }

  /** `entity.spec?.type || ''`. */
  function TypeOf(spec: Option<Value>): Value
  {
    Or(Prop(spec, "type"), Str(""))
  }

  /** `const { owner, type, ...restSpec } = spec`. */
  function RestSpec(spec: Option<Value>): seq<Entry>
  {
    Merge([], Entries(spec), Except(Lifted))
  }

  /** An API `definition` that is a mapping with a truthy `$text` is
      rebuilt as exactly `{ $text: ... }`; any other definition is kept. */
  function Definition(d: Value): (r: Value)
    ensures d.Obj? && Truthy(Get(d.entries, "$text")) ==> r == Obj([Entry("$text", Get(d.entries, "$text").value)])
    ensures !(d.Obj? && Truthy(Get(d.entries, "$text"))) ==> r == d
  {
    if d.Obj? && Truthy(Get(d.entries, "$text")) then Obj([Entry("$text", Get(d.entries, "$text").value)])
    else d
  }

  /** `convertTemplate`: a 1.0 Template becomes a 2.0 Workflow. */
  function ConvertTemplate(e: Value): (r: Result<Entity2>)
    ensures r.Success? <==> HasKind(e, "Template") && Nameable(Prop(Metadata(e), "name"))
    ensures !HasKind(e, "Template") ==> r == Failure(InvalidKind("Template", ToV2))
    ensures r.Success? ==> r.value.kind == "Workflow" && r.value.apiVersion == ApiVersion
    ensures r.Success? ==> IdentifierOf(Prop(Metadata(e), "name")) == Success(r.value.identifier)
    ensures r.Success? ==> r.value.name == Or(Prop(Metadata(e), "title"), Or(Prop(Metadata(e), "name"), Str(Unknown)))
  {
    if !HasKind(e, "Template") then Failure(InvalidKind("Template", ToV2))
    else
      var md := Metadata(e);
      var spec := Spec(e);
      var metadata := [
        Entry("annotations", Obj(FilterAnnotations(md, AnnotationPolicy("Template")))),
        Entry("tags", Or(Prop(md, "tags"), Arr([])))
      ];
      var metadata := if Truthy(Prop(md, "description")) then Set(metadata, "description", Prop(md, "description").value) else metadata;
      var rawName := Or(Prop(md, "name"), Str(Unknown));
      var identifier :- IdentifierOf(Some(rawName));
      DefaultedName(Prop(md, "name"));
      var name := Or(Prop(md, "title"), rawName);
      Success(Entity2(ApiVersion, "Workflow", TypeOf(spec), identifier, name, OwnerOf(spec),
                      RestSpec(Some(Or(spec, Obj([])))), metadata))
  }

  /** `convertAPI`. */
  function ConvertAPI(e: Value): (r: Result<Entity2>)
    ensures r.Success? <==> HasKind(e, "API") && Nameable(Prop(Metadata(e), "name"))
    ensures !HasKind(e, "API") ==> r == Failure(InvalidKind("API", ToV2))
    ensures r.Success? ==> r.value.kind == "API" && r.value.apiVersion == ApiVersion
    ensures r.Success? ==> IdentifierOf(Prop(Metadata(e), "name")) == Success(r.value.identifier)
    ensures r.Success? ==> r.value.name == Or(Prop(Metadata(e), "name"), Str(Unknown))
  {
    if !HasKind(e, "API") then Failure(InvalidKind("API", ToV2))
    else
      var md := Metadata(e);
      var spec := Spec(e);
      var metadata := [
        Entry("description", Or(Prop(md, "description"), Str(""))),
        Entry("annotations", Obj(FilterAnnotations(md, AnnotationPolicy("API")))),
        Entry("links", Or(Prop(md, "links"), Arr([]))),
        Entry("tags", Or(Prop(md, "tags"), Arr([])))
      ];
      var outSpec :=
        if !Truthy(spec) then []
        else
          var rest := RestSpec(spec);
          var definition := Prop(spec, "definition");
          if Truthy(definition) then Set(rest, "definition", Definition(definition.value)) else rest;
      var identifier :- IdentifierOf(Prop(md, "name"));
      Success(Entity2(ApiVersion, "API", TypeOf(spec), identifier, Or(Prop(md, "name"), Str(Unknown)),
                      OwnerOf(spec), outSpec, metadata))
  }

  /** `convertResource`: note the deny-list annotation policy. */
  function ConvertResource(e: Value): (r: Result<Entity2>)
    ensures r.Success? <==> HasKind(e, "Resource") && Nameable(Prop(Metadata(e), "name"))
    ensures !HasKind(e, "Resource") ==> r == Failure(InvalidKind("Resource", ToV2))
    ensures r.Success? ==> r.value.kind == "Resource" && r.value.apiVersion == ApiVersion
    ensures r.Success? ==> IdentifierOf(Prop(Metadata(e), "name")) == Success(r.value.identifier)
    ensures r.Success? ==> r.value.name == Str(r.value.identifier)
  {
    if !HasKind(e, "Resource") then Failure(InvalidKind("Resource", ToV2))
    else
      var md := Metadata(e);
      var spec := Spec(e);
      var metadata := [Entry("annotations", Obj(FilterAnnotations(md, AnnotationPolicy("Resource"))))];
      var metadata := if Truthy(Prop(md, "description")) then Set(metadata, "description", Prop(md, "description").value) else metadata;
      var outSpec := if Truthy(spec) then Pick([], spec, ["lifecycle", "system"]) else [];
      var identifier :- IdentifierOf(Prop(md, "name"));
      // `name: toIdentifier(entity.metadata?.name)` computes the same string again
      Success(Entity2(ApiVersion, "Resource", TypeOf(spec), identifier, Str(identifier), OwnerOf(spec), outSpec, metadata))
  }

  /** `convertComponent`: note that `name` is the identifier too. */
  function ConvertComponent(e: Value): (r: Result<Entity2>)
    ensures r.Success? <==> HasKind(e, "Component") && Nameable(Prop(Metadata(e), "name"))
    ensures !HasKind(e, "Component") ==> r == Failure(InvalidKind("Component", ToV2))
    ensures r.Success? ==> r.value.kind == "Component" && r.value.apiVersion == ApiVersion
    ensures r.Success? ==> IdentifierOf(Prop(Metadata(e), "name")) == Success(r.value.identifier)
    ensures r.Success? ==> r.value.name == Str(r.value.identifier)
  {
    if !HasKind(e, "Component") then Failure(InvalidKind("Component", ToV2))
    else
      var md := Metadata(e);
      var spec := Spec(e);
      var metadata := [
        Entry("annotations", Obj(FilterAnnotations(md, AnnotationPolicy("Component")))),
        Entry("links", Or(Prop(md, "links"), Arr([]))),
        Entry("tags", Or(Prop(md, "tags"), Arr([])))
      ];
      var metadata := Pick(metadata, md, PreservedMetadata);
      var outSpec :=
        if !Truthy(spec) then []
        else
          var explicit := Pick([], spec, ["lifecycle", "providesApis", "domain", "system"]);
          Merge(explicit, Entries(spec), AbsentExcept(Lifted));
      var identifier :- IdentifierOf(Prop(md, "name"));
      // `name: toIdentifier(entity.metadata?.name)` computes the same string again
      Success(Entity2(ApiVersion, "Component", TypeOf(spec), identifier, Str(identifier), OwnerOf(spec), outSpec, metadata))
  }

  /** The four 1.0 kinds `convertToIDP2` accepts. */
  predicate IsV1Kind(kind: Option<Value>)
  {
    kind == Some(Str("Component")) || kind == Some(Str("Template"))
    || kind == Some(Str("API")) || kind == Some(Str("Resource"))
  }

  /** The 2.0 kind each 1.0 kind becomes: only Template is renamed. */
  function V2Kind(kind: string): string
  {
    if kind == "Template" then "Workflow" else kind
  }

  /** `convertToIDP2`: dispatch on `kind`. */
  function ConvertToIDP2(e: Value): (r: Result<Entity2>)
    ensures !IsV1Kind(Kind(e)) ==> r == Failure(UnsupportedKind(Kind(e), ToV2))
    ensures IsV1Kind(Kind(e)) ==>
      (r.Success? <==> Nameable(Prop(Metadata(e), "name")))
    ensures r.Success? ==>
      (IsV1Kind(Kind(e))
       && r.value.kind == V2Kind(Kind(e).value.s)
       && r.value.apiVersion == ApiVersion
       && IdentifierOf(Prop(Metadata(e), "name")) == Success(r.value.identifier))
  {
    var kind := Kind(e);
    if kind == Some(Str("Component")) then ConvertComponent(e)
    else if kind == Some(Str("Template")) then ConvertTemplate(e)
    else if kind == Some(Str("API")) then ConvertAPI(e)
    else if kind == Some(Str("Resource")) then ConvertResource(e)
    else Failure(UnsupportedKind(kind, ToV2))
  }
}
