/** IDP 2.0 -> IDP 1.0: the four reverse mappers and their dispatcher.  The
    top-level `name`/`identifier`, `owner` and `type` move back under
    `metadata` and `spec`; 2.0 metadata and spec keys pass through. */
module Reverse {
  import opened Values
  import opened Errors
  import opened Merging
  import opened Identifiers
  import opened Coercion
  import Forward

  const BackstageApiVersion := "backstage.io/v1alpha1"
  const ScaffolderApiVersion := "scaffolder.backstage.io/v1beta3"
  const DefaultNamespace := "default"

  /** The 2.0 metadata keys the API, Resource and Component mappers handle
      themselves rather than passing through. */
  const HandledMetadata := ["annotations", "tags", "description", "links"]

  /** Those the Workflow mapper handles (`links` passes through). */
  const WorkflowHandledMetadata := ["annotations", "tags", "description"]

  /** The Component spec fields copied before the generic pass-through. */
  const ComponentSpecFields := ["lifecycle", "system", "domain", "providesApis"]

  /** An IDP 1.0 entity, in the key order the mappers build it. */
  datatype Entity1 = Entity1(apiVersion: string, kind: string, metadata: seq<Entry>, spec: seq<Entry>)
  {
    function ToValue(): (r: Value)
      ensures Kind(r) == Some(Str(kind)) && Prop(Some(r), "apiVersion") == Some(Str(apiVersion))
      ensures Metadata(r) == Some(Obj(metadata)) && Spec(r) == Some(Obj(spec))
      ensures Prop(Some(r), "relations") == None
    {
      var fs := [
        Entry("apiVersion", Str(apiVersion)),
        Entry("kind", Str(kind)),
        Entry("metadata", Obj(metadata)),
        Entry("spec", Obj(spec))
      ];
      GetFirst(fs, 0);
      GetFirst(fs, 1);
      GetFirst(fs, 2);
      GetFirst(fs, 3);
      GetAbsent(fs, "relations");
      Obj(fs)
    }
  }

  /** `entity.name || identifierToName(entity.identifier) || 'unknown'`:
      never falsy, since `identifierToName` never is. */
  function NameOf(e: Value): (r: Value)
    ensures Truthy(Some(r))
    ensures r == Or(Prop(Some(e), "name"), Or(Prop(Some(e), "identifier"), Str(Unknown)))
  {
    Or(Some(Or(Prop(Some(e), "name"), IdentifierToName(Prop(Some(e), "identifier")))), Str(Unknown))
  }

  /** `{ owner: entity.owner || '', type: entity.type || '' }`: the spec
      every reverse mapper starts from. */
  function OwnerAndType(e: Value): seq<Entry>
  {
    [Entry("owner", Or(Prop(Some(e), "owner"), Str(""))), Entry("type", Or(Prop(Some(e), "type"), Str("")))]
  }

  /** The metadata tail shared by the API, Resource and Component mappers:
      annotations, tags and links only when non-empty, then every other
      2.0 metadata key, which may overwrite `name` and `namespace`. */
  function WithListsAndExtras(metadata: seq<Entry>, md: Option<Value>): seq<Entry>
  {
    var m := WithLists(metadata, md);
    if Truthy(md) then Merge(m, Entries(md), Except(HandledMetadata)) else m
  }

  /** `if (annotations && Object.keys(annotations).length > 0)`,
      `if (tags && tags.length > 0)`, `if (links && links.length > 0)`. */
  function WithLists(metadata: seq<Entry>, md: Option<Value>): seq<Entry>
  {
    var annotations := Prop(md, "annotations");
    var m := if Truthy(annotations) && KeyCount(annotations.value) > 0 then Set(metadata, "annotations", annotations.value) else metadata;
    var tags := Prop(md, "tags");
    var m := if Truthy(tags) && HasPositiveLength(tags.value) then Set(m, "tags", tags.value) else m;
    var links := Prop(md, "links");
    if Truthy(links) && HasPositiveLength(links.value) then Set(m, "links", links.value) else m
  }

  /** `convertWorkflowToTemplate`. */
  function ConvertWorkflowToTemplate(e: Value): (r: Result<Entity1>)
    ensures r.Success? <==> HasKind(e, "Workflow") && Nameable(Some(NameOf(e)))
    ensures !HasKind(e, "Workflow") ==> r == Failure(InvalidKind("Workflow", ToV1))
    ensures r.Success? ==> r.value.kind == "Template" && r.value.apiVersion == ScaffolderApiVersion
  {
    if !HasKind(e, "Workflow") then Failure(InvalidKind("Workflow", ToV1))
    else
      var md := Metadata(e);
      var name := NameOf(e);
      var sanitized :- SanitizeNameOf(Some(name));
      var metadata := [
        Entry("name", Str(sanitized)),
        Entry("title", Or(Prop(Some(e), "name"), name)),
        Entry("description", Or(Prop(md, "description"), Str(""))),
        Entry("annotations", Or(Prop(md, "annotations"), Obj([]))),
        Entry("tags", Or(Prop(md, "tags"), Arr([]))),
        Entry("namespace", Str(DefaultNamespace))
      ];
      var metadata := if Truthy(md) then Merge(metadata, Entries(md), Except(WorkflowHandledMetadata)) else metadata;
      var spec := if Truthy(Spec(e)) then Merge(OwnerAndType(e), Entries(Spec(e)), Always) else OwnerAndType(e);
      Success(Entity1(ScaffolderApiVersion, "Template", metadata, spec))
  }

  /** `convertAPIToIDP1`. */
  function ConvertAPIToIDP1(e: Value): (r: Result<Entity1>)
    ensures r.Success? <==> HasKind(e, "API")
    ensures !HasKind(e, "API") ==> r == Failure(InvalidKind("API", ToV1))
    ensures r.Success? ==> r.value.kind == "API" && r.value.apiVersion == BackstageApiVersion
  {
    if !HasKind(e, "API") then Failure(InvalidKind("API", ToV1))
    else
      var md := Metadata(e);
      var metadata := [
        Entry("name", NameOf(e)),
        Entry("namespace", Str(DefaultNamespace)),
        Entry("description", Or(Prop(md, "description"), Str("")))
      ];
      var spec :=
        if !Truthy(Spec(e)) then OwnerAndType(e)
        else
          var merged := Merge(OwnerAndType(e), Entries(Spec(e)), WhenFalsy);
          var definition := Prop(Spec(e), "definition");
          if Truthy(definition) then Set(merged, "definition", Forward.Definition(definition.value)) else merged;
      Success(Entity1(BackstageApiVersion, "API", WithListsAndExtras(metadata, md), spec))
  }

  /** `convertResourceToIDP1`. */
  function ConvertResourceToIDP1(e: Value): (r: Result<Entity1>)
    ensures r.Success? <==> HasKind(e, "Resource")
    ensures !HasKind(e, "Resource") ==> r == Failure(InvalidKind("Resource", ToV1))
    ensures r.Success? ==> r.value.kind == "Resource" && r.value.apiVersion == BackstageApiVersion
  {
    if !HasKind(e, "Resource") then Failure(InvalidKind("Resource", ToV1))
    else
      var md := Metadata(e);
      var metadata := [
        Entry("name", NameOf(e)),
        Entry("namespace", Str(DefaultNamespace)),
        Entry("description", Or(Prop(md, "description"), Str("")))
      ];
      var spec := if Truthy(Spec(e)) then Merge(OwnerAndType(e), Entries(Spec(e)), WhenFalsy) else OwnerAndType(e);
      Success(Entity1(BackstageApiVersion, "Resource", WithListsAndExtras(metadata, md), spec))
  }

  /** `convertComponentToIDP1`: `description` only when truthy, and the
      four common spec fields copied before the pass-through. */
  function ConvertComponentToIDP1(e: Value): (r: Result<Entity1>)
    ensures r.Success? <==> HasKind(e, "Component")
    ensures !HasKind(e, "Component") ==> r == Failure(InvalidKind("Component", ToV1))
    ensures r.Success? ==> r.value.kind == "Component" && r.value.apiVersion == BackstageApiVersion
  {
    if !HasKind(e, "Component") then Failure(InvalidKind("Component", ToV1))
    else
      var md := Metadata(e);
      var metadata := [Entry("name", NameOf(e)), Entry("namespace", Str(DefaultNamespace))];
      var metadata := if Truthy(Prop(md, "description")) then Set(metadata, "description", Prop(md, "description").value) else metadata;
      var spec := Pick(OwnerAndType(e), Spec(e), ComponentSpecFields);
      var spec := if Truthy(Spec(e)) then Merge(spec, Entries(Spec(e)), WhenFalsy) else spec;
      Success(Entity1(BackstageApiVersion, "Component", WithListsAndExtras(metadata, md), spec))
  }

  /** The four 2.0 kinds `convertToIDP1` accepts. */
  predicate IsV2Kind(kind: Option<Value>)
  {
    kind == Some(Str("Workflow")) || kind == Some(Str("API"))
    || kind == Some(Str("Resource")) || kind == Some(Str("Component"))
  }

  /** The 1.0 kind each 2.0 kind becomes: only Workflow is renamed. */
  function V1Kind(kind: string): string
  {
    if kind == "Workflow" then "Template" else kind
  }

  /** `convertToIDP1`: dispatch on `kind`. */
  function ConvertToIDP1(e: Value): (r: Result<Entity1>)
    ensures !IsV2Kind(Kind(e)) ==> r == Failure(UnsupportedKind(Kind(e), ToV1))
    ensures IsV2Kind(Kind(e)) && !HasKind(e, "Workflow") ==> r.Success?
    ensures r.Success? ==>
      (IsV2Kind(Kind(e))
       && r.value.kind == V1Kind(Kind(e).value.s)
       && r.value.apiVersion == (if HasKind(e, "Workflow") then ScaffolderApiVersion else BackstageApiVersion))
  {
    var kind := Kind(e);
    if kind == Some(Str("Workflow")) then ConvertWorkflowToTemplate(e)
    else if kind == Some(Str("API")) then ConvertAPIToIDP1(e)
    else if kind == Some(Str("Resource")) then ConvertResourceToIDP1(e)
    else if kind == Some(Str("Component")) then ConvertComponentToIDP1(e)
    else Failure(UnsupportedKind(kind, ToV1))
  }
}
