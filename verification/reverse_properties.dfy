/** What the reverse mappers promise: the 2.0 spec is merged over the
    `owner`/`type` defaults (overriding them for Workflows, filling only
    falsy fields otherwise), the unhandled 2.0 metadata passes through,
    and annotations, tags and links are emitted only when non-empty.
    Inputs have unique keys in `metadata` and `spec`, as every tree js-yaml
    loads has. */
module ReverseProperties {
  import opened Values
  import opened Errors
  import opened Merging
  import opened Identifiers
  import opened Coercion
  import opened Reverse
  import Forward

  // ---- the output of each mapper, field by field ----

  /** The metadata `convertWorkflowToTemplate` starts from. */
  function WorkflowBase(e: Value, sanitized: string): seq<Entry>
  {
    var md := Metadata(e);
    [
      Entry("name", Str(sanitized)),
      Entry("title", Or(Prop(Some(e), "name"), NameOf(e))),
      Entry("description", Or(Prop(md, "description"), Str(""))),
      Entry("annotations", Or(Prop(md, "annotations"), Obj([]))),
      Entry("tags", Or(Prop(md, "tags"), Arr([]))),
      Entry("namespace", Str(DefaultNamespace))
    ]
  }

  /** The metadata the API and Resource mappers start from. */
  function DescribedBase(e: Value): seq<Entry>
  {
    [
      Entry("name", NameOf(e)),
      Entry("namespace", Str(DefaultNamespace)),
      Entry("description", Or(Prop(Metadata(e), "description"), Str("")))
    ]
  }

  /** The metadata the Component mapper starts from. */
  function ComponentBase(e: Value): seq<Entry>
  {
    var metadata := [Entry("name", NameOf(e)), Entry("namespace", Str(DefaultNamespace))];
    if Truthy(Prop(Metadata(e), "description")) then Set(metadata, "description", Prop(Metadata(e), "description").value) else metadata
  }

  /** The spec the Component mapper merges the 2.0 spec into. */
  function ComponentSpecBase(e: Value): seq<Entry>
  {
    Pick(OwnerAndType(e), Spec(e), ComponentSpecFields)
  }

  lemma WorkflowShape(e: Value, out: Entity1)
    requires ConvertWorkflowToTemplate(e) == Success(out)
    ensures NameOf(e).Str?
    ensures out.metadata == Merge(WorkflowBase(e, SanitizeName(NameOf(e).s)), Entries(Metadata(e)), Except(WorkflowHandledMetadata))
    ensures out.spec == Merge(OwnerAndType(e), Entries(Spec(e)), Always)
  {
  }

  lemma APIShape(e: Value, out: Entity1)
    requires ConvertAPIToIDP1(e) == Success(out)
    ensures out.metadata == WithListsAndExtras(DescribedBase(e), Metadata(e))
    ensures !Truthy(Prop(Spec(e), "definition")) ==> out.spec == Merge(OwnerAndType(e), Entries(Spec(e)), WhenFalsy)
    ensures Truthy(Prop(Spec(e), "definition")) ==>
              out.spec == Set(Merge(OwnerAndType(e), Entries(Spec(e)), WhenFalsy), "definition",
                              Forward.Definition(Prop(Spec(e), "definition").value))
  {
  }

  lemma ResourceShape(e: Value, out: Entity1)
    requires ConvertResourceToIDP1(e) == Success(out)
    ensures out.metadata == WithListsAndExtras(DescribedBase(e), Metadata(e))
    ensures out.spec == Merge(OwnerAndType(e), Entries(Spec(e)), WhenFalsy)
  {
  }

  lemma ComponentShape(e: Value, out: Entity1)
    requires ConvertComponentToIDP1(e) == Success(out)
    ensures out.metadata == WithListsAndExtras(ComponentBase(e), Metadata(e))
    ensures out.spec == Merge(ComponentSpecBase(e), Entries(Spec(e)), WhenFalsy)
  {
  }

  // ---- spec ----

  /** Where `owner` and `type` come from in a Workflow's spec: the 2.0
      spec's own field when it has one, else the top-level field (or ""). */
  function WorkflowSpecValue(e: Value, k: string): Option<Value>
  {
    if Get(Entries(Spec(e)), k).Some? then Get(Entries(Spec(e)), k) else Get(OwnerAndType(e), k)
  }

  /** Where they come from for the other kinds: a truthy top-level field
      wins; otherwise the 2.0 spec's field, when it has one, replaces the
      falsy default. */
  function FilledSpecValue(e: Value, k: string): Option<Value>
  {
    if Truthy(Get(OwnerAndType(e), k)) || Get(Entries(Spec(e)), k) == None then Get(OwnerAndType(e), k)
    else Get(Entries(Spec(e)), k)
  }

  lemma OwnerAndTypeGet(e: Value)
    ensures Get(OwnerAndType(e), "owner") == Some(Or(Prop(Some(e), "owner"), Str("")))
    ensures Get(OwnerAndType(e), "type") == Some(Or(Prop(Some(e), "type"), Str("")))
    ensures forall k | k != "owner" && k != "type" :: Get(OwnerAndType(e), k) == None
  {
    GetFirst(OwnerAndType(e), 0);
    GetFirst(OwnerAndType(e), 1);
    forall k | k != "owner" && k != "type"
      ensures Get(OwnerAndType(e), k) == None
    {
      GetAbsent(OwnerAndType(e), k);
    }
  }

  /** Workflow: every 2.0 spec key is copied over the defaults. */
  lemma WorkflowSpec(e: Value, out: Entity1)
    requires UniqueParts(e)
    requires ConvertWorkflowToTemplate(e) == Success(out)
    ensures forall k | k != "owner" && k != "type" :: Get(out.spec, k) == Get(Entries(Spec(e)), k)
    ensures Get(out.spec, "owner") == WorkflowSpecValue(e, "owner")
    ensures Get(out.spec, "type") == WorkflowSpecValue(e, "type")
  {
    WorkflowShape(e, out);
    WorkflowSpecOf(e, out.spec);
  }

  lemma WorkflowSpecOf(e: Value, spec: seq<Entry>)
    requires UniqueKeys(Entries(Spec(e)))
    requires spec == Merge(OwnerAndType(e), Entries(Spec(e)), Always)
    ensures forall k | k != "owner" && k != "type" :: Get(spec, k) == Get(Entries(Spec(e)), k)
    ensures Get(spec, "owner") == WorkflowSpecValue(e, "owner")
    ensures Get(spec, "type") == WorkflowSpecValue(e, "type")
  {
    OwnerAndTypeGet(e);
    forall k
      ensures Get(spec, k) == WorkflowSpecValue(e, k)
    {
      MergeGet(OwnerAndType(e), Entries(Spec(e)), Always, k);
    }
  }

  /** `WhenFalsy` over the owner/type defaults, pointwise. */
  lemma FillGet(e: Value)
    requires UniqueKeys(Entries(Spec(e)))
    ensures forall k | k != "owner" && k != "type" ::
              Get(Merge(OwnerAndType(e), Entries(Spec(e)), WhenFalsy), k) == Get(Entries(Spec(e)), k)
    ensures forall k :: Get(Merge(OwnerAndType(e), Entries(Spec(e)), WhenFalsy), k) == FilledSpecValue(e, k)
  {
    OwnerAndTypeGet(e);
    forall k
      ensures Get(Merge(OwnerAndType(e), Entries(Spec(e)), WhenFalsy), k) == FilledSpecValue(e, k)
    {
      MergeGet(OwnerAndType(e), Entries(Spec(e)), WhenFalsy, k);
    }
  }

  /** Resource: the 2.0 spec passes through; `owner` and `type` only fill
      a falsy top-level value. */
  lemma ResourceSpec(e: Value, out: Entity1)
    requires UniqueParts(e)
    requires ConvertResourceToIDP1(e) == Success(out)
    ensures forall k | k != "owner" && k != "type" :: Get(out.spec, k) == Get(Entries(Spec(e)), k)
    ensures Get(out.spec, "owner") == FilledSpecValue(e, "owner")
    ensures Get(out.spec, "type") == FilledSpecValue(e, "type")
  {
    ResourceShape(e, out);
    FillGet(e);
  }

  /** API: as Resource, and a truthy `definition` is rebuilt. */
  lemma APISpec(e: Value, out: Entity1)
    requires UniqueParts(e)
    requires ConvertAPIToIDP1(e) == Success(out)
    ensures forall k | k != "owner" && k != "type" && k != "definition" :: Get(out.spec, k) == Get(Entries(Spec(e)), k)
    ensures Get(out.spec, "owner") == FilledSpecValue(e, "owner")
    ensures Get(out.spec, "type") == FilledSpecValue(e, "type")
    ensures Get(out.spec, "definition") ==
              if Truthy(Prop(Spec(e), "definition")) then Some(Forward.Definition(Prop(Spec(e), "definition").value))
              else Get(Entries(Spec(e)), "definition")
  {
    APIShape(e, out);
    FillGet(e);
  }

  /** The Component spec base holds the common fields the 2.0 spec has,
      over the owner/type defaults. */
  lemma ComponentSpecBaseGet(e: Value)
    ensures forall k | k != "owner" && k != "type" ::
              Get(ComponentSpecBase(e), k) == (if k in ComponentSpecFields then Prop(Spec(e), k) else None)
    ensures Get(ComponentSpecBase(e), "owner") == Get(OwnerAndType(e), "owner")
    ensures Get(ComponentSpecBase(e), "type") == Get(OwnerAndType(e), "type")
  {
    OwnerAndTypeGet(e);
    forall k
      ensures Get(ComponentSpecBase(e), k) ==
              (if k in ComponentSpecFields && Prop(Spec(e), k).Some? then Prop(Spec(e), k) else Get(OwnerAndType(e), k))
    {
      PickGet(OwnerAndType(e), Spec(e), ComponentSpecFields, k);
    }
  }

  /** Component: the common fields copied first change nothing — the
      2.0 spec passes through — and `owner`/`type` behave as for
      Resource. */
  lemma ComponentSpec(e: Value, out: Entity1)
    requires UniqueParts(e)
    requires ConvertComponentToIDP1(e) == Success(out)
    ensures forall k | k != "owner" && k != "type" :: Get(out.spec, k) == Get(Entries(Spec(e)), k)
    ensures Get(out.spec, "owner") == FilledSpecValue(e, "owner")
    ensures Get(out.spec, "type") == FilledSpecValue(e, "type")
  {
    ComponentShape(e, out);
    ComponentSpecBaseGet(e);
    var src := Entries(Spec(e));
    forall k
      ensures Get(out.spec, k) == Merged(WhenFalsy, k, Get(ComponentSpecBase(e), k), Get(src, k))
    {
      MergeGet(ComponentSpecBase(e), src, WhenFalsy, k);
    }
    forall k | k != "owner" && k != "type"
      ensures Get(out.spec, k) == Get(src, k)
    {
      assert Spec(e).Some? && Spec(e).value.Obj? ==> Prop(Spec(e), k) == Get(src, k);
    }
  }

  /** The promise all reverse mappers share about `owner`: a truthy
      top-level owner survives unless the 2.0 spec of a Workflow names
      one, and some owner is always emitted. */
  lemma ReverseOwner(e: Value, out: Entity1)
    requires UniqueParts(e)
    requires ConvertToIDP1(e) == Success(out)
    ensures Get(out.spec, "owner").Some?
    ensures Truthy(Prop(Some(e), "owner")) && !(HasKind(e, "Workflow") && Get(Entries(Spec(e)), "owner").Some?)
            ==> Get(out.spec, "owner") == Prop(Some(e), "owner")
  {
    OwnerAndTypeGet(e);
    if HasKind(e, "Workflow") {
      WorkflowSpec(e, out);
    } else if HasKind(e, "API") {
      APISpec(e, out);
    } else if HasKind(e, "Resource") {
      ResourceSpec(e, out);
    } else {
      ComponentSpec(e, out);
    }
  }

  // ---- metadata ----

  /** What `WithLists` stores under a key: the three lists only when
      non-empty, the base's value for every other key. */
  function ListValue(base: seq<Entry>, md: Option<Value>, k: string): Option<Value>
  {
    if k == "annotations" then
      (if Truthy(Prop(md, k)) && KeyCount(Prop(md, k).value) > 0 then Prop(md, k) else None)
    else if k == "tags" || k == "links" then
      (if Truthy(Prop(md, k)) && HasPositiveLength(Prop(md, k).value) then Prop(md, k) else None)
    else Get(base, k)
  }

  lemma WithListsAt(base: seq<Entry>, md: Option<Value>, k: string)
    requires Get(base, "annotations") == None && Get(base, "tags") == None && Get(base, "links") == None
    ensures Get(WithLists(base, md), k) == ListValue(base, md, k)
  {
  }

  /** The pass-through, key by key: an unhandled key of the 2.0 metadata
      replaces the base's; a handled one is left as `WithLists` set it. */
  lemma ExtrasAt(base: seq<Entry>, md: Option<Value>, k: string)
    requires UniqueKeys(Entries(md))
    ensures Get(WithListsAndExtras(base, md), k) ==
              if k !in HandledMetadata && Get(Entries(md), k).Some? then Get(Entries(md), k) else Get(WithLists(base, md), k)
  {
    MergeGet(WithLists(base, md), Entries(md), Except(HandledMetadata), k);
  }

  /** What the API, Resource and Component mappers promise of the
      metadata: unhandled 2.0 keys pass through (`name` and `namespace`
      included, replacing the defaults), and annotations, tags and links
      appear only when non-empty. */
  ghost predicate Carried(e: Value, m: seq<Entry>)
  {
    PassedThrough(e, m) && Named(e, m) && ListsWhenNonEmpty(Metadata(e), m)
  }

  ghost predicate PassedThrough(e: Value, m: seq<Entry>)
  {
    forall k | k !in HandledMetadata && k != "name" && k != "namespace" :: Get(m, k) == Get(Entries(Metadata(e)), k)
  }

  predicate Named(e: Value, m: seq<Entry>)
  {
    var src := Entries(Metadata(e));
    && Get(m, "name") == (if Get(src, "name").Some? then Get(src, "name") else Some(NameOf(e)))
    && Get(m, "namespace") == (if Get(src, "namespace").Some? then Get(src, "namespace") else Some(Str(DefaultNamespace)))
  }

  predicate ListsWhenNonEmpty(md: Option<Value>, m: seq<Entry>)
  {
    && Get(m, "annotations") ==
       (if Truthy(Prop(md, "annotations")) && KeyCount(Prop(md, "annotations").value) > 0 then Prop(md, "annotations") else None)
    && Get(m, "tags") == (if Truthy(Prop(md, "tags")) && HasPositiveLength(Prop(md, "tags").value) then Prop(md, "tags") else None)
    && Get(m, "links") == (if Truthy(Prop(md, "links")) && HasPositiveLength(Prop(md, "links").value) then Prop(md, "links") else None)
  }

  lemma PassedThroughFrom(e: Value, base: seq<Entry>)
    requires UniqueKeys(Entries(Metadata(e)))
    requires Get(base, "annotations") == None && Get(base, "tags") == None && Get(base, "links") == None
    requires forall k | k != "name" && k != "namespace" && k != "description" :: Get(base, k) == None
    ensures PassedThrough(e, WithListsAndExtras(base, Metadata(e)))
  {
    var md := Metadata(e);
    forall k | k !in HandledMetadata && k != "name" && k != "namespace"
      ensures Get(WithListsAndExtras(base, md), k) == Get(Entries(md), k)
    {
      WithListsAt(base, md, k);
      ExtrasAt(base, md, k);
    }
  }

  lemma NamedFrom(e: Value, base: seq<Entry>)
    requires UniqueKeys(Entries(Metadata(e)))
    requires Get(base, "annotations") == None && Get(base, "tags") == None && Get(base, "links") == None
    requires Get(base, "name") == Some(NameOf(e)) && Get(base, "namespace") == Some(Str(DefaultNamespace))
    ensures Named(e, WithListsAndExtras(base, Metadata(e)))
  {
    WithListsAt(base, Metadata(e), "name");
    ExtrasAt(base, Metadata(e), "name");
    WithListsAt(base, Metadata(e), "namespace");
    ExtrasAt(base, Metadata(e), "namespace");
  }

  lemma ListsFrom(base: seq<Entry>, md: Option<Value>)
    requires UniqueKeys(Entries(md))
    requires Get(base, "annotations") == None && Get(base, "tags") == None && Get(base, "links") == None
    ensures ListsWhenNonEmpty(md, WithListsAndExtras(base, md))
    ensures Get(WithListsAndExtras(base, md), "description") == Get(base, "description")
  {
    WithListsAt(base, md, "annotations");
    ExtrasAt(base, md, "annotations");
    WithListsAt(base, md, "tags");
    ExtrasAt(base, md, "tags");
    WithListsAt(base, md, "links");
    ExtrasAt(base, md, "links");
    WithListsAt(base, md, "description");
    ExtrasAt(base, md, "description");
  }

  /** Any base holding only the name, the default namespace and a
      description yields metadata that is `Carried`. */
  lemma CarriedFrom(e: Value, base: seq<Entry>)
    requires UniqueKeys(Entries(Metadata(e)))
    requires Get(base, "name") == Some(NameOf(e)) && Get(base, "namespace") == Some(Str(DefaultNamespace))
    requires forall k | k != "name" && k != "namespace" && k != "description" :: Get(base, k) == None
    ensures Carried(e, WithListsAndExtras(base, Metadata(e)))
    ensures Get(WithListsAndExtras(base, Metadata(e)), "description") == Get(base, "description")
  {
    assert Get(base, "annotations") == None && Get(base, "tags") == None && Get(base, "links") == None;
    PassedThroughFrom(e, base);
    NamedFrom(e, base);
    ListsFrom(base, Metadata(e));
  }

  lemma DescribedBaseGet(e: Value)
    ensures Get(DescribedBase(e), "name") == Some(NameOf(e))
    ensures Get(DescribedBase(e), "namespace") == Some(Str(DefaultNamespace))
    ensures Get(DescribedBase(e), "description") == Some(Or(Prop(Metadata(e), "description"), Str("")))
    ensures forall k | k != "name" && k != "namespace" && k != "description" :: Get(DescribedBase(e), k) == None
  {
    var base := DescribedBase(e);
    GetFirst(base, 0);
    GetFirst(base, 1);
    GetFirst(base, 2);
    forall k | k != "name" && k != "namespace" && k != "description"
      ensures Get(base, k) == None
    {
      GetAbsent(base, k);
    }
  }

  lemma ComponentBaseGet(e: Value)
    ensures Get(ComponentBase(e), "name") == Some(NameOf(e))
    ensures Get(ComponentBase(e), "namespace") == Some(Str(DefaultNamespace))
    ensures Get(ComponentBase(e), "description") ==
              (if Truthy(Prop(Metadata(e), "description")) then Prop(Metadata(e), "description") else None)
    ensures forall k | k != "name" && k != "namespace" && k != "description" :: Get(ComponentBase(e), k) == None
  {
    var metadata := [Entry("name", NameOf(e)), Entry("namespace", Str(DefaultNamespace))];
    GetFirst(metadata, 0);
    GetFirst(metadata, 1);
    forall k | k != "name" && k != "namespace"
      ensures Get(metadata, k) == None
    {
      GetAbsent(metadata, k);
    }
  }

  /** API, Resource, Component: the metadata is `Carried`, and the
      description is the 2.0 one (or "" for API and Resource, absent for a
      Component without one). */
  lemma ReverseMetadata(e: Value, out: Entity1)
    requires UniqueParts(e)
    requires ConvertToIDP1(e) == Success(out)
    requires !HasKind(e, "Workflow")
    ensures Carried(e, out.metadata)
    ensures Get(out.metadata, "description") ==
              if HasKind(e, "Component") && !Truthy(Prop(Metadata(e), "description")) then None
              else Some(Or(Prop(Metadata(e), "description"), Str("")))
  {
    if HasKind(e, "Component") {
      ComponentShape(e, out);
      ComponentBaseGet(e);
      CarriedFrom(e, ComponentBase(e));
    } else if HasKind(e, "API") {
      APIShape(e, out);
      DescribedBaseGet(e);
      CarriedFrom(e, DescribedBase(e));
    } else {
      ResourceShape(e, out);
      DescribedBaseGet(e);
      CarriedFrom(e, DescribedBase(e));
    }
  }

  lemma WorkflowBaseGet(e: Value, sanitized: string)
    ensures Get(WorkflowBase(e, sanitized), "name") == Some(Str(sanitized))
    ensures Get(WorkflowBase(e, sanitized), "title") == Some(Or(Prop(Some(e), "name"), NameOf(e)))
    ensures Get(WorkflowBase(e, sanitized), "namespace") == Some(Str(DefaultNamespace))
  {
    var base := WorkflowBase(e, sanitized);
    GetFirst(base, 0);
    GetFirst(base, 1);
    GetFirst(base, 5);
  }

  lemma WorkflowBaseDefaults(e: Value, sanitized: string)
    ensures Get(WorkflowBase(e, sanitized), "description") == Some(Or(Prop(Metadata(e), "description"), Str("")))
    ensures Get(WorkflowBase(e, sanitized), "annotations") == Some(Or(Prop(Metadata(e), "annotations"), Obj([])))
    ensures Get(WorkflowBase(e, sanitized), "tags") == Some(Or(Prop(Metadata(e), "tags"), Arr([])))
  {
    var base := WorkflowBase(e, sanitized);
    GetFirst(base, 2);
    GetFirst(base, 3);
    GetFirst(base, 4);
  }

  lemma WorkflowBaseAbsent(e: Value, sanitized: string, k: string)
    requires k !in WorkflowBaseKeys
    ensures Get(WorkflowBase(e, sanitized), k) == None
  {
    GetAbsent(WorkflowBase(e, sanitized), k);
  }

  /** The Workflow metadata merge, key by key. */
  lemma WorkflowMergeAt(e: Value, sanitized: string, k: string)
    requires UniqueKeys(Entries(Metadata(e)))
    ensures Get(WorkflowMerge(e, sanitized), k) ==
              if k !in WorkflowHandledMetadata && Get(Entries(Metadata(e)), k).Some? then Get(Entries(Metadata(e)), k)
              else Get(WorkflowBase(e, sanitized), k)
  {
    MergeGet(WorkflowBase(e, sanitized), Entries(Metadata(e)), Except(WorkflowHandledMetadata), k);
  }

  function WorkflowMerge(e: Value, sanitized: string): seq<Entry>
  {
    Merge(WorkflowBase(e, sanitized), Entries(Metadata(e)), Except(WorkflowHandledMetadata))
  }

  /** The keys a Workflow's 1.0 metadata takes from its base. */
  const WorkflowBaseKeys := ["name", "title", "description", "annotations", "tags", "namespace"]

  lemma WorkflowPassedThrough(e: Value, sanitized: string)
    requires UniqueKeys(Entries(Metadata(e)))
    ensures forall k | k !in WorkflowBaseKeys :: Get(WorkflowMerge(e, sanitized), k) == Get(Entries(Metadata(e)), k)
  {
    forall k | k !in WorkflowBaseKeys
      ensures Get(WorkflowMerge(e, sanitized), k) == Get(Entries(Metadata(e)), k)
    {
      WorkflowBaseAbsent(e, sanitized, k);
      WorkflowMergeAt(e, sanitized, k);
    }
  }

  /** `name`, `title` and `namespace` keep the base's value unless the
      2.0 metadata has the key. */
  lemma WorkflowNamed(e: Value, sanitized: string)
    requires UniqueKeys(Entries(Metadata(e)))
    ensures Get(WorkflowMerge(e, sanitized), "name") ==
              (if Get(Entries(Metadata(e)), "name").Some? then Get(Entries(Metadata(e)), "name") else Some(Str(sanitized)))
    ensures Get(WorkflowMerge(e, sanitized), "title") ==
              (if Get(Entries(Metadata(e)), "title").Some? then Get(Entries(Metadata(e)), "title") else Some(Or(Prop(Some(e), "name"), NameOf(e))))
    ensures Get(WorkflowMerge(e, sanitized), "namespace") ==
              (if Get(Entries(Metadata(e)), "namespace").Some? then Get(Entries(Metadata(e)), "namespace") else Some(Str(DefaultNamespace)))
  {
    WorkflowBaseGet(e, sanitized);
    WorkflowMergeAt(e, sanitized, "name");
    WorkflowMergeAt(e, sanitized, "title");
    WorkflowMergeAt(e, sanitized, "namespace");
  }

  /** `description`, `annotations` and `tags` are always emitted, with
      their `|| ''`, `|| {}` and `|| []` defaults, and the pass-through
      never overwrites them. */
  lemma WorkflowDefaults(e: Value, sanitized: string)
    requires UniqueKeys(Entries(Metadata(e)))
    ensures Get(WorkflowMerge(e, sanitized), "description") == Some(Or(Prop(Metadata(e), "description"), Str("")))
    ensures Get(WorkflowMerge(e, sanitized), "annotations") == Some(Or(Prop(Metadata(e), "annotations"), Obj([])))
    ensures Get(WorkflowMerge(e, sanitized), "tags") == Some(Or(Prop(Metadata(e), "tags"), Arr([])))
  {
    WorkflowBaseDefaults(e, sanitized);
    WorkflowMergeAt(e, sanitized, "description");
    WorkflowMergeAt(e, sanitized, "annotations");
    WorkflowMergeAt(e, sanitized, "tags");
  }

  /** Workflow: every 2.0 metadata key but annotations, tags and
      description passes through, `links` included; `name` starts as the
      sanitized name and `title` as the unsanitized one. */
  lemma WorkflowMetadata(e: Value, out: Entity1)
    requires UniqueParts(e)
    requires ConvertWorkflowToTemplate(e) == Success(out)
    ensures forall k | k !in WorkflowBaseKeys :: Get(out.metadata, k) == Get(Entries(Metadata(e)), k)
    ensures Get(out.metadata, "name") ==
              (if Get(Entries(Metadata(e)), "name").Some? then Get(Entries(Metadata(e)), "name") else Some(Str(SanitizeName(NameOf(e).s))))
    ensures Get(out.metadata, "title") ==
              (if Get(Entries(Metadata(e)), "title").Some? then Get(Entries(Metadata(e)), "title") else Some(Or(Prop(Some(e), "name"), NameOf(e))))
    ensures Get(out.metadata, "namespace") ==
              (if Get(Entries(Metadata(e)), "namespace").Some? then Get(Entries(Metadata(e)), "namespace") else Some(Str(DefaultNamespace)))
    ensures Get(out.metadata, "description") == Some(Or(Prop(Metadata(e), "description"), Str("")))
    ensures Get(out.metadata, "annotations") == Some(Or(Prop(Metadata(e), "annotations"), Obj([])))
    ensures Get(out.metadata, "tags") == Some(Or(Prop(Metadata(e), "tags"), Arr([])))
  {
    WorkflowShape(e, out);
    WorkflowPassedThrough(e, SanitizeName(NameOf(e).s));
    WorkflowNamed(e, SanitizeName(NameOf(e).s));
    WorkflowDefaults(e, SanitizeName(NameOf(e).s));
  }
}
