/** What the forward mappers promise: annotation filtering by kind, the
    lifting of `owner` and `type`, and what each kind keeps of `spec` and
    `metadata`.  Inputs are well-formed (no mapping repeats a key), as
    every tree js-yaml loads is. */
module ForwardProperties {
  import opened Values
  import opened Errors
  import opened Merging
  import opened Identifiers
  import opened Forward

  function InputAnnotations(e: Value): seq<Entry>
  {
    Entries(Prop(Metadata(e), "annotations"))
  }

  function OutputAnnotations(out: Entity2): seq<Entry>
  {
    Entries(Get(out.metadata, "annotations"))
  }

  // ---- the output of each mapper, field by field ----

  lemma TemplateShape(e: Value, out: Entity2)
    requires ConvertTemplate(e) == Success(out)
    ensures out.owner == OwnerOf(Spec(e)) && out.entityType == TypeOf(Spec(e))
    ensures out.spec == RestSpec(Some(Or(Spec(e), Obj([]))))
    ensures Get(out.metadata, "annotations") == Some(Obj(FilterAnnotations(Metadata(e), AnnotationPolicy("Template"))))
  {
  }

  lemma APIShape(e: Value, out: Entity2)
    requires ConvertAPI(e) == Success(out)
    ensures out.owner == OwnerOf(Spec(e)) && out.entityType == TypeOf(Spec(e))
    ensures !Truthy(Spec(e)) ==> out.spec == []
    ensures Truthy(Spec(e)) && !Truthy(Prop(Spec(e), "definition")) ==> out.spec == RestSpec(Spec(e))
    ensures Truthy(Spec(e)) && Truthy(Prop(Spec(e), "definition")) ==>
      out.spec == Set(RestSpec(Spec(e)), "definition", Definition(Prop(Spec(e), "definition").value))
    ensures Get(out.metadata, "annotations") == Some(Obj(FilterAnnotations(Metadata(e), AnnotationPolicy("API"))))
  {
    var md := Metadata(e);
    var metadata := [
      Entry("description", Or(Prop(md, "description"), Str(""))),
      Entry("annotations", Obj(FilterAnnotations(md, AnnotationPolicy("API")))),
      Entry("links", Or(Prop(md, "links"), Arr([]))),
      Entry("tags", Or(Prop(md, "tags"), Arr([])))
    ];
    GetFirst(metadata, 1);
  }

  lemma ResourceShape(e: Value, out: Entity2)
    requires ConvertResource(e) == Success(out)
    ensures out.owner == OwnerOf(Spec(e)) && out.entityType == TypeOf(Spec(e))
    ensures out.spec == if Truthy(Spec(e)) then Pick([], Spec(e), ["lifecycle", "system"]) else []
    ensures Get(out.metadata, "annotations") == Some(Obj(FilterAnnotations(Metadata(e), AnnotationPolicy("Resource"))))
  {
  }

  lemma ComponentShape(e: Value, out: Entity2)
    requires ConvertComponent(e) == Success(out)
    ensures out.owner == OwnerOf(Spec(e)) && out.entityType == TypeOf(Spec(e))
    ensures out.spec == ComponentOutSpec(Spec(e))
    ensures out.metadata == Pick(ComponentLists(Metadata(e)), Metadata(e), PreservedMetadata)
  {
  }

  /** The spec `convertComponent` builds. */
  function ComponentOutSpec(spec: Option<Value>): seq<Entry>
  {
    if !Truthy(spec) then []
    else Merge(Pick([], spec, ["lifecycle", "providesApis", "domain", "system"]), Entries(spec), AbsentExcept(Lifted))
  }

  /** The three entries a Component's metadata starts from. */
  function ComponentLists(md: Option<Value>): seq<Entry>
  {
    [
      Entry("annotations", Obj(FilterAnnotations(md, AnnotationPolicy("Component")))),
      Entry("links", Or(Prop(md, "links"), Arr([]))),
      Entry("tags", Or(Prop(md, "tags"), Arr([])))
    ]
  }

  /** Whether an annotation policy keeps a key, whatever its value. */
  predicate Keeps(p: Policy, key: string)
  {
    match p
    case Only(k) => key == k
    case Except(ks) => key !in ks
    case _ => true
  }

  /** A filter keeps exactly the admitted keys, with their values. */
  lemma FilterAnnotationsGet(md: Option<Value>, p: Policy)
    requires p.Only? || p.Except?
    requires UniqueKeys(Entries(Prop(md, "annotations")))
    ensures forall k :: Get(FilterAnnotations(md, p), k) ==
                        (if Keeps(p, k) then Get(Entries(Prop(md, "annotations")), k) else None)
  {
    var src := Entries(Prop(md, "annotations"));
    assert Entries(Some(Or(Prop(md, "annotations"), Obj([])))) == src;
    forall k {
      MergeGet([], src, p, k);
    }
  }

  lemma ComponentAnnotations(e: Value, out: Entity2)
    requires ConvertComponent(e) == Success(out)
    ensures Get(out.metadata, "annotations") == Some(Obj(FilterAnnotations(Metadata(e), AnnotationPolicy("Component"))))
  {
    ComponentShape(e, out);
    ComponentListsAnnotations(Metadata(e));
  }

  lemma ComponentListsAnnotations(md: Option<Value>)
    ensures Get(Pick(ComponentLists(md), md, PreservedMetadata), "annotations") == Some(Obj(FilterAnnotations(md, AnnotationPolicy("Component"))))
  {
    var lists := ComponentLists(md);
    GetFirst(lists, 0);
    assert "annotations" !in PreservedMetadata;
    PickGet(lists, md, PreservedMetadata, "annotations");
  }

  /** Every forward mapper stores the filtered annotations of its kind. */
  lemma AnnotationsShape(e: Value, out: Entity2)
    requires ConvertToIDP2(e) == Success(out)
    ensures Get(out.metadata, "annotations") == Some(Obj(FilterAnnotations(Metadata(e), AnnotationPolicy(Kind(e).value.s))))
  {
    if HasKind(e, "Component") {
      ComponentAnnotations(e, out);
    } else if HasKind(e, "Template") {
      TemplateShape(e, out);
    } else if HasKind(e, "API") {
      APIShape(e, out);
    } else {
      ResourceShape(e, out);
    }
  }

  /** Annotation keys are never invented: a forward conversion keeps the
      source location only (Template, API) or every key but the four
      provenance keys (Component, Resource), each with its input value. */
  lemma ForwardAnnotations(e: Value, out: Entity2)
    requires WellFormed(e)
    requires ConvertToIDP2(e) == Success(out)
    ensures forall k :: Get(OutputAnnotations(out), k) ==
                        (if Keeps(AnnotationPolicy(Kind(e).value.s), k) then Get(InputAnnotations(e), k) else None)
    ensures Keys(OutputAnnotations(out)) <= Keys(InputAnnotations(e))
  {
    PartsUnique(e);
    AnnotationsShape(e, out);
    var p := AnnotationPolicy(Kind(e).value.s);
    FilterAnnotationsGet(Metadata(e), p);
    assert OutputAnnotations(out) == FilterAnnotations(Metadata(e), p);
    forall k | k in Keys(OutputAnnotations(out))
      ensures k in Keys(InputAnnotations(e))
    {
      assert Get(OutputAnnotations(out), k).Some?;
    }
  }

  /** Removing `owner` and `type` keeps every other key and its value. */
  lemma RestSpecGet(spec: Option<Value>)
    requires UniqueKeys(Entries(spec))
    ensures forall k :: Get(RestSpec(spec), k) == (if k in Lifted then None else Get(Entries(spec), k))
  {
    forall k {
      MergeGet([], Entries(spec), Except(Lifted), k);
    }
  }

  /** Template: the whole spec but `owner` and `type` (parameters, steps,
      output) is carried over unchanged. */
  lemma TemplateSpec(e: Value, out: Entity2)
    requires WellFormed(e)
    requires ConvertTemplate(e) == Success(out)
    ensures forall k :: Get(out.spec, k) == (if k in Lifted then None else Get(Entries(Spec(e)), k))
  {
    PartsUnique(e);
    TemplateShape(e, out);
    assert Entries(Some(Or(Spec(e), Obj([])))) == Entries(Spec(e));
    RestSpecGet(Some(Or(Spec(e), Obj([]))));
  }

  /** API: like Template, except a truthy `definition`, which is rebuilt
      by `Definition`. */
  lemma APISpec(e: Value, out: Entity2)
    requires WellFormed(e)
    requires ConvertAPI(e) == Success(out)
    ensures forall k :: Get(out.spec, k) ==
                        (if k in Lifted then None
                         else if k == "definition" && Truthy(Prop(Spec(e), "definition")) then Some(Definition(Prop(Spec(e), "definition").value))
                         else Get(Entries(Spec(e)), k))
  {
    PartsUnique(e);
    APIShape(e, out);
    if Truthy(Spec(e)) {
      RestSpecGet(Spec(e));
    }
  }

  /** Resource: the spec keeps at most `lifecycle` and `system`. */
  lemma ResourceSpec(e: Value, out: Entity2)
    requires ConvertResource(e) == Success(out)
    ensures forall k :: Get(out.spec, k) ==
                        (if k == "lifecycle" || k == "system" then Prop(Spec(e), k) else None)
    ensures Keys(out.spec) <= {"lifecycle", "system"}
  {
    ResourceShape(e, out);
    forall k {
      PickGet([], Spec(e), ["lifecycle", "system"], k);
    }
    forall k | k in Keys(out.spec)
      ensures k in {"lifecycle", "system"}
    {
      assert Get(out.spec, k).Some?;
    }
  }

  lemma ComponentOutSpecGet(spec: Option<Value>)
    requires UniqueKeys(Entries(spec))
    ensures forall k :: Get(ComponentOutSpec(spec), k) == (if k in Lifted then None else Get(Entries(spec), k))
  {
    var src := Entries(spec);
    if Truthy(spec) {
      var explicit := Pick([], spec, ["lifecycle", "providesApis", "domain", "system"]);
      forall k
        ensures Get(ComponentOutSpec(spec), k) == (if k in Lifted then None else Get(src, k))
      {
        PickGet([], spec, ["lifecycle", "providesApis", "domain", "system"], k);
        MergeGet(explicit, src, AbsentExcept(Lifted), k);
      }
    }
  }

  /** Component: the spec has exactly the input's keys but `owner` and
      `type`, with unchanged values (the common fields merely come
      first). */
  lemma ComponentSpec(e: Value, out: Entity2)
    requires WellFormed(e)
    requires ConvertComponent(e) == Success(out)
    ensures forall k :: Get(out.spec, k) == (if k in Lifted then None else Get(Entries(Spec(e)), k))
    ensures Keys(out.spec) == Keys(Entries(Spec(e))) - {"owner", "type"}
  {
    PartsUnique(e);
    ComponentShape(e, out);
    ComponentOutSpecGet(Spec(e));
    SameKeys(out.spec, Entries(Spec(e)));
  }

  /** Two entry lists that agree on every lookup but `owner` and `type`,
      which the first lacks, have the same keys but those two. */
  lemma SameKeys(a: seq<Entry>, b: seq<Entry>)
    requires forall k :: Get(a, k) == (if k in Lifted then None else Get(b, k))
    ensures Keys(a) == Keys(b) - {"owner", "type"}
  {
    forall k | k in Keys(a)
      ensures k in Keys(b) - {"owner", "type"}
    {
      assert Get(a, k).Some?;
    }
    forall k | k in Keys(b) - {"owner", "type"}
      ensures k in Keys(a)
    {
      assert Get(b, k).Some?;
    }
  }

  lemma ComponentMetadataGet(md: Option<Value>)
    ensures forall k | k != "annotations" && k != "links" && k != "tags" ::
              Get(Pick(ComponentLists(md), md, PreservedMetadata), k) ==
              (if k in PreservedMetadata && Prop(md, k).Some? then Prop(md, k) else None)
  {
    var lists := ComponentLists(md);
    forall k | k != "annotations" && k != "links" && k != "tags"
      ensures Get(Pick(lists, md, PreservedMetadata), k) ==
              (if k in PreservedMetadata && Prop(md, k).Some? then Prop(md, k) else None)
    {
      GetAbsent(lists, k);
      PickGet(lists, md, PreservedMetadata, k);
    }
  }

  /** Component: the eleven custom metadata fields are carried over when
      present; nothing else but annotations, links and tags is (so `uid`,
      `etag`, `name` and `namespace` are dropped). */
  lemma ComponentMetadata(e: Value, out: Entity2)
    requires ConvertComponent(e) == Success(out)
    ensures forall k | k != "annotations" && k != "links" && k != "tags" ::
              Get(out.metadata, k) == (if k in PreservedMetadata && Prop(Metadata(e), k).Some? then Prop(Metadata(e), k) else None)
  {
    ComponentShape(e, out);
    ComponentMetadataGet(Metadata(e));
  }

  /** `owner` and `type` leave the spec for the top level, defaulting to "". */
  predicate LiftsOwnerAndType(e: Value, out: Entity2)
  {
    && out.owner == Or(Prop(Spec(e), "owner"), Str(""))
    && out.entityType == Or(Prop(Spec(e), "type"), Str(""))
    && Get(out.spec, "owner") == None && Get(out.spec, "type") == None
  }

  lemma TemplateLifts(e: Value, out: Entity2)
    requires WellFormed(e)
    requires ConvertTemplate(e) == Success(out)
    ensures LiftsOwnerAndType(e, out)
  {
    TemplateShape(e, out);
    TemplateSpec(e, out);
  }

  lemma APILifts(e: Value, out: Entity2)
    requires WellFormed(e)
    requires ConvertAPI(e) == Success(out)
    ensures LiftsOwnerAndType(e, out)
  {
    APIShape(e, out);
    APISpec(e, out);
  }

  lemma ResourceLifts(e: Value, out: Entity2)
    requires ConvertResource(e) == Success(out)
    ensures LiftsOwnerAndType(e, out)
  {
    ResourceShape(e, out);
    ResourceSpec(e, out);
  }

  lemma ComponentLifts(e: Value, out: Entity2)
    requires WellFormed(e)
    requires ConvertComponent(e) == Success(out)
    ensures LiftsOwnerAndType(e, out)
  {
    ComponentShape(e, out);
    ComponentSpec(e, out);
  }

  /** Every forward mapper moves `spec.owner` and `spec.type` to the top
      level (defaulting to "") and leaves neither in the output spec. */
  lemma ForwardLiftsOwnerAndType(e: Value, out: Entity2)
    requires WellFormed(e)
    requires ConvertToIDP2(e) == Success(out)
    ensures out.owner == Or(Prop(Spec(e), "owner"), Str(""))
    ensures out.entityType == Or(Prop(Spec(e), "type"), Str(""))
    ensures Get(out.spec, "owner") == None && Get(out.spec, "type") == None
  {
    if HasKind(e, "Component") {
      ComponentLifts(e, out);
    } else if HasKind(e, "Template") {
      TemplateLifts(e, out);
    } else if HasKind(e, "API") {
      APILifts(e, out);
    } else {
      ResourceLifts(e, out);
    }
  }

  // ---- what a 2.0 entity looks like to the reverse mappers ----

  /** The metadata and spec a forward mapper builds have unique keys, and
      the metadata has neither `name` nor `namespace` (the 2.0 entity
      carries its name at the top level). */
  predicate Clean(out: Entity2)
  {
    && UniqueKeys(out.metadata) && UniqueKeys(out.spec)
    && Get(out.metadata, "name") == None && Get(out.metadata, "namespace") == None
  }

  /** A mapping with no key but the listed ones, each once. */
  lemma TwoKeys(a: Entry, b: Entry)
    requires a.key != b.key
    ensures UniqueKeys([a, b])
    ensures forall k | k != a.key && k != b.key :: Get([a, b], k) == None
  {
    Cons(b, []);
    Cons(a, [b]);
    assert [a] + [b] == [a, b];
  }

  /** `Set` on a clean list with a key other than `name` and `namespace`
      keeps it clean. */
  lemma SetClean(fs: seq<Entry>, k: string, v: Value)
    requires UniqueKeys(fs) && Get(fs, "name") == None && Get(fs, "namespace") == None
    requires k != "name" && k != "namespace"
    ensures UniqueKeys(Set(fs, k, v)) && Get(Set(fs, k, v), "name") == None && Get(Set(fs, k, v), "namespace") == None
  {
    SetPlacement(fs, k, v);
  }

  lemma TemplateClean(e: Value, out: Entity2)
    requires ConvertTemplate(e) == Success(out)
    ensures Clean(out)
  {
    var md := Metadata(e);
    var lists := [
      Entry("annotations", Obj(FilterAnnotations(md, AnnotationPolicy("Template")))),
      Entry("tags", Or(Prop(md, "tags"), Arr([])))
    ];
    TwoKeys(lists[0], lists[1]);
    if Truthy(Prop(md, "description")) {
      SetClean(lists, "description", Prop(md, "description").value);
    }
    TemplateShape(e, out);
  }

  lemma APIClean(e: Value, out: Entity2)
    requires ConvertAPI(e) == Success(out)
    ensures Clean(out)
  {
    var md := Metadata(e);
    var tail := [Entry("links", Or(Prop(md, "links"), Arr([]))), Entry("tags", Or(Prop(md, "tags"), Arr([])))];
    TwoKeys(tail[0], tail[1]);
    var three := [Entry("annotations", Obj(FilterAnnotations(md, AnnotationPolicy("API"))))] + tail;
    Cons(three[0], tail);
    var four := [Entry("description", Or(Prop(md, "description"), Str("")))] + three;
    Cons(four[0], three);
    APIShape(e, out);
    assert out.metadata == four;
    if Truthy(Spec(e)) && Truthy(Prop(Spec(e), "definition")) {
      SetPlacement(RestSpec(Spec(e)), "definition", Definition(Prop(Spec(e), "definition").value));
    }
  }

  lemma ResourceClean(e: Value, out: Entity2)
    requires ConvertResource(e) == Success(out)
    ensures Clean(out)
  {
    var md := Metadata(e);
    var one := [Entry("annotations", Obj(FilterAnnotations(md, AnnotationPolicy("Resource"))))];
    Cons(one[0], []);
    assert one == [one[0]] + [];
    if Truthy(Prop(md, "description")) {
      SetClean(one, "description", Prop(md, "description").value);
    }
    ResourceShape(e, out);
    if Truthy(Spec(e)) {
      PickUnique([], Spec(e), ["lifecycle", "system"]);
    }
  }

  /** Picking fields other than `name` and `namespace` into a clean list
      keeps it clean. */
  lemma PickClean(acc: seq<Entry>, src: Option<Value>, fields: seq<string>)
    requires UniqueKeys(acc) && Get(acc, "name") == None && Get(acc, "namespace") == None
    requires "name" !in fields && "namespace" !in fields
    ensures UniqueKeys(Pick(acc, src, fields))
    ensures Get(Pick(acc, src, fields), "name") == None && Get(Pick(acc, src, fields), "namespace") == None
  {
    PickUnique(acc, src, fields);
    PickGet(acc, src, fields, "name");
    PickGet(acc, src, fields, "namespace");
  }

  lemma ComponentListsClean(md: Option<Value>)
    ensures UniqueKeys(ComponentLists(md))
    ensures Get(ComponentLists(md), "name") == None && Get(ComponentLists(md), "namespace") == None
  {
    var lists := ComponentLists(md);
    var tail := [lists[1], lists[2]];
    TwoKeys(lists[1], lists[2]);
    Cons(lists[0], tail);
    assert lists == [lists[0]] + tail;
  }

  lemma ComponentMetadataClean(md: Option<Value>)
    ensures UniqueKeys(Pick(ComponentLists(md), md, PreservedMetadata))
    ensures Get(Pick(ComponentLists(md), md, PreservedMetadata), "name") == None
    ensures Get(Pick(ComponentLists(md), md, PreservedMetadata), "namespace") == None
  {
    ComponentListsClean(md);
    assert "name" !in PreservedMetadata && "namespace" !in PreservedMetadata;
    PickClean(ComponentLists(md), md, PreservedMetadata);
  }

  lemma ComponentSpecClean(spec: Option<Value>)
    ensures UniqueKeys(ComponentOutSpec(spec))
  {
    if Truthy(spec) {
      PickUnique([], spec, ["lifecycle", "providesApis", "domain", "system"]);
    }
  }

  lemma ComponentClean(e: Value, out: Entity2)
    requires ConvertComponent(e) == Success(out)
    ensures Clean(out)
  {
    ComponentShape(e, out);
    ComponentMetadataClean(Metadata(e));
    ComponentSpecClean(Spec(e));
  }

  /** Every 2.0 entity the forward direction builds is `Clean`. */
  lemma ForwardClean(e: Value, out: Entity2)
    requires ConvertToIDP2(e) == Success(out)
    ensures Clean(out)
  {
    if HasKind(e, "Component") {
      ComponentClean(e, out);
    } else if HasKind(e, "Template") {
      TemplateClean(e, out);
    } else if HasKind(e, "API") {
      APIClean(e, out);
    } else {
      ResourceClean(e, out);
    }
  }

  /** The `$text` wrapper is stable: rebuilding a rebuilt definition
      changes nothing, so the structure survives any number of passes. */
  lemma DefinitionIdempotent(d: Value)
    ensures Definition(Definition(d)) == Definition(d)
  {
    if d.Obj? && Truthy(Get(d.entries, "$text")) {
      var t := Get(d.entries, "$text").value;
      GetFirst([Entry("$text", t)], 0);
    }
  }
}
