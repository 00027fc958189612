/** What `convertYaml` promises in the 2.0 -> 1.0 direction: the final
    `metadata.name` is the sanitized form of the first truthy candidate,
    `metadata.namespace` is the 2.0 one or "default", and `relations` has
    no effect on the result. */
module ConverterProperties {
  import opened Values
  import opened Errors
  import opened Merging
  import opened Identifiers
  import opened Forward
  import opened Reverse
  import opened Converter
  import opened ReverseProperties

  /** The name a mapped entity falls back on when its metadata has none. */
  function Candidate(out: Entity1, e: Value): Value
  {
    if Truthy(Get(out.metadata, "name")) then Get(out.metadata, "name").value else FallbackName(e)
  }

  /** The post-processing sets exactly `name` (sanitized) and `namespace`
      (defaulted); every other metadata key is kept. */
  lemma FinishGet(out: Entity1, e: Value, r: Entity1)
    requires Finish(out, e) == Success(r)
    ensures Candidate(out, e).Str?
    ensures Get(r.metadata, "name") == Some(Str(SanitizeName(Candidate(out, e).s)))
    ensures Get(r.metadata, "namespace") == Some(Or(Get(out.metadata, "namespace"), Str(DefaultNamespace)))
    ensures forall k | k != "name" && k != "namespace" :: Get(r.metadata, k) == Get(out.metadata, k)
    ensures r.kind == out.kind && r.apiVersion == out.apiVersion && r.spec == out.spec
  {
    var named := if !Truthy(Get(out.metadata, "name")) then Set(out.metadata, "name", FallbackName(e)) else out.metadata;
    assert Get(named, "name") == Some(Candidate(out, e));
  }

  /** The name a 2.0 entity ends up with, before sanitizing: a truthy
      `metadata.name` in the 2.0 entity, else `name || identifier ||
      'unknown'`. */
  function ChosenName(e: Value): Value
  {
    if Truthy(Prop(Metadata(e), "name")) then Prop(Metadata(e), "name").value else NameOf(e)
  }

  /** The 2.0 metadata as an entry list sees the same keys as `Prop`. */
  lemma MetadataEntries(e: Value, k: string)
    ensures Prop(Metadata(e), k) == Get(Entries(Metadata(e)), k)
  {
  }

  /** The 1.0 name a mapper produces, before post-processing. */
  lemma MappedName(e: Value, out: Entity1)
    requires UniqueParts(e)
    requires ConvertToIDP1(e) == Success(out)
    ensures Candidate(out, e) == ChosenName(e)
            || (HasKind(e, "Workflow") && ChosenName(e).Str? && Candidate(out, e) == Str(SanitizeName(ChosenName(e).s)))
  {
    MetadataEntries(e, "name");
    if HasKind(e, "Workflow") {
      WorkflowMetadata(e, out);
      var sanitized := SanitizeName(NameOf(e).s);
      assert IsSanitizedName(sanitized);
    } else {
      ReverseMetadata(e, out);
    }
  }

  /** The final `metadata.name` is `sanitizeName` of the first truthy of
      the 2.0 `metadata.name`, `name`, `identifier` and "unknown". */
  lemma ReverseName(e: Value, r: Entity1)
    requires UniqueParts(e)
    requires ToIDP1(e) == Success(r)
    ensures ChosenName(e).Str?
    ensures Get(r.metadata, "name") == Some(Str(SanitizeName(ChosenName(e).s)))
  {
    var out :| ConvertToIDP1(e) == Success(out) && Finish(out, e) == Success(r);
    FinishGet(out, e, r);
    MappedName(e, out);
    if Candidate(out, e) != ChosenName(e) {
      SanitizeNameIdempotent(ChosenName(e).s);
    }
  }

  /** The final `metadata.namespace` is the 2.0 one when truthy, else
      "default". */
  lemma ReverseNamespace(e: Value, r: Entity1)
    requires UniqueParts(e)
    requires ToIDP1(e) == Success(r)
    ensures Get(r.metadata, "namespace") == Some(Or(Prop(Metadata(e), "namespace"), Str(DefaultNamespace)))
  {
    var out :| ConvertToIDP1(e) == Success(out) && Finish(out, e) == Success(r);
    FinishGet(out, e, r);
    MetadataEntries(e, "namespace");
    if HasKind(e, "Workflow") {
      WorkflowMetadata(e, out);
    } else {
      ReverseMetadata(e, out);
    }
  }

  /** Two entities that differ at most in `relations` look the same to
      every reverse mapper and to the post-processing. */
  ghost predicate SameButRelations(a: Value, b: Value)
  {
    forall k | k != "relations" :: Prop(Some(a), k) == Prop(Some(b), k)
  }

  /** The top-level fields the reverse mappers read. */
  predicate SameReadFields(a: Value, b: Value)
  {
    && Kind(a) == Kind(b) && Metadata(a) == Metadata(b) && Spec(a) == Spec(b)
    && Prop(Some(a), "name") == Prop(Some(b), "name") && Prop(Some(a), "identifier") == Prop(Some(b), "identifier")
    && Prop(Some(a), "owner") == Prop(Some(b), "owner") && Prop(Some(a), "type") == Prop(Some(b), "type")
  }

  lemma MappersCongruent(a: Value, b: Value)
    requires SameReadFields(a, b)
    ensures ConvertToIDP1(a) == ConvertToIDP1(b)
  {
    assert NameOf(a) == NameOf(b) && OwnerAndType(a) == OwnerAndType(b);
    if HasKind(a, "Workflow") {
      assert ConvertWorkflowToTemplate(a) == ConvertWorkflowToTemplate(b);
    } else if HasKind(a, "API") {
      assert ConvertAPIToIDP1(a) == ConvertAPIToIDP1(b);
    } else if HasKind(a, "Resource") {
      assert ConvertResourceToIDP1(a) == ConvertResourceToIDP1(b);
    } else if HasKind(a, "Component") {
      assert ConvertComponentToIDP1(a) == ConvertComponentToIDP1(b);
    }
  }

  lemma ToIDP1Congruent(a: Value, b: Value)
    requires SameButRelations(a, b)
    ensures ToIDP1(a) == ToIDP1(b)
  {
    assert Kind(a) == Kind(b) && Metadata(a) == Metadata(b) && Spec(a) == Spec(b);
    assert Prop(Some(a), "name") == Prop(Some(b), "name");
    assert Prop(Some(a), "identifier") == Prop(Some(b), "identifier");
    assert Prop(Some(a), "owner") == Prop(Some(b), "owner");
    assert Prop(Some(a), "type") == Prop(Some(b), "type");
    MappersCongruent(a, b);
    assert FallbackName(a) == FallbackName(b);
  }

  /** `relations` never influences a 2.0 -> 1.0 conversion: converting a
      document gives what converting it without `relations` gives, whether
      the field is truthy (and deleted) or not. */
  lemma RelationsIgnored(fs: seq<Entry>)
    ensures Convert(Parsed(Some(Obj(fs))), ToV1Direction) == Convert(Parsed(Some(Obj(Delete(fs, "relations")))), ToV1Direction)
  {
    var stripped := Obj(Delete(fs, "relations"));
    assert DropRelations(stripped, ToV1Direction) == stripped;
    ToIDP1Congruent(DropRelations(Obj(fs), ToV1Direction), stripped);
  }

  /** The 2.0 -> 1.0 branch of `Convert` is `ToIDP1` after dropping
      `relations`. */
  lemma ConvertToV1(doc: Value, v: Value)
    requires Convert(Parsed(Some(doc)), ToV1Direction) == Success(v)
    ensures ToIDP1(DropRelations(doc, ToV1Direction)).Success?
    ensures v == ToIDP1(DropRelations(doc, ToV1Direction)).value.ToValue()
  {
  }

  /** Dropping `relations` keeps every field the reverse direction reads. */
  lemma DroppedRelations(doc: Value)
    ensures SameReadFields(DropRelations(doc, ToV1Direction), doc)
    ensures ChosenName(DropRelations(doc, ToV1Direction)) == ChosenName(doc)
    ensures UniqueParts(doc) ==> UniqueParts(DropRelations(doc, ToV1Direction))
  {
    var entity := DropRelations(doc, ToV1Direction);
    assert Metadata(entity) == Metadata(doc) && Spec(entity) == Spec(doc);
    assert Prop(Some(entity), "name") == Prop(Some(doc), "name");
    assert Prop(Some(entity), "identifier") == Prop(Some(doc), "identifier");
  }

  /** `convertYaml` in the 2.0 -> 1.0 direction names the result after the
      first truthy of `metadata.name`, `name`, `identifier` and "unknown",
      sanitized, and puts it in the 2.0 namespace or "default". */
  lemma ConvertNamed(doc: Value, v: Value)
    requires UniqueParts(doc)
    requires Convert(Parsed(Some(doc)), ToV1Direction) == Success(v)
    ensures ChosenName(doc).Str?
    ensures Prop(Metadata(v), "name") == Some(Str(SanitizeName(ChosenName(doc).s)))
    ensures Prop(Metadata(v), "namespace") == Some(Or(Prop(Metadata(doc), "namespace"), Str(DefaultNamespace)))
  {
    var entity := DropRelations(doc, ToV1Direction);
    DroppedRelations(doc);
    ConvertToV1(doc, v);
    var r := ToIDP1(entity).value;
    ReverseName(entity, r);
    ReverseNamespace(entity, r);
  }

  /** The 1.0 -> 2.0 branch of `Convert` is `convertToIDP2` on the
      document as loaded: `relations` is kept in this direction, and the
      forward mappers never read it.  It succeeds exactly when the mapper
      does. */
  lemma ConvertForward(doc: Value)
    ensures Convert(Parsed(Some(doc)), ToV2Direction).Success? <==> ConvertToIDP2(doc).Success?
    ensures ConvertToIDP2(doc).Success? ==>
              Convert(Parsed(Some(doc)), ToV2Direction) == Success(ConvertToIDP2(doc).value.ToValue())
  {
    assert DropRelations(doc, ToV2Direction) == doc;
  }
}
