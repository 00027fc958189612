/** Converting a 1.0 entity to 2.0 and the result back: what survives the
    round trip through `convertYaml` in both directions. */
module RoundTrip {
  import opened Values
  import opened Errors
  import opened Merging
  import opened Identifiers
  import opened Forward
  import opened Reverse
  import opened Converter
  import opened ForwardProperties
  import opened ReverseProperties
  import opened ConverterProperties

  /** When the 2.0 spec carries neither `owner` nor `type`, the 1.0 spec
      gets the top-level fields, defaulted to "". */
  lemma ReverseLifted(v: Value, out: Entity1)
    requires UniqueParts(v)
    requires ConvertToIDP1(v) == Success(out)
    requires Get(Entries(Spec(v)), "owner") == None && Get(Entries(Spec(v)), "type") == None
    ensures Get(out.spec, "owner") == Some(Or(Prop(Some(v), "owner"), Str("")))
    ensures Get(out.spec, "type") == Some(Or(Prop(Some(v), "type"), Str("")))
  {
    OwnerAndTypeGet(v);
    if HasKind(v, "Workflow") {
      ReverseProperties.WorkflowSpec(v, out);
    } else if HasKind(v, "API") {
      ReverseProperties.APISpec(v, out);
    } else if HasKind(v, "Resource") {
      ReverseProperties.ResourceSpec(v, out);
    } else {
      ReverseProperties.ComponentSpec(v, out);
    }
  }

  /** The 2.0 `name` the forward direction shows for a Template or an API:
      `title || name || 'unknown'` and `name || 'unknown'`. */
  function ShownName(e: Value): Value
  {
    var md := Metadata(e);
    if HasKind(e, "Template") then Or(Prop(md, "title"), Or(Prop(md, "name"), Str(Unknown)))
    else Or(Prop(md, "name"), Str(Unknown))
  }

  /** The 2.0 `name` is a non-empty string whenever the way back can
      sanitize it: for a Component or a Resource it is the identifier, for
      an API `metadata.name || 'unknown'`, for a Template `metadata.title
      || metadata.name || 'unknown'`. */
  lemma NameCarried(e: Value, out2: Entity2)
    requires ConvertToIDP2(e) == Success(out2)
    requires HasKind(e, "Template") ==> Nameable(Prop(Metadata(e), "title"))
    ensures out2.name.Str? && out2.name.s != ""
    ensures HasKind(e, "Component") || HasKind(e, "Resource") ==> out2.name == Str(out2.identifier)
    ensures HasKind(e, "Template") || HasKind(e, "API") ==> out2.name == ShownName(e)
  {
    if HasKind(e, "Template") {
      assert ConvertTemplate(e) == Success(out2);
    } else if HasKind(e, "API") {
      assert ConvertAPI(e) == Success(out2);
    } else if HasKind(e, "Resource") {
      assert ConvertResource(e) == Success(out2);
    } else {
      assert ConvertComponent(e) == Success(out2);
    }
  }

  /** A 2.0 entity shaped like the forward mappers' output: a non-empty
      string `name`, no `metadata.name`, `metadata.namespace`,
      `spec.owner` or `spec.type`. */
  predicate Returnable(v: Value)
  {
    && IsV2Kind(Kind(v)) && UniqueParts(v)
    && Prop(Some(v), "name").Some? && Prop(Some(v), "name").value.Str? && Prop(Some(v), "name").value.s != ""
    && Prop(Metadata(v), "name") == None && Prop(Metadata(v), "namespace") == None
    && Prop(Spec(v), "owner") == None && Prop(Spec(v), "type") == None
  }

  /** Such an entity converts to 1.0 with its `name` sanitized, the
      "default" namespace and the top-level `owner`/`type`. */
  lemma Return(v: Value)
    requires Returnable(v)
    ensures ToIDP1(v).Success?
    ensures ToIDP1(v).value.kind == V1Kind(Kind(v).value.s)
    ensures ToIDP1(v).value.apiVersion == (if HasKind(v, "Workflow") then ScaffolderApiVersion else BackstageApiVersion)
    ensures Get(ToIDP1(v).value.metadata, "name") == Some(Str(SanitizeName(Prop(Some(v), "name").value.s)))
    ensures Get(ToIDP1(v).value.metadata, "namespace") == Some(Str(DefaultNamespace))
    ensures Get(ToIDP1(v).value.spec, "owner") == Some(Or(Prop(Some(v), "owner"), Str("")))
    ensures Get(ToIDP1(v).value.spec, "type") == Some(Or(Prop(Some(v), "type"), Str("")))
  {
    assert ChosenName(v) == Prop(Some(v), "name").value;
    assert ConvertToIDP1(v).Success?;
    var out1 := ConvertToIDP1(v).value;
    MappedName(v, out1);
    assert Finish(out1, v).Success?;
    var r := Finish(out1, v).value;
    assert ToIDP1(v) == Success(r);
    ReverseName(v, r);
    ReverseNamespace(v, r);
    FinishGet(out1, v, r);
    ReverseLifted(v, out1);
  }

  /** The same through `convertYaml`. */
  lemma ConvertReturnable(v: Value)
    requires Returnable(v)
    ensures ConvertYaml(Parsed(Some(v)), ToV1Direction).Converted?
    ensures var out := ConvertYaml(Parsed(Some(v)), ToV1Direction).doc;
      && Kind(out) == Some(Str(V1Kind(Kind(v).value.s)))
      && Prop(Some(out), "apiVersion") == Some(Str(if HasKind(v, "Workflow") then ScaffolderApiVersion else BackstageApiVersion))
      && Prop(Metadata(out), "name") == Some(Str(SanitizeName(Prop(Some(v), "name").value.s)))
      && Prop(Metadata(out), "namespace") == Some(Str(DefaultNamespace))
      && Prop(Spec(out), "owner") == Some(Or(Prop(Some(v), "owner"), Str("")))
      && Prop(Spec(out), "type") == Some(Or(Prop(Some(v), "type"), Str("")))
  {
    Return(v);
    ConvertBackYaml(v);
    ReturnedFields(v, ToIDP1(v).value);
  }

  lemma ReturnedFields(v: Value, r: Entity1)
    requires IsV2Kind(Kind(v)) && Prop(Some(v), "name").Some? && Prop(Some(v), "name").value.Str?
    requires r.kind == V1Kind(Kind(v).value.s)
    requires r.apiVersion == (if HasKind(v, "Workflow") then ScaffolderApiVersion else BackstageApiVersion)
    requires Get(r.metadata, "name") == Some(Str(SanitizeName(Prop(Some(v), "name").value.s)))
    requires Get(r.metadata, "namespace") == Some(Str(DefaultNamespace))
    requires Get(r.spec, "owner") == Some(Or(Prop(Some(v), "owner"), Str("")))
    requires Get(r.spec, "type") == Some(Or(Prop(Some(v), "type"), Str("")))
    ensures var out := r.ToValue();
      && Kind(out) == Some(Str(V1Kind(Kind(v).value.s)))
      && Prop(Some(out), "apiVersion") == Some(Str(if HasKind(v, "Workflow") then ScaffolderApiVersion else BackstageApiVersion))
      && Prop(Metadata(out), "name") == Some(Str(SanitizeName(Prop(Some(v), "name").value.s)))
      && Prop(Metadata(out), "namespace") == Some(Str(DefaultNamespace))
      && Prop(Spec(out), "owner") == Some(Or(Prop(Some(v), "owner"), Str("")))
      && Prop(Spec(out), "type") == Some(Or(Prop(Some(v), "type"), Str("")))
  {
  }

  /** What the forward mappers build is `Returnable`. */
  lemma ForwardReturnable(e: Value, out2: Entity2)
    requires WellFormed(e)
    requires ConvertToIDP2(e) == Success(out2)
    requires HasKind(e, "Template") ==> Nameable(Prop(Metadata(e), "title"))
    ensures Returnable(out2.ToValue())
    ensures Kind(out2.ToValue()) == Some(Str(V2Kind(Kind(e).value.s)))
    ensures Prop(Some(out2.ToValue()), "owner") == Some(Or(Prop(Spec(e), "owner"), Str("")))
    ensures Prop(Some(out2.ToValue()), "type") == Some(Or(Prop(Spec(e), "type"), Str("")))
  {
    ForwardClean(e, out2);
    ForwardLiftsOwnerAndType(e, out2);
    NameCarried(e, out2);
    KindBack(Kind(e));
  }

  /** Renaming Template to Workflow and back is the identity on the four
      1.0 kinds. */
  lemma KindBack(kind: Option<Value>)
    requires IsV1Kind(kind)
    ensures IsV2Kind(Some(Str(V2Kind(kind.value.s))))
    ensures Some(Str(V1Kind(V2Kind(kind.value.s)))) == kind
  {
  }

  /** 1.0 -> 2.0 -> 1.0 on one entity: the kind and `apiVersion` come
      back, `metadata.name` is the 2.0 name sanitized (for a Component or
      a Resource, the identifier cut to 63 characters), `metadata.namespace`
      is "default", and `spec.owner`/`spec.type` are `owner || ''` and
      `type || ''` of the original spec.  A Template whose `title` is a
      truthy non-string cannot come back: `sanitizeName` calls `trim` on
      it. */
  lemma RoundTrip(e: Value, out2: Entity2)
    requires WellFormed(e)
    requires ConvertToIDP2(e) == Success(out2)
    requires HasKind(e, "Template") ==> Nameable(Prop(Metadata(e), "title"))
    ensures ToIDP1(out2.ToValue()).Success?
    ensures Some(Str(ToIDP1(out2.ToValue()).value.kind)) == Kind(e)
    ensures out2.name.Str?
    ensures HasKind(e, "Template") || HasKind(e, "API") ==>
              Get(ToIDP1(out2.ToValue()).value.metadata, "name") == Some(Str(SanitizeName(out2.name.s)))
    ensures HasKind(e, "Component") || HasKind(e, "Resource") ==>
              Get(ToIDP1(out2.ToValue()).value.metadata, "name") == Some(Str(Prefix(out2.identifier, MaxNameLength)))
    ensures Get(ToIDP1(out2.ToValue()).value.metadata, "namespace") == Some(Str(DefaultNamespace))
    ensures Get(ToIDP1(out2.ToValue()).value.spec, "owner") == Some(Or(Prop(Spec(e), "owner"), Str("")))
    ensures Get(ToIDP1(out2.ToValue()).value.spec, "type") == Some(Or(Prop(Spec(e), "type"), Str("")))
  {
    ForwardReturnable(e, out2);
    Return(out2.ToValue());
    var r := ToIDP1(out2.ToValue()).value;
    RoundTripFields(e, out2, r);
    RoundTripName(e, out2, r);
  }

  /** The kind, namespace, owner and type of a round trip. */
  lemma RoundTripFields(e: Value, out2: Entity2, r: Entity1)
    requires WellFormed(e)
    requires ConvertToIDP2(e) == Success(out2)
    requires HasKind(e, "Template") ==> Nameable(Prop(Metadata(e), "title"))
    requires ToIDP1(out2.ToValue()) == Success(r)
    ensures Some(Str(r.kind)) == Kind(e)
    ensures Get(r.metadata, "namespace") == Some(Str(DefaultNamespace))
    ensures Get(r.spec, "owner") == Some(Or(Prop(Spec(e), "owner"), Str("")))
    ensures Get(r.spec, "type") == Some(Or(Prop(Spec(e), "type"), Str("")))
  {
    ForwardReturnable(e, out2);
    assert IsV1Kind(Kind(e));
    ReturnedFrom(Kind(e), Spec(e), out2.ToValue(), r);
  }

  /** The fields of a 1.0 entity that `v` converts back to, from what the
      forward direction put into `v`. */
  lemma ReturnedFrom(kind: Option<Value>, spec: Option<Value>, v: Value, r: Entity1)
    requires IsV1Kind(kind)
    requires Returnable(v) && ToIDP1(v) == Success(r)
    requires Kind(v) == Some(Str(V2Kind(kind.value.s)))
    requires Prop(Some(v), "owner") == Some(Or(Prop(spec, "owner"), Str("")))
    requires Prop(Some(v), "type") == Some(Or(Prop(spec, "type"), Str("")))
    ensures Some(Str(r.kind)) == kind
    ensures Get(r.metadata, "namespace") == Some(Str(DefaultNamespace))
    ensures Get(r.spec, "owner") == Some(Or(Prop(spec, "owner"), Str("")))
    ensures Get(r.spec, "type") == Some(Or(Prop(spec, "type"), Str("")))
  {
    KindBack(kind);
    Return(v);
  }

  /** The name of a round trip. */
  lemma RoundTripName(e: Value, out2: Entity2, r: Entity1)
    requires WellFormed(e)
    requires ConvertToIDP2(e) == Success(out2)
    requires HasKind(e, "Template") ==> Nameable(Prop(Metadata(e), "title"))
    requires ToIDP1(out2.ToValue()) == Success(r)
    ensures out2.name.Str?
    ensures HasKind(e, "Template") || HasKind(e, "API") ==>
              Get(r.metadata, "name") == Some(Str(SanitizeName(out2.name.s)))
    ensures HasKind(e, "Component") || HasKind(e, "Resource") ==>
              Get(r.metadata, "name") == Some(Str(Prefix(out2.identifier, MaxNameLength)))
  {
    ForwardReturnable(e, out2);
    NameCarried(e, out2);
    Return(out2.ToValue());
    if HasKind(e, "Component") || HasKind(e, "Resource") {
      SanitizeIdentifier(out2.identifier);
    }
  }

  /** The 2.0 -> 1.0 branch of `Convert` is `ToIDP1` on the document as
      loaded: dropping `relations` changes nothing the reverse direction
      reads. */
  lemma ConvertBack(v2: Value)
    requires ToIDP1(v2).Success?
    ensures Convert(Parsed(Some(v2)), ToV1Direction) == Success(ToIDP1(v2).value.ToValue())
  {
    ToIDP1Congruent(DropRelations(v2, ToV1Direction), v2);
  }

  /** The same through `convertYaml`, on a loaded 2.0 tree. */
  lemma ConvertBackYaml(v2: Value)
    requires ToIDP1(v2).Success?
    ensures ConvertYaml(Parsed(Some(v2)), ToV1Direction) == Converted(ToIDP1(v2).value.ToValue())
  {
    ConvertBack(v2);
  }

  /** The forward half: the 2.0 spec holds the rebuilt definition. */
  lemma ForwardDefinition(e: Value, out2: Entity2)
    requires WellFormed(e)
    requires ConvertToIDP2(e) == Success(out2)
    requires HasKind(e, "API")
    ensures Get(out2.spec, "definition") ==
              if Truthy(Prop(Spec(e), "definition")) then Some(Definition(Prop(Spec(e), "definition").value))
              else Prop(Spec(e), "definition")
  {
    assert ConvertAPI(e) == Success(out2);
    ForwardProperties.APISpec(e, out2);
  }

  /** The reverse half: the 1.0 spec holds the 2.0 definition, rebuilt
      again when truthy. */
  lemma ReverseDefinition(v: Value)
    requires UniqueParts(v) && HasKind(v, "API")
    requires ToIDP1(v).Success?
    ensures Get(ToIDP1(v).value.spec, "definition") ==
              if Truthy(Prop(Spec(v), "definition")) then Some(Definition(Prop(Spec(v), "definition").value))
              else Get(Entries(Spec(v)), "definition")
  {
    var out1 := ConvertToIDP1(v).value;
    FinishGet(out1, v, ToIDP1(v).value);
    ReverseProperties.APISpec(v, out1);
  }

  /** An API's `definition` survives the round trip; a mapping with a
      truthy `$text` comes back as exactly `{ $text }`. */
  lemma DefinitionRoundTrip(e: Value, out2: Entity2)
    requires WellFormed(e)
    requires ConvertToIDP2(e) == Success(out2)
    requires HasKind(e, "API")
    ensures ToIDP1(out2.ToValue()).Success?
    ensures Get(ToIDP1(out2.ToValue()).value.spec, "definition") ==
              if Truthy(Prop(Spec(e), "definition")) then Some(Definition(Prop(Spec(e), "definition").value))
              else Prop(Spec(e), "definition")
  {
    var v := out2.ToValue();
    APIReturns(e, out2);
    ForwardDefinition(e, out2);
    ReverseDefinition(v);
    assert Prop(Spec(v), "definition") == Get(out2.spec, "definition") == Get(Entries(Spec(v)), "definition");
    DefinitionChain(Prop(Spec(e), "definition"), Get(out2.spec, "definition"), Get(ToIDP1(v).value.spec, "definition"));
  }

  /** A 2.0 API from the forward direction goes back to 1.0. */
  lemma APIReturns(e: Value, out2: Entity2)
    requires WellFormed(e)
    requires ConvertToIDP2(e) == Success(out2)
    requires HasKind(e, "API")
    ensures UniqueParts(out2.ToValue()) && HasKind(out2.ToValue(), "API")
    ensures ToIDP1(out2.ToValue()).Success?
  {
    ForwardReturnable(e, out2);
    Return(out2.ToValue());
  }

  /** Rebuilding a truthy definition twice is rebuilding it once. */
  lemma DefinitionChain(d1: Option<Value>, d2: Option<Value>, d3: Option<Value>)
    requires d2 == if Truthy(d1) then Some(Definition(d1.value)) else d1
    requires d3 == if Truthy(d2) then Some(Definition(d2.value)) else d2
    ensures d3 == d2
  {
    if Truthy(d1) {
      DefinitionIdempotent(d1.value);
    }
  }

  /** What a loaded 1.0 document gets back from the 2.0 -> 1.0 branch:
      its kind, "default" as `metadata.namespace`, its `spec.owner` and
      `spec.type` or "", and as `metadata.name` the sanitized 2.0 name for
      a Template or an API and the identifier, cut to 63 characters, for
      a Component or a Resource. */
  predicate CameBack(doc: Value, back: Value)
  {
    && Kind(back) == Kind(doc)
    && Prop(Metadata(back), "namespace") == Some(Str(DefaultNamespace))
    && Prop(Spec(back), "owner") == Some(Or(Prop(Spec(doc), "owner"), Str("")))
    && Prop(Spec(back), "type") == Some(Or(Prop(Spec(doc), "type"), Str("")))
    && (HasKind(doc, "Template") || HasKind(doc, "API") ==>
          && ShownName(doc).Str?
          && Prop(Metadata(back), "name") == Some(Str(SanitizeName(ShownName(doc).s))))
    && (HasKind(doc, "Component") || HasKind(doc, "Resource") ==>
          && IdentifierOf(Prop(Metadata(doc), "name")).Success?
          && var id := IdentifierOf(Prop(Metadata(doc), "name")).value;
             Prop(Metadata(back), "name") == Some(Str(Prefix(id, MaxNameLength))))
  }

  lemma EntityCameBack(doc: Value, out2: Entity2)
    requires WellFormed(doc)
    requires ConvertToIDP2(doc) == Success(out2)
    requires HasKind(doc, "Template") ==> Nameable(Prop(Metadata(doc), "title"))
    ensures ToIDP1(out2.ToValue()).Success?
    ensures CameBack(doc, ToIDP1(out2.ToValue()).value.ToValue())
  {
    RoundTrip(doc, out2);
    NameCarried(doc, out2);
    var r := ToIDP1(out2.ToValue()).value;
    Returned(doc, r, out2);
  }

  lemma Returned(doc: Value, r: Entity1, out2: Entity2)
    requires Some(Str(r.kind)) == Kind(doc)
    requires Get(r.metadata, "namespace") == Some(Str(DefaultNamespace))
    requires Get(r.spec, "owner") == Some(Or(Prop(Spec(doc), "owner"), Str("")))
    requires Get(r.spec, "type") == Some(Or(Prop(Spec(doc), "type"), Str("")))
    requires out2.name.Str?
    requires HasKind(doc, "Template") || HasKind(doc, "API") ==>
               out2.name == ShownName(doc) && Get(r.metadata, "name") == Some(Str(SanitizeName(out2.name.s)))
    requires HasKind(doc, "Component") || HasKind(doc, "Resource") ==>
               && IdentifierOf(Prop(Metadata(doc), "name")) == Success(out2.identifier)
               && Get(r.metadata, "name") == Some(Str(Prefix(out2.identifier, MaxNameLength)))
    ensures CameBack(doc, r.ToValue())
  {
    var back := r.ToValue();
    BackFields(doc, back, r.metadata, r.spec);
    BackName(doc, back, r.metadata, out2);
  }

  /** `back`'s kind, namespace, owner and type, from its two objects. */
  lemma BackFields(doc: Value, back: Value, md: seq<Entry>, sp: seq<Entry>)
    requires Kind(back) == Kind(doc)
    requires Metadata(back) == Some(Obj(md)) && Spec(back) == Some(Obj(sp))
    requires Get(md, "namespace") == Some(Str(DefaultNamespace))
    requires Get(sp, "owner") == Some(Or(Prop(Spec(doc), "owner"), Str("")))
    requires Get(sp, "type") == Some(Or(Prop(Spec(doc), "type"), Str("")))
    ensures Kind(back) == Kind(doc)
    ensures Prop(Metadata(back), "namespace") == Some(Str(DefaultNamespace))
    ensures Prop(Spec(back), "owner") == Some(Or(Prop(Spec(doc), "owner"), Str("")))
    ensures Prop(Spec(back), "type") == Some(Or(Prop(Spec(doc), "type"), Str("")))
  {
  }

  /** `back`'s name, from its metadata object. */
  lemma BackName(doc: Value, back: Value, md: seq<Entry>, out2: Entity2)
    requires Metadata(back) == Some(Obj(md))
    requires out2.name.Str?
    requires HasKind(doc, "Template") || HasKind(doc, "API") ==>
               out2.name == ShownName(doc) && Get(md, "name") == Some(Str(SanitizeName(out2.name.s)))
    requires HasKind(doc, "Component") || HasKind(doc, "Resource") ==>
               && IdentifierOf(Prop(Metadata(doc), "name")) == Success(out2.identifier)
               && Get(md, "name") == Some(Str(Prefix(out2.identifier, MaxNameLength)))
    ensures HasKind(doc, "Template") || HasKind(doc, "API") ==>
              && ShownName(doc).Str?
              && Prop(Metadata(back), "name") == Some(Str(SanitizeName(ShownName(doc).s)))
    ensures HasKind(doc, "Component") || HasKind(doc, "Resource") ==>
              && IdentifierOf(Prop(Metadata(doc), "name")).Success?
              && var id := IdentifierOf(Prop(Metadata(doc), "name")).value;
                 Prop(Metadata(back), "name") == Some(Str(Prefix(id, MaxNameLength)))
  {
    assert Prop(Metadata(back), "name") == Get(md, "name");
  }

  /** `convertYaml(convertYaml(doc, '1to2'), '2to1')` on a loaded 1.0
      document `CameBack`. */
  lemma ConvertRoundTrip(doc: Value, v2: Value)
    requires WellFormed(doc)
    requires Convert(Parsed(Some(doc)), ToV2Direction) == Success(v2)
    requires HasKind(doc, "Template") ==> Nameable(Prop(Metadata(doc), "title"))
    ensures Convert(Parsed(Some(v2)), ToV1Direction).Success?
    ensures CameBack(doc, Convert(Parsed(Some(v2)), ToV1Direction).value)
  {
    ConvertForward(doc);
    EntityCameBack(doc, ConvertToIDP2(doc).value);
    ConvertBack(v2);
  }
}
