/** `convertYaml`: the entry point.  The YAML text is abstracted to what
    `yaml.load` made of it, and the result is the tree handed to
    `yaml.dump`. */
module Converter {
  import opened Values
  import opened Errors
  import opened Identifiers
  import opened Forward
  import opened Reverse

  /** What `yaml.load` produced: a tree (`None` when the document is empty),
      or the parser's error message. */
  datatype Loaded = Parsed(doc: Option<Value>) | Unparsable(reason: string)

  /** What `convertYaml` returns or throws. */
  datatype Outcome = Converted(doc: Value) | ConversionError(message: string)

  const ErrorPrefix := "Conversion error: "
  const ToV2Direction := "1to2"
  const ToV1Direction := "2to1"

  /** `entity.name || entity.identifier || 'unknown'`. */
  function FallbackName(e: Value): Value
  {
    Or(Prop(Some(e), "name"), Or(Prop(Some(e), "identifier"), Str(Unknown)))
  }

  /** The post-processing of a 2.0 -> 1.0 result: make sure `metadata.name`
      is present, sanitize it, and default `metadata.namespace`.  (The
      guard that creates a missing `metadata` never fires: every reverse
      mapper builds one.) */
  function Finish(out: Entity1, e: Value): (r: Result<Entity1>)
    ensures r.Success? <==> Nameable(Some(if Truthy(Get(out.metadata, "name")) then Get(out.metadata, "name").value else FallbackName(e)))
    ensures r.Success? ==> r.value.kind == out.kind && r.value.apiVersion == out.apiVersion && r.value.spec == out.spec
    ensures r.Success? ==> Get(r.value.metadata, "name").Some? && Get(r.value.metadata, "name").value.Str?
    ensures r.Success? ==> IsSanitizedName(Get(r.value.metadata, "name").value.s)
    ensures r.Success? ==> Truthy(Get(r.value.metadata, "namespace"))
  {
    var named := if !Truthy(Get(out.metadata, "name")) then Set(out.metadata, "name", FallbackName(e)) else out.metadata;
    assert Get(named, "name") == Some(if Truthy(Get(out.metadata, "name")) then Get(out.metadata, "name").value else FallbackName(e));
    match SanitizeNameOf(Get(named, "name"))
    case Failure(err) => Failure(err)
    case Success(name) =>
      var sanitized := Set(named, "name", Str(name));
      Success(out.(metadata := WithNamespace(sanitized)))
  }

  /** `metadata.namespace = metadata.namespace || 'default'`. */
  function WithNamespace(md: seq<Entry>): (r: seq<Entry>)
    ensures Truthy(Get(r, "namespace"))
    ensures Truthy(Get(md, "namespace")) ==> Get(r, "namespace") == Get(md, "namespace")
    ensures !Truthy(Get(md, "namespace")) ==> Get(r, "namespace") == Some(Str(DefaultNamespace))
    ensures forall k | k != "namespace" :: Get(r, k) == Get(md, k)
  {
    Set(md, "namespace", Or(Get(md, "namespace"), Str(DefaultNamespace)))
  }

  /** The 2.0 -> 1.0 branch: `convertToIDP1` and the post-processing. */
  function ToIDP1(e: Value): (r: Result<Entity1>)
    ensures !IsV2Kind(Kind(e)) ==> r == Failure(UnsupportedKind(Kind(e), ToV1))
    ensures r.Success? ==>
      (IsV2Kind(Kind(e)) && r.value.kind == V1Kind(Kind(e).value.s)
       && Get(r.value.metadata, "name").Some? && Get(r.value.metadata, "name").value.Str?
       && IsSanitizedName(Get(r.value.metadata, "name").value.s)
       && Truthy(Get(r.value.metadata, "namespace")))
  {
    var out :- ConvertToIDP1(e);
    Finish(out, e)
  }

  /** `delete entity.relations`, done in the 2.0 -> 1.0 direction only and
      only when the field is truthy. */
  function DropRelations(doc: Value, direction: string): (r: Value)
    ensures direction == ToV1Direction ==> !Truthy(Prop(Some(r), "relations"))
    ensures forall k | k != "relations" :: Prop(Some(r), k) == Prop(Some(doc), k)
  {
    if direction == ToV1Direction && Truthy(Prop(Some(doc), "relations")) then Obj(Delete(doc.entries, "relations"))
    else doc
  }

  /** The body of `convertYaml` inside its `try`. */
  function Convert(input: Loaded, direction: string): (r: Result<Value>)
    ensures input.Unparsable? ==> r == Failure(YamlError(input.reason))
    ensures input.Parsed? && !Truthy(input.doc) ==> r == Failure(InvalidYamlContent)
    ensures input.Parsed? && Truthy(input.doc) && direction != ToV2Direction && direction != ToV1Direction
      ==> r == Failure(InvalidDirection)
    ensures r.Success? ==> r.value.Obj? && Prop(Some(r.value), "relations") == None
  {
    match input
    case Unparsable(reason) => Failure(YamlError(reason))
    case Parsed(doc) =>
      if !Truthy(doc) then Failure(InvalidYamlContent)
      else
        var entity := DropRelations(doc.value, direction);
        if direction == ToV2Direction then
          match ConvertToIDP2(entity)
          case Success(out) => Success(out.ToValue())
          case Failure(err) => Failure(err)
        else if direction == ToV1Direction then
          match ToIDP1(entity)
          case Success(out) => Success(out.ToValue())
          case Failure(err) => Failure(err)
        else Failure(InvalidDirection)
  }

  /** `convertYaml`: every error leaves as "Conversion error: " followed by
      the message of the error the conversion raised. */
  function ConvertYaml(input: Loaded, direction: string): (r: Outcome)
    ensures r.ConversionError? <==> Convert(input, direction).Failure?
    ensures r.ConversionError? ==> r.message == ErrorPrefix + Message(Convert(input, direction).error)
    ensures r.Converted? ==> r.doc == Convert(input, direction).value
  {
    match Convert(input, direction)
    case Success(v) => Converted(v)
    case Failure(e) => ConversionError(ErrorPrefix + Message(e))
  }
}
