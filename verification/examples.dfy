/** Worked examples: documents from the repository's test script and
    sample entities, and what `convertYaml` makes of them. */
module Examples {
  import opened Values
  import opened Errors
  import opened Identifiers
  import opened Coercion
  import opened Forward
  import opened Reverse
  import opened Converter
  import opened RoundTrip
  import opened ConverterProperties

  const SourceUrl := "url:https://bitbucket.org/pipelinefeaturetest/idp/src"

  /** The 2.0 Component of the conversion test; its top-level keys come in
      the order `Entity2` emits them. */
  function Stocopy2(): Entity2
  {
    Entity2("harness.io/v1", "Component", Str("service"), "stocopy2", Str("stocopy2"), Str("Harness_Account_All_Users"),
            [Entry("lifecycle", Str("experimental")), Entry("system", Str("hyperworkspace"))],
            [Entry("annotations", Obj([Entry("backstage.io/source-location", Str(SourceUrl))])),
             Entry("codeCoverageScore", Num(60)),
             Entry("tags", Arr([Str("auto-generated")]))])
  }

  /** A document with the test's fields. */
  predicate IsStocopy2(e: Entity2)
  {
    && e.kind == "Component" && e.entityType == Str("service") && e.name == Str("stocopy2")
    && e.owner == Str("Harness_Account_All_Users")
    && e.spec == Stocopy2().spec && e.metadata == Stocopy2().metadata
  }

  lemma Stocopy2Returnable(e: Entity2)
    requires IsStocopy2(e)
    ensures Returnable(e.ToValue())
    ensures SanitizeName("stocopy2") == "stocopy2"
  {
    Stocopy2Clean();
    Stocopy2Sanitized();
    assert e.kind == "Component" && e.name == Str("stocopy2");
    FieldsReturnable(e);
  }

  /** An entity whose metadata and spec are clean converts back. */
  lemma FieldsReturnable(e: Entity2)
    requires e.kind == "Component" && e.name.Str? && e.name.s != ""
    requires UniqueKeys(e.metadata) && Get(e.metadata, "name") == None && Get(e.metadata, "namespace") == None
    requires UniqueKeys(e.spec) && Get(e.spec, "owner") == None && Get(e.spec, "type") == None
    ensures Returnable(e.ToValue())
  {
  }

  lemma Stocopy2Sanitized()
    ensures SanitizeName("stocopy2") == "stocopy2"
  {
    SanitizeIdentifier("stocopy2");
  }

  /** The test's metadata and spec repeat no key and hold none of the
      fields the forward direction lifts out. */
  lemma Stocopy2Clean()
    ensures UniqueKeys(Stocopy2().metadata)
    ensures Get(Stocopy2().metadata, "name") == None && Get(Stocopy2().metadata, "namespace") == None
    ensures UniqueKeys(Stocopy2().spec)
    ensures Get(Stocopy2().spec, "owner") == None && Get(Stocopy2().spec, "type") == None
  {
    var md := Stocopy2().metadata;
    ThreeKeys(md[0], md[1], md[2]);
    var spec := Stocopy2().spec;
    ForwardProperties.TwoKeys(spec[0], spec[1]);
  }

  /** A three-entry mapping with distinct keys. */
  lemma ThreeKeys(a: Entry, b: Entry, c: Entry)
    requires a.key != b.key && a.key != c.key && b.key != c.key
    ensures UniqueKeys([a, b, c])
    ensures forall k | k != a.key && k != b.key && k != c.key :: Get([a, b, c], k) == None
  {
    Cons(c, []);
    Cons(b, [c]);
    Cons(a, [b, c]);
    assert [a, b, c] == [a] + ([b] + [c]);
  }

  /** The fields the conversion test compares after converting it to
      1.0, and the namespace every 1.0 result gets. */
  predicate Stocopy2Fields(out: Value)
  {
    && Prop(Some(out), "apiVersion") == Some(Str("backstage.io/v1alpha1"))
    && Kind(out) == Some(Str("Component"))
    && Prop(Metadata(out), "name") == Some(Str("stocopy2"))
    && Prop(Metadata(out), "namespace") == Some(Str("default"))
    && Prop(Spec(out), "type") == Some(Str("service"))
    && Prop(Spec(out), "owner") == Some(Str("Harness_Account_All_Users"))
  }

  /** Converting the test's 2.0 Component to 1.0 gives what the test
      expects. */
  lemma Stocopy2Converts(e: Entity2)
    requires IsStocopy2(e)
    ensures ConvertYaml(Parsed(Some(e.ToValue())), "2to1").Converted?
    ensures Stocopy2Fields(ConvertYaml(Parsed(Some(e.ToValue())), "2to1").doc)
  {
    Stocopy2Returnable(e);
    ConvertReturnable(e.ToValue());
    Stocopy2Back(e, ConvertYaml(Parsed(Some(e.ToValue())), "2to1").doc);
  }

  lemma Stocopy2Back(e: Entity2, out: Value)
    requires IsStocopy2(e)
    requires SanitizeName("stocopy2") == "stocopy2"
    requires Kind(out) == Some(Str(V1Kind(e.kind)))
    requires Prop(Some(out), "apiVersion") == Some(Str(BackstageApiVersion))
    requires Prop(Metadata(out), "name") == Some(Str(SanitizeName(e.name.s)))
    requires Prop(Metadata(out), "namespace") == Some(Str(DefaultNamespace))
    requires Prop(Spec(out), "owner") == Some(Or(Some(e.owner), Str("")))
    requires Prop(Spec(out), "type") == Some(Or(Some(e.entityType), Str("")))
    ensures Stocopy2Fields(out)
  {
  }

  /** `toIdentifier` keeps letters and digits only, lower-cased: the
      sample `artist-lookup` becomes `artistlookup`, and so does
      "Artist Lookup". */
  lemma SampleIdentifier()
    ensures ToIdentifier("artist-lookup") == "artistlookup"
  {
    LowerArtist();
    Dash();
    LowerLookup();
    SampleSplit();
    NamedBySlugs("artist-lookup", "artist", "-", "lookup", "artistlookup", "artist", "lookup");
  }

  lemma SampleSplit()
    ensures "artist-lookup" == "artist" + "-" + "lookup"
    ensures "artistlookup" == "artist" + "lookup"
  {
  }

  lemma ArtistLookupIdentifier()
    ensures ToIdentifier("Artist Lookup") == "artistlookup"
  {
    CapitalArtist();
    Space();
    CapitalLookup();
    ArtistSplit();
    NamedBySlugs("Artist Lookup", "Artist", " ", "Lookup", "artistlookup", "artist", "lookup");
  }

  lemma ArtistSplit()
    ensures "Artist Lookup" == "Artist" + " " + "Lookup"
    ensures "artistlookup" == "artist" + "lookup"
  {
  }

  /** A name made of two words around a dropped separator is identified
      by the two words' slugs. */
  lemma NamedBySlugs(name: string, a: string, sep: string, b: string, id: string, x: string, y: string)
    requires name == a + sep + b && id == x + y && 0 < |id| <= MaxIdentifierLength
    requires Slug(a) == x && Slug(sep) == "" && Slug(b) == y
    ensures ToIdentifier(name) == id
  {
    SlugJoin(a, sep, b, x, y);
    ShortSlug(name);
  }

  lemma LowerArtist() ensures Slug("artist") == "artist" {}
  lemma LowerLookup() ensures Slug("lookup") == "lookup" {}
  lemma CapitalArtist() ensures Slug("Artist") == "artist" {}
  lemma CapitalLookup() ensures Slug("Lookup") == "lookup" {}
  lemma Dash() ensures Slug("-") == "" {}
  lemma Space() ensures Slug(" ") == "" {}

  /** Two words around a separator the filter drops slug to the two
      slugs joined. */
  lemma SlugJoin(a: string, sep: string, b: string, x: string, y: string)
    requires Slug(a) == x && Slug(sep) == "" && Slug(b) == y
    ensures Slug(a + sep + b) == x + y
  {
    SlugAppend(a + sep, b);
    SlugAppend(a, sep);
  }

  /** A name whose slug has 1 to 128 characters has that slug as its
      identifier. */
  lemma ShortSlug(name: string)
    requires Slug(name) != "" && |Slug(name)| <= MaxIdentifierLength
    ensures ToIdentifier(name) == Slug(name)
  {
  }

  /** A one-entry mapping of a well-formed value is well-formed. */
  lemma SingleWellFormed(a: Entry)
    requires WellFormed(a.value)
    ensures WellFormed(Obj([a]))
  {
    Cons(a, []);
    assert [a] == [a] + [];
  }

  /** A two-entry mapping of well-formed values with distinct keys is
      well-formed. */
  lemma PairWellFormed(a: Entry, b: Entry)
    requires a.key != b.key && WellFormed(a.value) && WellFormed(b.value)
    ensures WellFormed(Obj([a, b]))
  {
    Cons(b, []);
    Cons(a, [b]);
    assert [a, b] == [a] + [b];
  }

  /** A 1.0 entity is well-formed when its metadata and spec are. */
  lemma Entity1WellFormed(e: Entity1)
    requires WellFormed(Obj(e.metadata)) && WellFormed(Obj(e.spec))
    ensures WellFormed(e.ToValue())
  {
    var fs := e.ToValue().entries;
    Cons(fs[3], []);
    Cons(fs[2], [fs[3]]);
    Cons(fs[1], [fs[2], fs[3]]);
    Cons(fs[0], [fs[1], fs[2], fs[3]]);
    assert fs == [fs[0]] + ([fs[1]] + ([fs[2]] + [fs[3]]));
  }

  /** A 1.0 Component named "Artist Lookup" with a `type` and an `owner`. */
  predicate IsArtistLookup(e: Entity1)
  {
    && e.kind == "Component"
    && e.metadata == [Entry("name", Str("Artist Lookup"))]
    && e.spec == [Entry("type", Str("service")), Entry("owner", Str("team-a"))]
  }

  lemma ArtistLookupFields(e: Entity1)
    requires IsArtistLookup(e)
    ensures Kind(e.ToValue()) == Some(Str("Component"))
    ensures Prop(Metadata(e.ToValue()), "name") == Some(Str("Artist Lookup"))
    ensures Prop(Spec(e.ToValue()), "owner") == Some(Str("team-a"))
    ensures Prop(Spec(e.ToValue()), "type") == Some(Str("service"))
  {
    GetFirst(e.metadata, 0);
    GetFirst(e.spec, 0);
    GetFirst(e.spec, 1);
  }

  /** Its 2.0 form: identifier and name "artistlookup", `type` and
      `owner` lifted to the top level. */
  predicate ArtistLookup2(out: Value)
  {
    && Kind(out) == Some(Str("Component"))
    && Prop(Some(out), "identifier") == Some(Str("artistlookup"))
    && Prop(Some(out), "name") == Some(Str("artistlookup"))
    && Prop(Some(out), "type") == Some(Str("service"))
    && Prop(Some(out), "owner") == Some(Str("team-a"))
  }

  lemma ArtistLookupConverts(e: Entity1)
    requires IsArtistLookup(e)
    ensures ConvertYaml(Parsed(Some(e.ToValue())), "1to2").Converted?
    ensures ArtistLookup2(ConvertYaml(Parsed(Some(e.ToValue())), "1to2").doc)
  {
    var doc := e.ToValue();
    ArtistLookupFields(e);
    assert ConvertToIDP2(doc).Success?;
    var out2 := ConvertToIDP2(doc).value;
    ConvertForward(doc);
    ForwardProperties.ComponentShape(doc, out2);
    ArtistLookupIdentifier();
    ArtistLookupOut(doc, out2);
  }

  lemma ArtistLookupOut(doc: Value, out2: Entity2)
    requires IdentifierOf(Prop(Metadata(doc), "name")) == Success(out2.identifier)
    requires Prop(Metadata(doc), "name") == Some(Str("Artist Lookup"))
    requires ToIdentifier("Artist Lookup") == "artistlookup"
    requires out2.kind == "Component" && out2.name == Str(out2.identifier)
    requires out2.owner == Or(Prop(Spec(doc), "owner"), Str("")) && Prop(Spec(doc), "owner") == Some(Str("team-a"))
    requires out2.entityType == Or(Prop(Spec(doc), "type"), Str("")) && Prop(Spec(doc), "type") == Some(Str("service"))
    ensures ArtistLookup2(out2.ToValue())
  {
  }

  /** A 1.0 API whose `definition` is a `$text` reference. */
  predicate IsPetstore(e: Entity1)
  {
    && e.kind == "API"
    && e.metadata == [Entry("name", Str("petstore"))]
    && e.spec == [Entry("type", Str("openapi")), Entry("definition", Obj([Entry("$text", Str("./petstore.oas.yaml"))]))]
  }

  lemma PetstoreFields(e: Entity1)
    requires IsPetstore(e)
    ensures WellFormed(e.ToValue()) && HasKind(e.ToValue(), "API")
    ensures Prop(Metadata(e.ToValue()), "name") == Some(Str("petstore"))
    ensures Prop(Spec(e.ToValue()), "definition") == Some(Obj([Entry("$text", Str("./petstore.oas.yaml"))]))
  {
    var t := Entry("$text", Str("./petstore.oas.yaml"));
    SingleWellFormed(t);
    PairWellFormed(e.spec[0], e.spec[1]);
    SingleWellFormed(e.metadata[0]);
    Entity1WellFormed(e);
    GetFirst(e.metadata, 0);
    GetFirst(e.spec, 1);
  }

  lemma PetstoreForward(e: Entity1)
    requires IsPetstore(e)
    ensures ConvertToIDP2(e.ToValue()).Success?
    ensures ConvertYaml(Parsed(Some(e.ToValue())), "1to2") == Converted(ConvertToIDP2(e.ToValue()).value.ToValue())
  {
    PetstoreFields(e);
    ConvertForward(e.ToValue());
  }

  /** Converting it to 2.0 and back keeps the `$text` wrapper. */
  lemma PetstoreKeepsText(e: Entity1)
    requires IsPetstore(e)
    ensures ConvertYaml(Parsed(Some(e.ToValue())), "1to2").Converted?
    ensures var v2 := ConvertYaml(Parsed(Some(e.ToValue())), "1to2").doc;
      && ConvertYaml(Parsed(Some(v2)), "2to1").Converted?
      && Prop(Spec(ConvertYaml(Parsed(Some(v2)), "2to1").doc), "definition") == Some(Obj([Entry("$text", Str("./petstore.oas.yaml"))]))
  {
    var doc := e.ToValue();
    PetstoreFields(e);
    PetstoreText();
    PetstoreForward(e);
    var out2 := ConvertToIDP2(doc).value;
    DefinitionRoundTrip(doc, out2);
    ConvertBackYaml(out2.ToValue());
    var r := ToIDP1(out2.ToValue()).value;
    assert Spec(r.ToValue()) == Some(Obj(r.spec));
  }

  /** The `$text` wrapper is truthy and rebuilt as itself. */
  lemma PetstoreText()
    ensures var d := Obj([Entry("$text", Str("./petstore.oas.yaml"))]);
      Truthy(Some(d)) && Definition(d) == d
  {
    var d := Obj([Entry("$text", Str("./petstore.oas.yaml"))]);
    GetFirst(d.entries, 0);
  }

  /** An unknown kind is refused, naming the four 1.0 kinds. */
  lemma WidgetRefused(e: Entity1)
    requires e.kind == "Widget"
    ensures ConvertYaml(Parsed(Some(e.ToValue())), "1to2")
            == ConversionError(ErrorPrefix + ("Unsupported kind '" + "Widget" + "'. Supported kinds: Component, Template, API, Resource."))
  {
    WidgetFails(e);
    WidgetMessage();
  }

  lemma WidgetFails(e: Entity1)
    requires e.kind == "Widget"
    ensures Convert(Parsed(Some(e.ToValue())), "1to2") == Failure(UnsupportedKind(Some(Str("Widget")), ToV2))
  {
    assert Kind(e.ToValue()) == Some(Str("Widget"));
    assert DropRelations(e.ToValue(), ToV2Direction) == e.ToValue();
  }

  lemma WidgetMessage()
    ensures Message(UnsupportedKind(Some(Str("Widget")), ToV2))
            == "Unsupported kind '" + "Widget" + "'. Supported kinds: Component, Template, API, Resource."
  {
  }

  /** A mapping whose "length" is the string "5" or the array [5] counts
      as a non-empty list of tags or links; "1,2" does not. */
  lemma LengthFive()
    ensures HasPositiveLength(Obj([Entry("length", Str("5"))]))
    ensures HasPositiveLength(Obj([Entry("length", Arr([Num(5)]))]))
    ensures !HasPositiveLength(Obj([Entry("length", Str("1,2"))]))
  {
    LengthEntry(Str("5"));
    LengthEntry(Arr([Num(5)]));
    LengthEntry(Str("1,2"));
    FivePositive();
    SingletonPositive(Num(5));
    CommaNotPositive();
  }

  lemma LengthEntry(l: Value)
    ensures HasPositiveLength(Obj([Entry("length", l)])) <==> Positive(l)
  {
    assert Get([Entry("length", l)], "length") == Some(l);
  }

  lemma FivePositive()
    ensures StringPositive("5")
  {
    var t := "5";
    DigitNotWhitespace(t[0]);
    assert Trim(t) == t;
    assert t[0] != '0';
    AllDigitsPositive(t);
  }

  lemma CommaNotPositive()
    ensures !StringPositive("1,2")
  {
    assert "1,2"[1] == ',';
    ForeignNotPositive("1,2", 1);
  }

  /** Hexadecimal counts, a minus sign does not. */
  lemma LengthLiterals()
    ensures StringPositive("0x1F")
    ensures !StringPositive("-3")
  {
    HexPositive("0x1F");
    var m := "-3";
    DigitNotWhitespace(m[1]);
    MinusNotPositive(m);
  }

  lemma HexPositive(t: string)
    requires t == "0x1F"
    ensures StringPositive(t)
  {
    DigitNotWhitespace(t[0]);
    assert Trim(t) == t;
    assert IsNonDecimal(t);
    assert t[2..][0] != '0';
  }
}
