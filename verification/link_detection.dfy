/** Federation-version detection: a schema is federation v2 when a schema
    definition or schema extension carries a directive named exactly `link`.
    Directive arguments are never looked at, directives anywhere else in the
    document never count, and a missing directive list or directive name
    counts as "no link" rather than as a failure. */
module LinkDetection {
  import opened Wrappers
  import opened Cst

  /** The directive's name is present and is exactly `link`. */
  predicate IsLinkDirective(d: Directive) {
    d.name == Some("link")
  }

  /** Reference definition: `def` is schema-level and one of its own
      directives is a `link` directive. */
  ghost predicate CarriesLink(def: Definition) {
    && def.kind.IsSchemaLevel()
    && def.directives.Some?
    && exists j :: 0 <= j < |def.directives.value| && IsLinkDirective(def.directives.value[j])
  }

  /** Reference definition: some top-level definition of `doc` carries a
      `link` directive. */
  ghost predicate DeclaresLink(doc: Document) {
    exists i :: 0 <= i < |doc.definitions| && CarriesLink(doc.definitions[i])
  }

  /** Scans a directive list front to back for a `link` directive. */
  function AnyLink(directives: seq<Directive>): (found: bool)
    ensures found <==> exists j :: 0 <= j < |directives| && IsLinkDirective(directives[j])
  {
    if |directives| == 0 then false
    else
      var rest := AnyLink(directives[1..]);
      assert forall j :: 1 <= j < |directives| ==> directives[j] == directives[1..][j - 1];
      IsLinkDirective(directives[0]) || rest
  }

  /** The verdict for one definition: only schema definitions and schema
      extensions are inspected; any other kind, and a missing directive
      list, answers false. */
  function DefinitionLinks(def: Definition): (found: bool)
    ensures found <==> CarriesLink(def)
  {
    var directives :=
      match def.kind
      case SchemaExtension => def.directives
      case SchemaDefinition => def.directives
      case _ => None;
    match directives
    case Some(ds) => AnyLink(ds)
    case None => false
  }

  /** Scans the top-level definitions front to back. */
  function AnyDefinitionLinks(definitions: seq<Definition>): (found: bool)
    ensures found <==> exists i :: 0 <= i < |definitions| && CarriesLink(definitions[i])
  {
    if |definitions| == 0 then false
    else
      var rest := AnyDefinitionLinks(definitions[1..]);
      assert forall i :: 1 <= i < |definitions| ==> definitions[i] == definitions[1..][i - 1];
      DefinitionLinks(definitions[0]) || rest
  }

  /** The detector over a parsed document. */
  function DocumentLinks(doc: Document): (found: bool)
    ensures found <==> DeclaresLink(doc)
  {
    AnyDefinitionLinks(doc.definitions)
  }

  /** The detector over SDL text. It is total: whatever syntax errors the
      parser reports, the answer is read off the document it recovered. */
  function SchemaContainsLinkDirective(parse: Parser, sdl: string): (isFedTwo: bool)
    ensures isFedTwo <==> DeclaresLink(parse(sdl).document)
  {
    DocumentLinks(parse(sdl).document)
  }

  /** The verdict on two concatenated definition lists is the disjunction of
      the verdicts on each part. */
  lemma {:induction false} DetectionDistributes(a: seq<Definition>, b: seq<Definition>)
    ensures AnyDefinitionLinks(a + b) == (AnyDefinitionLinks(a) || AnyDefinitionLinks(b))
  {
    if |a| == 0 {
      assert a + b == b;
    } else {
      assert (a + b)[1..] == a[1..] + b;
      DetectionDistributes(a[1..], b);
    }
  }

  /** Narrowing: appending definitions that are not schema-level never
      changes the verdict, whatever directives (`@link` included) they or
      their fields carry. */
  lemma NonSchemaDefinitionsIgnored(defs: seq<Definition>, others: seq<Definition>)
    requires forall k :: 0 <= k < |others| ==> !others[k].kind.IsSchemaLevel()
    ensures DocumentLinks(Document(defs + others)) == DocumentLinks(Document(defs))
  {
    DetectionDistributes(defs, others);
    assert !AnyDefinitionLinks(others);
  }

  /** A definition with all directive arguments dropped. */
  function EraseArguments(def: Definition): (erased: Definition)
    ensures erased.kind == def.kind && erased.fields == def.fields
    ensures erased.directives.Some? <==> def.directives.Some?
    ensures def.directives.Some? ==>
      && |erased.directives.value| == |def.directives.value|
      && forall j :: 0 <= j < |def.directives.value| ==>
           erased.directives.value[j] == Directive(def.directives.value[j].name, [])
  {
    match def.directives
    case None => def
    case Some(ds) =>
      def.(directives := Some(seq(|ds|, j requires 0 <= j < |ds| => Directive(ds[j].name, []))))
  }

  /** Arguments are never inspected: erasing every directive argument of
      every definition leaves the verdict unchanged. */
  lemma ArgumentsNeverInspected(doc: Document)
    ensures DocumentLinks(Document(seq(|doc.definitions|, i requires 0 <= i < |doc.definitions| => EraseArguments(doc.definitions[i]))))
         == DocumentLinks(doc)
  {
    var erased := seq(|doc.definitions|, i requires 0 <= i < |doc.definitions| => EraseArguments(doc.definitions[i]));
    forall i | 0 <= i < |doc.definitions|
      ensures CarriesLink(erased[i]) <==> CarriesLink(doc.definitions[i])
    {
      var def := doc.definitions[i];
      if def.directives.Some? && CarriesLink(erased[i]) {
        var j :| 0 <= j < |erased[i].directives.value| && IsLinkDirective(erased[i].directives.value[j]);
        assert IsLinkDirective(def.directives.value[j]);
      }
      if CarriesLink(def) {
        var j :| 0 <= j < |def.directives.value| && IsLinkDirective(def.directives.value[j]);
        assert IsLinkDirective(erased[i].directives.value[j]);
      }
    }
  }

  /** A schema-level directive whose name could not be recovered, or a
      schema definition with no directive list, never counts. */
  lemma MissingPartsAnswerFalse(kind: DefinitionKind, args: seq<Argument>, fields: seq<FieldDefinition>)
    ensures !DocumentLinks(Document([Definition(kind, Some([Directive(None, args)]), fields)]))
    ensures !DocumentLinks(Document([Definition(kind, None, fields)]))
  {
  }

  /** A `link` directive on a field of an object type does not make the
      schema federation v2. */
  lemma LinkOnFieldIsNotFedTwo(parse: Parser, sdl: string)
    requires parse(sdl).document == Document([
      Definition(ObjectTypeDefinition, None, [FieldDefinition("a", Some([Directive(Some("link"), [])]))])])
    ensures !SchemaContainsLinkDirective(parse, sdl)
  {
  }
}
