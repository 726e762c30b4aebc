/**
 * The JSON-LD + Hydra documentation mapper. Each mapper operation writes a
 * fixed sequence of fields into a JSON object builder. The builder is seen
 * only through what it is told: an append-only log of emissions, each a
 * field path and the value written there. Nothing here assumes how the
 * builder turns the log into a JSON object (whether a later field replaces
 * an earlier one, how arrays are serialised).
 *
 * The vocabulary is that of JSON-LD 1.0 (a W3C Recommendation; section 5.1,
 * "The Context") and of the Hydra Core Vocabulary (ApiDocumentation,
 * supportedClass, supportedProperty, supportedOperation, returns, expect).
 */
module JsonLdDocumentation {

  import opened Optional

  /** The names defined in JSONLDConstants, whose text is not part of this model. */
  datatype Constant =
    | FieldNameContext
    | FieldNameDescription
    | FieldNameId
    | FieldNameProperty
    | FieldNameRequired
    | FieldNameTitle
    | FieldNameType
    | TypeApiDocumentation
    | TypeClass
    | TypeOperation
    | UrlHydraProfile

  /** A string written by the mapper: a literal, or one of the named constants. */
  datatype Text = Lit(s: string) | Named(c: Constant)

  datatype JsonValue =
    | StringValue(text: Text)
    | BooleanValue(b: bool)
    | ArrayElement(element: JsonObjectBuilder)  // a child object appended to the array at the path

  /** One write: `value` at the field path `path` (nestedField steps first). */
  datatype Emission = Emission(path: seq<Text>, value: JsonValue)

  class JsonObjectBuilder {
    /** Every write made to this builder, oldest first. */
    var emissions: seq<Emission>

    constructor ()
      ensures emissions == []
    {
      emissions := [];
    }

    /** Writes a string at the path. */
    method StringField(path: seq<Text>, text: Text)
      modifies this
      ensures emissions == old(emissions) + [Emission(path, StringValue(text))]
    {
      emissions := emissions + [Emission(path, StringValue(text))];
    }

    /** Writes a boolean at the path. */
    method BooleanField(path: seq<Text>, b: bool)
      modifies this
      ensures emissions == old(emissions) + [Emission(path, BooleanValue(b))]
    {
      emissions := emissions + [Emission(path, BooleanValue(b))];
    }

    /** Appends a child object to the array at the path. */
    method ArrayAdd(path: seq<Text>, element: JsonObjectBuilder)
      modifies this
      ensures emissions == old(emissions) + [Emission(path, ArrayElement(element))]
    {
      emissions := emissions + [Emission(path, ArrayElement(element))];
    }
  }

  /** The parts of a RequestFunction the mapper reads. */
  datatype RequestFunction = RequestFunction(httpMethod: string, collection: bool)

  /** The part of a FormField the mapper reads. */
  datatype FormField = FormField(required: bool)

  /** The name of the HTTP DELETE method. */
  const DELETE: string := "DELETE"
  const SCHEMA_ORG: string := "http://schema.org/"
  const OWL_NOTHING: string := "http://www.w3.org/2002/07/owl#Nothing"
  const HYDRA_COLLECTION: string := "http://www.w3.org/ns/hydra/core#Collection"
  const BLANK_NODE_PREFIX: string := "_:"
  const DOCUMENTATION_ID: string := "http://api.example.com/doc/"

  /** Does a log hold the write of `value` at `path`? */
  ghost predicate Emits(log: seq<Emission>, path: seq<Text>, value: JsonValue)
  {
    exists i :: 0 <= i < |log| && log[i] == Emission(path, value)
  }

  /** The schema.org IRI of an entity. */
  function SchemaIri(entity: string): (iri: string)
    ensures SchemaEntity(iri) == Some(entity)
  {
    assert (SCHEMA_ORG + entity)[..|SCHEMA_ORG|] == SCHEMA_ORG;
    assert (SCHEMA_ORG + entity)[|SCHEMA_ORG|..] == entity;
    SCHEMA_ORG + entity
  }

  /** The entity a schema.org IRI names; None for any other string. */
  function SchemaEntity(iri: string): (entity: Option<string>)
    ensures entity.Some? ==> iri == SCHEMA_ORG + entity.value
  {
    if |SCHEMA_ORG| <= |iri| && iri[..|SCHEMA_ORG|] == SCHEMA_ORG then
      assert iri == iri[..|SCHEMA_ORG|] + iri[|SCHEMA_ORG|..];
      Some(iri[|SCHEMA_ORG|..])
    else None
  }

  /** The blank-node identifier of an operation on an entity. */
  function BlankNodeId(entity: string): (id: string)
    ensures |id| == |entity| + 2 && id[..2] == BLANK_NODE_PREFIX && id[2..] == entity
  {
    BLANK_NODE_PREFIX + entity
  }

  /**
   * What an operation returns: owl:Nothing for DELETE (compared exactly, case
   * included), else hydra:Collection for a collection request, else the
   * entity's schema.org class.
   */
  function ReturnValue(entity: string, request: RequestFunction): (r: string)
    ensures r == OWL_NOTHING <==> request.httpMethod == DELETE
    ensures r == HYDRA_COLLECTION <==> request.httpMethod != DELETE && request.collection
    ensures SchemaEntity(r) == if request.httpMethod != DELETE && !request.collection then Some(entity) else None
  {
    var value :=
      if request.httpMethod == DELETE then OWL_NOTHING
      else if request.collection then HYDRA_COLLECTION
      else SchemaIri(entity);
    assert OWL_NOTHING[7] != SCHEMA_ORG[7] && HYDRA_COLLECTION[7] != SCHEMA_ORG[7];
    assert OWL_NOTHING[..|SCHEMA_ORG|] != SCHEMA_ORG;
    assert HYDRA_COLLECTION[..|SCHEMA_ORG|] != SCHEMA_ORG;
    assert SchemaIri(entity)[7] == SCHEMA_ORG[7];
    value
  }

  /**
   * The text of a form field's name: the name's own text, or "null" when
   * there is no name (the name is given as its text).
   */
  function ValueOf(name: Option<string>): (text: string)
    ensures name.Some? ==> text == name.value
    ensures name.None? ==> text == "null"
  {
    match name
    case None => "null"
    case Some(s) => s
  }

  // The writes of each mapper operation.

  function DescriptionEmissions(description: string): seq<Emission>
  {
    [Emission([Named(FieldNameDescription)], StringValue(Lit(description)))]
  }

  function TitleEmissions(title: string): seq<Emission>
  {
    [Emission([Named(FieldNameTitle)], StringValue(Lit(title)))]
  }

  function FormFieldEmissions(name: Option<string>, formField: Option<FormField>): seq<Emission>
  {
    var required := if formField.Some? then formField.value.required else false;
    [ Emission([Named(FieldNameTitle)], StringValue(Lit(ValueOf(name)))),
      Emission([Named(FieldNameRequired)], BooleanValue(required)),
      Emission([Lit("readonly")], BooleanValue(formField.None?)),
      Emission([Lit("writeonly")], BooleanValue(false)) ]
  }

  function OperationEmissions(entity: string, request: RequestFunction): seq<Emission>
  {
    [ Emission([Named(FieldNameId)], StringValue(Lit(BlankNodeId(entity)))),
      Emission([Named(FieldNameType)], StringValue(Named(TypeOperation))),
      Emission([Lit("method")], StringValue(Lit(request.httpMethod))),
      Emission([Lit("returns")], StringValue(Lit(ReturnValue(entity, request)))) ]
  }

  function ResourceEmissions(entity: string): seq<Emission>
  {
    [ Emission([Named(FieldNameId)], StringValue(Lit(SchemaIri(entity)))),
      Emission([Named(FieldNameType)], StringValue(Named(TypeClass))),
      Emission([Named(FieldNameTitle)], StringValue(Lit(entity))) ]
  }

  /** The compact IRI a context term stands for. */
  function HydraTerm(term: string): string
  {
    "hydra:" + (if term == "code" then "statusCodes" else term)
  }

  function ContextPath(term: string): seq<Text>
  {
    [Named(FieldNameContext), Lit(term)]
  }

  /** The "hydra" prefix, then the documentation's @id and its ApiDocumentation type. */
  function HeaderEmissions(): seq<Emission>
  {
    [ Emission(ContextPath("hydra"), StringValue(Named(UrlHydraProfile))),
      Emission([Named(FieldNameId)], StringValue(Lit(DOCUMENTATION_ID))),
      Emission([Named(FieldNameType)], StringValue(Named(TypeApiDocumentation))) ]
  }

  /** A context term defined by an object: its @id, and type @id. */
  function TermDefinitionEmissions(term: string, id: Text): seq<Emission>
  {
    [ Emission(ContextPath(term) + [Named(FieldNameId)], StringValue(id)),
      Emission(ContextPath(term) + [Named(FieldNameType)], StringValue(Named(FieldNameId))) ]
  }

  /** The plain terms written between the "property" and "expect" definitions. */
  function PlainTermEmissions(): seq<Emission>
  {
    [ Emission(ContextPath("readonly"), StringValue(Lit("hydra:readonly"))),
      Emission(ContextPath("writeonly"), StringValue(Lit("hydra:writeonly"))),
      Emission(ContextPath("supportedClass"), StringValue(Lit("hydra:supportedClass"))),
      Emission(ContextPath("supportedProperty"), StringValue(Lit("hydra:supportedProperty"))),
      Emission(ContextPath("supportedOperation"), StringValue(Lit("hydra:supportedOperation"))),
      Emission(ContextPath("method"), StringValue(Lit("hydra:method"))) ]
  }

  /** The status-code terms written last. */
  function StatusTermEmissions(): seq<Emission>
  {
    [ Emission(ContextPath("statusCodes"), StringValue(Lit("hydra:statusCodes"))),
      Emission(ContextPath("code"), StringValue(Lit("hydra:statusCodes"))) ]
  }

  /** Everything onStart writes, in order. */
  function StartEmissions(): seq<Emission>
  {
    HeaderEmissions()
    + TermDefinitionEmissions("property", Named(FieldNameProperty))
    + PlainTermEmissions()
    + TermDefinitionEmissions("expect", Lit("hydra:expect"))
    + TermDefinitionEmissions("returns", Lit("hydra:returns"))
    + StatusTermEmissions()
  }

  // The mapper operations, writing into the builder they are given.

  method MapDescription(builder: JsonObjectBuilder, description: string)
    modifies builder
    ensures builder.emissions == old(builder.emissions) + DescriptionEmissions(description)
  {
    builder.StringField([Named(FieldNameDescription)], Lit(description));
  }

  method MapFormField(builder: JsonObjectBuilder, name: Option<string>, formField: Option<FormField>)
    modifies builder
    ensures builder.emissions == old(builder.emissions) + FormFieldEmissions(name, formField)
  {
    builder.StringField([Named(FieldNameTitle)], Lit(ValueOf(name)));
    var required := if formField.Some? then formField.value.required else false;
    builder.BooleanField([Named(FieldNameRequired)], required);
    builder.BooleanField([Lit("readonly")], formField.None?);
    builder.BooleanField([Lit("writeonly")], false);
  }

  method MapOperation(builder: JsonObjectBuilder, entity: string, request: RequestFunction)
    modifies builder
    ensures builder.emissions == old(builder.emissions) + OperationEmissions(entity, request)
  {
    var httpMethod := request.httpMethod;
    builder.StringField([Named(FieldNameId)], Lit(BlankNodeId(entity)));
    builder.StringField([Named(FieldNameType)], Named(TypeOperation));
    builder.StringField([Lit("method")], Lit(httpMethod));
    var value := ReturnValue(entity, request);
    builder.StringField([Lit("returns")], Lit(value));
  }

  method MapResource(builder: JsonObjectBuilder, entity: string)
    modifies builder
    ensures builder.emissions == old(builder.emissions) + ResourceEmissions(entity)
  {
    builder.StringField([Named(FieldNameId)], Lit(SchemaIri(entity)));
    builder.StringField([Named(FieldNameType)], Named(TypeClass));
    builder.StringField([Named(FieldNameTitle)], Lit(entity));
  }

  method MapTitle(builder: JsonObjectBuilder, title: string)
    modifies builder
    ensures builder.emissions == old(builder.emissions) + TitleEmissions(title)
  {
    builder.StringField([Named(FieldNameTitle)], Lit(title));
  }

  method OnFinishOperation(builder: JsonObjectBuilder, operationBuilder: JsonObjectBuilder)
    modifies builder
    ensures builder.emissions == old(builder.emissions) + [Emission([Lit("supportedOperation")], ArrayElement(operationBuilder))]
  {
    builder.ArrayAdd([Lit("supportedOperation")], operationBuilder);
  }

  method OnFinishProperty(builder: JsonObjectBuilder, propertyBuilder: JsonObjectBuilder)
    modifies builder
    ensures builder.emissions == old(builder.emissions) + [Emission([Lit("supportedProperty")], ArrayElement(propertyBuilder))]
  {
    builder.ArrayAdd([Lit("supportedProperty")], propertyBuilder);
  }

  method OnFinishResource(builder: JsonObjectBuilder, resourceBuilder: JsonObjectBuilder)
    modifies builder
    ensures builder.emissions == old(builder.emissions) + [Emission([Lit("supportedClass")], ArrayElement(resourceBuilder))]
  {
    builder.ArrayAdd([Lit("supportedClass")], resourceBuilder);
  }

  method WriteHeader(builder: JsonObjectBuilder)
    modifies builder
    ensures builder.emissions == old(builder.emissions) + HeaderEmissions()
  {
    builder.StringField(ContextPath("hydra"), Named(UrlHydraProfile));
    builder.StringField([Named(FieldNameId)], Lit(DOCUMENTATION_ID));
    builder.StringField([Named(FieldNameType)], Named(TypeApiDocumentation));
  }

  method WriteTermDefinition(builder: JsonObjectBuilder, term: string, id: Text)
    modifies builder
    ensures builder.emissions == old(builder.emissions) + TermDefinitionEmissions(term, id)
  {
    builder.StringField(ContextPath(term) + [Named(FieldNameId)], id);
    builder.StringField(ContextPath(term) + [Named(FieldNameType)], Named(FieldNameId));
  }

  method WritePlainTerms(builder: JsonObjectBuilder)
    modifies builder
    ensures builder.emissions == old(builder.emissions) + PlainTermEmissions()
  {
    builder.StringField(ContextPath("readonly"), Lit("hydra:readonly"));
    builder.StringField(ContextPath("writeonly"), Lit("hydra:writeonly"));
    builder.StringField(ContextPath("supportedClass"), Lit("hydra:supportedClass"));
    builder.StringField(ContextPath("supportedProperty"), Lit("hydra:supportedProperty"));
    builder.StringField(ContextPath("supportedOperation"), Lit("hydra:supportedOperation"));
    builder.StringField(ContextPath("method"), Lit("hydra:method"));
  }

  method WriteStatusTerms(builder: JsonObjectBuilder)
    modifies builder
    ensures builder.emissions == old(builder.emissions) + StatusTermEmissions()
  {
    builder.StringField(ContextPath("statusCodes"), Lit("hydra:statusCodes"));
    builder.StringField(ContextPath("code"), Lit("hydra:statusCodes"));
  }

  /** Writes the context, the documentation's @id and its ApiDocumentation type. */
  method OnStart(builder: JsonObjectBuilder)
    modifies builder
    ensures builder.emissions == old(builder.emissions) + StartEmissions()
  {
    WriteHeader(builder);
    WriteTermDefinition(builder, "property", Named(FieldNameProperty));
    WritePlainTerms(builder);
    WriteTermDefinition(builder, "expect", Lit("hydra:expect"));
    WriteTermDefinition(builder, "returns", Lit("hydra:returns"));
    WriteStatusTerms(builder);
  }

  // What the writes say.

  /**
   * A form field is written as required exactly when it is present and
   * required, as read-only exactly when it is absent, never as write-only;
   * so no field is written as both required and read-only.
   */
  lemma FormFieldFlags(name: Option<string>, formField: Option<FormField>)
    ensures Emits(FormFieldEmissions(name, formField), [Named(FieldNameTitle)], StringValue(Lit(ValueOf(name))))
    ensures Emits(FormFieldEmissions(name, formField), [Named(FieldNameRequired)], BooleanValue(true))
        <==> formField.Some? && formField.value.required
    ensures Emits(FormFieldEmissions(name, formField), [Lit("readonly")], BooleanValue(true)) <==> formField.None?
    ensures !Emits(FormFieldEmissions(name, formField), [Lit("writeonly")], BooleanValue(true))
    ensures !(Emits(FormFieldEmissions(name, formField), [Named(FieldNameRequired)], BooleanValue(true))
           && Emits(FormFieldEmissions(name, formField), [Lit("readonly")], BooleanValue(true)))
  {
    var log := FormFieldEmissions(name, formField);
    assert log[0] == Emission([Named(FieldNameTitle)], StringValue(Lit(ValueOf(name))));
    if formField.Some? && formField.value.required {
      assert log[1] == Emission([Named(FieldNameRequired)], BooleanValue(true));
    }
    if formField.None? {
      assert log[2] == Emission([Lit("readonly")], BooleanValue(true));
    }
  }

  /**
   * An operation's @id is the blank node of its entity, and it is written
   * as returning owl:Nothing exactly when its method is DELETE.
   */
  lemma OperationReturns(entity: string, request: RequestFunction)
    ensures Emits(OperationEmissions(entity, request), [Named(FieldNameId)], StringValue(Lit(BLANK_NODE_PREFIX + entity)))
    ensures Emits(OperationEmissions(entity, request), [Lit("returns")], StringValue(Lit(OWL_NOTHING)))
        <==> request.httpMethod == DELETE
    ensures Emits(OperationEmissions(entity, request), [Lit("returns")], StringValue(Lit(SchemaIri(entity))))
        <==> request.httpMethod != DELETE && !request.collection
  {
    var log := OperationEmissions(entity, request);
    assert log[0] == Emission([Named(FieldNameId)], StringValue(Lit(BLANK_NODE_PREFIX + entity)));
    assert log[3] == Emission([Lit("returns")], StringValue(Lit(ReturnValue(entity, request))));
    if SchemaIri(entity) == ReturnValue(entity, request) {
      assert SchemaEntity(ReturnValue(entity, request)) == Some(entity);
    }
  }

  /** A resource's @id is the schema.org IRI naming exactly the entity written as its title. */
  lemma ResourceIdNamesTitle(entity: string, id: string, title: string)
    requires Emits(ResourceEmissions(entity), [Named(FieldNameId)], StringValue(Lit(id)))
    requires Emits(ResourceEmissions(entity), [Named(FieldNameTitle)], StringValue(Lit(title)))
    ensures SchemaEntity(id) == Some(title)
  {
    var log := ResourceEmissions(entity);
    var i :| 0 <= i < |log| && log[i] == Emission([Named(FieldNameId)], StringValue(Lit(id)));
    var j :| 0 <= j < |log| && log[j] == Emission([Named(FieldNameTitle)], StringValue(Lit(title)));
    assert i == 0 && j == 2;
  }

  /** Operation identifiers (blank nodes) never coincide with resource identifiers (IRIs). */
  lemma OperationAndResourceIdsDiffer(operationEntity: string, resourceEntity: string)
    ensures BlankNodeId(operationEntity) != SchemaIri(resourceEntity)
  {
    assert BlankNodeId(operationEntity)[0] != SchemaIri(resourceEntity)[0];
  }

  /** A plain context term other than "hydra" stands for its hydra: compact IRI. */
  predicate PlainTermIsHydra(e: Emission)
  {
    (|e.path| == 2 && e.path[0] == Named(FieldNameContext) && e.path[1].Lit? && e.path[1].s != "hydra")
    ==> e.value == StringValue(Lit(HydraTerm(e.path[1].s)))
  }

  /** A term definition object in the context is typed @id. */
  predicate TermDefinitionIsTypedId(e: Emission)
  {
    (|e.path| == 3 && e.path[0] == Named(FieldNameContext) && e.path[2] == Named(FieldNameType))
    ==> e.value == StringValue(Named(FieldNameId))
  }

  /** The compact IRIs of the plain context terms, spelled out. */
  lemma HydraTerms()
    ensures HydraTerm("readonly") == "hydra:readonly"
    ensures HydraTerm("writeonly") == "hydra:writeonly"
    ensures HydraTerm("supportedClass") == "hydra:supportedClass"
    ensures HydraTerm("supportedProperty") == "hydra:supportedProperty"
    ensures HydraTerm("supportedOperation") == "hydra:supportedOperation"
    ensures HydraTerm("method") == "hydra:method"
    ensures HydraTerm("statusCodes") == "hydra:statusCodes"
    ensures HydraTerm("code") == "hydra:statusCodes"
  {
  }

  /**
   * In the context written by OnStart, every plain term other than "hydra"
   * stands for its hydra: compact IRI, with "code" an alias of
   * "hydra:statusCodes".
   */
  lemma ContextTermsAreHydra()
    ensures forall e :: e in StartEmissions() ==> PlainTermIsHydra(e)
  {
    HydraTerms();
    forall e | e in StartEmissions()
      ensures PlainTermIsHydra(e)
    {
      if e in PlainTermEmissions() {
      } else if e in StatusTermEmissions() {
      }
    }
  }

  /** Every term definition object OnStart writes ("property", "expect", "returns") is typed @id. */
  lemma ContextDefinitionsAreTypedId()
    ensures forall e :: e in StartEmissions() ==> TermDefinitionIsTypedId(e)
  {
  }

  /** The context binds "hydra" to the Hydra profile and aliases "code" to "hydra:statusCodes". */
  lemma ContextBindsHydraAndCode()
    ensures Emits(StartEmissions(), ContextPath("hydra"), StringValue(Named(UrlHydraProfile)))
    ensures Emits(StartEmissions(), ContextPath("code"), StringValue(Lit("hydra:statusCodes")))
    ensures Emits(StartEmissions(), ContextPath("statusCodes"), StringValue(Lit("hydra:statusCodes")))
  {
    var log := StartEmissions();
    assert log[0] == Emission(ContextPath("hydra"), StringValue(Named(UrlHydraProfile)));
    assert log[15] == Emission(ContextPath("statusCodes"), StringValue(Lit("hydra:statusCodes")));
    assert log[16] == Emission(ContextPath("code"), StringValue(Lit("hydra:statusCodes")));
  }
}
