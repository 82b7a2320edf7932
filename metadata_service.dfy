/** The CSDL metadata walker (src/Services/MetadataService.cs): ParseMetadata
    and ExtractQueryOptions over an already-parsed XML tree.

    Every failure of the source is a NullReferenceException (an absent
    attribute's `.Value`, an absent `End` element, an `Add` on a list that was
    never created); the model names which one it was. */
module MetadataService {
  import opened Results
  import opened Xml
  import opened Models

  /** The CSDL namespace of OData Version 4.0 Part 3. */
  const Edm := "http://docs.oasis-open.org/odata/ns/edm"

  function EdmName(localName: string): XName
  {
    XName(Edm, localName)
  }

  datatype ParseError =
    | MissingAttribute(element: XName, attribute: string)
    | MissingEnd(association: string)
    | NullCollection

  /** Every `EntityType` of the document, in document order. */
  function EntityTypes(root: XElement): seq<XElement>
  {
    DocumentDescendants(root, EdmName("EntityType"))
  }

  /** Every `Association` of the document, in document order. */
  function Associations(root: XElement): seq<XElement>
  {
    DocumentDescendants(root, EdmName("Association"))
  }

  function PropertyElements(e: XElement): seq<XElement>
  {
    Elements(e, EdmName("Property"))
  }

  function NavigationPropertyElements(e: XElement): seq<XElement>
  {
    Elements(e, EdmName("NavigationProperty"))
  }

  function Ends(association: XElement): seq<XElement>
  {
    Elements(association, EdmName("End"))
  }

  /** `e.Attribute(localName).Value`, which throws when the attribute is absent. */
  function RequiredAttribute(e: XElement, localName: string): (r: Result<string, ParseError>)
    ensures r.Success? <==> Attribute(e, localName).Some?
    ensures r.Success? ==> r.value == Attribute(e, localName).value
  {
    match Attribute(e, localName)
    case Some(v) => Success(v)
    case None => Failure(MissingAttribute(e.name, localName))
  }

  // ---------------------------------------------------------------------
  // Specification: the outcome of the source's loops, element by element,
  // stopping at the first failure in evaluation order.
  // ---------------------------------------------------------------------

  /** Builds one value per element, in order; the first failure is the result. */
  function MapResult<A, B>(xs: seq<A>, f: A -> Result<B, ParseError>): Result<seq<B>, ParseError>
  {
    if xs == [] then Success([])
    else
      var init :- MapResult(xs[..|xs| - 1], f);
      var last :- f(xs[|xs| - 1]);
      Success(init + [last])
  }

  function PropertyResult(p: XElement): Result<Property, ParseError>
  {
    var name :- RequiredAttribute(p, "Name");
    var typeName :- RequiredAttribute(p, "Type");
    Success(Property(name, typeName))
  }

  function NavigationPropertyResult(n: XElement): Result<NavigationProperty, ParseError>
  {
    var name :- RequiredAttribute(n, "Name");
    var typeName :- RequiredAttribute(n, "Type");
    Success(NavigationProperty(name, typeName))
  }

  function EntityResult(e: XElement): Result<Entity, ParseError>
  {
    var name :- RequiredAttribute(e, "Name");
    var properties :- MapResult(PropertyElements(e), PropertyResult);
    var navigationProperties :- MapResult(NavigationPropertyElements(e), NavigationPropertyResult);
    Success(Entity(name, properties, navigationProperties))
  }

  /** The first `End` gives the from-type, the last `End` the to-type. */
  function RelationshipResult(a: XElement): Result<Relationship, ParseError>
  {
    var name :- RequiredAttribute(a, "Name");
    match Element(a, EdmName("End"))
    case None => Failure(MissingEnd(name))
    case Some(first) =>
      var fromEntity :- RequiredAttribute(first, "Type");
      var ends := Ends(a);
      var toEntity :- RequiredAttribute(ends[|ends| - 1], "Type");
      Success(Relationship(name, fromEntity, toEntity))
  }

  function MetadataResult(root: XElement): Result<Metadata, ParseError>
  {
    var entities :- MapResult(EntityTypes(root), EntityResult);
    var relationships :- MapResult(Associations(root), RelationshipResult);
    Success(Metadata(entities, [], relationships))
  }

  // ---------------------------------------------------------------------
  // Specification: what a parsed document is, stated element by element.
  // ---------------------------------------------------------------------

  predicate HasNameAndType(e: XElement)
  {
    Attribute(e, "Name").Some? && Attribute(e, "Type").Some?
  }

  /** An `EntityType` the walker accepts: it has a name, and each of its
      property and navigation-property children has a name and a type. */
  predicate EntityTypeParses(e: XElement)
  {
    Attribute(e, "Name").Some?
    && (forall j :: 0 <= j < |PropertyElements(e)| ==> HasNameAndType(PropertyElements(e)[j]))
    && (forall j :: 0 <= j < |NavigationPropertyElements(e)| ==> HasNameAndType(NavigationPropertyElements(e)[j]))
  }

  /** `ent` is what `e` says: its name, and exactly its direct `Property` and
      `NavigationProperty` children, in order, names and types copied verbatim. */
  predicate Describes(ent: Entity, e: XElement)
  {
    Attribute(e, "Name") == Some(ent.name)
    && |ent.properties| == |PropertyElements(e)|
    && (forall j :: 0 <= j < |ent.properties| ==>
          Attribute(PropertyElements(e)[j], "Name") == Some(ent.properties[j].name)
          && Attribute(PropertyElements(e)[j], "Type") == Some(ent.properties[j].typeName))
    && |ent.navigationProperties| == |NavigationPropertyElements(e)|
    && (forall j :: 0 <= j < |ent.navigationProperties| ==>
          Attribute(NavigationPropertyElements(e)[j], "Name") == Some(ent.navigationProperties[j].name)
          && Attribute(NavigationPropertyElements(e)[j], "Type") == Some(ent.navigationProperties[j].typeName))
  }

  /** An `Association` the walker accepts: a name, at least one `End`, and a
      type on its first and on its last `End`. */
  predicate AssociationParses(a: XElement)
  {
    Attribute(a, "Name").Some? && |Ends(a)| > 0
    && Attribute(Ends(a)[0], "Type").Some? && Attribute(Ends(a)[|Ends(a)| - 1], "Type").Some?
  }

  /** `rel` is what `a` says: its name, the type of the first `End` and the
      type of the last `End` (the same one when there is a single `End`). */
  predicate DescribesRelationship(rel: Relationship, a: XElement)
  {
    Attribute(a, "Name") == Some(rel.name) && |Ends(a)| > 0
    && Attribute(Ends(a)[0], "Type") == Some(rel.fromEntity)
    && Attribute(Ends(a)[|Ends(a)| - 1], "Type") == Some(rel.toEntity)
  }

  predicate DocumentParses(root: XElement)
  {
    (forall i :: 0 <= i < |EntityTypes(root)| ==> EntityTypeParses(EntityTypes(root)[i]))
    && (forall i :: 0 <= i < |Associations(root)| ==> AssociationParses(Associations(root)[i]))
  }

  /** One entity per `EntityType` and one relationship per `Association`,
      each in document order, and no top-level properties. */
  predicate DescribesDocument(m: Metadata, root: XElement)
  {
    |m.entities| == |EntityTypes(root)|
    && (forall i :: 0 <= i < |m.entities| ==> Describes(m.entities[i], EntityTypes(root)[i]))
    && m.properties == []
    && |m.relationships| == |Associations(root)|
    && (forall i :: 0 <= i < |m.relationships| ==> DescribesRelationship(m.relationships[i], Associations(root)[i]))
  }

  // ---------------------------------------------------------------------
  // The two specifications agree.
  // ---------------------------------------------------------------------

  /** A list of results succeeds exactly when every element does, and then
      holds their values in order. */
  lemma {:induction false} MapResultPointwise<A, B>(xs: seq<A>, f: A -> Result<B, ParseError>, ys: seq<B>)
    ensures MapResult(xs, f) == Success(ys)
        <==> |ys| == |xs| && forall i :: 0 <= i < |xs| ==> f(xs[i]) == Success(ys[i])
  {
    if xs != [] && ys != [] {
      var n := |xs| - 1;
      MapResultPointwise(xs[..n], f, ys[..|ys| - 1]);
      assert ys == ys[..|ys| - 1] + [ys[|ys| - 1]];
    } else if xs != [] {
      MapResultNotEmpty(xs, f);
    }
  }

  lemma MapResultNotEmpty<A, B>(xs: seq<A>, f: A -> Result<B, ParseError>)
    requires xs != []
    ensures MapResult(xs, f) != Success([])
  {
  }

  lemma {:induction false} MapResultSucceeds<A, B>(xs: seq<A>, f: A -> Result<B, ParseError>)
    ensures MapResult(xs, f).Success? <==> forall i :: 0 <= i < |xs| ==> f(xs[i]).Success?
  {
    if xs != [] {
      var n := |xs| - 1;
      MapResultSucceeds(xs[..n], f);
      assert forall i :: 0 <= i < n ==> xs[..n][i] == xs[i];
    }
  }

  /** When element `k` is the first to fail, the whole list fails with its error. */
  lemma {:induction false} MapResultFailsAt<A, B>(xs: seq<A>, k: nat, f: A -> Result<B, ParseError>)
    requires k < |xs|
    requires MapResult(xs[..k], f).Success? && f(xs[k]).Failure?
    ensures MapResult(xs, f) == Failure(f(xs[k]).error)
    decreases |xs| - k
  {
    if k + 1 == |xs| {
      assert xs[..k] == xs[..|xs| - 1];
    } else {
      var n := |xs| - 1;
      assert xs[..n][..k] == xs[..k];
      MapResultFailsAt(xs[..n], k, f);
    }
  }

  lemma PropertyResultMeaning(p: XElement, prop: Property)
    ensures PropertyResult(p).Success? <==> HasNameAndType(p)
    ensures PropertyResult(p) == Success(prop)
        <==> Attribute(p, "Name") == Some(prop.name) && Attribute(p, "Type") == Some(prop.typeName)
  {
  }

  lemma NavigationPropertyResultMeaning(n: XElement, nav: NavigationProperty)
    ensures NavigationPropertyResult(n).Success? <==> HasNameAndType(n)
    ensures NavigationPropertyResult(n) == Success(nav)
        <==> Attribute(n, "Name") == Some(nav.name) && Attribute(n, "Type") == Some(nav.typeName)
  {
  }

  /** The property list is built exactly from property children that all
      have a name and a type, and holds those names and types in order. */
  lemma PropertiesMeaning(ps: seq<XElement>, props: seq<Property>)
    ensures MapResult(ps, PropertyResult).Success? <==> forall j :: 0 <= j < |ps| ==> HasNameAndType(ps[j])
    ensures MapResult(ps, PropertyResult) == Success(props)
        <==> |props| == |ps| && forall j :: 0 <= j < |ps| ==>
               Attribute(ps[j], "Name") == Some(props[j].name) && Attribute(ps[j], "Type") == Some(props[j].typeName)
  {
    MapResultSucceeds(ps, PropertyResult);
    MapResultPointwise(ps, PropertyResult, props);
    forall j | 0 <= j < |ps| ensures PropertyResult(ps[j]).Success? <==> HasNameAndType(ps[j]) {
      PropertyResultMeaning(ps[j], Property("", ""));
    }
    if |props| == |ps| {
      forall j | 0 <= j < |ps| ensures PropertyResult(ps[j]) == Success(props[j])
          <==> Attribute(ps[j], "Name") == Some(props[j].name) && Attribute(ps[j], "Type") == Some(props[j].typeName) {
        PropertyResultMeaning(ps[j], props[j]);
      }
    }
  }

  lemma NavigationPropertiesMeaning(ns: seq<XElement>, navs: seq<NavigationProperty>)
    ensures MapResult(ns, NavigationPropertyResult).Success? <==> forall j :: 0 <= j < |ns| ==> HasNameAndType(ns[j])
    ensures MapResult(ns, NavigationPropertyResult) == Success(navs)
        <==> |navs| == |ns| && forall j :: 0 <= j < |ns| ==>
               Attribute(ns[j], "Name") == Some(navs[j].name) && Attribute(ns[j], "Type") == Some(navs[j].typeName)
  {
    MapResultSucceeds(ns, NavigationPropertyResult);
    MapResultPointwise(ns, NavigationPropertyResult, navs);
    forall j | 0 <= j < |ns| ensures NavigationPropertyResult(ns[j]).Success? <==> HasNameAndType(ns[j]) {
      NavigationPropertyResultMeaning(ns[j], NavigationProperty("", ""));
    }
    if |navs| == |ns| {
      forall j | 0 <= j < |ns| ensures NavigationPropertyResult(ns[j]) == Success(navs[j])
          <==> Attribute(ns[j], "Name") == Some(navs[j].name) && Attribute(ns[j], "Type") == Some(navs[j].typeName) {
        NavigationPropertyResultMeaning(ns[j], navs[j]);
      }
    }
  }

  lemma EntityResultParts(e: XElement, ent: Entity)
    ensures EntityResult(e).Success?
        <==> Attribute(e, "Name").Some? && MapResult(PropertyElements(e), PropertyResult).Success?
             && MapResult(NavigationPropertyElements(e), NavigationPropertyResult).Success?
    ensures EntityResult(e) == Success(ent)
        <==> Attribute(e, "Name") == Some(ent.name)
             && MapResult(PropertyElements(e), PropertyResult) == Success(ent.properties)
             && MapResult(NavigationPropertyElements(e), NavigationPropertyResult) == Success(ent.navigationProperties)
  {
  }

  /** An entity is built exactly when the `EntityType` parses, and the entity
      built is the one it describes. */
  lemma EntityResultMeaning(e: XElement, ent: Entity)
    ensures EntityResult(e).Success? <==> EntityTypeParses(e)
    ensures EntityResult(e) == Success(ent) <==> Describes(ent, e)
  {
    EntityResultParts(e, ent);
    PropertiesMeaning(PropertyElements(e), ent.properties);
    NavigationPropertiesMeaning(NavigationPropertyElements(e), ent.navigationProperties);
  }

  lemma RelationshipResultMeaning(a: XElement, rel: Relationship)
    ensures RelationshipResult(a).Success? <==> AssociationParses(a)
    ensures RelationshipResult(a) == Success(rel) <==> DescribesRelationship(rel, a)
  {
  }

  /** ParseMetadata succeeds exactly on the documents whose every
      `EntityType` and `Association` parses; it never yields a partial result. */
  lemma MetadataResultSucceeds(root: XElement)
    ensures MetadataResult(root).Success? <==> DocumentParses(root)
  {
    var types, assocs := EntityTypes(root), Associations(root);
    MapResultSucceeds(types, EntityResult);
    MapResultSucceeds(assocs, RelationshipResult);
    forall i | 0 <= i < |types| ensures EntityResult(types[i]).Success? <==> EntityTypeParses(types[i]) {
      EntityResultMeaning(types[i], Entity("", [], []));
    }
    forall i | 0 <= i < |assocs| ensures RelationshipResult(assocs[i]).Success? <==> AssociationParses(assocs[i]) {
      RelationshipResultMeaning(assocs[i], Relationship("", "", ""));
    }
  }

  /** The parse yields `m` exactly when `m` describes the document: one entity
      per `EntityType` in document order with exactly its direct properties and
      navigation properties, and one relationship per `Association`. */
  lemma MetadataResultMeaning(root: XElement, m: Metadata)
    ensures MetadataResult(root) == Success(m) <==> DescribesDocument(m, root)
  {
    var types, assocs := EntityTypes(root), Associations(root);
    MapResultPointwise(types, EntityResult, m.entities);
    MapResultPointwise(assocs, RelationshipResult, m.relationships);
    if |m.entities| == |types| {
      forall i | 0 <= i < |types| ensures EntityResult(types[i]) == Success(m.entities[i]) <==> Describes(m.entities[i], types[i]) {
        EntityResultMeaning(types[i], m.entities[i]);
      }
    }
    if |m.relationships| == |assocs| {
      forall i | 0 <= i < |assocs|
        ensures RelationshipResult(assocs[i]) == Success(m.relationships[i]) <==> DescribesRelationship(m.relationships[i], assocs[i]) {
        RelationshipResultMeaning(assocs[i], m.relationships[i]);
      }
    }
  }

  // ---------------------------------------------------------------------
  // ParseMetadata
  // ---------------------------------------------------------------------

  /** One `EntityType`: its name, then its `Property` children, then its
      `NavigationProperty` children, each list in document order. */
  method ParseEntityType(entityElement: XElement) returns (r: Result<Entity, ParseError>)
    ensures r == EntityResult(entityElement)
  {
    var name :- RequiredAttribute(entityElement, "Name");

    var properties: seq<Property> := [];
    var propertyElements := PropertyElements(entityElement);
    var i := 0;
    while i < |propertyElements|
      invariant 0 <= i <= |propertyElements|
      invariant MapResult(propertyElements[..i], PropertyResult) == Success(properties)
    {
      var propertyElement := propertyElements[i];
      var propertyName := Attribute(propertyElement, "Name");
      if propertyName.None? {
        MapResultFailsAt(propertyElements, i, PropertyResult);
        return Failure(MissingAttribute(propertyElement.name, "Name"));
      }
      var propertyType := Attribute(propertyElement, "Type");
      if propertyType.None? {
        MapResultFailsAt(propertyElements, i, PropertyResult);
        return Failure(MissingAttribute(propertyElement.name, "Type"));
      }
      properties := properties + [Property(propertyName.value, propertyType.value)];
      assert propertyElements[..i + 1][..i] == propertyElements[..i];
      i := i + 1;
    }
    assert propertyElements[..i] == propertyElements;

    var navigationProperties: seq<NavigationProperty> := [];
    var navigationElements := NavigationPropertyElements(entityElement);
    var j := 0;
    while j < |navigationElements|
      invariant 0 <= j <= |navigationElements|
      invariant MapResult(navigationElements[..j], NavigationPropertyResult) == Success(navigationProperties)
    {
      var navigationElement := navigationElements[j];
      var navigationName := Attribute(navigationElement, "Name");
      if navigationName.None? {
        MapResultFailsAt(navigationElements, j, NavigationPropertyResult);
        return Failure(MissingAttribute(navigationElement.name, "Name"));
      }
      var navigationType := Attribute(navigationElement, "Type");
      if navigationType.None? {
        MapResultFailsAt(navigationElements, j, NavigationPropertyResult);
        return Failure(MissingAttribute(navigationElement.name, "Type"));
      }
      navigationProperties := navigationProperties + [NavigationProperty(navigationName.value, navigationType.value)];
      assert navigationElements[..j + 1][..j] == navigationElements[..j];
      j := j + 1;
    }
    assert navigationElements[..j] == navigationElements;

    return Success(Entity(name, properties, navigationProperties));
  }

  /** One `Association`: its name, the type of its first `End` (absent when
      there is no `End`), then the type of its last `End`. */
  method ParseAssociation(associationElement: XElement) returns (r: Result<Relationship, ParseError>)
    ensures r == RelationshipResult(associationElement)
  {
    var name :- RequiredAttribute(associationElement, "Name");
    var firstEnd := Element(associationElement, EdmName("End"));
    if firstEnd.None? {
      return Failure(MissingEnd(name));
    }
    var fromEntity :- RequiredAttribute(firstEnd.value, "Type");
    var ends := Ends(associationElement);
    var toEntity :- RequiredAttribute(ends[|ends| - 1], "Type");
    return Success(Relationship(name, fromEntity, toEntity));
  }

  /** Walks the document: every `EntityType`, then every `Association`, each
      in document order. The lists start empty; see ParseMetadataAsWritten
      for the code as written, where they are never created. */
  method ParseMetadata(root: XElement) returns (r: Result<Metadata, ParseError>)
    ensures r == MetadataResult(root)
  {
    var entities: seq<Entity> := [];
    var entityElements := EntityTypes(root);
    var i := 0;
    while i < |entityElements|
      invariant 0 <= i <= |entityElements|
      invariant MapResult(entityElements[..i], EntityResult) == Success(entities)
    {
      var entity := ParseEntityType(entityElements[i]);
      if entity.Failure? {
        MapResultFailsAt(entityElements, i, EntityResult);
        return entity.PropagateFailure();
      }
      entities := entities + [entity.value];
      assert entityElements[..i + 1][..i] == entityElements[..i];
      i := i + 1;
    }
    assert entityElements[..i] == entityElements;

    var relationships: seq<Relationship> := [];
    var associationElements := Associations(root);
    var j := 0;
    while j < |associationElements|
      invariant 0 <= j <= |associationElements|
      invariant MapResult(associationElements[..j], RelationshipResult) == Success(relationships)
    {
      var relationship := ParseAssociation(associationElements[j]);
      if relationship.Failure? {
        MapResultFailsAt(associationElements, j, RelationshipResult);
        return relationship.PropagateFailure();
      }
      relationships := relationships + [relationship.value];
      assert associationElements[..j + 1][..j] == associationElements[..j];
      j := j + 1;
    }
    assert associationElements[..j] == associationElements;

    return Success(Metadata(entities, [], relationships));
  }

  /** Entity extraction depends only on the `EntityType` elements: two
      documents that parse and have the same ones get the same entities,
      whatever their associations. */
  lemma EntitiesIgnoreAssociations(root1: XElement, root2: XElement, m1: Metadata, m2: Metadata)
    requires MetadataResult(root1) == Success(m1) && MetadataResult(root2) == Success(m2)
    requires EntityTypes(root1) == EntityTypes(root2)
    ensures m1.entities == m2.entities
  {
  }

  /** Only elements named `EntityType` in the CSDL namespace, anywhere in the
      document, become entities: the same local name in another namespace does not. */
  lemma EntityTypesAreExactlyEdm(root: XElement, x: XElement)
    ensures x in EntityTypes(root) <==> x in Subtree(root) && x.name == XName(Edm, "EntityType")
  {
    NamedMembers(Subtree(root), EdmName("EntityType"), x);
  }

  // ---------------------------------------------------------------------
  // ParseMetadata as written: the lists of Metadata have no initialiser.
  // ---------------------------------------------------------------------

  /** `Metadata` as the source allocates it: `None` stands for a list that is null. */
  datatype NullableMetadata = NullableMetadata(
    entities: Option<seq<Entity>>, properties: Option<seq<Property>>, relationships: Option<seq<Relationship>>)

  /** `list.Add(item)`, which throws when the list is null. */
  function Add<T>(list: Option<seq<T>>, item: T): (r: Result<seq<T>, ParseError>)
    ensures r.Success? <==> list.Some?
    ensures r.Success? ==> r.value == list.value + [item]
  {
    match list
    case None => Failure(NullCollection)
    case Some(items) => Success(items + [item])
  }

  /** For each element, build a value (which may fail), then add it to `list`. */
  function AddEach<A, B>(list: Option<seq<B>>, xs: seq<A>, build: A -> Result<B, ParseError>): Result<Option<seq<B>>, ParseError>
    decreases xs
  {
    if xs == [] then Success(list)
    else
      var item :- build(xs[0]);
      var items :- Add(list, item);
      AddEach(Some(items), xs[1..], build)
  }

  /** `new Metadata()` in the source: every list null. */
  const NewMetadata := NullableMetadata(None, None, None)

  /** ParseMetadata as the source is written, with the lists of `Metadata` left null. */
  function ParseMetadataAsWritten(root: XElement): (r: Result<NullableMetadata, ParseError>)
    ensures r.Success? ==> r.value == NewMetadata
    ensures EntityTypes(root) != [] ==>
      r == Failure(if EntityResult(EntityTypes(root)[0]).Failure? then EntityResult(EntityTypes(root)[0]).error
                   else NullCollection)
  {
    var entities :- AddEach(NewMetadata.entities, EntityTypes(root), EntityResult);
    var relationships :- AddEach(NewMetadata.relationships, Associations(root), RelationshipResult);
    Success(NullableMetadata(entities, NewMetadata.properties, relationships))
  }

  /** As written, the first `EntityType` that parses is added to a null list,
      so no document with an `EntityType` can be parsed at all; neither can one
      with an `Association`. */
  lemma {:induction false} AsWrittenFailsOnEveryEntityType(root: XElement)
    ensures EntityTypes(root) != [] ==> ParseMetadataAsWritten(root).Failure?
    ensures Associations(root) != [] ==> ParseMetadataAsWritten(root).Failure?
    ensures ParseMetadataAsWritten(root).Success?
        <==> EntityTypes(root) == [] && Associations(root) == []
  {
  }

  // ---------------------------------------------------------------------
  // ExtractQueryOptions
  // ---------------------------------------------------------------------

  /** The three options emitted for one property name. */
  function QueryOptionsFor(name: string): seq<string>
  {
    ["$filter=" + name + " eq 'value'", "$select=" + name, "$orderby=" + name]
  }

  /** The options for each name in turn. */
  function QueryOptionsForNames(names: seq<string>): seq<string>
  {
    if names == [] then []
    else QueryOptionsForNames(names[..|names| - 1]) + QueryOptionsFor(names[|names| - 1])
  }

  function Flatten<T>(xss: seq<seq<T>>): seq<T>
  {
    if xss == [] then [] else Flatten(xss[..|xss| - 1]) + xss[|xss| - 1]
  }

  lemma QueryOptionsForNamesSnoc(names: seq<string>, name: string)
    ensures QueryOptionsForNames(names + [name]) == QueryOptionsForNames(names) + QueryOptionsFor(name)
  {
    assert (names + [name])[..|names|] == names;
  }

  lemma FlattenSnoc<T>(xss: seq<seq<T>>, xs: seq<T>)
    ensures Flatten(xss + [xs]) == Flatten(xss) + xs
  {
    assert (xss + [xs])[..|xss|] == xss;
  }

  /** The `Name` of a property child; unlike ParseMetadata, its `Type` is not read. */
  function PropertyNameResult(p: XElement): Result<string, ParseError>
  {
    RequiredAttribute(p, "Name")
  }

  function PropertyNamesResult(e: XElement): Result<seq<string>, ParseError>
  {
    MapResult(PropertyElements(e), PropertyNameResult)
  }

  function QueryOptionsResult(root: XElement): Result<seq<string>, ParseError>
  {
    var names :- MapResult(EntityTypes(root), PropertyNamesResult);
    Success(QueryOptionsForNames(Flatten(names)))
  }

  /** The options of one `EntityType`: those of its property names, or the first missing `Name`. */
  function EntityQueryOptionsResult(e: XElement): Result<seq<string>, ParseError>
  {
    var names :- PropertyNamesResult(e);
    Success(QueryOptionsForNames(names))
  }

  lemma {:induction false} QueryOptionsForNamesAppend(a: seq<string>, b: seq<string>)
    ensures QueryOptionsForNames(a + b) == QueryOptionsForNames(a) + QueryOptionsForNames(b)
    decreases |b|
  {
    if b == [] {
      assert a + b == a;
    } else {
      var front := b[..|b| - 1];
      assert (a + b)[..|a + b| - 1] == a + front;
      QueryOptionsForNamesAppend(a, front);
    }
  }

  /** The inner loop of the extraction: the options of one `EntityType`'s properties. */
  method ExtractEntityQueryOptions(entityType: XElement) returns (r: Result<seq<string>, ParseError>)
    ensures r == EntityQueryOptionsResult(entityType)
  {
    var queryOptions: seq<string> := [];
    ghost var names: seq<string> := [];
    var propertyElements := PropertyElements(entityType);
    var j := 0;
    while j < |propertyElements|
      invariant 0 <= j <= |propertyElements|
      invariant MapResult(propertyElements[..j], PropertyNameResult) == Success(names)
      invariant queryOptions == QueryOptionsForNames(names)
    {
      var propertyName := Attribute(propertyElements[j], "Name");
      if propertyName.None? {
        MapResultFailsAt(propertyElements, j, PropertyNameResult);
        return Failure(MissingAttribute(propertyElements[j].name, "Name"));
      }
      queryOptions := queryOptions + ["$filter=" + propertyName.value + " eq 'value'"];
      queryOptions := queryOptions + ["$select=" + propertyName.value];
      queryOptions := queryOptions + ["$orderby=" + propertyName.value];
      QueryOptionsForNamesSnoc(names, propertyName.value);
      names := names + [propertyName.value];
      assert propertyElements[..j + 1][..j] == propertyElements[..j];
      j := j + 1;
    }
    assert propertyElements[..j] == propertyElements;
    return Success(queryOptions);
  }

  /** For each `Property` child of each `EntityType`, in document order, the
      options `$filter={name} eq 'value'`, `$select={name}` and `$orderby={name}`. */
  method ExtractQueryOptions(root: XElement) returns (r: Result<seq<string>, ParseError>)
    ensures r == QueryOptionsResult(root)
  {
    var queryOptions: seq<string> := [];
    ghost var names: seq<seq<string>> := [];
    var entityElements := EntityTypes(root);
    var i := 0;
    while i < |entityElements|
      invariant 0 <= i <= |entityElements|
      invariant MapResult(entityElements[..i], PropertyNamesResult) == Success(names)
      invariant queryOptions == QueryOptionsForNames(Flatten(names))
    {
      var entityOptions := ExtractEntityQueryOptions(entityElements[i]);
      if entityOptions.Failure? {
        MapResultFailsAt(entityElements, i, PropertyNamesResult);
        return Failure(entityOptions.error);
      }
      ghost var entityNames := PropertyNamesResult(entityElements[i]).value;
      queryOptions := queryOptions + entityOptions.value;
      QueryOptionsForNamesAppend(Flatten(names), entityNames);
      FlattenSnoc(names, entityNames);
      names := names + [entityNames];
      assert entityElements[..i + 1][..i] == entityElements[..i];
      i := i + 1;
    }
    assert entityElements[..i] == entityElements;
    return Success(queryOptions);
  }

  /** Three options per name, in order: the k-th option belongs to name k / 3. */
  lemma {:induction false} QueryOptionsForNamesShape(names: seq<string>)
    ensures |QueryOptionsForNames(names)| == 3 * |names|
    ensures forall k :: 0 <= k < |QueryOptionsForNames(names)| ==>
      QueryOptionsForNames(names)[k] == QueryOptionsFor(names[k / 3])[k % 3]
  {
    if names != [] {
      var init := names[..|names| - 1];
      QueryOptionsForNamesShape(init);
      forall k | 0 <= k < 3 * |names|
        ensures QueryOptionsForNames(names)[k] == QueryOptionsFor(names[k / 3])[k % 3]
      {
        if k < 3 * |init| {
          assert names[k / 3] == init[k / 3];
        }
      }
    }
  }

  /** ExtractQueryOptions fails exactly when some `Property` child of some
      `EntityType` has no `Name`; types, entity names and navigation
      properties are never read. */
  lemma QueryOptionsResultSucceeds(root: XElement)
    ensures QueryOptionsResult(root).Success?
        <==> forall i, j :: 0 <= i < |EntityTypes(root)| && 0 <= j < |PropertyElements(EntityTypes(root)[i])| ==>
               Attribute(PropertyElements(EntityTypes(root)[i])[j], "Name").Some?
  {
    var types := EntityTypes(root);
    MapResultSucceeds(types, PropertyNamesResult);
    forall i | 0 <= i < |types| {
      MapResultSucceeds(PropertyElements(types[i]), PropertyNameResult);
    }
  }

  /** Every property of every parsed entity, entity after entity. */
  function AllProperties(entities: seq<Entity>): seq<Property>
  {
    if entities == [] then [] else AllProperties(entities[..|entities| - 1]) + entities[|entities| - 1].properties
  }

  function Names(properties: seq<Property>): (names: seq<string>)
    ensures |names| == |properties|
    ensures forall j :: 0 <= j < |properties| ==> names[j] == properties[j].name
  {
    seq(|properties|, j requires 0 <= j < |properties| => properties[j].name)
  }

  lemma {:induction false} FlattenNames(entities: seq<Entity>, names: seq<seq<string>>)
    requires |names| == |entities|
    requires forall i :: 0 <= i < |entities| ==> names[i] == Names(entities[i].properties)
    ensures Flatten(names) == Names(AllProperties(entities))
  {
    if entities != [] {
      var n := |entities| - 1;
      FlattenNames(entities[..n], names[..n]);
      var before := AllProperties(entities[..n]);
      var last := entities[n].properties;
      assert Names(before + last) == Names(before) + Names(last);
    }
  }

  /** ExtractQueryOptions agrees with ParseMetadata: when the document parses,
      the options are the three options of each property of the parsed
      entities, in order. */
  lemma QueryOptionsAgreeWithParse(root: XElement, m: Metadata)
    requires MetadataResult(root) == Success(m)
    ensures QueryOptionsResult(root) == Success(QueryOptionsForNames(Names(AllProperties(m.entities))))
  {
    var types := EntityTypes(root);
    MetadataResultMeaning(root, m);
    var names := seq(|types|, i requires 0 <= i < |types| => Names(m.entities[i].properties));
    forall i | 0 <= i < |types| ensures PropertyNamesResult(types[i]) == Success(names[i]) {
      var ps := PropertyElements(types[i]);
      MapResultPointwise(ps, PropertyNameResult, names[i]);
    }
    MapResultPointwise(types, PropertyNamesResult, names);
    FlattenNames(m.entities, names);
  }

  // ---------------------------------------------------------------------
  // Documents
  // ---------------------------------------------------------------------

  function NoNamespaceAttribute(localName: string, value: string): XAttribute
  {
    XAttribute(XName("", localName), value)
  }

  function EdmElement(localName: string, attributes: seq<XAttribute>, children: seq<XElement>): XElement
  {
    XElement(EdmName(localName), attributes, children)
  }

  /** A `Person` entity type with a key, two properties and one navigation property. */
  function PersonEntityType(): XElement
  {
    EdmElement("EntityType", [NoNamespaceAttribute("Name", "Person")], [
      EdmElement("Key", [], [EdmElement("PropertyRef", [NoNamespaceAttribute("Name", "ID")], [])]),
      EdmElement("Property", [NoNamespaceAttribute("Name", "ID"), NoNamespaceAttribute("Type", "Edm.String"),
                              NoNamespaceAttribute("Nullable", "false")], []),
      EdmElement("Property", [NoNamespaceAttribute("Name", "Name"), NoNamespaceAttribute("Type", "Edm.String")], []),
      EdmElement("NavigationProperty", [NoNamespaceAttribute("Name", "Address"),
                                        NoNamespaceAttribute("Type", "Namespace.Address")], [])])
  }

  /** The `Person` entity type inside its `edmx:Edmx`, `edmx:DataServices` and `Schema` envelope.
      The namespace declarations are attributes, as LINQ to XML keeps them:
      `xmlns:edmx` in the `xmlns` namespace, and the default `xmlns` with no namespace. */
  function PersonDocument(): XElement
  {
    var edmx := "http://docs.oasis-open.org/odata/ns/edmx";
    XElement(XName(edmx, "Edmx"), [XAttribute(XName("http://www.w3.org/2000/xmlns/", "edmx"), edmx)], [
      XElement(XName(edmx, "DataServices"), [], [
        EdmElement("Schema", [NoNamespaceAttribute("xmlns", Edm)], [PersonEntityType()])])])
  }

  lemma PersonSubtree()
    ensures var person := PersonEntityType();
      Subtree(person) == [person, person.children[0], person.children[0].children[0]] + person.children[1..]
  {
    var person := PersonEntityType();
    var key := person.children[0];
    assert Subtree(key.children[0]) == [key.children[0]];
    assert Subtree(key) == [key, key.children[0]];
    assert Subtree(person.children[3]) == [person.children[3]];
    assert SubtreesOf(person.children[3..]) == [person.children[3]];
    assert Subtree(person.children[2]) == [person.children[2]];
    assert SubtreesOf(person.children[2..]) == person.children[2..];
    assert Subtree(person.children[1]) == [person.children[1]];
    assert SubtreesOf(person.children[1..]) == person.children[1..];
  }

  lemma PersonDocumentElements()
    ensures EntityTypes(PersonDocument()) == [PersonEntityType()]
    ensures Associations(PersonDocument()) == []
  {
    var person := PersonEntityType();
    var doc := PersonDocument();
    var schema := doc.children[0].children[0];
    PersonSubtree();
    assert SubtreesOf(schema.children) == Subtree(person);
    assert Subtree(schema) == [schema] + Subtree(person);
    assert SubtreesOf(doc.children[0].children) == Subtree(schema);
    assert Subtree(doc.children[0]) == [doc.children[0], schema] + Subtree(person);
    var above := [doc, doc.children[0], schema];
    var below := [person.children[0], person.children[0].children[0]] + person.children[1..];
    assert Subtree(doc) == above + [person] + below;
    NamedNone(above, EdmName("EntityType"));
    NamedNone(below, EdmName("EntityType"));
    NamedAppend(above + [person], below, EdmName("EntityType"));
    NamedAppend(above, [person], EdmName("EntityType"));
    NamedNone(above + [person] + below, EdmName("Association"));
  }

  lemma PersonChildren()
    ensures var person := PersonEntityType();
      PropertyElements(person) == person.children[1..3]
      && NavigationPropertyElements(person) == person.children[3..]
  {
    var person := PersonEntityType();
    var c := person.children;
    assert c == c[..1] + c[1..3] + c[3..];
    NamedAppend(c[..1] + c[1..3], c[3..], EdmName("Property"));
    NamedAppend(c[..1], c[1..3], EdmName("Property"));
    NamedNone(c[..1], EdmName("Property"));
    NamedAll(c[1..3], EdmName("Property"));
    NamedNone(c[3..], EdmName("Property"));
    NamedAppend(c[..1] + c[1..3], c[3..], EdmName("NavigationProperty"));
    NamedNone(c[..1] + c[1..3], EdmName("NavigationProperty"));
    NamedAll(c[3..], EdmName("NavigationProperty"));
  }

  lemma AttributeAt(e: XElement, k: nat, localName: string, value: string)
    requires k < |e.attributes| && e.attributes[k] == NoNamespaceAttribute(localName, value)
    requires forall i :: 0 <= i < k ==> e.attributes[i].name.localName != localName
    ensures Attribute(e, localName) == Some(value)
  {
    AttributeInAt(e.attributes, k, XName("", localName), value);
  }

  lemma {:induction false} AttributeInAt(attributes: seq<XAttribute>, k: nat, name: XName, value: string)
    requires k < |attributes| && attributes[k] == XAttribute(name, value)
    requires forall i :: 0 <= i < k ==> attributes[i].name != name
    ensures AttributeIn(attributes, name) == Some(value)
  {
    if k > 0 {
      AttributeInAt(attributes[1..], k - 1, name, value);
    }
  }

  lemma PersonPropertyAttributes()
    ensures var person := PersonEntityType();
      Attribute(person.children[1], "Name") == Some("ID")
      && Attribute(person.children[1], "Type") == Some("Edm.String")
      && Attribute(person.children[2], "Name") == Some("Name")
      && Attribute(person.children[2], "Type") == Some("Edm.String")
  {
    var person := PersonEntityType();
    var p1, p2 := person.children[1], person.children[2];
    AttributeAt(p1, 0, "Name", "ID");
    AttributeAt(p1, 1, "Type", "Edm.String");
    AttributeAt(p2, 0, "Name", "Name");
    AttributeAt(p2, 1, "Type", "Edm.String");
  }

  lemma PersonOtherAttributes()
    ensures var person := PersonEntityType();
      Attribute(person, "Name") == Some("Person")
      && Attribute(person.children[3], "Name") == Some("Address")
      && Attribute(person.children[3], "Type") == Some("Namespace.Address")
  {
    var person := PersonEntityType();
    var n := person.children[3];
    AttributeAt(person, 0, "Name", "Person");
    AttributeAt(n, 0, "Name", "Address");
    AttributeAt(n, 1, "Type", "Namespace.Address");
  }

  /** An entity type with two properties and one navigation property. */
  lemma DescribesTwoPropertiesOneNavigation(e: XElement, name: string, p1: Property, p2: Property, n: NavigationProperty)
    requires Attribute(e, "Name") == Some(name)
    requires |PropertyElements(e)| == 2 && |NavigationPropertyElements(e)| == 1
    requires Attribute(PropertyElements(e)[0], "Name") == Some(p1.name)
    requires Attribute(PropertyElements(e)[0], "Type") == Some(p1.typeName)
    requires Attribute(PropertyElements(e)[1], "Name") == Some(p2.name)
    requires Attribute(PropertyElements(e)[1], "Type") == Some(p2.typeName)
    requires Attribute(NavigationPropertyElements(e)[0], "Name") == Some(n.name)
    requires Attribute(NavigationPropertyElements(e)[0], "Type") == Some(n.typeName)
    ensures Describes(Entity(name, [p1, p2], [n]), e)
  {
  }

  lemma PersonDescribed()
    ensures Describes(Entity("Person", [Property("ID", "Edm.String"), Property("Name", "Edm.String")],
                             [NavigationProperty("Address", "Namespace.Address")]), PersonEntityType())
  {
    var person := PersonEntityType();
    PersonChildren();
    PersonPropertyAttributes();
    PersonOtherAttributes();
    DescribesTwoPropertiesOneNavigation(person, "Person", Property("ID", "Edm.String"),
      Property("Name", "Edm.String"), NavigationProperty("Address", "Namespace.Address"));
  }

  /** The `Person` document parses to one entity named `Person` with the
      properties `ID` and `Name` and the navigation property `Address`. */
  lemma PersonDocumentParses()
    ensures MetadataResult(PersonDocument()) == Success(Metadata(
      [Entity("Person", [Property("ID", "Edm.String"), Property("Name", "Edm.String")],
              [NavigationProperty("Address", "Namespace.Address")])], [], []))
  {
    var person := PersonEntityType();
    var doc := PersonDocument();
    var entity := Entity("Person", [Property("ID", "Edm.String"), Property("Name", "Edm.String")],
                         [NavigationProperty("Address", "Namespace.Address")]);
    PersonDocumentElements();
    PersonDescribed();
    assert DescribesDocument(Metadata([entity], [], []), doc);
    MetadataResultMeaning(doc, Metadata([entity], [], []));
  }

  lemma PersonQueryOptionsFromEntity(entity: Entity)
    requires entity.properties == [Property("ID", "Edm.String"), Property("Name", "Edm.String")]
    ensures QueryOptionsForNames(Names(AllProperties([entity])))
         == ["$filter=ID eq 'value'", "$select=ID", "$orderby=ID",
             "$filter=Name eq 'value'", "$select=Name", "$orderby=Name"]
  {
    assert [entity][..0] == [];
    assert AllProperties([entity]) == entity.properties;
    var names := Names(entity.properties);
    assert names == ["ID", "Name"];
    assert names[..1] == ["ID"] && names[..1][..0] == [];
    assert QueryOptionsForNames(names[..1]) == QueryOptionsFor("ID");
    assert QueryOptionsForNames(names) == QueryOptionsFor("ID") + QueryOptionsFor("Name");
    // The verifier does not fold concatenations of literals; each option is needed.
    assert "$filter=" + "ID" + " eq 'value'" == "$filter=ID eq 'value'";
    assert "$select=" + "ID" == "$select=ID";
    assert "$orderby=" + "ID" == "$orderby=ID";
    assert "$filter=" + "Name" + " eq 'value'" == "$filter=Name eq 'value'";
    assert "$select=" + "Name" == "$select=Name";
    assert "$orderby=" + "Name" == "$orderby=Name";
  }

  /** Its query options are the three options of `ID`, then those of `Name`. */
  lemma PersonDocumentQueryOptions()
    ensures QueryOptionsResult(PersonDocument()) == Success(
      ["$filter=ID eq 'value'", "$select=ID", "$orderby=ID",
       "$filter=Name eq 'value'", "$select=Name", "$orderby=Name"])
  {
    var entity := Entity("Person", [Property("ID", "Edm.String"), Property("Name", "Edm.String")],
                         [NavigationProperty("Address", "Namespace.Address")]);
    PersonDocumentParses();
    QueryOptionsAgreeWithParse(PersonDocument(), Metadata([entity], [], []));
    PersonQueryOptionsFromEntity(entity);
  }

  /** As written, the same document cannot be parsed: its `EntityType`
      parses, and adding it to the null `Entities` list fails. */
  lemma PersonDocumentFailsAsWritten()
    ensures ParseMetadataAsWritten(PersonDocument()) == Failure(NullCollection)
  {
    PersonDocumentParses();
    PersonDocumentElements();
    MapResultSucceeds(EntityTypes(PersonDocument()), EntityResult);
  }

  /** A document with no `EntityType` is not rejected: `<invalid></invalid>`
      parses to metadata with no entities and no relationships. */
  lemma DocumentWithoutEntityTypesParses()
    ensures MetadataResult(XElement(XName("", "invalid"), [], [])) == Success(Metadata([], [], []))
  {
    var doc := XElement(XName("", "invalid"), [], []);
    assert Subtree(doc) == [doc];
  }
}
