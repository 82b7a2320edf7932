/** The records the metadata walker builds (src/Models/Metadata.cs). Each is
    created fresh by one parse and never shared, so the C# classes become
    values here. */
module Models {

  /** A structural property: its name and its EDM type name, carried as text. */
  datatype Property = Property(name: string, typeName: string)

  /** A navigation property: its name and the target type name. */
  datatype NavigationProperty = NavigationProperty(name: string, typeName: string)

  /** An entity type with its properties and navigation properties, in document order. */
  datatype Entity = Entity(name: string, properties: seq<Property>, navigationProperties: seq<NavigationProperty>)

  /** An association: its name and the types at its two ends. */
  datatype Relationship = Relationship(name: string, fromEntity: string, toEntity: string)

  /** The parse result. `properties` is never filled by the walker. */
  datatype Metadata = Metadata(entities: seq<Entity>, properties: seq<Property>, relationships: seq<Relationship>)
}
