/** The parts a WordprocessingML package can hold shortcuts to, and the
    relationship types that name those shortcuts. */
module Parts {

  /** The run-time class of a part, as far as the casts in `setPartShortcut`
      can tell parts apart (`DocPropsCorePart`, `DocPropsExtendedPart`,
      `MainDocumentPart`, `GlossaryDocumentPart`, or any other `Part`). */
  datatype PartKind =
    | DocPropsCore
    | DocPropsExtended
    | MainDocument
    | GlossaryDocument
    | OtherPart

  /** A part of the package: its class and its part name. The name only gives
      parts an identity here; part-name validation is not modelled. */
  datatype Part = Part(kind: PartKind, name: string)

  /** The three relationship type URIs that `setPartShortcut` recognises
      (`Namespaces.PROPERTIES_CORE`, `Namespaces.PROPERTIES_EXTENDED` and
      `Namespaces.DOCUMENT`). Their string values are a parameter of the
      model; nothing below assumes they are distinct. */
  datatype RelationshipTypes = RelationshipTypes(
    propertiesCore: string,
    propertiesExtended: string,
    document: string)
}
