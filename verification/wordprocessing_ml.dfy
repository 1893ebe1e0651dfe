/** A WordprocessingML package as seen by its shortcut registry: the package
    content type, the content type manager it was built with, and the slots
    holding the well-known singleton parts. `setPartShortcut` is a pure
    transition on this record. */
module WordprocessingML {
  import opened Results
  import opened Parts

  /** `ContentTypes.WORDPROCESSINGML_DOCUMENT`, the content type of a Word
      document's main part. */
  const WORDPROCESSINGML_DOCUMENT: string :=
    "application/vnd.openxmlformats-officedocument.wordprocessingml.document.main+xml"

  /** Which content type manager the package uses: one the package created
      itself, or one the caller supplied (identified by an opaque handle). */
  datatype ContentTypeManagerRef = CreatedByPackage | Supplied(handle: nat)

  /** The fields of a `WordprocessingMLPackage` that this model covers.
      `docPropsCorePart` and `docPropsExtendedPart` are inherited from
      `Package`; `mainDoc` and `glossaryDoc` are declared by the subclass. */
  datatype WordprocessingMLPackage = WordprocessingMLPackage(
    contentType: string,
    contentTypeManager: ContentTypeManagerRef,
    docPropsCorePart: Option<Part>,
    docPropsExtendedPart: Option<Part>,
    mainDoc: Option<Part>,
    glossaryDoc: Option<Part>)

  /** The three shortcut slots `setPartShortcut` can write. */
  datatype Slot = CoreSlot | ExtendedSlot | MainDocSlot

  /** A failed downcast: the slot whose class was expected, and the class of
      the part actually passed. */
  datatype CastError = ClassCastException(target: Slot, actual: PartKind)

  /** The class a slot's field is declared with. */
  function Expected(slot: Slot): PartKind {
    match slot
    case CoreSlot => DocPropsCore
    case ExtendedSlot => DocPropsExtended
    case MainDocSlot => MainDocument
  }

  /** A Java cast of `part` to the class of `slot` succeeds: `null` casts to
      every class, any other part only to its own. */
  predicate Fits(slot: Slot, part: Option<Part>) {
    part.None? || part.value.kind == Expected(slot)
  }

  /** The slot a relationship type addresses, if any: the first constant
      it equals, in the order `setPartShortcut` compares them. */
  function SlotFor(relationshipType: string, ns: RelationshipTypes): Option<Slot> {
    if relationshipType == ns.propertiesCore then Some(CoreSlot)
    else if relationshipType == ns.propertiesExtended then Some(ExtendedSlot)
    else if relationshipType == ns.document then Some(MainDocSlot)
    else None
  }

  /** Reads a slot. */
  function Get(p: WordprocessingMLPackage, slot: Slot): Option<Part> {
    match slot
    case CoreSlot => p.docPropsCorePart
    case ExtendedSlot => p.docPropsExtendedPart
    case MainDocSlot => p.mainDoc
  }

  /** Writes one slot; reading it back gives `part`, and every other slot and
      field keeps its value. */
  function Put(p: WordprocessingMLPackage, slot: Slot, part: Option<Part>): (r: WordprocessingMLPackage)
    ensures Get(r, slot) == part
    ensures forall other :: other != slot ==> Get(r, other) == Get(p, other)
    ensures r.contentType == p.contentType
    ensures r.contentTypeManager == p.contentTypeManager
    ensures r.glossaryDoc == p.glossaryDoc
  {
    match slot
    case CoreSlot => p.(docPropsCorePart := part)
    case ExtendedSlot => p.(docPropsExtendedPart := part)
    case MainDocSlot => p.(mainDoc := part)
  }

  /** Every slot holds `null` or a part of the slot's declared class, as
      Java's field types guarantee. */
  predicate WellTyped(p: WordprocessingMLPackage) {
    && Fits(CoreSlot, p.docPropsCorePart)
    && Fits(ExtendedSlot, p.docPropsExtendedPart)
    && Fits(MainDocSlot, p.mainDoc)
    && (p.glossaryDoc.None? || p.glossaryDoc.value.kind == GlossaryDocument)
  }

  /** The package fields after the constructor has run: the WordprocessingML
      document content type, and every part slot still null. */
  function Fresh(manager: ContentTypeManagerRef): (p: WordprocessingMLPackage)
    ensures p.contentType == WORDPROCESSINGML_DOCUMENT
    ensures p.contentTypeManager == manager
    ensures forall slot :: Get(p, slot).None?
    ensures p.glossaryDoc.None?
  {
    WordprocessingMLPackage(WORDPROCESSINGML_DOCUMENT, manager, None, None, None, None)
  }

  /** `new WordprocessingMLPackage()`: the package creates its own content
      type manager. */
  function NewPackage(): (p: WordprocessingMLPackage)
    ensures p.contentType == WORDPROCESSINGML_DOCUMENT
    ensures p.contentTypeManager == CreatedByPackage
    ensures WellTyped(p)
  {
    Fresh(CreatedByPackage)
  }

  /** `new WordprocessingMLPackage(contentTypeManager)`: the package uses the
      manager it is given. */
  function NewPackageWithManager(handle: nat): (p: WordprocessingMLPackage)
    ensures p.contentType == WORDPROCESSINGML_DOCUMENT
    ensures p.contentTypeManager == Supplied(handle)
    ensures WellTyped(p)
  {
    Fresh(Supplied(handle))
  }

  /** The downcast `(T)part` for the class `T` of `slot`. */
  function Cast(part: Option<Part>, slot: Slot): (r: Result<Option<Part>, CastError>)
    ensures r.Ok? <==> Fits(slot, part)
    ensures r.Ok? ==> r.value == part
    ensures r.Err? ==> r.error == ClassCastException(slot, part.value.kind)
  {
    if part.Some? && part.value.kind != Expected(slot) then
      Err(ClassCastException(slot, part.value.kind))
    else
      Ok(part)
  }

  /** `setPartShortcut(part, relationshipType)`. The relationship type is
      compared against the three constants in source order; on a match the
      part is cast to the slot's class BEFORE the field is assigned, so a
      failed cast throws with the package untouched. The result is the
      returned boolean and the package afterwards, or the exception. */
  function SetPartShortcut(p: WordprocessingMLPackage, part: Option<Part>, relationshipType: string,
                           ns: RelationshipTypes): (r: Result<(bool, WordprocessingMLPackage), CastError>)
    // `true` exactly for the three recognised types, `false` for every other
    ensures r.Ok? ==> (r.value.0 <==> relationshipType in {ns.propertiesCore, ns.propertiesExtended, ns.document})
    ensures r.Err? ==> relationshipType in {ns.propertiesCore, ns.propertiesExtended, ns.document}
    // an unrecognised type changes nothing
    ensures SlotFor(relationshipType, ns).None? ==> r == Ok((false, p))
    // a recognised type writes its slot exactly when the cast succeeds
    ensures SlotFor(relationshipType, ns).Some? ==>
      var slot := SlotFor(relationshipType, ns).value;
      if Fits(slot, part) then r == Ok((true, Put(p, slot, part)))
      else r == Err(ClassCastException(slot, part.value.kind))
    // the slots keep the classes their fields are declared with
    ensures WellTyped(p) && r.Ok? ==> WellTyped(r.value.1)
  {
    if relationshipType == ns.propertiesCore then
      match Cast(part, CoreSlot)
      case Err(e) => Err(e)
      case Ok(q) => Ok((true, p.(docPropsCorePart := q)))
    else if relationshipType == ns.propertiesExtended then
      match Cast(part, ExtendedSlot)
      case Err(e) => Err(e)
      case Ok(q) => Ok((true, p.(docPropsExtendedPart := q)))
    else if relationshipType == ns.document then
      match Cast(part, MainDocSlot)
      case Err(e) => Err(e)
      case Ok(q) => Ok((true, p.(mainDoc := q)))
    else
      Ok((false, p))
  }

  /** `getMainDocumentPart()`: reads back the slot the `DOCUMENT` shortcut
      writes; in a well-typed package it is null or a main document part. */
  function GetMainDocumentPart(p: WordprocessingMLPackage): (r: Option<Part>)
    ensures r == Get(p, MainDocSlot)
    ensures WellTyped(p) && r.Some? ==> r.value.kind == MainDocument
  {
    p.mainDoc
  }
}
