/** Properties of single calls to `setPartShortcut` and of the constructors,
    each stated over all packages and parts. */
module ShortcutProperties {
  import opened Results
  import opened Parts
  import opened WordprocessingML

  /** Both constructors give the WordprocessingML document content type and a
      package whose main document part is null. */
  lemma FreshPackageHasNoMainDocument(handle: nat)
    ensures NewPackage().contentType == WORDPROCESSINGML_DOCUMENT
    ensures NewPackageWithManager(handle).contentType == WORDPROCESSINGML_DOCUMENT
    ensures GetMainDocumentPart(NewPackage()) == None
    ensures GetMainDocumentPart(NewPackageWithManager(handle)) == None
    ensures NewPackage().docPropsCorePart == None && NewPackage().docPropsExtendedPart == None
  {
  }

  /** `PROPERTIES_CORE` with a core-properties part (or null) replaces the
      core-properties slot only. */
  lemma CoreShortcutReplacesOnlyCore(p: WordprocessingMLPackage, part: Option<Part>, ns: RelationshipTypes)
    requires Fits(CoreSlot, part)
    ensures var r := SetPartShortcut(p, part, ns.propertiesCore, ns);
      && r.Ok? && r.value.0
      && r.value.1 == p.(docPropsCorePart := part)
  {
  }

  /** `PROPERTIES_EXTENDED` with an extended-properties part replaces the
      extended-properties slot only (when the constant differs from
      `PROPERTIES_CORE`, which is tested first). */
  lemma ExtendedShortcutReplacesOnlyExtended(p: WordprocessingMLPackage, part: Option<Part>, ns: RelationshipTypes)
    requires ns.propertiesExtended != ns.propertiesCore
    requires Fits(ExtendedSlot, part)
    ensures var r := SetPartShortcut(p, part, ns.propertiesExtended, ns);
      && r.Ok? && r.value.0
      && r.value.1 == p.(docPropsExtendedPart := part)
  {
  }

  /** `DOCUMENT` with a main document part replaces `mainDoc` only, and
      `getMainDocumentPart` then returns exactly that part. */
  lemma DocumentShortcutSetsMainDocument(p: WordprocessingMLPackage, part: Option<Part>, ns: RelationshipTypes)
    requires ns.document != ns.propertiesCore && ns.document != ns.propertiesExtended
    requires Fits(MainDocSlot, part)
    ensures var r := SetPartShortcut(p, part, ns.document, ns);
      && r.Ok? && r.value.0
      && r.value.1 == p.(mainDoc := part)
      && GetMainDocumentPart(r.value.1) == part
  {
  }

  /** Any other relationship type returns `false` and changes nothing. */
  lemma UnknownTypeChangesNothing(p: WordprocessingMLPackage, part: Option<Part>, relationshipType: string,
                                  ns: RelationshipTypes)
    requires relationshipType !in {ns.propertiesCore, ns.propertiesExtended, ns.document}
    ensures SetPartShortcut(p, part, relationshipType, ns) == Ok((false, p))
  {
  }

  /** A recognised type with a part of the wrong class throws
      `ClassCastException`; since the cast precedes the assignment, no
      package is produced and the caller's package is the one it had. */
  lemma WrongKindThrows(p: WordprocessingMLPackage, part: Part, relationshipType: string, ns: RelationshipTypes)
    requires SlotFor(relationshipType, ns).Some?
    requires part.kind != Expected(SlotFor(relationshipType, ns).value)
    ensures SetPartShortcut(p, Some(part), relationshipType, ns)
            == Err(ClassCastException(SlotFor(relationshipType, ns).value, part.kind))
  {
  }

  /** Setting the same part under the same type twice has the effect of
      setting it once, throw included. */
  lemma SetTwiceIsSetOnce(p: WordprocessingMLPackage, part: Option<Part>, relationshipType: string,
                          ns: RelationshipTypes)
    ensures var once := SetPartShortcut(p, part, relationshipType, ns);
      once.Ok? ==> SetPartShortcut(once.value.1, part, relationshipType, ns) == once
  {
  }

  /** With two different parts under the same type, the second write wins:
      the result is as if the first call had not been made. */
  lemma LastWriteWins(p: WordprocessingMLPackage, first: Option<Part>, second: Option<Part>,
                      relationshipType: string, ns: RelationshipTypes)
    requires SetPartShortcut(p, first, relationshipType, ns).Ok?
    ensures SetPartShortcut(SetPartShortcut(p, first, relationshipType, ns).value.1, second, relationshipType, ns)
            == SetPartShortcut(p, second, relationshipType, ns)
  {
  }
}
