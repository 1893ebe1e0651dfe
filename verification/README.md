# WordprocessingML package shortcut registry

This project models the shortcut registry of docx4j's `WordprocessingMLPackage`: the fields that give direct access to a Word package's well-known singleton parts, and the calls that set and read them.

Three slots hold those parts:

- the core-properties part (`docPropsCorePart`, inherited from `Package`);
- the extended-properties part (`docPropsExtendedPart`, inherited from `Package`);
- the main document part (`mainDoc`).

A fourth field, `glossaryDoc`, is declared by the class but never assigned by it.

`setPartShortcut(part, relationshipType)` compares the relationship type with `PROPERTIES_CORE`, `PROPERTIES_EXTENDED` and `DOCUMENT`, in that order. On the first match it downcasts the part to the slot's class, stores it and returns `true`. Any other type returns `false`. The cast runs before the assignment, so a part of the wrong class throws `ClassCastException` and the package is left as it was. `getMainDocumentPart()` reads the main-document slot back. Both constructors set the package content type to the WordprocessingML document type.

The package is an immutable record (`WordprocessingML.WordprocessingMLPackage`). `SetPartShortcut` is a pure transition that returns `Ok((returned boolean, new package))` or `Err(ClassCastException(slot, actual class))`.

A Java `null` part is `None`. Casting `null` succeeds in Java, so a `null` part under a recognised type clears that slot and returns `true`.

The three relationship-type URIs live in `Namespaces`, which is not part of this model. They are therefore a parameter (`Parts.RelationshipTypes`). The dispatch is written in source order, so every statement holds even if two of the constants were equal; where a property needs them to differ, its lemma says so in a `requires`.

A reference description sits beside the code:

- `SlotFor` gives the slot a relationship type addresses.
- `Fits` says whether a part casts to a slot's class.
- `Get` and `Put` read and write one slot.

`SetPartShortcut`'s contract is stated in those terms. `ShortcutReplay` models a caller making a sequence of calls, one per relationship. It proves that each slot ends up holding the last completed write to it, that a run stops at the first ill-typed part, and that the main document part stays null until a `DOCUMENT` shortcut is set.

Files:

- `results.dfy`: `Option` (a nullable reference) and `Result` (a return or a throw).
- `parts.dfy`: part classes, parts, the relationship-type constants.
- `wordprocessing_ml.dfy`: the package record, the constructors, `SetPartShortcut`, `GetMainDocumentPart`.
- `shortcut_properties.dfy`: properties of a single call.
- `shortcut_replay.dfy`: sequences of calls.

## Model

| member | source | states |
|---|---|---|
| WordprocessingML.SetPartShortcut | src/main/java/org/docx4j/openpackaging/packages/WordprocessingMLPackage.java:142-158 | returns `true` exactly for the three recognised types and `false` for every other type; an unrecognised type leaves the package unchanged; a recognised type stores the part in the slot of the first matching constant when the cast succeeds, and throws `ClassCastException` naming that slot and the part's class when it does not; slots keep their declared classes |
| WordprocessingML.Cast | src/main/java/org/docx4j/openpackaging/packages/WordprocessingMLPackage.java:144-152 | the downcast succeeds exactly for `null` or a part of the slot's class, yields the same part, and otherwise reports the expected slot and the actual class |
| WordprocessingML.Put | src/main/java/org/docx4j/openpackaging/packages/WordprocessingMLPackage.java:144-152 | assigning one shortcut field makes that slot read back the part; the other slots, the content type, the manager and `glossaryDoc` keep their values |
| WordprocessingML.GetMainDocumentPart | src/main/java/org/docx4j/openpackaging/packages/WordprocessingMLPackage.java:160-162 | returns the slot that the `DOCUMENT` shortcut writes; in a well-typed package it is null or a main document part |
| WordprocessingML.Fresh | src/main/java/org/docx4j/openpackaging/packages/WordprocessingMLPackage.java:90-113 | a newly constructed package has the WordprocessingML document content type, the given manager, and every part slot null |
| WordprocessingML.NewPackage | src/main/java/org/docx4j/openpackaging/packages/WordprocessingMLPackage.java:96-103 | the no-argument constructor gives the WordprocessingML document content type and a package-created content type manager, with every slot well-typed |
| WordprocessingML.NewPackageWithManager | src/main/java/org/docx4j/openpackaging/packages/WordprocessingMLPackage.java:104-113 | the constructor taking a content type manager gives the WordprocessingML document content type and keeps the supplied manager, with every slot well-typed |
| ShortcutProperties.FreshPackageHasNoMainDocument | src/main/java/org/docx4j/openpackaging/packages/WordprocessingMLPackage.java:100-113 | both constructors give the WordprocessingML document content type, and `getMainDocumentPart` returns null on a fresh package |
| ShortcutProperties.CoreShortcutReplacesOnlyCore | src/main/java/org/docx4j/openpackaging/packages/WordprocessingMLPackage.java:143-146 | `PROPERTIES_CORE` with a core-properties part (or null) returns `true` and replaces only the core-properties slot |
| ShortcutProperties.ExtendedShortcutReplacesOnlyExtended | src/main/java/org/docx4j/openpackaging/packages/WordprocessingMLPackage.java:147-150 | `PROPERTIES_EXTENDED` with an extended-properties part returns `true` and replaces only the extended-properties slot |
| ShortcutProperties.DocumentShortcutSetsMainDocument | src/main/java/org/docx4j/openpackaging/packages/WordprocessingMLPackage.java:151-162 | `DOCUMENT` with a main document part returns `true`, replaces only `mainDoc`, and `getMainDocumentPart` then returns that part |
| ShortcutProperties.UnknownTypeChangesNothing | src/main/java/org/docx4j/openpackaging/packages/WordprocessingMLPackage.java:155-157 | a type equal to none of the three constants returns `false` with the package unchanged |
| ShortcutProperties.WrongKindThrows | src/main/java/org/docx4j/openpackaging/packages/WordprocessingMLPackage.java:143-154 | a recognised type with a part of another class throws `ClassCastException` and produces no new package, because the cast precedes the assignment |
| ShortcutProperties.SetTwiceIsSetOnce | src/main/java/org/docx4j/openpackaging/packages/WordprocessingMLPackage.java:142-158 | repeating a completed call with the same part and type gives the same result as the first call |
| ShortcutProperties.LastWriteWins | src/main/java/org/docx4j/openpackaging/packages/WordprocessingMLPackage.java:142-158 | after a completed call, a second call with the same type behaves as if the first had not been made |
| ShortcutReplay.Replay | src/main/java/org/docx4j/openpackaging/packages/WordprocessingMLPackage.java:142-158 | a sequence of calls stops at the first exception and otherwise completes every call; the content type, the manager and `glossaryDoc` never change; well-typed slots stay well-typed |
| ShortcutReplay.ReplayReturnsRecognised | src/main/java/org/docx4j/openpackaging/packages/WordprocessingMLPackage.java:142-158 | each completed call returned `true` exactly when its type is one of the three constants |
| ShortcutReplay.ReplayThrowsAtFirstMisfit | src/main/java/org/docx4j/openpackaging/packages/WordprocessingMLPackage.java:143-154 | a run throws exactly when some call passes a part of the wrong class; it throws at the first such call with that call's slot and class, and every earlier call completed |
| ShortcutReplay.ReplaySlotHoldsLastWrite | src/main/java/org/docx4j/openpackaging/packages/WordprocessingMLPackage.java:142-158 | after a run, each slot holds the part of the last completed call addressing it, or its initial value; the throwing call leaves no trace |
| ShortcutReplay.NoMainDocumentUntilDocumentSet | src/main/java/org/docx4j/openpackaging/packages/WordprocessingMLPackage.java:100-162 | from either constructor, `getMainDocumentPart` returns null after any run with no `DOCUMENT` call |
| ShortcutReplay.DocumentSetIsReadBack | src/main/java/org/docx4j/openpackaging/packages/WordprocessingMLPackage.java:151-162 | when a completed run ends with a `DOCUMENT` call, `getMainDocumentPart` returns exactly that call's part |

## Left out

- `load` and `save`: wrappers over the zip loader and saver, which are not part of this model.
- `html` and `pdf`: rendering through JAXB, XSLT and an external PDF renderer, including font files loaded from operating-system paths. They are not package logic.
- `createTestPackage`: a sample-document builder that depends on part-creation and style code that is not part of this model.
- Logging (`log.info`): no effect on the package.
- `fonts/microsoft/ObjectFactory.java`: a generated registry of no-argument constructors with no logic of its own.
- Part names, content-type resolution, relationships parts, and load/save round trips: the code for these is not part of this model.
- The values of `Namespaces.PROPERTIES_CORE`, `PROPERTIES_EXTENDED` and `DOCUMENT`: that class is not part of this model, so the values are a parameter.
- WordprocessingML.SetPartShortcut: a `null` relationship type, which makes `relationshipType.equals` throw `NullPointerException` in the source, is not modelled; the type is always a string.
- WordprocessingML.Fresh: the `Package` superclass constructors are not part of this model. The inherited property slots are assumed to start null, which is Java's default for fields. The content type manager is an opaque handle.
- Subclasses of the part classes are not distinguished: a part's class is one tag, and a cast succeeds only for the matching tag or `null`.
- Concurrency: the Java class is not synchronised, and the model is a sequential value.
