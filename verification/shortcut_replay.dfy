/** A sequence of `setPartShortcut` calls on one package, as a caller makes
    them, one per relationship. A call that throws ends the sequence and
    leaves the package as the previous call left it. */
module ShortcutReplay {
  import opened Results
  import opened Parts
  import opened WordprocessingML

  /** One call `setPartShortcut(part, relationshipType)`. */
  datatype Call = Call(part: Option<Part>, relationshipType: string)

  /** The package after a run of calls, the booleans returned by the calls
      that completed, and the exception that ended the run, if one did. */
  datatype Run = Run(pkg: WordprocessingMLPackage, returned: seq<bool>, thrown: Option<CastError>)

  /** The call addresses a slot but its part does not cast to that slot's class. */
  predicate Misfit(c: Call, ns: RelationshipTypes) {
    SlotFor(c.relationshipType, ns).Some? && !Fits(SlotFor(c.relationshipType, ns).value, c.part)
  }

  /** Performs the calls in order, stopping at the first exception. */
  function Replay(p: WordprocessingMLPackage, calls: seq<Call>, ns: RelationshipTypes): (r: Run)
    ensures r.thrown.None? ==> |r.returned| == |calls|
    ensures r.thrown.Some? ==> |r.returned| < |calls|
    ensures r.pkg.contentType == p.contentType
    ensures r.pkg.contentTypeManager == p.contentTypeManager
    ensures r.pkg.glossaryDoc == p.glossaryDoc
    ensures WellTyped(p) ==> WellTyped(r.pkg)
    decreases |calls|
  {
    if |calls| == 0 then Run(p, [], None)
    else
      match SetPartShortcut(p, calls[0].part, calls[0].relationshipType, ns)
      case Err(e) => Run(p, [], Some(e))
      case Ok((b, q)) =>
        var rest := Replay(q, calls[1..], ns);
        Run(rest.pkg, [b] + rest.returned, rest.thrown)
  }

  /** The part the last call addressing `slot` wrote, or `initial` if no call
      addresses it. */
  function LastWrite(calls: seq<Call>, slot: Slot, ns: RelationshipTypes, initial: Option<Part>): Option<Part>
    decreases |calls|
  {
    if |calls| == 0 then initial
    else if SlotFor(calls[|calls| - 1].relationshipType, ns) == Some(slot) then calls[|calls| - 1].part
    else LastWrite(calls[..|calls| - 1], slot, ns, initial)
  }

  /** Folding one call in front: its write becomes the starting value for
      the calls after it. */
  lemma {:induction false} LastWriteCons(c: Call, calls: seq<Call>, slot: Slot, ns: RelationshipTypes,
                                         initial: Option<Part>)
    ensures LastWrite([c] + calls, slot, ns, initial)
            == LastWrite(calls, slot, ns, LastWrite([c], slot, ns, initial))
    decreases |calls|
  {
    if |calls| > 0 {
      var n := |calls|;
      assert ([c] + calls)[..n] == [c] + calls[..n - 1];
      assert ([c] + calls)[n] == calls[n - 1];
      LastWriteCons(c, calls[..n - 1], slot, ns, initial);
    } else {
      assert [c] + calls == [c];
    }
  }

  /** If no call addresses `slot`, the slot keeps its initial value. */
  lemma {:induction false} LastWriteUntouched(calls: seq<Call>, slot: Slot, ns: RelationshipTypes,
                                              initial: Option<Part>)
    requires forall i :: 0 <= i < |calls| ==> SlotFor(calls[i].relationshipType, ns) != Some(slot)
    ensures LastWrite(calls, slot, ns, initial) == initial
    decreases |calls|
  {
    if |calls| > 0 {
      var prefix := calls[..|calls| - 1];
      assert forall i :: 0 <= i < |prefix| ==> prefix[i] == calls[i];
      LastWriteUntouched(prefix, slot, ns, initial);
    }
  }

  /** The i-th returned boolean is `true` exactly when the i-th call's type is
      one of the three recognised constants. */
  lemma {:induction false} ReplayReturnsRecognised(p: WordprocessingMLPackage, calls: seq<Call>,
                                                   ns: RelationshipTypes)
    ensures var r := Replay(p, calls, ns);
      forall i :: 0 <= i < |r.returned| ==>
        (r.returned[i] <==> calls[i].relationshipType in {ns.propertiesCore, ns.propertiesExtended, ns.document})
    decreases |calls|
  {
    if |calls| > 0 {
      var first := SetPartShortcut(p, calls[0].part, calls[0].relationshipType, ns);
      if first.Ok? {
        var q := first.value.1;
        ReplayReturnsRecognised(q, calls[1..], ns);
        var rest := Replay(q, calls[1..], ns);
        var r := Replay(p, calls, ns);
        assert r.returned == [first.value.0] + rest.returned;
        forall i | 1 <= i < |r.returned|
          ensures r.returned[i] == rest.returned[i - 1] && calls[i] == calls[1..][i - 1]
        {
        }
      }
    }
  }

  /** A run throws exactly when some call is a misfit, and then it stops at
      the first one: every call before it completed. */
  lemma {:induction false} ReplayThrowsAtFirstMisfit(p: WordprocessingMLPackage, calls: seq<Call>,
                                                     ns: RelationshipTypes)
    ensures var r := Replay(p, calls, ns);
      && (r.thrown.Some? <==> exists i :: 0 <= i < |calls| && Misfit(calls[i], ns))
      && (forall i :: 0 <= i < |r.returned| ==> !Misfit(calls[i], ns))
      && (r.thrown.Some? ==>
            var c := calls[|r.returned|];
            Misfit(c, ns) && r.thrown == Some(ClassCastException(SlotFor(c.relationshipType, ns).value, c.part.value.kind)))
    decreases |calls|
  {
    if |calls| > 0 {
      var first := SetPartShortcut(p, calls[0].part, calls[0].relationshipType, ns);
      if first.Ok? {
        var q := first.value.1;
        assert !Misfit(calls[0], ns);
        ReplayThrowsAtFirstMisfit(q, calls[1..], ns);
        var rest := Replay(q, calls[1..], ns);
        var r := Replay(p, calls, ns);
        assert r.returned == [first.value.0] + rest.returned;
        assert forall i :: 1 <= i < |calls| ==> calls[i] == calls[1..][i - 1];
        if exists i :: 0 <= i < |calls| && Misfit(calls[i], ns) {
          var i :| 0 <= i < |calls| && Misfit(calls[i], ns);
          assert Misfit(calls[1..][i - 1], ns);
        }
      } else {
        assert Misfit(calls[0], ns);
      }
    }
  }

  /** After a run, each slot holds what the last COMPLETED call addressing it
      wrote; the call that threw, and those after it, leave no trace. */
  lemma {:induction false} ReplaySlotHoldsLastWrite(p: WordprocessingMLPackage, calls: seq<Call>,
                                                    ns: RelationshipTypes, slot: Slot)
    ensures var r := Replay(p, calls, ns);
      Get(r.pkg, slot) == LastWrite(calls[..|r.returned|], slot, ns, Get(p, slot))
    decreases |calls|
  {
    var r := Replay(p, calls, ns);
    if |calls| > 0 {
      var c := calls[0];
      var first := SetPartShortcut(p, c.part, c.relationshipType, ns);
      if first.Ok? {
        var q := first.value.1;
        var rest := Replay(q, calls[1..], ns);
        ReplaySlotHoldsLastWrite(q, calls[1..], ns, slot);
        var k := |rest.returned|;
        assert calls[..k + 1] == [c] + calls[1..][..k];
        LastWriteCons(c, calls[1..][..k], slot, ns, Get(p, slot));
        assert ([c] + [])[..0] == [];
        assert Get(q, slot) == LastWrite([c], slot, ns, Get(p, slot));
      } else {
        assert calls[..0] == [];
      }
    }
  }

  /** From either constructor, `getMainDocumentPart` returns null until a
      `DOCUMENT` shortcut has been set. */
  lemma NoMainDocumentUntilDocumentSet(handle: nat, calls: seq<Call>, ns: RelationshipTypes)
    requires forall i :: 0 <= i < |calls| ==> SlotFor(calls[i].relationshipType, ns) != Some(MainDocSlot)
    ensures GetMainDocumentPart(Replay(NewPackage(), calls, ns).pkg) == None
    ensures GetMainDocumentPart(Replay(NewPackageWithManager(handle), calls, ns).pkg) == None
  {
    var r := Replay(NewPackage(), calls, ns);
    var r' := Replay(NewPackageWithManager(handle), calls, ns);
    ReplaySlotHoldsLastWrite(NewPackage(), calls, ns, MainDocSlot);
    ReplaySlotHoldsLastWrite(NewPackageWithManager(handle), calls, ns, MainDocSlot);
    var pre := calls[..|r.returned|];
    var pre' := calls[..|r'.returned|];
    assert forall i :: 0 <= i < |pre| ==> pre[i] == calls[i];
    assert forall i :: 0 <= i < |pre'| ==> pre'[i] == calls[i];
    LastWriteUntouched(pre, MainDocSlot, ns, None);
    LastWriteUntouched(pre', MainDocSlot, ns, None);
  }

  /** Once the last call of a completed run sets a `DOCUMENT` shortcut,
      `getMainDocumentPart` returns exactly that part. */
  lemma DocumentSetIsReadBack(p: WordprocessingMLPackage, calls: seq<Call>, ns: RelationshipTypes)
    requires |calls| > 0 && SlotFor(calls[|calls| - 1].relationshipType, ns) == Some(MainDocSlot)
    requires Replay(p, calls, ns).thrown.None?
    ensures GetMainDocumentPart(Replay(p, calls, ns).pkg) == calls[|calls| - 1].part
  {
    ReplaySlotHoldsLastWrite(p, calls, ns, MainDocSlot);
    assert calls[..|calls|] == calls;
  }
}
