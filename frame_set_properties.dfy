/** Properties of the frame-slot write rule, stated over the functions that
    specify VirtualFrameSet.Virtualize, and the rule run on concrete frames. */
module FrameSetProperties {
  import opened JavaKinds
  import opened ValueNodes
  import opened Virtualizer
  import opened VirtualFrameSet

  /** An auxiliary write asks only for the auxiliary object array (never the tag
      array) and can write only there, the value itself with kind Object. */
  lemma AuxiliaryTouchesOnlyItsObjectArray(fs: FrameSet, al: Aliases, valueAlias: Value)
    requires fs.accessType == Auxiliary && WellFormed(fs, valueAlias)
    ensures Resolved(fs, al) == {AuxiliaryArray}
    ensures forall a: FrameArray :: a != AuxiliaryArray ==> WriteTo(fs, al, valueAlias, a) == None
    ensures WriteTo(fs, al, valueAlias, AuxiliaryArray) ==
      if DataWritten(fs, al) then Some(Entry(Object, fs.value)) else None
    ensures DataWritten(fs, al) <==> HasSlot(al.auxiliary, fs.slot) && al.auxiliary.store.Accepts(Object)
  {
  }

  /** The node is deleted exactly when every object the write needs is virtual,
      has the slot, and takes the data write; otherwise a deoptimization is
      inserted, and then nothing but the tag entry was written. */
  lemma SubsumedExactlyWhen(fs: FrameSet, al: Aliases, valueAlias: Value)
    requires WellFormed(fs, valueAlias)
    ensures Outcome(fs, al) == Subsumed <==>
      if fs.accessType == Auxiliary then
        HasSlot(al.auxiliary, fs.slot) && al.auxiliary.store.Accepts(Object)
      else
        HasSlot(al.tags, fs.slot) && HasSlot(al.Resolve(DataArray(fs)), fs.slot) &&
        al.Resolve(DataArray(fs)).store.Accepts(if ValueKind(fs) == Object then Object else Long)
    ensures Outcome(fs, al) == Deopt ==>
      forall a: FrameArray :: a != TagArray ==> WriteTo(fs, al, valueAlias, a) == None
  {
  }

  /** An indexed write stores an object in the object array and any primitive in
      the primitive array. */
  lemma DataArrayFollowsValueKind(fs: FrameSet)
    ensures fs.accessType == Indexed ==>
      (DataArray(fs) == ObjectArray <==> ValueKind(fs) == Object) &&
      (DataArray(fs) == PrimitiveArray <==> ValueKind(fs) != Object)
    ensures fs.accessType == Auxiliary ==> DataArray(fs) == AuxiliaryArray
  {
  }

  /** An indexed data entry has kind Object for an object and Long for every
      primitive, whatever its own kind. */
  lemma DataEntryKind(fs: FrameSet, al: Aliases, valueAlias: Value)
    requires fs.accessType == Indexed && WellFormed(fs, valueAlias) && DataWritten(fs, al)
    ensures WriteTo(fs, al, valueAlias, DataArray(fs)) ==
      Some(Entry(if ValueKind(fs) == Object then Object else Long, StoredValue(fs, valueAlias)))
  {
  }

  /** A tag entry is written exactly when SET_TAG is set and the objects have the
      slot; it is the static tag constant exactly when STATIC is set too. */
  lemma TagWrittenOnlyWithSetTag(fs: FrameSet, al: Aliases, valueAlias: Value)
    requires WellFormed(fs, valueAlias)
    ensures WriteTo(fs, al, valueAlias, TagArray).Some? <==>
      fs.accessType == Indexed && fs.flags.setTag && StoresHaveSlot(fs, al)
    ensures var w := WriteTo(fs, al, valueAlias, TagArray);
      w.Some? ==> var kind := al.tags.store.elementKind;
        (w == Some(Entry(kind, StaticTagConstant(fs.accessTag))) <==> fs.flags.isStatic) &&
        (w == Some(Entry(kind, TagConstant(fs.accessTag))) <==> !fs.flags.isStatic)
  {
  }

  /** After an object is written, the primitive entry at the slot becomes the Long
      zero exactly when the primitive array is virtual (and takes Long entries);
      the auxiliary array is untouched. */
  lemma ObjectWriteClearsPrimitive(fs: FrameSet, al: Aliases, valueAlias: Value)
    requires fs.accessType == Indexed && WellFormed(fs, valueAlias)
    requires ValueKind(fs) == Object && DataWritten(fs, al)
    ensures WriteTo(fs, al, valueAlias, PrimitiveArray) == Some(Entry(Long, DefaultConstant(Long))) <==>
      al.primitives.Virtual? && al.primitives.store.Accepts(Long)
    ensures WriteTo(fs, al, valueAlias, AuxiliaryArray) == None
  {
  }

  /** A primitive write never touches the object array: an object left in the slot
      by an earlier write stays there. */
  lemma PrimitiveWriteKeepsObjectEntry(fs: FrameSet, al: Aliases, valueAlias: Value)
    requires fs.accessType == Indexed && WellFormed(fs, valueAlias) && ValueKind(fs) != Object
    ensures WriteTo(fs, al, valueAlias, ObjectArray) == None
    ensures Resolved(fs, al) == {TagArray, PrimitiveArray}
  {
  }

  /** The stored value differs from the written one only for a static access on a
      bytecode OSR transfer frame with a primitive stamp, and then it is a 64-bit
      integer re-encoding of the value's alias. */
  lemma WideningOnlyForStaticOSR(fs: FrameSet, valueAlias: Value)
    requires fs.accessType == Indexed && WellFormed(fs, valueAlias)
    ensures StoredValue(fs, valueAlias) != fs.value ==> IsOSRRawStaticAccess(fs) && StampOf(fs.value).PrimitiveStamp?
    ensures Widens(fs) ==> StackKindOf(StoredValue(fs, valueAlias)) == Long &&
                           Payload(StoredValue(fs, valueAlias)) == Payload(valueAlias)
  {
  }

  /** The widening table: Long unchanged, Double reinterpreted as Long, Float
      reinterpreted as Int and zero-extended, Int zero-extended to 64 bits. */
  lemma WideningTable(entry: Value)
    requires IsPrimitive(StackKindOf(entry))
    ensures StackKindOf(entry) == Long ==> ExtendForOSRStaticAccess(entry) == entry
    ensures StackKindOf(entry) == Double ==> ExtendForOSRStaticAccess(entry) == Reinterpret(Long, entry)
    ensures StackKindOf(entry) == Float ==>
      ExtendForOSRStaticAccess(entry) == ZeroExtend(Reinterpret(Int, entry), LongBitCount)
    ensures StackKindOf(entry) == Int ==> ExtendForOSRStaticAccess(entry) == ZeroExtend(entry, LongBitCount)
  {
  }

  /** The table applied to a write: a widened write stores its value's alias
      re-encoded as lines 140-159 compute it. */
  lemma StoredWideningTable(fs: FrameSet, valueAlias: Value)
    requires fs.accessType == Indexed && WellFormed(fs, valueAlias) && Widens(fs)
    ensures StackKindOf(valueAlias) == Long ==> StoredValue(fs, valueAlias) == valueAlias
    ensures StackKindOf(valueAlias) == Double ==> StoredValue(fs, valueAlias) == Reinterpret(Long, valueAlias)
    ensures StackKindOf(valueAlias) == Float ==>
      StoredValue(fs, valueAlias) == ZeroExtend(Reinterpret(Int, valueAlias), LongBitCount)
    ensures StackKindOf(valueAlias) == Int ==> StoredValue(fs, valueAlias) == ZeroExtend(valueAlias, LongBitCount)
  {
    WideningTable(valueAlias);
  }

  /** The tag is written before the data write is tried, so a frame can end in a
      deoptimization with its tag entry already rewritten. */
  lemma DeoptAfterTagWrite(tags: VirtualStore, primitives: VirtualStore)
    requires tags.EntryCount() > 0 && primitives.EntryCount() > 0
    requires !primitives.Accepts(Long)
    ensures exists fs: FrameSet, valueAlias: Value ::
      var al := Aliases(Virtual(tags), Materialized, Virtual(primitives), Materialized);
      WellFormed(fs, valueAlias) &&
      Outcome(fs, al) == Deopt && WriteTo(fs, al, valueAlias, TagArray).Some?
  {
    var v := Opaque(0, PrimitiveStamp(Int));
    var fs := FrameSet(FrameNode(false), 0, 0, v, Indexed, AccessFlags(false, true));
    var al := Aliases(Virtual(tags), Materialized, Virtual(primitives), Materialized);
    assert WellFormed(fs, v) && Outcome(fs, al) == Deopt && WriteTo(fs, al, v, TagArray).Some?;
  }

  /** On a frame laid out as the frame nodes lay it out (an Object[] for objects and
      auxiliary values, a long[] for primitives, whichever of them is still virtual;
      any of them may have been materialized) no data write is refused: the rule
      deoptimizes only for a missing or materialized array or a slot out of range,
      and then before any tag is written. A deopt after the tag write needs a data
      array of another element kind. */
  lemma FrameLayoutNeverRefuses(fs: FrameSet, al: Aliases, valueAlias: Value)
    requires WellFormed(fs, valueAlias)
    requires al.objects.Virtual? ==> al.objects.store.elementKind == Object
    requires al.primitives.Virtual? ==> al.primitives.store.elementKind == Long
    requires al.auxiliary.Virtual? ==> al.auxiliary.store.elementKind == Object
    ensures Outcome(fs, al) == Subsumed <==> StoresHaveSlot(fs, al)
    ensures Outcome(fs, al) == Deopt ==> WriteTo(fs, al, valueAlias, TagArray) == None
  {
  }

  // ---------------------------------------------------------------------------
  // The rule on concrete frames

  /** A frame whose arrays have four entries each, all zero. */
  method NewFrame() returns (tags: VirtualStore, objects: VirtualStore, primitives: VirtualStore,
                             auxiliary: VirtualStore)
    ensures fresh(tags.entries) && fresh(objects.entries) && fresh(primitives.entries) && fresh(auxiliary.entries)
    ensures Aliases(Virtual(tags), Virtual(objects), Virtual(primitives), Virtual(auxiliary)).Separate()
    ensures tags.elementKind == Byte && tags.entries[..] == seq(4, _ => Entry(Byte, DefaultConstant(Byte)))
    ensures objects.elementKind == Object && objects.entries[..] == seq(4, _ => Entry(Object, DefaultConstant(Object)))
    ensures primitives.elementKind == Long && primitives.entries[..] == seq(4, _ => Entry(Long, DefaultConstant(Long)))
    ensures auxiliary.elementKind == Object && auxiliary.entries[..] == seq(2, _ => Entry(Object, DefaultConstant(Object)))
  {
    tags := new VirtualStore(Byte, seq(4, _ => Entry(Byte, DefaultConstant(Byte))));
    objects := new VirtualStore(Object, seq(4, _ => Entry(Object, DefaultConstant(Object))));
    primitives := new VirtualStore(Long, seq(4, _ => Entry(Long, DefaultConstant(Long))));
    auxiliary := new VirtualStore(Object, seq(2, _ => Entry(Object, DefaultConstant(Object))));
  }

  /** A tagged int write to slot 2 of a virtual frame: the plain tag and the int
      value itself (as a Long entry) land in slot 2 and the node is deleted. */
  method TaggedIntWrite(accessTag: int) returns (outcome: Effect, tag: Entry, data: Entry)
    ensures outcome == Subsumed
    ensures tag == Entry(Byte, TagConstant(accessTag))
    ensures data == Entry(Long, Opaque(7, PrimitiveStamp(Int)))
  {
    var tags, objects, primitives, auxiliary := NewFrame();
    var al := Aliases(Virtual(tags), Virtual(objects), Virtual(primitives), Virtual(auxiliary));
    var seven := Opaque(7, PrimitiveStamp(Int));
    var fs := FrameSet(FrameNode(false), 2, accessTag, seven, Indexed, AccessFlags(false, true));
    ghost var resolved;
    outcome, resolved := Virtualize(fs, al, seven);
    tag, data := tags.entries[2], primitives.entries[2];
  }

  /** The same write, static, to a bytecode OSR transfer frame: the static tag,
      and the int zero-extended to 64 bits. */
  method StaticOSRIntWrite(accessTag: int) returns (outcome: Effect, tag: Entry, data: Entry)
    ensures outcome == Subsumed
    ensures tag == Entry(Byte, StaticTagConstant(accessTag))
    ensures data == Entry(Long, ZeroExtend(Opaque(7, PrimitiveStamp(Int)), 64))
  {
    var tags, objects, primitives, auxiliary := NewFrame();
    var al := Aliases(Virtual(tags), Virtual(objects), Virtual(primitives), Virtual(auxiliary));
    var seven := Opaque(7, PrimitiveStamp(Int));
    var fs := FrameSet(FrameNode(true), 2, accessTag, seven, Indexed, AccessFlags(true, true));
    ghost var resolved;
    outcome, resolved := Virtualize(fs, al, seven);
    tag, data := tags.entries[2], primitives.entries[2];
  }

  /** The same STATIC write on a frame that is no bytecode OSR transfer target:
      the static tag is stored, but the value is not widened. */
  method StaticIntWrite(accessTag: int) returns (outcome: Effect, tag: Entry, data: Entry)
    ensures outcome == Subsumed
    ensures tag == Entry(Byte, StaticTagConstant(accessTag))
    ensures data == Entry(Long, Opaque(7, PrimitiveStamp(Int)))
  {
    var tags, objects, primitives, auxiliary := NewFrame();
    var al := Aliases(Virtual(tags), Virtual(objects), Virtual(primitives), Virtual(auxiliary));
    var seven := Opaque(7, PrimitiveStamp(Int));
    var fs := FrameSet(FrameNode(false), 2, accessTag, seven, Indexed, AccessFlags(true, true));
    ghost var resolved;
    outcome, resolved := Virtualize(fs, al, seven);
    tag, data := tags.entries[2], primitives.entries[2];
  }

  /** An untagged object write to slot 1 after a primitive was stored there: the
      object lands in the object array and the primitive entry is zeroed. */
  method ObjectOverPrimitive() returns (outcome: Effect, obj: Entry, prim: Entry, tag: Entry)
    ensures outcome == Subsumed
    ensures obj == Entry(Object, Opaque(3, ObjectStamp))
    ensures prim == Entry(Long, DefaultConstant(Long))
    ensures tag == Entry(Byte, DefaultConstant(Byte))
  {
    var tags, objects, primitives, auxiliary := NewFrame();
    primitives.SetVirtualEntry(1, Opaque(9, PrimitiveStamp(Long)));
    var al := Aliases(Virtual(tags), Virtual(objects), Virtual(primitives), Virtual(auxiliary));
    var ref := Opaque(3, ObjectStamp);
    var fs := FrameSet(FrameNode(false), 1, 0, ref, Indexed, AccessFlags(false, false));
    ghost var resolved;
    outcome, resolved := Virtualize(fs, al, ref);
    obj, prim, tag := objects.entries[1], primitives.entries[1], tags.entries[1];
  }

  /** An auxiliary write to slot 5 of a two-entry auxiliary array deoptimizes,
      asks for no tag array, and leaves every array as it was. */
  method AuxiliaryOutOfRange() returns (outcome: Effect, frameAfter: seq<seq<Entry>>)
    ensures outcome == Deopt
    ensures frameAfter == [seq(4, _ => Entry(Byte, DefaultConstant(Byte))),
                           seq(4, _ => Entry(Object, DefaultConstant(Object))),
                           seq(4, _ => Entry(Long, DefaultConstant(Long))),
                           seq(2, _ => Entry(Object, DefaultConstant(Object)))]
  {
    var tags, objects, primitives, auxiliary := NewFrame();
    var al := Aliases(Virtual(tags), Virtual(objects), Virtual(primitives), Virtual(auxiliary));
    var ref := Opaque(3, ObjectStamp);
    var fs := FrameSet(FrameNode(false), 5, 0, ref, Auxiliary, AccessFlags(false, false));
    ghost var resolved;
    outcome, resolved := Virtualize(fs, al, ref);
    assert TagArray !in resolved;
    frameAfter := [tags.entries[..], objects.entries[..], primitives.entries[..], auxiliary.entries[..]];
  }
}
