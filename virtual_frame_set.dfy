/** The virtualize rule of a frame-slot write (VirtualFrameSetNode): how a write
    into a virtual interpreter frame becomes writes into the frame's virtual tag,
    object and primitive arrays, and the width normalization for static accesses
    on a bytecode OSR transfer frame. */
module VirtualFrameSet {
  import opened JavaKinds
  import opened ValueNodes
  import opened Virtualizer

  /** Auxiliary slots live in their own object array and carry no tag; every other
      access type goes through the indexed tag, object and primitive arrays. */
  datatype AccessType = Indexed | Auxiliary

  /** The two bits of accessFlags the rule tests: STATIC_FLAG and SET_TAG_FLAG. */
  datatype AccessFlags = AccessFlags(isStatic: bool, setTag: bool)

  /** The frame node the write goes to; only its OSR marker matters here. */
  datatype FrameNode = FrameNode(bytecodeOSRTransferTarget: bool)

  /** A VirtualFrameSetNode: frame, frameSlotIndex, accessTag, value, type, accessFlags. */
  datatype FrameSet = FrameSet(frame: FrameNode, slot: nat, accessTag: int, value: Value,
                               accessType: AccessType, flags: AccessFlags)

  /** The arrays a frame node owns. */
  datatype FrameArray = TagArray | ObjectArray | PrimitiveArray | AuxiliaryArray

  /** frame.getObjectArray(type). */
  function ObjectArrayFor(t: AccessType): FrameArray {
    if t == Auxiliary then AuxiliaryArray else ObjectArray
  }

  /** What tool.getAlias answers for each of the frame's arrays. */
  datatype Aliases = Aliases(tags: Alias, objects: Alias, primitives: Alias, auxiliary: Alias) {

    function Resolve(a: FrameArray): Alias {
      match a
      case TagArray => tags
      case ObjectArray => objects
      case PrimitiveArray => primitives
      case AuxiliaryArray => auxiliary
    }

    /** The arrays of the virtual objects among the frame's arrays. */
    function Footprint(): set<array<Entry>> {
      ArraysOf(tags) + ArraysOf(objects) + ArraysOf(primitives) + ArraysOf(auxiliary)
    }

    /** The frame's arrays are separate allocations, so no two of them share a
        virtual object. */
    predicate Separate() {
      Apart(tags, objects) && Apart(tags, primitives) && Apart(tags, auxiliary) &&
      Apart(objects, primitives) && Apart(objects, auxiliary) && Apart(primitives, auxiliary)
    }
  }

  /** Two aliases do not share a virtual object's entries. */
  predicate Apart(x: Alias, y: Alias) {
    x.Virtual? && y.Virtual? ==> x.store.entries != y.store.entries
  }

  function ArraysOf(a: Alias): set<array<Entry>> {
    if a.Virtual? then {a.store.entries} else {}
  }

  // ---------------------------------------------------------------------------
  // Width normalization for static accesses on a bytecode OSR transfer frame

  /** isOSRRawStaticAccess. */
  predicate IsOSRRawStaticAccess(fs: FrameSet) {
    fs.flags.isStatic && fs.frame.bytecodeOSRTransferTarget
  }

  /** The value is widened: a raw static access whose value has a primitive stamp. */
  predicate Widens(fs: FrameSet) {
    IsOSRRawStaticAccess(fs) && StampOf(fs.value).PrimitiveStamp?
  }

  /** extendForOSRStaticAccess: re-encode a primitive as a 64-bit integer, a float
      kind reinterpreted as the integer kind of its width first. */
  function ExtendForOSRStaticAccess(entry: Value): (r: Value)
    requires IsPrimitive(StackKindOf(entry))
    ensures StackKindOf(r) == Long
    ensures Payload(r) == Payload(entry)
    ensures StackKindOf(entry) == Long ==> r == entry
  {
    var entryKind := StackKindOf(entry);
    if entryKind == Long then entry
    else
      var kind := if IsNumericFloat(entryKind) then (if entryKind == Float then Int else Long) else entryKind;
      var tmp := if IsNumericFloat(entryKind) then Reinterpret(kind, entry) else entry;
      if kind != Long then ZeroExtend(tmp, LongBitCount) else tmp
  }

  /** What the write demands of tool.getAlias(value): it must be primitive
      whenever it is widened. */
  predicate AliasAdmitsWidening(fs: FrameSet, valueAlias: Value) {
    Widens(fs) ==> IsPrimitive(StackKindOf(valueAlias))
  }

  /** maybeExtendForOSRStaticAccess, with valueAlias for tool.getAlias(value). */
  function MaybeExtendForOSRStaticAccess(fs: FrameSet, valueAlias: Value): (r: Value)
    requires AliasAdmitsWidening(fs, valueAlias)
    ensures !Widens(fs) ==> r == fs.value
    ensures Widens(fs) ==> StackKindOf(r) == Long && Payload(r) == Payload(valueAlias)
  {
    if !IsOSRRawStaticAccess(fs) then fs.value
    else if !StampOf(fs.value).PrimitiveStamp? then fs.value
    else ExtendForOSRStaticAccess(valueAlias)
  }

  // ---------------------------------------------------------------------------
  // The rule, as functions of the write and the aliases

  /** value.getStackKind(). */
  function ValueKind(fs: FrameSet): Kind {
    StackKindOf(fs.value)
  }

  /** What the code asserts of a write: an auxiliary value is an object, and a
      widened value's alias is primitive. */
  predicate WellFormed(fs: FrameSet, valueAlias: Value) {
    (fs.accessType == Auxiliary ==> ValueKind(fs) == Object) &&
    (fs.accessType == Indexed ==> AliasAdmitsWidening(fs, valueAlias))
  }

  /** The array the value goes to. */
  function DataArray(fs: FrameSet): FrameArray {
    if fs.accessType == Auxiliary || ValueKind(fs) == Object then ObjectArrayFor(fs.accessType)
    else PrimitiveArray
  }

  /** The access kind of the data write. */
  function DataAccessKind(fs: FrameSet): Kind {
    if fs.accessType == Auxiliary then ValueKind(fs)
    else if ValueKind(fs) == Object then Object
    else Long
  }

  /** The value the data write stores. */
  function StoredValue(fs: FrameSet, valueAlias: Value): Value
    requires WellFormed(fs, valueAlias)
  {
    if fs.accessType == Auxiliary then fs.value else MaybeExtendForOSRStaticAccess(fs, valueAlias)
  }

  /** The tag constant a tagged write stores. */
  function TagValue(fs: FrameSet): Value {
    if fs.flags.isStatic then StaticTagConstant(fs.accessTag) else TagConstant(fs.accessTag)
  }

  /** Every array the write needs resolves to a virtual object that has the slot. */
  predicate StoresHaveSlot(fs: FrameSet, al: Aliases) {
    HasSlot(al.Resolve(DataArray(fs)), fs.slot) &&
    (fs.accessType == Indexed ==> HasSlot(al.Resolve(TagArray), fs.slot))
  }

  /** The tag entry is written. */
  predicate TagWritten(fs: FrameSet, al: Aliases) {
    fs.accessType == Indexed && StoresHaveSlot(fs, al) && fs.flags.setTag
  }

  /** The data entry is written (the data write is attempted and taken). */
  predicate DataWritten(fs: FrameSet, al: Aliases) {
    StoresHaveSlot(fs, al) && al.Resolve(DataArray(fs)).store.Accepts(DataAccessKind(fs))
  }

  /** The clear of the primitive companion of an object write is attempted (its
      result is ignored). */
  predicate ClearAttempted(fs: FrameSet, al: Aliases) {
    fs.accessType == Indexed && ValueKind(fs) == Object && DataWritten(fs, al) &&
    al.Resolve(PrimitiveArray).Virtual?
  }

  /** The primitive companion of an object write is cleared. */
  predicate PrimitiveCleared(fs: FrameSet, al: Aliases) {
    ClearAttempted(fs, al) && al.primitives.store.Accepts(Long)
  }

  /** How the rule ends. */
  function Outcome(fs: FrameSet, al: Aliases): Effect {
    if DataWritten(fs, al) then Subsumed else Deopt
  }

  /** The entry the rule writes at fs.slot of the object an array resolves to,
      if it writes one there. */
  function WriteTo(fs: FrameSet, al: Aliases, valueAlias: Value, a: FrameArray): Option<Entry>
    requires WellFormed(fs, valueAlias)
  {
    var data := if DataWritten(fs, al) then Some(Entry(DataAccessKind(fs), StoredValue(fs, valueAlias))) else None;
    match a
    case TagArray =>
      if TagWritten(fs, al) then Some(Entry(al.tags.store.elementKind, TagValue(fs))) else None
    case ObjectArray =>
      if fs.accessType == Indexed && ValueKind(fs) == Object then data else None
    case PrimitiveArray =>
      if fs.accessType == Indexed && ValueKind(fs) != Object then data
      else if PrimitiveCleared(fs, al) then Some(Entry(Long, DefaultConstant(Long)))
      else None
    case AuxiliaryArray =>
      if fs.accessType == Auxiliary then data else None
  }

  /** The arrays whose alias the rule asks for. */
  function Resolved(fs: FrameSet, al: Aliases): set<FrameArray> {
    if fs.accessType == Auxiliary then {AuxiliaryArray}
    else {TagArray, DataArray(fs)} +
         (if ValueKind(fs) == Object && DataWritten(fs, al) then {PrimitiveArray} else {})
  }

  /** The code clears the primitive entry without checking its bound, so the
      primitive object must have the slot whenever it is cleared. */
  predicate ClearInBounds(fs: FrameSet, al: Aliases) {
    ClearAttempted(fs, al) ==> fs.slot < al.primitives.store.EntryCount()
  }

  /** An entry sequence after an optional write at i. */
  function Written(s: seq<Entry>, i: nat, w: Option<Entry>): seq<Entry>
    requires w.Some? ==> i < |s|
  {
    if w.Some? then s[i := w.value] else s
  }

  /** The entries of the object array a resolves to went from before to after:
      the rule's write there, if any, and nothing else. */
  predicate ArrayEffect(fs: FrameSet, al: Aliases, valueAlias: Value, a: FrameArray,
                   before: seq<Entry>, after: seq<Entry>)
    requires WellFormed(fs, valueAlias)
  {
    var w := WriteTo(fs, al, valueAlias, a);
    (w.Some? ==> fs.slot < |before|) && after == Written(before, fs.slot, w)
  }

  // ---------------------------------------------------------------------------
  // The rule itself

  /** The rule's whole effect on the frame's virtual objects: each went from its
      old entries to the rule's write there, if any. */
  twostate predicate Effected(fs: FrameSet, al: Aliases, valueAlias: Value)
    requires WellFormed(fs, valueAlias)
    reads al.Footprint()
  {
    (al.tags.Virtual? ==> ArrayEffect(fs, al, valueAlias, TagArray,
      old(al.tags.store.entries[..]), al.tags.store.entries[..])) &&
    (al.objects.Virtual? ==> ArrayEffect(fs, al, valueAlias, ObjectArray,
      old(al.objects.store.entries[..]), al.objects.store.entries[..])) &&
    (al.primitives.Virtual? ==> ArrayEffect(fs, al, valueAlias, PrimitiveArray,
      old(al.primitives.store.entries[..]), al.primitives.store.entries[..])) &&
    (al.auxiliary.Virtual? ==> ArrayEffect(fs, al, valueAlias, AuxiliaryArray,
      old(al.auxiliary.store.entries[..]), al.auxiliary.store.entries[..]))
  }

  /** VirtualFrameSetNode.virtualize. valueAlias is tool.getAlias(value); resolved
      records the arrays whose alias is asked for. */
  method Virtualize(fs: FrameSet, al: Aliases, valueAlias: Value)
      returns (outcome: Effect, ghost resolved: set<FrameArray>)
    requires WellFormed(fs, valueAlias)
    requires al.Separate()
    requires ClearInBounds(fs, al)
    modifies al.Footprint()
    ensures outcome == Outcome(fs, al)
    ensures resolved == Resolved(fs, al)
    ensures Effected(fs, al, valueAlias)
  {
    if fs.accessType == Auxiliary {
      outcome, resolved := VirtualizeAuxiliary(fs, al);
    } else {
      outcome, resolved := VirtualizeIndexed(fs, al, valueAlias);
    }
  }

  /** The Auxiliary branch of virtualize: the auxiliary object array alone, no tag. */
  method VirtualizeAuxiliary(fs: FrameSet, al: Aliases)
      returns (outcome: Effect, ghost resolved: set<FrameArray>)
    requires fs.accessType == Auxiliary && WellFormed(fs, fs.value)
    requires al.Separate()
    modifies al.Footprint()
    ensures outcome == Outcome(fs, al)
    ensures resolved == Resolved(fs, al)
    ensures Effected(fs, al, fs.value)
  {
    var valueKind := StackKindOf(fs.value);
    var dataAlias := al.Resolve(ObjectArrayFor(fs.accessType));
    resolved := {ObjectArrayFor(fs.accessType)};
    if dataAlias.Virtual? {
      var dataVirtual := dataAlias.store;
      if fs.slot < dataVirtual.EntryCount() {
        var ok := dataVirtual.SetVirtualEntryAs(fs.slot, fs.value, valueKind);
        if ok {
          return Subsumed, resolved;
        }
      }
    }
    // No frame state is at hand for a real memory store, so the write deoptimizes.
    outcome := Deopt;
  }

  /** The indexed branch of virtualize: resolve the tag array and the data array
      the value's kind selects, and check both have the slot. */
  method VirtualizeIndexed(fs: FrameSet, al: Aliases, valueAlias: Value)
      returns (outcome: Effect, ghost resolved: set<FrameArray>)
    requires fs.accessType == Indexed && WellFormed(fs, valueAlias)
    requires al.Separate()
    requires ClearInBounds(fs, al)
    modifies al.Footprint()
    ensures outcome == Outcome(fs, al)
    ensures resolved == Resolved(fs, al)
    ensures Effected(fs, al, valueAlias)
  {
    var valueKind := StackKindOf(fs.value);
    var tagAlias := al.Resolve(TagArray);
    var dataArray := if valueKind == Object then ObjectArrayFor(fs.accessType) else PrimitiveArray;
    var dataAlias := al.Resolve(dataArray);
    resolved := {TagArray, dataArray};
    if tagAlias.Virtual? && dataAlias.Virtual? {
      var tagVirtual := tagAlias.store;
      var dataVirtual := dataAlias.store;
      if fs.slot < tagVirtual.EntryCount() && fs.slot < dataVirtual.EntryCount() {
        var ok := StoreIndexed(fs, al, valueAlias);
        if ok {
          if valueKind == Object {
            resolved := resolved + {PrimitiveArray};
          }
          return Subsumed, resolved;
        }
      }
    }
    // No frame state is at hand for a real memory store, so the write deoptimizes.
    outcome := Deopt;
  }

  /** The writes of the indexed branch once both objects have the slot: the tag
      (if asked for), the value, and on success of an object write the primitive
      companion. ok tells whether the value was written. */
  method StoreIndexed(fs: FrameSet, al: Aliases, valueAlias: Value) returns (ok: bool)
    requires fs.accessType == Indexed && WellFormed(fs, valueAlias)
    requires StoresHaveSlot(fs, al)
    requires al.Separate()
    requires ClearInBounds(fs, al)
    modifies al.Footprint()
    ensures ok == DataWritten(fs, al)
    ensures Effected(fs, al, valueAlias)
  {
    var valueKind := StackKindOf(fs.value);
    var tagVirtual := al.tags.store;
    var dataVirtual := if valueKind == Object then al.objects.store else al.primitives.store;
    assert tagVirtual.entries != dataVirtual.entries;
    if fs.flags.setTag {
      var tag := if fs.flags.isStatic then StaticTagConstant(fs.accessTag) else TagConstant(fs.accessTag);
      tagVirtual.SetVirtualEntry(fs.slot, tag);
    }
    ghost var tagsAfterTagWrite := tagVirtual.entries[..];
    var actualValue := MaybeExtendForOSRStaticAccess(fs, valueAlias);
    ok := dataVirtual.SetVirtualEntryAs(fs.slot, actualValue, if valueKind == Object then Object else Long);
    if ok && valueKind == Object {
      // zero the primitive companion of the object just stored
      var primitiveAlias := al.Resolve(PrimitiveArray);
      if primitiveAlias.Virtual? {
        assert primitiveAlias.store.entries[..] == old(primitiveAlias.store.entries[..]);
        var _ := primitiveAlias.store.SetVirtualEntryAs(fs.slot, DefaultConstant(Long), Long);
      }
    }
    assert tagVirtual.entries[..] == tagsAfterTagWrite;
  }
}
