# Virtual frame-slot writes and the value anchor, in Dafny

This project models two small pieces of the Graal compiler's escape analysis.

**The virtualize rule of `VirtualFrameSetNode`.** A Truffle interpreter frame is
allocated as a tag array, an object array and a primitive array, plus an
auxiliary object array. While those arrays are still virtual, a write into a
frame slot becomes writes into the virtual objects' entries:

- an Auxiliary write puts the object into the auxiliary array and has no tag;
- any other write may set the slot's tag (the plain or the static tag constant);
- it then stores the value, as kind `Object` in the object array or as kind
  `Long` in the primitive array;
- an object write also zeroes the primitive companion entry.

The write node is then deleted (`Subsumed`). When any of this cannot be done, a
deoptimization is inserted (`Deopt`). A static access on a bytecode OSR transfer
frame first re-encodes a primitive value as a 64-bit integer (`WideningTable`):
a `Long` is kept as it is, a `Double` is reinterpreted as a `Long`, a `Float` is
reinterpreted as an `Int` and then zero-extended to 64 bits, and an `Int` is
zero-extended to 64 bits.

**`ValueAnchorNode`.** This node has identity, has a void stamp and emits no
code. Virtualization deletes it. Canonicalization removes it once every usage is
visible and there is none.

Layout:

- `java_kinds.dfy`: the kind enumeration (`JavaKinds`).
- `value_nodes.dfy`: stamps, and value nodes with `Reinterpret` and `ZeroExtend`
  as wrapper constructors (`ValueNodes`).
- `virtualizer.dfy`: the virtual objects. `VirtualStore` is a class over a
  fixed-length array of `(kind, value)` entries, with the two forms of
  `setVirtualEntry`. It also defines aliases (`Virtual` or `Materialized`) and
  the rule outcome (`Subsumed` or `Deopt`).
- `virtual_frame_set.dfy`: the rule (`VirtualFrameSet`).
  - `Virtualize` is an imperative method over the stores.
  - It is specified by the functions `Outcome`, `Resolved` and `WriteTo`.
  - The width normalization is written as pure functions.
- `frame_set_properties.dfy`: lemmas about those functions, and client methods
  that run the rule on concrete frames (`FrameSetProperties`).
- `value_anchor.dfy`: `ValueAnchorNode` (`ValueAnchor`).

Behaviour of the code that the model keeps as written:

- When SET_TAG is set, the tag entry is written before the data write is
  tried. If the data write is then refused, the rule deoptimizes with the tag
  already rewritten (`DeoptAfterTagWrite`). The data write is refused only when
  the data array's element kind differs from the access kind. That cannot happen
  with the frame's own `Object[]` and `long[]` arrays (`FrameLayoutNeverRefuses`),
  so this path needs a data array of some other element kind.
- The primitive array's alias is resolved only after the data write has
  succeeded. Its clear is neither bounds-checked nor checked for success
  (`ClearInBounds`, `PrimitiveCleared`).
- Only an object write clears its companion entry. A primitive write leaves
  whatever object the slot held in the object array
  (`PrimitiveWriteKeepsObjectEntry`).
- `ValueAnchorNode.virtualize` deletes the anchor whatever its usages.

## Model

| member | source | states |
|---|---|---|
| `Virtualizer.VirtualStore.SetVirtualEntry` | compiler/src/org.graalvm.compiler.truffle.compiler/src/org/graalvm/compiler/truffle/compiler/nodes/frame/VirtualFrameSetNode.java:98-104 | a tag write without an access kind uses the entry's own kind, so it is always taken. Exactly that entry changes. |
| `Virtualizer.VirtualStore.SetVirtualEntryAs` | compiler/src/org.graalvm.compiler.truffle.compiler/src/org/graalvm/compiler/truffle/compiler/nodes/frame/VirtualFrameSetNode.java:83-83 | (also the calls at lines 106 and 111) a write with an access kind returns false, and changes nothing, unless the object takes that kind. Otherwise exactly that entry becomes `(kind, value)`. |
| `VirtualFrameSet.ExtendForOSRStaticAccess` | compiler/src/org.graalvm.compiler.truffle.compiler/src/org/graalvm/compiler/truffle/compiler/nodes/frame/VirtualFrameSetNode.java:140-159 | for any primitive input, the result has stack kind `Long` and wraps the same underlying node (`Payload`). A `Long` input is returned unchanged. |
| `VirtualFrameSet.IsOSRRawStaticAccess` | compiler/src/org.graalvm.compiler.truffle.compiler/src/org/graalvm/compiler/truffle/compiler/nodes/frame/VirtualFrameSetNode.java:161-163 | a write is a raw static OSR access exactly when its STATIC flag is set and its frame is a bytecode OSR transfer target. Only such a write can be widened (`Widens`, `WideningOnlyForStaticOSR`). |
| `VirtualFrameSet.MaybeExtendForOSRStaticAccess` | compiler/src/org.graalvm.compiler.truffle.compiler/src/org/graalvm/compiler/truffle/compiler/nodes/frame/VirtualFrameSetNode.java:128-138 | the value is returned unchanged unless the access is a raw static OSR access with a primitive stamp. In that case the result is the 64-bit form of the value's alias. |
| `VirtualFrameSet.Virtualize` | compiler/src/org.graalvm.compiler.truffle.compiler/src/org/graalvm/compiler/truffle/compiler/nodes/frame/VirtualFrameSetNode.java:72-126 | the outcome is `Outcome` and the aliases asked for are `Resolved`. Each virtual object's entries become the old entries with `WriteTo`'s entry at the slot, if there is one, and with nothing else changed. |
| `VirtualFrameSet.VirtualizeAuxiliary` | compiler/src/org.graalvm.compiler.truffle.compiler/src/org/graalvm/compiler/truffle/compiler/nodes/frame/VirtualFrameSetNode.java:74-88 | the Auxiliary branch: same contract as `Virtualize`, for Auxiliary writes. |
| `VirtualFrameSet.VirtualizeIndexed` | compiler/src/org.graalvm.compiler.truffle.compiler/src/org/graalvm/compiler/truffle/compiler/nodes/frame/VirtualFrameSetNode.java:89-119 | the other branch: same contract as `Virtualize`. The tag and data aliases must be virtual and have the slot before anything is written. |
| `VirtualFrameSet.StoreIndexed` | compiler/src/org.graalvm.compiler.truffle.compiler/src/org/graalvm/compiler/truffle/compiler/nodes/frame/VirtualFrameSetNode.java:98-116 | the writes once both objects have the slot: the tag, then the value, then the primitive clear. It returns true exactly when the data write is taken. |
| `FrameSetProperties.AuxiliaryTouchesOnlyItsObjectArray` | compiler/src/org.graalvm.compiler.truffle.compiler/src/org/graalvm/compiler/truffle/compiler/nodes/frame/VirtualFrameSetNode.java:74-88 | an Auxiliary write asks only for the auxiliary object array, never the tag array. It writes nothing elsewhere. Its one possible write is the value itself with kind `Object`, and it happens exactly when the auxiliary object is virtual, has the slot and takes `Object`. |
| `FrameSetProperties.SubsumedExactlyWhen` | compiler/src/org.graalvm.compiler.truffle.compiler/src/org/graalvm/compiler/truffle/compiler/nodes/frame/VirtualFrameSetNode.java:79-125 | the outcome is `Subsumed` if and only if the needed objects are virtual, have the slot, and take the data write. Auxiliary needs the auxiliary object; the other types need the tag and data objects. On `Deopt`, nothing was written except possibly the tag. |
| `FrameSetProperties.DataArrayFollowsValueKind` | compiler/src/org.graalvm.compiler.truffle.compiler/src/org/graalvm/compiler/truffle/compiler/nodes/frame/VirtualFrameSetNode.java:90-91 | a non-Auxiliary write uses the object array if and only if the value's stack kind is `Object`, and the primitive array otherwise. Auxiliary uses the auxiliary array. |
| `FrameSetProperties.DataEntryKind` | compiler/src/org.graalvm.compiler.truffle.compiler/src/org/graalvm/compiler/truffle/compiler/nodes/frame/VirtualFrameSetNode.java:105-106 | the data entry has kind `Object` for an object and kind `Long` for every primitive, and holds the stored value. |
| `FrameSetProperties.TagWrittenOnlyWithSetTag` | compiler/src/org.graalvm.compiler.truffle.compiler/src/org/graalvm/compiler/truffle/compiler/nodes/frame/VirtualFrameSetNode.java:98-104 | a tag entry is written if and only if the write is not Auxiliary, SET_TAG is set, and both objects have the slot. It is the static tag constant if and only if STATIC is set, and the plain one otherwise. |
| `FrameSetProperties.ObjectWriteClearsPrimitive` | compiler/src/org.graalvm.compiler.truffle.compiler/src/org/graalvm/compiler/truffle/compiler/nodes/frame/VirtualFrameSetNode.java:106-113 | after an object value is written, the primitive entry at the slot becomes the `Long` zero if and only if the primitive alias is virtual and takes `Long`. The auxiliary array is untouched. |
| `FrameSetProperties.PrimitiveWriteKeepsObjectEntry` | compiler/src/org.graalvm.compiler.truffle.compiler/src/org/graalvm/compiler/truffle/compiler/nodes/frame/VirtualFrameSetNode.java:105-113 | a primitive write never writes the object array. The aliases it asks for are exactly the tag array and the primitive array. |
| `FrameSetProperties.WideningOnlyForStaticOSR` | compiler/src/org.graalvm.compiler.truffle.compiler/src/org/graalvm/compiler/truffle/compiler/nodes/frame/VirtualFrameSetNode.java:128-163 | the stored value differs from the written one only when STATIC is set, the frame is a bytecode OSR transfer target and the stamp is primitive. The widened value has stack kind `Long` and wraps the value's alias. |
| `FrameSetProperties.WideningTable` | compiler/src/org.graalvm.compiler.truffle.compiler/src/org/graalvm/compiler/truffle/compiler/nodes/frame/VirtualFrameSetNode.java:140-159 | `Long` is unchanged. `Double` becomes `Reinterpret(Long, _)`. `Float` becomes `ZeroExtend(Reinterpret(Int, _), 64)`. `Int` (the stack kind of the sub-word kinds) becomes `ZeroExtend(_, 64)`. |
| `FrameSetProperties.StoredWideningTable` | compiler/src/org.graalvm.compiler.truffle.compiler/src/org/graalvm/compiler/truffle/compiler/nodes/frame/VirtualFrameSetNode.java:128-159 | on a widened write, the stored value is the value's alias re-encoded by kind: a `Long` alias is stored as it is, a `Double` as `Reinterpret(Long, alias)`, a `Float` as `ZeroExtend(Reinterpret(Int, alias), 64)` and an `Int` as `ZeroExtend(alias, 64)`. |
| `FrameSetProperties.DeoptAfterTagWrite` | compiler/src/org.graalvm.compiler.truffle.compiler/src/org/graalvm/compiler/truffle/compiler/nodes/frame/VirtualFrameSetNode.java:97-118 | for any tag and primitive objects where the primitive object refuses `Long`, some well-formed write ends in `Deopt` after writing the tag entry. |
| `FrameSetProperties.FrameLayoutNeverRefuses` | compiler/src/org.graalvm.compiler.truffle.compiler/src/org/graalvm/compiler/truffle/compiler/nodes/frame/VirtualFrameSetNode.java:90-118 | when each of the object, auxiliary and primitive arrays is either materialized or a virtual array of its frame element kind (`Object`, `Object` and `long`), the rule is `Subsumed` if and only if every array it needs is virtual and has the slot. When it deoptimizes there, no tag has been written. |
| `FrameSetProperties.TaggedIntWrite` | compiler/src/org.graalvm.compiler.truffle.compiler/src/org/graalvm/compiler/truffle/compiler/nodes/frame/VirtualFrameSetNode.java:89-118 | a SET_TAG int write to slot 2 of a four-slot virtual frame is `Subsumed`. The tag entry becomes the plain tag constant, and the primitive entry becomes the unwidened int value with kind `Long`. |
| `FrameSetProperties.StaticOSRIntWrite` | compiler/src/org.graalvm.compiler.truffle.compiler/src/org/graalvm/compiler/truffle/compiler/nodes/frame/VirtualFrameSetNode.java:98-159 | the same write with STATIC set, on an OSR transfer frame, is `Subsumed`. It stores the static tag constant and `ZeroExtend(value, 64)`. |
| `FrameSetProperties.StaticIntWrite` | compiler/src/org.graalvm.compiler.truffle.compiler/src/org/graalvm/compiler/truffle/compiler/nodes/frame/VirtualFrameSetNode.java:98-137 | the same STATIC int write on a frame that is not a bytecode OSR transfer target is `Subsumed`. It stores the static tag and the value itself, not widened, with kind `Long`. |
| `FrameSetProperties.ObjectOverPrimitive` | compiler/src/org.graalvm.compiler.truffle.compiler/src/org/graalvm/compiler/truffle/compiler/nodes/frame/VirtualFrameSetNode.java:105-115 | an untagged object write over a slot holding a primitive is `Subsumed`. It stores the object, zeroes the primitive entry and leaves the tag entry unchanged. |
| `FrameSetProperties.AuxiliaryOutOfRange` | compiler/src/org.graalvm.compiler.truffle.compiler/src/org/graalvm/compiler/truffle/compiler/nodes/frame/VirtualFrameSetNode.java:79-88 | an Auxiliary write to slot 5 of a two-entry auxiliary array is `Deopt`, and every array of the frame is unchanged. |
| `ValueAnchor.AnchorHasIdentity` | compiler/src/jdk.graal.compiler/src/jdk/graal/compiler/nodes/extended/ValueAnchorNode.java:46-62 | the anchor may not be de-duplicated but may be duplicated. It has a void stamp, and may be used only as an Anchor or Guard input. |
| `ValueAnchor.Deduplicate` | compiler/src/jdk.graal.compiler/src/jdk/graal/compiler/nodes/extended/ValueAnchorNode.java:50-56 | de-duplicating two equal nodes leaves one node, carrying both nodes' usages, exactly when the nodes' traits allow it. Otherwise both nodes stay unchanged. |
| `ValueAnchor.AnchorsNeverMerged` | compiler/src/jdk.graal.compiler/src/jdk/graal/compiler/nodes/extended/ValueAnchorNode.java:50-56 | two value anchors are never merged into one, however equal they look. |
| `ValueAnchor.CanonicalOf` | compiler/src/jdk.graal.compiler/src/jdk/graal/compiler/nodes/extended/ValueAnchorNode.java:69-75 | canonical answers removal (null) if and only if all usages are available and there are none. Otherwise it answers the node itself. |
| `ValueAnchor.CanonicalizeIdempotent` | compiler/src/jdk.graal.compiler/src/jdk/graal/compiler/nodes/extended/ValueAnchorNode.java:69-75 | canonicalizing twice gives the same graph as canonicalizing once. An anchor that has a usage, or is seen while usages may be unavailable, stays. |
| `ValueAnchor.Virtualize` | compiler/src/jdk.graal.compiler/src/jdk/graal/compiler/nodes/extended/ValueAnchorNode.java:77-80 | virtualization always deletes the anchor, whatever its usages. |
| `ValueAnchor.Generate` | compiler/src/jdk.graal.compiler/src/jdk/graal/compiler/nodes/extended/ValueAnchorNode.java:64-67 | generate leaves the emitted LIR as it was: nothing is emitted. |

## Left out

- `setVirtualEntry`'s implementation (VirtualizerToolImpl) is not part of this model. The model takes a write exactly when its access kind is the object's element kind, or when it gives no access kind. Its other cases are not modelled: a long entry that already holds a value of the same primitive kind, and int-pair accesses. Nor is its resolution of the value's own alias.
- The Java assertions are modelled as contracts. Line 77 and line 145 are `requires` (`WellFormed`). Line 157 is `ExtendForOSRStaticAccess`'s `ensures`.
- Frame layout is an assumption, not a check. The frame's arrays are separate allocations (`Aliases.Separate`). The primitive array has every slot an object write clears (`ClearInBounds`), because line 111 has no bounds check.
- The slot index is a `nat`. The code checks it only against entry counts (lines 82 and 97), so a negative index would pass both checks and reach `setVirtualEntry`. The model leaves that case out. Frame slot indices come from the frame descriptor, which never hands out a negative one. What `setVirtualEntry` does with a negative index belongs to VirtualizerToolImpl, which is not part of this model.
- The access flag byte is modelled as two booleans. VirtualFrameAccessFlags is not part of this model.
- There are two access types, `Indexed` and `Auxiliary`, because the rule distinguishes only Auxiliary from the rest. VirtualFrameAccessType is not part of this model.
- The encodings of `getConstant` and `getConstantWithStaticModifier` are not modelled. They are two distinct constructors of `accessTag`, given an int stamp.
- Bit-level float reinterpretation is not modelled. Only the kind transitions that the `Reinterpret` and `ZeroExtend` wrappers express are.
- `JavaKind` is not part of this model. `Kind` leaves out `Void` and `Illegal`, and stack kinds and float kinds follow the JVM's.
- Graph infrastructure is not modelled: node allocation, `tool.addNode`, use/def edges and the internals of `insertDeoptimization`. The rule's end is returned as `Subsumed` (`tool.delete()`) or `Deopt`.
- The constructors of `VirtualFrameSetNode` are not modelled; a write is the `FrameSet` record.
- The virtualize rule is split into `VirtualizeAuxiliary`, `VirtualizeIndexed` and `StoreIndexed`. This follows the code's branches and keeps each proof small.
- LIR generation and the `NodeWithIdentity` / `ControlFlowAnchored` machinery are not modelled. Only the properties these interfaces declare are stated, as `NodeTraits`.
- Recording allocation events that required a GC (`AllocationRequiringGC`) is left out. It writes JFR events through native buffers and holds no logic of its own.
