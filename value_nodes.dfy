/** The value nodes a frame-slot write stores, reduced to what the write rule
    looks at: their stamp, and the conversion nodes it wraps around them. */
module ValueNodes {
  import opened JavaKinds

  type PrimitiveKind = k: Kind | IsPrimitive(k) witness Int

  /** A stamp is primitive (PrimitiveStamp) or an object stamp. */
  datatype Stamp = PrimitiveStamp(kind: PrimitiveKind) | ObjectStamp

  function StampStackKind(s: Stamp): Kind {
    match s
    case PrimitiveStamp(k) => StackKind(k)
    case ObjectStamp => Object
  }

  datatype Value =
      /** a node computed elsewhere in the graph, known only by its stamp */
    | Opaque(id: nat, stamp: Stamp)
      /** ReinterpretNode: the same bits, read as another primitive kind */
    | Reinterpret(toKind: PrimitiveKind, input: Value)
      /** ZeroExtendNode: the input zero-extended to resultBits bits */
    | ZeroExtend(input: Value, resultBits: nat)
      /** ConstantNode.defaultForKind: the zero (or null) of a kind */
    | DefaultConstant(kind: Kind)
      /** the frame's tag constant for accessTag (getConstant) */
    | TagConstant(accessTag: int)
      /** the tag constant with the static modifier (getConstantWithStaticModifier) */
    | StaticTagConstant(accessTag: int)

  /** ValueNode.stamp(). An integer stamp wider than 32 bits has stack kind Long;
      tag constants are given an int stamp (their encoding is not modelled). */
  function StampOf(v: Value): Stamp {
    match v
    case Opaque(_, s) => s
    case Reinterpret(k, _) => PrimitiveStamp(k)
    case ZeroExtend(_, bits) => PrimitiveStamp(if bits > 32 then Long else Int)
    case DefaultConstant(k) => if k == Object then ObjectStamp else PrimitiveStamp(k)
    case TagConstant(_) => PrimitiveStamp(Int)
    case StaticTagConstant(_) => PrimitiveStamp(Int)
  }

  /** ValueNode.getStackKind(). */
  function StackKindOf(v: Value): Kind {
    StampStackKind(StampOf(v))
  }

  predicate IsConversion(v: Value) {
    v.Reinterpret? || v.ZeroExtend?
  }

  /** The node under a chain of conversions: the value the conversions re-encode. */
  function Payload(v: Value): (p: Value)
    ensures !IsConversion(p)
    ensures !IsConversion(v) ==> p == v
  {
    match v
    case Reinterpret(_, x) => Payload(x)
    case ZeroExtend(x, _) => Payload(x)
    case _ => v
  }
}
