/** The kinds of value the compiler distinguishes (JavaKind). Void and Illegal
    are left out: no frame-slot write carries them. */
module JavaKinds {

  datatype Kind = Boolean | Byte | Short | Char | Int | Float | Long | Double | Object

  /** JavaKind.isPrimitive: every kind here except Object. */
  predicate IsPrimitive(k: Kind) {
    k != Object
  }

  /** JavaKind.isNumericFloat. */
  predicate IsNumericFloat(k: Kind) {
    k == Float || k == Double
  }

  /** JavaKind.getStackKind: the sub-word integer kinds widen to Int on the stack. */
  function StackKind(k: Kind): (s: Kind)
    ensures IsPrimitive(s) == IsPrimitive(k)
    ensures IsNumericFloat(s) == IsNumericFloat(k)
    ensures s == Int || s == Long || s == Float || s == Double || s == Object
  {
    match k
    case Boolean | Byte | Short | Char => Int
    case _ => k
  }

  /** JavaKind.Long.getBitCount(). */
  const LongBitCount: nat := 64
}
