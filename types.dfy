/** The structural type relation of the checker (Compilador/src/types/mod.rs). */
module Types {
  import opened Ast

  /** `TypeSystem::is_compatible`: matching constructors, recursively on array elements. */
  function IsCompatible(from: Type, to: Type): bool {
    match (from, to)
    case (Int, Int) => true
    case (Bool, Bool) => true
    case (String, String) => true
    case (Array(a), Array(b)) => IsCompatible(a, b)
    case (Void, Void) => true
    case _ => false
  }

  /** Compatibility is exactly structural equality of types. */
  lemma {:induction false} CompatibleIffEqual(a: Type, b: Type)
    ensures IsCompatible(a, b) <==> a == b
  {
    if a.Array? && b.Array? {
      CompatibleIffEqual(a.elem, b.elem);
    }
  }

  lemma {:induction false} CompatibleReflexive(t: Type)
    ensures IsCompatible(t, t)
  {
    CompatibleIffEqual(t, t);
  }

  lemma {:induction false} CompatibleSymmetric(a: Type, b: Type)
    ensures IsCompatible(a, b) == IsCompatible(b, a)
  {
    CompatibleIffEqual(a, b);
    CompatibleIffEqual(b, a);
  }

  /** `TypeSystem::is_comparable`: only equal scalar types (no arrays, no void). */
  function IsComparable(left: Type, right: Type): bool {
    match (left, right)
    case (Int, Int) => true
    case (Bool, Bool) => true
    case (String, String) => true
    case _ => false
  }

  lemma ComparableExactly(a: Type, b: Type)
    ensures IsComparable(a, b) <==> a == b && (a == Int || a == Bool || a == Type.String)
  {
  }

  lemma {:induction false} ComparableImpliesCompatible(a: Type, b: Type)
    ensures IsComparable(a, b) ==> IsCompatible(a, b)
  {
    CompatibleIffEqual(a, b);
  }

  /** `TypeSystem::get_default_value`: the textual default of a type. */
  function DefaultValue(t: Type): string {
    match t
    case Int => "0"
    case Bool => "0"
    case String => "\"\""
    case Array(_) => "[]"
    case Void => "void"
  }

  lemma DefaultValueZeroExactlyForScalars(t: Type)
    ensures DefaultValue(t) == "0" <==> t == Int || t == Bool
  {
  }
}
