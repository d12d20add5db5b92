/**
 A small algebraic model of PHPStan types: the variants the array_flip extension and the
 `@var` rule look at, with the Type methods they call answered for each variant.
 */
module Types {
  import opened TrinaryLogic

  datatype Type =
    | IntegerT
    | StringT
    | FloatT
    | BoolT
    | NullT
    | MixedT
    | ErrorT
      /** `array<key, value>`; `nonEmpty` is the NonEmptyArrayType accessory */
    | ArrayT(key: Type, value: Type, nonEmpty: bool)
      /** `iterable<key, value>`, which may or may not be an array */
    | IterableT(key: Type, value: Type)
      /** a class name with its generic type arguments */
    | ObjectT(className: string, typeArgs: seq<Type>)

  /** `Type::isArray()` */
  function IsArray(t: Type): Trinary
  {
    match t
    case ArrayT(_, _, _) => Yes
    case IterableT(_, _) => Maybe
    case MixedT => Maybe
    case ErrorT => Maybe
    case _ => No
  }

  /** `Type::isIterableAtLeastOnce()`: only the non-empty accessory makes it certain. */
  function IsIterableAtLeastOnce(t: Type): Trinary
  {
    match t
    case ArrayT(_, _, nonEmpty) => if nonEmpty then Yes else Maybe
    case IterableT(_, _) => Maybe
    case MixedT => Maybe
    case ErrorT => Maybe
    case ObjectT(_, _) => Maybe
    case _ => No
  }

  /** `Type::getIterableKeyType()` */
  function IterableKeyType(t: Type): Type
  {
    match t
    case ArrayT(k, _, _) => k
    case IterableT(k, _) => k
    case MixedT => MixedT
    case ErrorT => MixedT
    case _ => ErrorT
  }

  /** `Type::getIterableValueType()` */
  function IterableValueType(t: Type): Type
  {
    match t
    case ArrayT(_, v, _) => v
    case IterableT(_, v) => v
    case MixedT => MixedT
    case ErrorT => MixedT
    case _ => ErrorT
  }

  /** `TypeCombinator::intersect(t, new NonEmptyArrayType())`, for an array type. */
  function IntersectNonEmpty(t: Type): (r: Type)
    requires t.ArrayT?
    ensures r.ArrayT? && r.key == t.key && r.value == t.value
    ensures IsIterableAtLeastOnce(r) == Yes
  {
    t.(nonEmpty := true)
  }

  /** `Type::getReferencedClasses()`: every class name the type mentions, left to right. */
  function ReferencedClasses(t: Type): seq<string>
  {
    match t
    case ArrayT(k, v, _) => ReferencedClasses(k) + ReferencedClasses(v)
    case IterableT(k, v) => ReferencedClasses(k) + ReferencedClasses(v)
    case ObjectT(c, args) => [c] + ReferencedClassesOfAll(args)
    case _ => []
  }

  function ReferencedClassesOfAll(ts: seq<Type>): seq<string>
  {
    if |ts| == 0 then [] else ReferencedClasses(ts[0]) + ReferencedClassesOfAll(ts[1..])
  }
}
