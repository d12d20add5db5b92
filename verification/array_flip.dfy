/**
 The dynamic return-type extension for PHP's `array_flip`: for a call whose single argument
 is definitely an array, the inferred type swaps the roles of keys and values.
 */
module ArrayFlip {
  import opened TrinaryLogic
  import opened Types

  const ArrayFlipName := "array_flip"

  /**
   The parts of a function reflection the extension reads: its name and the return type
   of its single declared variant.
   */
  datatype FunctionReflection = FunctionReflection(name: string, declaredReturn: Type)

  /** A function call with its argument expressions, in order. */
  datatype FuncCall<E> = FuncCall(args: seq<E>)

  /** `isFunctionSupported`: the extension handles `array_flip` and nothing else. */
  function IsFunctionSupported(f: FunctionReflection): (supported: bool)
    ensures supported <==> f.name == ArrayFlipName
  {
    f.name == ArrayFlipName
  }

  /**
   `getTypeFromFunctionCall`. The scope's expression typing is `typeOf`, and the static
   `ArrayType::castToArrayKeyType` is `castKey`.
   */
  function GetTypeFromFunctionCall<E>(f: FunctionReflection, call: FuncCall<E>,
                                      typeOf: E -> Type, castKey: Type -> Type): (r: Type)
    ensures |call.args| != 1 ==> r == f.declaredReturn
    ensures |call.args| == 1 && !IsArray(typeOf(call.args[0])).Yes? ==> r == f.declaredReturn
    ensures |call.args| == 1 && IsArray(typeOf(call.args[0])).Yes? ==>
              && r.ArrayT?
              && r.key == castKey(IterableValueType(typeOf(call.args[0])))
              && r.value == IterableKeyType(typeOf(call.args[0]))
              && (r.nonEmpty <==> IsIterableAtLeastOnce(typeOf(call.args[0])).Yes?)
  {
    if |call.args| != 1 then
      f.declaredReturn
    else
      var argType := typeOf(call.args[0]);
      if IsArray(argType).Yes? then
        var keyType := IterableKeyType(argType);
        var itemType := castKey(IterableValueType(argType));
        var flipped := ArrayT(itemType, keyType, false);
        if IsIterableAtLeastOnce(argType).Yes? then IntersectNonEmpty(flipped) else flipped
      else
        f.declaredReturn
  }

  /**
   The inferred type depends on nothing but the argument count, the type of the one
   argument and the declared return type: two scopes that agree on that argument's type
   (and any two scopes at all when the count is not one) give the same answer.
   */
  lemma FlipDependsOnlyOnArgumentType<E>(f: FunctionReflection, call: FuncCall<E>,
                                         typeOf1: E -> Type, typeOf2: E -> Type,
                                         castKey: Type -> Type)
    requires |call.args| == 1 ==> typeOf1(call.args[0]) == typeOf2(call.args[0])
    ensures GetTypeFromFunctionCall(f, call, typeOf1, castKey)
         == GetTypeFromFunctionCall(f, call, typeOf2, castKey)
  {
  }

  /**
   For an argument that is certainly an array, the flipped type is certainly an array, and
   the non-empty accessory carries over only from a definite Yes: a source that is surely
   non-empty flips to a surely non-empty array, and one that may be (or surely is) empty
   flips to a plain array, which may be empty.
   */
  lemma FlipKeepsNonEmptiness<E>(f: FunctionReflection, e: E, typeOf: E -> Type,
                                 castKey: Type -> Type)
    requires IsArray(typeOf(e)) == Yes
    ensures IsArray(GetTypeFromFunctionCall(f, FuncCall([e]), typeOf, castKey)) == Yes
    ensures IsIterableAtLeastOnce(GetTypeFromFunctionCall(f, FuncCall([e]), typeOf, castKey))
         == (if IsIterableAtLeastOnce(typeOf(e)) == Yes then Yes else Maybe)
  {
  }

  /**
   Flipping twice gives back the original key and value roles, each passed through the
   key cast once, with the non-empty accessory preserved.
   */
  lemma FlipTwice<E>(f: FunctionReflection, e1: E, e2: E, typeOf: E -> Type,
                     castKey: Type -> Type, k: Type, v: Type, nonEmpty: bool)
    requires typeOf(e1) == ArrayT(k, v, nonEmpty)
    requires typeOf(e2) == GetTypeFromFunctionCall(f, FuncCall([e1]), typeOf, castKey)
    ensures GetTypeFromFunctionCall(f, FuncCall([e2]), typeOf, castKey)
         == ArrayT(castKey(k), castKey(v), nonEmpty)
  {
  }

  /**
   The concrete scenario: an array of `string => int` flips to an array of `int => string`
   when the key cast leaves `int` alone, non-empty exactly when the source was.
   */
  lemma FlipStringToIntScenario<E>(f: FunctionReflection, e: E, typeOf: E -> Type,
                                   castKey: Type -> Type, nonEmpty: bool)
    requires typeOf(e) == ArrayT(StringT, IntegerT, nonEmpty)
    requires castKey(IntegerT) == IntegerT
    ensures GetTypeFromFunctionCall(f, FuncCall([e]), typeOf, castKey)
         == ArrayT(IntegerT, StringT, nonEmpty)
  {
  }
}
