/** PHPStan's three-valued logic: the answer to a type question is Yes, Maybe or No. */
module TrinaryLogic {

  /** `yes()` of the source is the discriminator `Yes?`; Maybe and No both fail it. */
  datatype Trinary = Yes | Maybe | No
}
