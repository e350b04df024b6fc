/** .NET runtime types as the converter sees them. */
module Clr {

  /**
   * A `System.Type`: its `FullName` and an identity that tells apart two
   * types with the same full name loaded from different assemblies.
   * `Type` equality is reference equality, so it compares both.
   */
  datatype ClrType = ClrType(fullName: string, id: nat)

  /** The identity of one `JsonConverter` instance, stored in a contract's `Converter` slot. */
  datatype ConverterRef = ConverterRef(id: nat)
}
