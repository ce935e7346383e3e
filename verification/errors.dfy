/**
 * Argument-range validation shared by every entry point of the mapping
 * library.  The compiled entry points declare their integer parameters as
 * C `unsigned int` (32 bits) or `unsigned short` (16 bits); converting a
 * Python integer that is negative or too large raises `OverflowError`
 * before the body runs, one parameter at a time, left to right.
 */
module Errors {

  const U32_MAX: int := 0xFFFF_FFFF
  const U16_MAX: int := 0xFFFF
  /** 2^32, the modulus of C `unsigned int` arithmetic. */
  const U32_MODULUS: int := 0x1_0000_0000

  type u32 = n: int | 0 <= n <= U32_MAX

  predicate IsU32(n: int) { 0 <= n <= U32_MAX }
  predicate IsU16(n: int) { 0 <= n <= U16_MAX }

  /** The keyword names of the parameters that can be out of range. */
  datatype Param = X | Y | Z | Width | Height | Depth | Offset | Index

  datatype Error =
    | OverflowError(param: Param)   // a negative or too large argument
    | ZeroDivisionError             // a zero width or depth used as a divisor

  datatype Result<T> = Success(value: T) | Failure(error: Error)

  datatype Option<T> = None | Some(value: T)

  /** One argument as converted at the call boundary: its name, its value, the largest value its C type holds. */
  datatype Arg = Arg(param: Param, value: int, max: nat)

  predicate Fits(a: Arg) { 0 <= a.value <= a.max }

  /**
   * The parameter whose conversion raises first, if any: arguments are
   * converted in declaration order, so the first one that does not fit wins.
   */
  function FirstOverflow(args: seq<Arg>): (r: Option<Param>)
    ensures r.None? <==> forall n :: 0 <= n < |args| ==> Fits(args[n])
    ensures r.Some? ==>
      exists n :: 0 <= n < |args| && args[n].param == r.value && !Fits(args[n]) &&
        forall m :: 0 <= m < n ==> Fits(args[m])
  {
    if |args| == 0 then None
    else if !Fits(args[0]) then Some(args[0].param)
    else
      var rest := FirstOverflow(args[1..]);
      assert forall n :: 1 <= n < |args| ==> args[n] == args[1..][n - 1];
      rest
  }
}
