/** Shared by every module. */
module Basics {
  datatype Option<+T> = None | Some(value: T)

  /** Largest machine word; additions that would pass it stop there. */
  const MAX: nat := 0xFFFF_FFFF_FFFF_FFFF

  function Saturating(a: nat, b: nat): nat { if a + b <= MAX then a + b else MAX }
}
