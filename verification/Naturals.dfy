/** The smaller and the larger of two numbers. */
module Naturals {
  function Min(x: nat, y: nat): nat {
    if x < y then x else y
  }

  function Max(x: nat, y: nat): nat {
    if x < y then y else x
  }
}
