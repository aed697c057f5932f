// Small functions on numbers.
module Numbers {
  function Abs(x: real): real { if x < 0.0 then -x else x }

  function Max(a: real, b: real): real { if a >= b then a else b }

  function MaxNat(a: nat, b: nat): nat { if a >= b then a else b }
}
